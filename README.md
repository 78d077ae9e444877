# Farmer–officer client: verified model of its local logic

The client connects farmers with horticulture officers. Almost all of it is
presentation and HTTP/OAuth glue. This project models the three pieces that
hold logic of their own, and proves what they promise:

- **Officer query console** (`OfficerDashboard`). It keeps a list of farmer
  queries, each with a status, an urgency and an optional list of replies. The
  officer can:
  - narrow the list by status and by a case-insensitive search over the query
    text and the farmer's name;
  - send a reply to one query, which appends the reply and marks the query
    "answered";
  - read three counters (pending, answered, high priority) and two colour
    badges.

  The console is a class over a `seq` of queries and two maps: draft reply text
  per query, and a "sending" flag per query.
- **Query submission form** (`QuerySubmission`). The form holds its fields and
  error messages as string-keyed maps, plus an optional selected image and its
  preview handle. It covers:
  - the image gate: at most 5 MiB and a MIME type starting with `image/`, with
    size checked first;
  - per-field edits that clear only that field's error;
  - validation: a trimmed description of at least 10 characters and a
    non-blank crop;
  - the submit gate;
  - the submit button's enable rule;
  - the summary line.
- **Localisation** (`Language`). It models:
  - a static table of three languages, each built the way a JavaScript object
    literal is built (a repeated key keeps its last value);
  - a lookup that falls back from the current language to English and then to
    the key itself;
  - the provider that holds the current language and mirrors it into the
    stored preference;
  - the hook guard.

Shared string operations are in `Text`:
- `trim`, with the ECMAScript whitespace set;
- ASCII lower-casing;
- `includes`;
- `startsWith`.

`Wrappers` holds `Option` and `Result`.

Two things the code does that are easy to miss, and that the model follows:
- Status and urgency are free strings, not a closed set. The colour badges
  therefore have a gray default.
- Validation ignores the attachment. A form with an image but a blank
  description is still refused.

## Model

| member | source | states |
|---|---|---|
| Text.Trim | src/components/QuerySubmissionForm.jsx:104 | the trimmed text is no longer than the input and neither starts nor ends with whitespace |
| Text.TrimIsInfix | src/components/QuerySubmissionForm.jsx:104-110 | the trimmed text is the infix of the input left after removing the leading and trailing whitespace, and everything removed is whitespace |
| Text.TrimEmptyIff | src/components/Dashboard/OfficerDashboard.jsx:124-125 | a string trims to "" exactly when it is all whitespace (the blank-input test used by the reply guard, validation and the submit button) |
| Text.Lower | src/components/Dashboard/OfficerDashboard.jsx:118-119 | lower-casing keeps the length and folds each ASCII capital to its small letter |
| Text.LowerIdempotent | src/components/Dashboard/OfficerDashboard.jsx:118-119 | lower-casing twice equals lower-casing once, and leaves no ASCII capital |
| Text.Includes | src/components/Dashboard/OfficerDashboard.jsx:118-119 | the left-to-right `includes` scan succeeds exactly when the term occurs at some index of the text (the empty term included) |
| Text.StartsWith | src/components/QuerySubmissionForm.jsx:82 | `startsWith` holds exactly when the prefix is no longer than the text and agrees with it character by character |
| OfficerDashboard.FilterQueries | src/components/Dashboard/OfficerDashboard.jsx:116-121 | a query is listed iff it is in the list and passes both the status test ("all" or equal status) and the search; the listing is an order-preserving subsequence of the list; each shown query occurs in it as often as in the list, and a hidden one not at all |
| OfficerDashboard.FilterAllEmptyIsIdentity | src/components/Dashboard/OfficerDashboard.jsx:116-121 | with filter "all" and an empty search term the listing equals the whole list |
| OfficerDashboard.SearchIgnoresTermCase | src/components/Dashboard/OfficerDashboard.jsx:118-119 | searching for a term and for its lower-cased form gives the same verdict |
| OfficerDashboard.Count | src/components/Dashboard/OfficerDashboard.jsx:174-176 | the number of queries holding a value in the status or urgency column is at most the list length, and is zero exactly when no query holds it |
| OfficerDashboard.PendingCount | src/components/Dashboard/OfficerDashboard.jsx:174 | the pending counter is zero exactly when no query is pending |
| OfficerDashboard.AnsweredCount | src/components/Dashboard/OfficerDashboard.jsx:175 | the answered counter is zero exactly when no query is answered |
| OfficerDashboard.HighPriorityCount | src/components/Dashboard/OfficerDashboard.jsx:176 | the high-priority counter is zero exactly when no query has urgency high |
| OfficerDashboard.CountersBounded | src/components/Dashboard/OfficerDashboard.jsx:174-176 | pending + answered never exceeds the number of queries, nor does the high-priority count |
| OfficerDashboard.FilterByStatusMatchesCounter | src/components/Dashboard/OfficerDashboard.jsx:174-175 | selecting a status with an empty search lists exactly as many queries as that status's counter shows |
| OfficerDashboard.DraftText | src/components/Dashboard/OfficerDashboard.jsx:124-125 | a reply is attempted exactly when the draft exists and is not all whitespace; the text sent is the trimmed draft, never empty |
| OfficerDashboard.NewReply | src/components/Dashboard/OfficerDashboard.jsx:132-138 | the reply is signed with the fixed officer id officer_001 and name, carries the sent text, and takes its id and timestamp from the clock |
| OfficerDashboard.Answered | src/components/Dashboard/OfficerDashboard.jsx:143-147 | the answered query's replies are its old replies (none if absent) followed by the new reply; its status is "answered"; every other field is unchanged |
| OfficerDashboard.WithReply | src/components/Dashboard/OfficerDashboard.jsx:140-150 | the list keeps its length and order; each query with the target id is answered; every other query is left exactly as it was |
| OfficerDashboard.WithReplyAbsentId | src/components/Dashboard/OfficerDashboard.jsx:140-149 | a reply to an id not in the list leaves the list unchanged |
| OfficerDashboard.ReplyAtHead | src/components/Dashboard/OfficerDashboard.jsx:140-150 | replying to the first query, whose id no later query carries, takes it out of its old status count and into the answered count |
| OfficerDashboard.ReplyCountStatus | src/components/Dashboard/OfficerDashboard.jsx:140-150 | when only the query at index k carries the id, a reply lowers the count of its old status by one, raises the answered count by one, and leaves every other status count alone |
| OfficerDashboard.ReplyKeepsUrgency | src/components/Dashboard/OfficerDashboard.jsx:140-150 | a reply changes no urgency count |
| OfficerDashboard.ReplyShiftsCounters | src/components/Dashboard/OfficerDashboard.jsx:140-150 | with unique ids, a reply to the query at index k removes it from the pending count if it was pending, adds it to the answered count if it was not answered, and keeps the high-priority count |
| OfficerDashboard.ReplyToPendingMovesCounters | src/components/Dashboard/OfficerDashboard.jsx:174-175 | with unique ids, replying to a pending query lowers pending by one and raises answered by one |
| OfficerDashboard.StatusColor | src/components/Dashboard/OfficerDashboard.jsx:156-163 | the status badge is the gray default exactly for statuses other than pending, answered and in_progress |
| OfficerDashboard.UrgencyColor | src/components/Dashboard/OfficerDashboard.jsx:165-172 | the urgency badge is the gray default exactly for urgencies other than high, medium and low |
| OfficerDashboard.StatusColorDistinct | src/components/Dashboard/OfficerDashboard.jsx:156-163 | pending, answered and in_progress each get a badge no other status shares |
| OfficerDashboard.UrgencyColorDistinct | src/components/Dashboard/OfficerDashboard.jsx:165-172 | high, medium and low each get a badge no other urgency shares |
| OfficerDashboard.OfficerConsole.constructor | src/components/Dashboard/OfficerDashboard.jsx:109-113 | the console starts on the seed list, with no drafts, no sending flags, status filter "all" and an empty search |
| OfficerDashboard.OfficerConsole.CanSend | src/components/Dashboard/OfficerDashboard.jsx:390 | the send button is enabled exactly when the query has a draft that is not all whitespace and no reply to it is being sent |
| OfficerDashboard.OfficerConsole.FilteredQueries | src/components/Dashboard/OfficerDashboard.jsx:116-121 | the console lists exactly the queries passing its filter and search; with "all" and no search it lists every query, and with a status and no search it lists as many as that status's counter shows |
| OfficerDashboard.OfficerConsole.SetFilter | src/components/Dashboard/OfficerDashboard.jsx:243 | the status selector sets the filter to the chosen value |
| OfficerDashboard.OfficerConsole.SetSearchTerm | src/components/Dashboard/OfficerDashboard.jsx:257 | the search box sets the term to the typed value |
| OfficerDashboard.OfficerConsole.EditReply | src/components/Dashboard/OfficerDashboard.jsx:386 | editing a reply box changes that query's draft only |
| OfficerDashboard.OfficerConsole.SubmitReply | src/components/Dashboard/OfficerDashboard.jsx:123-154 | a missing or blank draft changes nothing. Otherwise: the queries become the list with the trimmed-draft reply applied (officer_001, given id and timestamp); that query's draft becomes ""; its sending flag becomes false; all other drafts and flags are unchanged |
| QuerySubmission.CheckImage | src/components/QuerySubmissionForm.jsx:76-85 | too large iff size > 5·1024·1024 whatever the type; not an image iff size is within the limit and the type does not start with "image/"; accepted iff both checks pass |
| QuerySubmission.ImageLimits | src/components/QuerySubmissionForm.jsx:76 | exactly 5 MiB is accepted; one byte more is too large, even for a non-image; a small non-image is rejected as not an image |
| QuerySubmission.FormErrors | src/components/QuerySubmissionForm.jsx:101-116 | errors are reported only for query_text and crop_type, all non-empty. There are none iff the trimmed description has at least 10 characters and the trimmed crop is non-empty. query_text has an error iff the trimmed description is shorter than 10; crop_type has one iff the trimmed crop is empty |
| QuerySubmission.DescriptionMessages | src/components/QuerySubmissionForm.jsx:104-108 | the "describe your farming issue" message appears exactly for an all-whitespace description; the "at least 10 characters" message appears exactly for 1 to 9 trimmed characters |
| QuerySubmission.SubmitEnabled | src/components/QuerySubmissionForm.jsx:437 | the submit button is enabled exactly when nothing is being submitted and neither the description nor the crop is all whitespace |
| QuerySubmission.ValidFormEnablesSubmit | src/components/QuerySubmissionForm.jsx:437 | every form validation accepts has an enabled submit button when nothing is being submitted |
| QuerySubmission.SubmitEnabledWeakerThanValidation | src/components/QuerySubmissionForm.jsx:437 | a short one-word description with a one-word crop enables the button and is still refused by validation: the button has no 10-character rule |
| QuerySubmission.SummaryDescription | src/components/QuerySubmissionForm.jsx:428 | text of at most 100 characters is shown whole; longer text is cut to its first 100 characters followed by "..."; the shown line always begins with those characters |
| QuerySubmission.QueryForm.constructor | src/components/QuerySubmissionForm.jsx:21-33 | the form opens with every field empty except urgency "medium", no image, no preview and no errors |
| QuerySubmission.QueryForm.InputChange | src/components/QuerySubmissionForm.jsx:64-70 | only the edited field takes the new value; its error is cleared only if one was shown; other errors stay; a valid urgency stays valid unless urgency is set to something else |
| QuerySubmission.QueryForm.SelectUrgency | src/components/QuerySubmissionForm.jsx:291 | the priority buttons set urgency to low, medium or high, so urgency stays one of the three; an urgency error, if shown, is cleared and every other error stays |
| QuerySubmission.QueryForm.ImageSelect | src/components/QuerySubmissionForm.jsx:72-91 | no file changes nothing. A rejected file sets only the image error (the size message if too large, the type message otherwise) and keeps the image and preview. An accepted file becomes the selected image with its preview, and the image error is cleared |
| QuerySubmission.QueryForm.RemoveImage | src/components/QuerySubmissionForm.jsx:93-99 | the selected image and its preview are cleared |
| QuerySubmission.QueryForm.ValidateForm | src/components/QuerySubmissionForm.jsx:101-116 | the shown errors are replaced by exactly the validation errors, and the result is true iff the validation rule holds |
| QuerySubmission.QueryForm.Submit | src/components/QuerySubmissionForm.jsx:118-130 | the caller receives a payload iff validation passes; the payload is the form fields with the current image and preview |
| QuerySubmission.QueryForm.CanSubmit | src/components/QuerySubmissionForm.jsx:437 | the form's button is enabled exactly when nothing is being submitted and neither its description nor its crop is all whitespace; when enabled, validation can only complain that the description is too short |
| QuerySubmission.QueryForm.Summary | src/components/QuerySubmissionForm.jsx:415-428 | the summary is shown exactly when the description is not all whitespace, and its line is the untrimmed description cut at 100 characters (with "..." when longer) |
| Language.ObjectLiteral | src/context/LanguageContext.jsx:6-294 | the object built from a non-empty literal holds the last entry's key with the last entry's value |
| Language.ObjectLiteralValues | src/context/LanguageContext.jsx:6-294 | every value the object holds was written in the literal for that key |
| Language.WrittenIffKey | src/context/LanguageContext.jsx:6-294 | a key is a key of the object exactly when the literal writes it |
| Language.ObjectLiteralKeys | src/context/LanguageContext.jsx:6-294 | the keys of a table are exactly the keys written in its literal |
| Language.LastEntryWins | src/context/LanguageContext.jsx:22-45 | an entry that no later entry with the same key overrides gives that key's value |
| Language.ExpertOfficersLaterWins | src/context/LanguageContext.jsx:22-45 | in every language the repeated key expertOfficers resolves to its second value ("Expert horticulture officers" in English) |
| Language.TableValuesNonEmpty | src/context/LanguageContext.jsx:6-294 | no string written in the table is empty, so a written key never falls through to English |
| Language.LookupInLiteral | src/context/LanguageContext.jsx:308 | in a table built from an object literal with non-empty values, a lookup hits exactly when the literal writes the key, and finds a string written for it |
| Language.TranslationsLookup | src/context/LanguageContext.jsx:308 | looking a key up in the table hits exactly when the language is en, hi or te and that language's literal writes the key; the string found is one written for that key |
| Language.Resolve | src/context/LanguageContext.jsx:307-309 | the translation is the key, or the current language's string for it, or the English string for it; it is never empty for a non-empty key |
| Language.TranslateFallback | src/context/LanguageContext.jsx:307-309 | the current language's value wins when present. Otherwise the result is the English translation, and the key itself when English also lacks it. A non-empty key never translates to "" |
| Language.TranslateInEnglish | src/context/LanguageContext.jsx:308 | in English, translation is the English value if present and non-empty, otherwise the key |
| Language.TranslateExamples | src/context/LanguageContext.jsx:307-309 | on the table, expertOfficers resolves in English to its later value, and an unknown language ("fr") falls back to English ("Home") |
| Language.UnwrittenKeyComesBack | src/context/LanguageContext.jsx:308 | a key that none of en, hi and te writes comes back unchanged in every language |
| Language.InitialLanguage | src/context/LanguageContext.jsx:297-300 | the initial language is the stored preference when present and non-empty, otherwise "en"; it is never empty |
| Language.TableLanguages | src/context/LanguageContext.jsx:6-294 | the table holds exactly the languages en, hi and te |
| Language.OfferedCodes | src/context/LanguageContext.jsx:319-323 | the offered language codes are exactly en, hi and te, one option each |
| Language.AvailableLanguagesMatchTable | src/context/LanguageContext.jsx:319-323 | the offered language codes are exactly the table's languages, each offered once |
| Language.UseLanguage | src/context/LanguageContext.jsx:333-338 | reading the context succeeds iff a provider supplies one and returns it; outside a provider it fails with the hook's error message |
| Language.LanguageProvider.constructor | src/context/LanguageContext.jsx:297-305 | the provider starts in the initial language chosen from the stored preference, and the preference then mirrors it |
| Language.LanguageProvider.Translate | src/context/LanguageContext.jsx:307-309 | the provider's translate returns a string written for the key in its current language or in English, or else the key; never "" for a non-empty key |
| Language.LanguageProvider.Context | src/context/LanguageContext.jsx:315-324 | the context value carries the provider's language and the three offered languages, whose codes are exactly the table's languages |
| Language.LanguageProvider.ChangeLanguage | src/context/LanguageContext.jsx:311-313 | the language becomes exactly the given code, with no check against the table, and the stored preference mirrors it |
| Language.ChoiceSurvivesReload | src/context/LanguageContext.jsx:297-313 | after a provider changes to a non-empty language, a provider mounted afresh on the stored preference starts in that language, and both keep the preference mirrored |

## Left out

- Network, authentication and storage plumbing: HTTP calls, OAuth sign-in and
  officer passkey login are external I/O with no local logic. Browser storage
  is one abstract field, `storedPreference`.
- The one-second simulated delay before a reply is applied is not modelled.
  Nor is the re-entrancy it opens: a second send while the first is pending,
  with spreads over a stale `isReplying`. The console is modelled sequentially.
- The clock is passed in as parameters: the reply id (`Date.now()`) and its
  ISO timestamp. So is the preview object URL (`URL.createObjectURL`). The
  file input's reset in `removeImage` is left out.
- The seed list of four sample queries is a constructor parameter and is not
  transcribed.
- Lower-casing is ASCII only. Full Unicode `toLowerCase` (for example for
  Devanagari or accented names) is not modelled.
- String lengths count Unicode code points, where JavaScript counts UTF-16
  code units. A description with characters outside the Basic Multilingual
  Plane counts differently toward the 10-character rule and the 100-character
  summary cut.
- Only nine of the about 80 entries per language are transcribed: `home`,
  `expertOfficers`, `queriesResolved`, `expertOfficers` again, `submitQuery`,
  `officerDashboard`, `pendingQueries`, `highPriority` and `cancel`. The
  repeated `expertOfficers` entry is kept so that the later-value rule shows.
- Lookups that reach through the JavaScript prototype chain are not modelled.
  An example is a language code such as `constructor`.
- The provider persists the language as soon as it changes. In the browser
  the effect runs after the next render.
- Presentational parts are left out: the summary panel's crop, priority,
  location and duration lines, icons, animation and the MB size display.
