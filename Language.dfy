/** Localisation: a static table of three languages, each a key-to-string
    object, a lookup that falls back from the current language to English and
    then to the key itself, and the provider that holds the current language
    and mirrors it into the stored preference. */
module Language {
  import opened Wrappers

  type Strings = map<string, string>
  type Tables = map<string, Strings>

  const EN := "en"
  const HI := "hi"
  const TE := "te"

  // ---------------------------------------------------------------------------
  // Object literals

  /** `key` is written somewhere in the literal. */
  ghost predicate Written(entries: seq<(string, string)>, key: string) {
    exists i :: 0 <= i < |entries| && entries[i].0 == key
  }

  /** The object an object literal builds from its entries, read in source
      order: a key written twice keeps the value written last, so the last
      entry always holds. */
  function ObjectLiteral(entries: seq<(string, string)>): (m: Strings)
    ensures entries != [] ==> entries[|entries| - 1].0 in m && m[entries[|entries| - 1].0] == entries[|entries| - 1].1
    decreases |entries|
  {
    if entries == [] then map[]
    else
      var last := entries[|entries| - 1];
      ObjectLiteral(entries[..|entries| - 1])[last.0 := last.1]
  }

  /** The object's keys are the keys written in the literal. */
  lemma {:induction false} ObjectLiteralKeys(entries: seq<(string, string)>)
    ensures ObjectLiteral(entries).Keys == set e | e in entries :: e.0
    decreases |entries|
  {
    if entries != [] {
      var init := entries[..|entries| - 1];
      ObjectLiteralKeys(init);
      assert entries == init + [entries[|entries| - 1]];
    }
  }

  /** Every value the object holds was written in the literal for that key. */
  lemma {:induction false} ObjectLiteralValues(entries: seq<(string, string)>, key: string)
    requires key in ObjectLiteral(entries)
    ensures exists i :: 0 <= i < |entries| && entries[i] == (key, ObjectLiteral(entries)[key])
    decreases |entries|
  {
    var last := entries[|entries| - 1];
    if key != last.0 {
      var init := entries[..|entries| - 1];
      ObjectLiteralValues(init, key);
      var i :| 0 <= i < |init| && init[i] == (key, ObjectLiteral(init)[key]);
      assert entries[i] == init[i];
    }
  }

  /** A key is a key of the object exactly when the literal writes it. */
  lemma WrittenIffKey(entries: seq<(string, string)>, key: string)
    ensures key in ObjectLiteral(entries) <==> Written(entries, key)
  {
    ObjectLiteralKeys(entries);
    if Written(entries, key) {
      var i :| 0 <= i < |entries| && entries[i].0 == key;
      assert entries[i] in entries;
    }
  }

  /** An entry that no later entry overrides gives its key's value. */
  lemma {:induction false} LastEntryWins(entries: seq<(string, string)>, i: int)
    requires 0 <= i < |entries|
    requires forall j :: i < j < |entries| ==> entries[j].0 != entries[i].0
    ensures entries[i].0 in ObjectLiteral(entries)
    ensures ObjectLiteral(entries)[entries[i].0] == entries[i].1
    decreases |entries|
  {
    if i < |entries| - 1 {
      var init := entries[..|entries| - 1];
      assert init[i] == entries[i];
      LastEntryWins(init, i);
    }
  }

  // ---------------------------------------------------------------------------
  // The table (a representative selection of its keys, in source order)

  const EN_ENTRIES: seq<(string, string)> := [
    ("home", "Home"),
    ("expertOfficers", "Expert Officers"),
    ("queriesResolved", "Queries Resolved"),
    ("expertOfficers", "Expert horticulture officers"),
    ("submitQuery", "Submit Query"),
    ("officerDashboard", "Officer Dashboard"),
    ("pendingQueries", "Pending Queries"),
    ("highPriority", "High Priority"),
    ("cancel", "Cancel")]

  const HI_ENTRIES: seq<(string, string)> := [
    ("home", "होम"),
    ("expertOfficers", "विशेषज्ञ अधिकारी"),
    ("queriesResolved", "हल की गई समस्याएं"),
    ("expertOfficers", "विशेषज्ञ बागवानी अधिकारी"),
    ("submitQuery", "प्रश्न जमा करें"),
    ("officerDashboard", "अधिकारी डैशबोर्ड"),
    ("pendingQueries", "लंबित प्रश्न"),
    ("highPriority", "उच्च प्राथमिकता"),
    ("cancel", "रद्द करें")]

  const TE_ENTRIES: seq<(string, string)> := [
    ("home", "హోమ్"),
    ("expertOfficers", "నిపుణ అధికారులు"),
    ("queriesResolved", "పరిష్కరించబడిన ప్రశ్నలు"),
    ("expertOfficers", "నిపుణ వ్యవసాయ అధికారులు"),
    ("submitQuery", "ప్రశ్న సమర్పించండి"),
    ("officerDashboard", "అధికారి డ్యాష్‌బోర్డ్"),
    ("pendingQueries", "పెండింగ్ ప్రశ్నలు"),
    ("highPriority", "అధిక ప్రాధాన్యత"),
    ("cancel", "రద్దు చేయండి")]

  const EN_STRINGS: Strings := ObjectLiteral(EN_ENTRIES)
  const HI_STRINGS: Strings := ObjectLiteral(HI_ENTRIES)
  const TE_STRINGS: Strings := ObjectLiteral(TE_ENTRIES)

  const TRANSLATIONS: Tables := map[EN := EN_STRINGS, HI := HI_STRINGS, TE := TE_STRINGS]

  /** "expertOfficers" appears twice in every language; the second value is the
      one the table holds. */
  lemma ExpertOfficersLaterWins()
    ensures "expertOfficers" in EN_STRINGS && EN_STRINGS["expertOfficers"] == "Expert horticulture officers"
    ensures "expertOfficers" in HI_STRINGS && HI_STRINGS["expertOfficers"] == "विशेषज्ञ बागवानी अधिकारी"
    ensures "expertOfficers" in TE_STRINGS && TE_STRINGS["expertOfficers"] == "నిపుణ వ్యవసాయ అధికారులు"
  {
    assert "expertOfficers" in EN_STRINGS && EN_STRINGS["expertOfficers"] == "Expert horticulture officers" by {
      LastEntryWins(EN_ENTRIES, 3);
    }
    assert "expertOfficers" in HI_STRINGS && HI_STRINGS["expertOfficers"] == "विशेषज्ञ बागवानी अधिकारी" by {
      LastEntryWins(HI_ENTRIES, 3);
    }
    assert "expertOfficers" in TE_STRINGS && TE_STRINGS["expertOfficers"] == "నిపుణ వ్యవసాయ అధికారులు" by {
      LastEntryWins(TE_ENTRIES, 3);
    }
  }

  // ---------------------------------------------------------------------------
  // Lookup

  /** `tables[language]?.[key]` read as a truth value: missing languages,
      missing keys and empty strings all count as absent. */
  function Lookup(tables: Tables, language: string, key: string): (v: Option<string>)
    ensures v.Some? <==> language in tables && key in tables[language] && tables[language][key] != ""
    ensures v.Some? ==> v.value == tables[language][key]
  {
    if language in tables && key in tables[language] && tables[language][key] != "" then
      Some(tables[language][key])
    else None
  }

  /** The current language's string, else the English one, else the key: the
      result is the key or a string one of those two languages holds for it,
      and never empty for a non-empty key. */
  function Resolve(tables: Tables, language: string, key: string): (r: string)
    ensures key != "" ==> r != ""
    ensures || r == key
            || (language in tables && key in tables[language] && tables[language][key] == r)
            || (EN in tables && key in tables[EN] && tables[EN][key] == r)
  {
    match Lookup(tables, language, key)
    case Some(s) => s
    case None =>
      match Lookup(tables, EN, key)
      case Some(s) => s
      case None => key
  }

  /** What translation returns, case by case: the current language wins when
      it has a non-empty string, English is consulted only otherwise, and the
      key comes back only when neither has one. The result is never empty for
      a non-empty key. */
  lemma TranslateFallback(tables: Tables, language: string, key: string)
    ensures Lookup(tables, language, key).Some? ==>
      Resolve(tables, language, key) == tables[language][key]
    ensures Lookup(tables, language, key).None? ==>
      Resolve(tables, language, key) == Resolve(tables, EN, key)
    ensures Lookup(tables, language, key).None? && Lookup(tables, EN, key).None? ==>
      Resolve(tables, language, key) == key
    ensures key != "" ==> Resolve(tables, language, key) != ""
  {
  }

  /** In English the lookup is the English string if there is one, else the key. */
  lemma TranslateInEnglish(tables: Tables, key: string)
    ensures Resolve(tables, EN, key)
         == if EN in tables && key in tables[EN] && tables[EN][key] != "" then tables[EN][key] else key
  {
  }

  /** The table, read through translation: a duplicate key yields its later
      value, and an unknown language falls back to English. */
  lemma TranslateExamples()
    ensures Resolve(TRANSLATIONS, EN, "expertOfficers") == "Expert horticulture officers"
    ensures Resolve(TRANSLATIONS, "fr", "home") == "Home"
  {
    ExpertOfficersLaterWins();
    LastEntryWins(EN_ENTRIES, 0);
  }

  /** A key written in no language comes back unchanged, whatever the language. */
  lemma UnwrittenKeyComesBack(language: string, key: string)
    requires !Written(EN_ENTRIES, key) && !Written(HI_ENTRIES, key) && !Written(TE_ENTRIES, key)
    ensures Resolve(TRANSLATIONS, language, key) == key
  {
    assert key !in EN_STRINGS by { WrittenIffKey(EN_ENTRIES, key); }
    assert key !in HI_STRINGS by { WrittenIffKey(HI_ENTRIES, key); }
    assert key !in TE_STRINGS by { WrittenIffKey(TE_ENTRIES, key); }
  }

  /** The entries each language of the table is written with; none for a
      language the table lacks. */
  function EntriesOf(language: string): seq<(string, string)> {
    if language == EN then EN_ENTRIES
    else if language == HI then HI_ENTRIES
    else if language == TE then TE_ENTRIES
    else []
  }

  /** No string of the table is empty. */
  lemma TableValuesNonEmpty(language: string)
    ensures forall i :: 0 <= i < |EntriesOf(language)| ==> EntriesOf(language)[i].1 != ""
  {
  }

  /** A lookup in a language built from a literal with no empty strings hits
      exactly when the literal writes the key, and finds a string written for
      it. */
  lemma LookupInLiteral(tables: Tables, language: string, entries: seq<(string, string)>, key: string)
    requires language in tables && tables[language] == ObjectLiteral(entries)
    requires forall i :: 0 <= i < |entries| ==> entries[i].1 != ""
    ensures Lookup(tables, language, key).Some? <==> Written(entries, key)
    ensures Lookup(tables, language, key).Some? ==>
      exists i :: 0 <= i < |entries| && entries[i] == (key, Lookup(tables, language, key).value)
  {
    WrittenIffKey(entries, key);
    if key in ObjectLiteral(entries) {
      ObjectLiteralValues(entries, key);
    }
  }

  /** Looking a key up in the table hits exactly when the language is one of
      the three and its literal writes the key; the string found is one
      written for that key. */
  lemma TranslationsLookup(language: string, key: string)
    ensures Lookup(TRANSLATIONS, language, key).Some?
        <==> language in {EN, HI, TE} && Written(EntriesOf(language), key)
    ensures Lookup(TRANSLATIONS, language, key).Some? ==>
      exists i :: 0 <= i < |EntriesOf(language)|
               && EntriesOf(language)[i] == (key, Lookup(TRANSLATIONS, language, key).value)
  {
    TableLanguages();
    if language in {EN, HI, TE} {
      TableValuesNonEmpty(language);
      LookupInLiteral(TRANSLATIONS, language, EntriesOf(language), key);
    }
  }

  // ---------------------------------------------------------------------------
  // Provider

  /** `stored || 'en'`: a stored preference is used unless it is absent or empty. */
  function InitialLanguage(stored: Option<string>): (language: string)
    ensures language != ""
    ensures stored.Some? && stored.value != "" ==> language == stored.value
    ensures stored.None? || stored.value == "" ==> language == EN
  {
    match stored
    case Some(s) => if s != "" then s else EN
    case None => EN
  }

  datatype LanguageOption = LanguageOption(code: string, name: string, flag: string)

  const AVAILABLE_LANGUAGES: seq<LanguageOption> := [
    LanguageOption(EN, "English", "🇺🇸"),
    LanguageOption(HI, "हिंदी", "🇮🇳"),
    LanguageOption(TE, "తెలుగు", "🇮🇳")]

  /** The table holds exactly three languages. */
  lemma TableLanguages()
    ensures TRANSLATIONS.Keys == {EN, HI, TE}
    ensures |TRANSLATIONS| == 3
  {
    assert TRANSLATIONS.Keys == {EN, HI, TE};
  }

  /** The languages offered to the user are exactly those the table holds,
      each offered once. */
  lemma AvailableLanguagesMatchTable()
    ensures (set o | o in AVAILABLE_LANGUAGES :: o.code) == TRANSLATIONS.Keys
    ensures |AVAILABLE_LANGUAGES| == |TRANSLATIONS|
  {
    TableLanguages();
    OfferedCodes();
  }

  lemma OfferedCodes()
    ensures (set o | o in AVAILABLE_LANGUAGES :: o.code) == {EN, HI, TE}
    ensures |AVAILABLE_LANGUAGES| == 3
  {
    var codes := set o | o in AVAILABLE_LANGUAGES :: o.code;
    assert AVAILABLE_LANGUAGES[0].code in codes;
    assert AVAILABLE_LANGUAGES[1].code in codes;
    assert AVAILABLE_LANGUAGES[2].code in codes;
  }

  /** What the provider hands to its descendants. */
  datatype ContextValue = ContextValue(language: string, availableLanguages: seq<LanguageOption>)

  const OUTSIDE_PROVIDER := "useLanguage must be used within a LanguageProvider"

  /** Reading the context outside a provider is an error. */
  function UseLanguage(context: Option<ContextValue>): (r: Result<ContextValue, string>)
    ensures r.Ok? <==> context.Some?
    ensures r.Ok? ==> r.value == context.value
    ensures r.Err? ==> r.error == OUTSIDE_PROVIDER
  {
    match context
    case Some(c) => Ok(c)
    case None => Err(OUTSIDE_PROVIDER)
  }

  class LanguageProvider {
    var language: string
    /** The preference kept in browser storage. */
    var storedPreference: Option<string>

    /** The initial language comes from the stored preference, and the
        effect then writes it back. */
    constructor (stored: Option<string>)
      ensures language == InitialLanguage(stored)
      ensures storedPreference == Some(language)
    {
      language := InitialLanguage(stored);
      storedPreference := Some(language);
    }

    /** The stored preference mirrors the current language. */
    predicate Persisted()
      reads this
    {
      storedPreference == Some(language)
    }

    /** `translate(key)`: a string written for the key in the current
        language or in English, or else the key itself. */
    function Translate(key: string): (r: string)
      reads this
      ensures key != "" ==> r != ""
      ensures || r == key
              || (exists i :: 0 <= i < |EntriesOf(language)| && EntriesOf(language)[i] == (key, r))
              || (exists i :: 0 <= i < |EN_ENTRIES| && EN_ENTRIES[i] == (key, r))
    {
      TranslationsLookup(language, key);
      TranslationsLookup(EN, key);
      Resolve(TRANSLATIONS, language, key)
    }

    /** The value the provider hands down: its current language and the
        languages it offers, which are exactly the table's. */
    function Context(): (c: ContextValue)
      reads this
      ensures c.language == language && c.availableLanguages == AVAILABLE_LANGUAGES
      ensures (set o | o in c.availableLanguages :: o.code) == TRANSLATIONS.Keys
    {
      AvailableLanguagesMatchTable();
      ContextValue(language, AVAILABLE_LANGUAGES)
    }

    /** Switching language takes any code as given, without checking it
        against the table, and persists it. */
    method ChangeLanguage(newLanguage: string)
      modifies this
      ensures language == newLanguage
      ensures Persisted()
    {
      language := newLanguage;
      storedPreference := Some(language);
    }
  }

  /** A language chosen in one provider and persisted is the one a provider
      mounted afresh on the stored preference starts in. */
  method ChoiceSurvivesReload(provider: LanguageProvider, choice: string) returns (reloaded: LanguageProvider)
    requires choice != ""
    modifies provider
    ensures provider.language == choice && provider.Persisted()
    ensures reloaded.language == choice && reloaded.Persisted()
  {
    provider.ChangeLanguage(choice);
    reloaded := new LanguageProvider(provider.storedPreference);
  }
}
