/** The farmer's query form: seven text fields, an optional image attachment
    with its preview, a map of per-field error messages, the validation run on
    submit, the submit button's enable rule and the summary panel. */
module QuerySubmission {
  import opened Wrappers
  import opened Text

  // Field names, which are also the keys of the error map.
  const QUERY_TEXT := "query_text"
  const URGENCY := "urgency"
  const CROP_TYPE := "crop_type"
  const LOCATION := "location"
  const SYMPTOMS_DURATION := "symptoms_duration"
  const WEATHER_CONDITIONS := "weather_conditions"
  const PREVIOUS_TREATMENTS := "previous_treatments"
  /** Error key of the image picker; not a form field. */
  const IMAGE := "image"

  const FIELDS: set<string> :=
    {QUERY_TEXT, URGENCY, CROP_TYPE, LOCATION, SYMPTOMS_DURATION, WEATHER_CONDITIONS, PREVIOUS_TREATMENTS}

  /** The form as it opens: every field empty except urgency, which is "medium". */
  const INITIAL_FORM: map<string, string> := map[
    QUERY_TEXT := "", URGENCY := "medium", CROP_TYPE := "", LOCATION := "",
    SYMPTOMS_DURATION := "", WEATHER_CONDITIONS := "", PREVIOUS_TREATMENTS := ""]

  /** The three priority buttons. */
  datatype UrgencyLevel = Low | Medium | High {
    function Value(): string {
      match this
      case Low => "low"
      case Medium => "medium"
      case High => "high"
    }
  }

  const URGENCY_VALUES: set<string> := {"low", "medium", "high"}

  const MSG_DESCRIBE := "Please describe your farming issue"
  const MSG_MORE_DETAIL := "Please provide more details (at least 10 characters)"
  const MSG_CROP := "Please specify your crop type"
  const MSG_IMAGE_SIZE := "Image size must be less than 5MB"
  const MSG_IMAGE_TYPE := "Please select a valid image file"

  /** Shortest accepted description, after trimming. */
  const MIN_DESCRIPTION := 10
  /** Largest accepted image, in bytes (5 MiB). */
  const MAX_IMAGE_BYTES := 5 * 1024 * 1024
  /** Characters of the description shown in the summary panel. */
  const SUMMARY_LENGTH := 100

  /** A file picked in the browser; `mimeType` is the reported MIME type. */
  datatype File = File(name: string, size: int, mimeType: string)

  // ---------------------------------------------------------------------------
  // Image gate

  datatype ImageVerdict = Accepted | TooLarge | NotAnImage

  /** The size is checked before the type, so an oversized file is reported as
      too large whatever its type; a file of exactly 5 MiB passes the size check. */
  function CheckImage(f: File): (v: ImageVerdict)
    ensures v == TooLarge <==> f.size > MAX_IMAGE_BYTES
    ensures v == NotAnImage <==> f.size <= MAX_IMAGE_BYTES && !StartsWith(f.mimeType, "image/")
    ensures v == Accepted <==> f.size <= MAX_IMAGE_BYTES && StartsWith(f.mimeType, "image/")
  {
    if f.size > MAX_IMAGE_BYTES then TooLarge
    else if !StartsWith(f.mimeType, "image/") then NotAnImage
    else Accepted
  }

  /** The boundary cases: exactly 5 MiB is accepted, one byte more is not, and
      an oversized non-image gets the size error. */
  lemma ImageLimits(name: string)
    ensures CheckImage(File(name, 5 * 1024 * 1024, "image/png")) == Accepted
    ensures CheckImage(File(name, 5 * 1024 * 1024 + 1, "image/png")) == TooLarge
    ensures CheckImage(File(name, 5 * 1024 * 1024 + 1, "text/plain")) == TooLarge
    ensures CheckImage(File(name, 1024, "text/plain")) == NotAnImage
  {
    assert StartsWith("image/png", "image/");
    assert !StartsWith("text/plain", "image/") by {
      assert "text/plain"[0] != "image/"[0];
    }
  }

  // ---------------------------------------------------------------------------
  // Validation

  /** The rule the form enforces on submit. */
  predicate DescriptionAndCropOk(queryText: string, cropType: string) {
    |Trim(queryText)| >= MIN_DESCRIPTION && Trim(cropType) != ""
  }

  /** The errors validation reports, keyed by field. */
  function FormErrors(queryText: string, cropType: string): (e: map<string, string>)
    ensures e.Keys <= {QUERY_TEXT, CROP_TYPE}
    ensures |e| == 0 <==> DescriptionAndCropOk(queryText, cropType)
    ensures QUERY_TEXT in e <==> |Trim(queryText)| < MIN_DESCRIPTION
    ensures CROP_TYPE in e <==> Trim(cropType) == ""
    ensures forall k :: k in e ==> e[k] != ""
  {
    var description := Trim(queryText);
    var descriptionErrors :=
      if description == "" then map[QUERY_TEXT := MSG_DESCRIBE]
      else if |description| < MIN_DESCRIPTION then map[QUERY_TEXT := MSG_MORE_DETAIL]
      else map[];
    assert QUERY_TEXT != CROP_TYPE;
    if Trim(cropType) == "" then descriptionErrors[CROP_TYPE := MSG_CROP] else descriptionErrors
  }

  /** Which description message appears: "describe" exactly for a blank
      description, "more details" exactly for 1 to 9 characters after trimming. */
  lemma DescriptionMessages(queryText: string, cropType: string)
    ensures QUERY_TEXT in FormErrors(queryText, cropType) ==>
      (FormErrors(queryText, cropType)[QUERY_TEXT] == MSG_DESCRIBE <==> AllWhitespace(queryText))
    ensures QUERY_TEXT in FormErrors(queryText, cropType) ==>
      (FormErrors(queryText, cropType)[QUERY_TEXT] == MSG_MORE_DETAIL
       <==> 1 <= |Trim(queryText)| < MIN_DESCRIPTION)
  {
    TrimEmptyIff(queryText);
    assert MSG_DESCRIBE != MSG_MORE_DETAIL by {
      assert MSG_DESCRIBE == "Please describe your farming issue";
      assert MSG_MORE_DETAIL == "Please provide more details (at least 10 characters)";
      assert |MSG_DESCRIBE| != |MSG_MORE_DETAIL|;
    }
  }

  /** The submit button: enabled when nothing is being submitted and both the
      trimmed description and the trimmed crop are non-empty, that is, neither
      is all whitespace. */
  predicate SubmitEnabled(isSubmitting: bool, queryText: string, cropType: string): (b: bool)
    ensures b <==> !isSubmitting && !AllWhitespace(queryText) && !AllWhitespace(cropType)
  {
    TrimEmptyIff(queryText);
    TrimEmptyIff(cropType);
    !isSubmitting && Trim(queryText) != "" && Trim(cropType) != ""
  }

  /** Every form that validation accepts has an enabled submit button. */
  lemma ValidFormEnablesSubmit(queryText: string, cropType: string)
    requires DescriptionAndCropOk(queryText, cropType)
    ensures SubmitEnabled(false, queryText, cropType)
  {
  }

  /** The converse fails: the button has no 10-character rule, so a short word
      as description (and any word as crop) enables it although validation
      then refuses the form. */
  lemma SubmitEnabledWeakerThanValidation(description: string, crop: string)
    requires 0 < |description| < MIN_DESCRIPTION
    requires !IsWhitespace(description[0]) && !IsWhitespace(description[|description| - 1])
    requires crop != [] && !IsWhitespace(crop[0]) && !IsWhitespace(crop[|crop| - 1])
    ensures SubmitEnabled(false, description, crop)
    ensures !DescriptionAndCropOk(description, crop)
  {
    UntrimmedWord(description);
    UntrimmedWord(crop);
  }

  /** A word with no whitespace at either end trims to itself. */
  lemma UntrimmedWord(w: string)
    requires w != [] && !IsWhitespace(w[0]) && !IsWhitespace(w[|w| - 1])
    ensures Trim(w) == w
  {
    assert LeadingWhitespace(w) == 0;
    assert w[0..] == w;
  }

  /** The description line of the summary panel: the first 100 characters,
      followed by "..." when the text is longer. */
  function SummaryDescription(text: string): (r: string)
    ensures |text| <= SUMMARY_LENGTH ==> r == text
    ensures |text| > SUMMARY_LENGTH ==> |r| == SUMMARY_LENGTH + 3 && r[SUMMARY_LENGTH..] == "..."
    ensures text[..if |text| < SUMMARY_LENGTH then |text| else SUMMARY_LENGTH] <= r
  {
    (if |text| <= SUMMARY_LENGTH then text else text[..SUMMARY_LENGTH])
    + (if |text| > SUMMARY_LENGTH then "..." else "")
  }

  /** What the form hands to its caller on a successful submit. */
  datatype Payload = Payload(fields: map<string, string>, image: Option<File>, imagePreview: Option<string>)

  // ---------------------------------------------------------------------------
  // The form's state

  class QueryForm {
    var formData: map<string, string>
    var selectedImage: Option<File>
    /** Opaque handle of the preview object URL. */
    var imagePreview: Option<string>
    var errors: map<string, string>

    /** Every field of the form has a value. */
    predicate Valid()
      reads this
    {
      FIELDS <= formData.Keys
    }

    /** The urgency field holds one of the three levels. */
    predicate UrgencyOk()
      reads this
    {
      URGENCY in formData && formData[URGENCY] in URGENCY_VALUES
    }

    constructor ()
      ensures Valid() && UrgencyOk()
      ensures formData == INITIAL_FORM && formData[URGENCY] == "medium"
      ensures selectedImage == None && imagePreview == None && errors == map[]
    {
      formData := INITIAL_FORM;
      selectedImage := None;
      imagePreview := None;
      errors := map[];
    }

    /** `errors[field]` is set (a non-empty message). */
    predicate HasError(field: string)
      reads this
    {
      field in errors && errors[field] != ""
    }

    /** Editing one field: only that field takes the new value, and its error,
        if one was shown, is cleared; other errors stay. */
    method InputChange(field: string, value: string)
      requires Valid()
      modifies this`formData, this`errors
      ensures Valid()
      ensures formData == old(formData)[field := value]
      ensures errors == if old(HasError(field)) then old(errors)[field := ""] else old(errors)
      ensures old(UrgencyOk()) && (field == URGENCY ==> value in URGENCY_VALUES) ==> UrgencyOk()
    {
      formData := formData[field := value];
      if HasError(field) {
        errors := errors[field := ""];
      }
    }

    /** Clicking one of the three priority buttons. */
    method SelectUrgency(level: UrgencyLevel)
      requires Valid()
      modifies this`formData, this`errors
      ensures Valid() && UrgencyOk()
      ensures formData == old(formData)[URGENCY := level.Value()]
      ensures errors == if old(HasError(URGENCY)) then old(errors)[URGENCY := ""] else old(errors)
    {
      InputChange(URGENCY, level.Value());
    }

    /** Picking a file (or cancelling the picker, `file == None`). A rejected
        file only sets the image error; an accepted one becomes the selected
        image with the given preview handle and clears the image error. */
    method ImageSelect(file: Option<File>, preview: string)
      modifies this`selectedImage, this`imagePreview, this`errors
      ensures file.None? ==>
        selectedImage == old(selectedImage) && imagePreview == old(imagePreview) && errors == old(errors)
      ensures file.Some? && CheckImage(file.value) != Accepted ==>
        && selectedImage == old(selectedImage) && imagePreview == old(imagePreview)
        && errors == old(errors)[IMAGE := if CheckImage(file.value) == TooLarge then MSG_IMAGE_SIZE else MSG_IMAGE_TYPE]
      ensures file.Some? && CheckImage(file.value) == Accepted ==>
        && selectedImage == file && imagePreview == Some(preview)
        && errors == old(errors)[IMAGE := ""]
    {
      if file.Some? {
        var f := file.value;
        if f.size > MAX_IMAGE_BYTES {
          errors := errors[IMAGE := MSG_IMAGE_SIZE];
          return;
        }
        if !StartsWith(f.mimeType, "image/") {
          errors := errors[IMAGE := MSG_IMAGE_TYPE];
          return;
        }
        selectedImage := Some(f);
        imagePreview := Some(preview);
        errors := errors[IMAGE := ""];
      }
    }

    method RemoveImage()
      modifies this`selectedImage, this`imagePreview
      ensures selectedImage == None && imagePreview == None
    {
      selectedImage := None;
      imagePreview := None;
    }

    /** Validation builds a fresh error map field by field, replaces the shown
        errors with it, and reports whether it is empty. */
    method ValidateForm() returns (ok: bool)
      requires Valid()
      modifies this`errors
      ensures errors == FormErrors(formData[QUERY_TEXT], formData[CROP_TYPE])
      ensures ok <==> DescriptionAndCropOk(formData[QUERY_TEXT], formData[CROP_TYPE])
    {
      var newErrors: map<string, string> := map[];
      var description := Trim(formData[QUERY_TEXT]);
      if description == "" {
        newErrors := newErrors[QUERY_TEXT := MSG_DESCRIBE];
      } else if |description| < MIN_DESCRIPTION {
        newErrors := newErrors[QUERY_TEXT := MSG_MORE_DETAIL];
      }
      if Trim(formData[CROP_TYPE]) == "" {
        newErrors := newErrors[CROP_TYPE := MSG_CROP];
      }
      errors := newErrors;
      ok := |newErrors| == 0;
    }

    /** Submitting: the caller receives the fields with the image and its
        preview only when validation passes. */
    method Submit() returns (payload: Option<Payload>)
      requires Valid()
      modifies this`errors
      ensures errors == FormErrors(formData[QUERY_TEXT], formData[CROP_TYPE])
      ensures payload.Some? <==> DescriptionAndCropOk(formData[QUERY_TEXT], formData[CROP_TYPE])
      ensures payload.Some? ==> payload.value == Payload(formData, selectedImage, imagePreview)
    {
      var ok := ValidateForm();
      if !ok {
        return None;
      }
      payload := Some(Payload(formData, selectedImage, imagePreview));
    }

    /** The form's submit button. */
    function CanSubmit(isSubmitting: bool): (b: bool)
      reads this
      requires Valid()
      ensures b <==> !isSubmitting && !AllWhitespace(formData[QUERY_TEXT]) && !AllWhitespace(formData[CROP_TYPE])
      ensures b ==> !isSubmitting && FormErrors(formData[QUERY_TEXT], formData[CROP_TYPE]).Keys <= {QUERY_TEXT}
    {
      SubmitEnabled(isSubmitting, formData[QUERY_TEXT], formData[CROP_TYPE])
    }

    /** The summary panel's description line, shown only once the description
        is non-blank. */
    function Summary(): (s: Option<string>)
      reads this
      requires Valid()
      ensures s.Some? <==> !AllWhitespace(formData[QUERY_TEXT])
      ensures s.Some? ==> s.value == SummaryDescription(formData[QUERY_TEXT])
    {
      TrimEmptyIff(formData[QUERY_TEXT]);
      if Trim(formData[QUERY_TEXT]) == "" then None
      else Some(SummaryDescription(formData[QUERY_TEXT]))
    }
  }
}
