/** The to-do form: the four fields it binds from submitted data (title,
    description, due date, resolved flag) and their validation, all or
    nothing. Timestamps are never read from the submission. */
module TodoForms {
  import opened Common
  import opened TodoModels

  datatype Field = Title | Description | DueDate | IsResolved

  /** The submitted key each field reads. */
  function Key(f: Field): string
  {
    match f
    case Title => "title"
    case Description => "description"
    case DueDate => "due_date"
    case IsResolved => "is_resolved"
  }

  /** `Meta.fields`, in declaration order. */
  const FormFields: seq<Field> := [Title, Description, DueDate, IsResolved]

  datatype FieldError =
    | Required                               // "This field is required."
    | MaxLength(limit: nat, length: nat)     // "Ensure this value has at most ..."
    | NullCharacters                         // "Null characters are not allowed."
    | InvalidDate                            // "Enter a valid date."

  /** Submitted form data: one string per key. */
  type FormInput = map<string, string>

  /** The values a valid form hands to the record. */
  datatype CleanedData = CleanedData(
    title: string,
    description: string,
    dueDate: Option<Date>,
    isResolved: bool)

  datatype FormResult =
    | Valid(data: CleanedData)
    | Invalid(errors: map<Field, seq<FieldError>>)

  function Lookup(data: FormInput, key: string): Option<string>
  {
    if key in data then Some(data[key]) else None
  }

  /** A text field's cleaned value: absent reads as empty, present values are
      stripped of surrounding whitespace. */
  function CleanText(raw: Option<string>): string
  {
    if raw.None? then "" else Trim(raw.value, PyWhitespace)
  }

  /** Errors of the required title, checked on its stripped value: blank is
      `Required`; otherwise the length limit, then the null-character rule. */
  function TitleErrors(value: string): (es: seq<FieldError>)
    ensures es == [] <==> value != "" && |value| <= TitleMaxLength && '\0' !in value
    ensures value == "" ==> es == [Required]
  {
    if value == "" then [Required]
    else
      (if |value| > TitleMaxLength then [MaxLength(TitleMaxLength, |value|)] else [])
      + (if '\0' in value then [NullCharacters] else [])
  }

  /** Errors of the optional description: blank is fine, null characters
      are not. */
  function DescriptionErrors(value: string): (es: seq<FieldError>)
    ensures es == [] <==> '\0' !in value
  {
    if '\0' in value then [NullCharacters] else []
  }

  /** The due date: absent or empty is "no date"; any other value is stripped
      and handed to `parseDate`, the date parser (the configured input
      formats), whose failure is `InvalidDate`. */
  function CleanDueDate(raw: Option<string>, parseDate: string -> Option<Date>): (r: DateResult)
    ensures raw.None? || raw == Some("") ==> r == DateOk(None)
  {
    if raw.None? || raw.value == "" then DateOk(None)
    else
      var parsed := parseDate(Trim(raw.value, PyWhitespace));
      if parsed.None? then DateError else DateOk(parsed)
  }

  datatype DateResult = DateOk(date: Option<Date>) | DateError

  /** ASCII lower case, enough to recognise the words "true" and "false". */
  function Lower(s: string): (r: string)
    ensures |r| == |s|
  {
    if s == [] then []
    else [if 'A' <= s[0] <= 'Z' then (s[0] as int + 32) as char else s[0]] + Lower(s[1..])
  }

  /** The check box: absent is false (an unticked box is not submitted),
      "true" and "false" in any letter case are read as such, and any other
      string is true exactly when it is non-empty. */
  function CheckboxValue(raw: Option<string>): bool
  {
    if raw.None? then false
    else if Lower(raw.value) == "true" then true
    else if Lower(raw.value) == "false" then false
    else raw.value != ""
  }

  /** The errors of each field, in terms of the submission. */
  function TitleErrorsOf(data: FormInput): seq<FieldError>
  {
    TitleErrors(CleanText(Lookup(data, "title")))
  }

  function DescriptionErrorsOf(data: FormInput): seq<FieldError>
  {
    DescriptionErrors(CleanText(Lookup(data, "description")))
  }

  function DueDateOf(data: FormInput, parseDate: string -> Option<Date>): DateResult
  {
    CleanDueDate(Lookup(data, "due_date"), parseDate)
  }

  /** The error map built from the three checks: a field appears exactly
      when its check failed, with its own errors. */
  function ErrorMap(titleErrors: seq<FieldError>, descriptionErrors: seq<FieldError>, dateFailed: bool)
    : (e: map<Field, seq<FieldError>>)
    ensures Title in e <==> titleErrors != []
    ensures Title in e ==> e[Title] == titleErrors
    ensures Description in e <==> descriptionErrors != []
    ensures Description in e ==> e[Description] == descriptionErrors
    ensures DueDate in e <==> dateFailed
    ensures DueDate in e ==> e[DueDate] == [InvalidDate]
    ensures IsResolved !in e
  {
    var e0: map<Field, seq<FieldError>> := map[];
    var e1 := if titleErrors != [] then e0[Title := titleErrors] else e0;
    var e2 := if descriptionErrors != [] then e1[Description := descriptionErrors] else e1;
    if dateFailed then e2[DueDate := [InvalidDate]] else e2
  }

  /** The form's errors: exactly the fields with at least one error appear,
      each with its own errors; the check box never fails. */
  function Errors(data: FormInput, parseDate: string -> Option<Date>): (e: map<Field, seq<FieldError>>)
    ensures Title in e <==> TitleErrorsOf(data) != []
    ensures Title in e ==> e[Title] == TitleErrorsOf(data)
    ensures Description in e <==> DescriptionErrorsOf(data) != []
    ensures Description in e ==> e[Description] == DescriptionErrorsOf(data)
    ensures DueDate in e <==> DueDateOf(data, parseDate).DateError?
    ensures DueDate in e ==> e[DueDate] == [InvalidDate]
    ensures IsResolved !in e
  {
    ErrorMap(TitleErrorsOf(data), DescriptionErrorsOf(data), DueDateOf(data, parseDate).DateError?)
  }

  /** `form.is_valid()` with `cleaned_data`: either every field cleans and the
      form is valid, or the errors of every failing field are reported. */
  function Validate(data: FormInput, parseDate: string -> Option<Date>): (r: FormResult)
    ensures r.Invalid? ==> r.errors != map[] && r.errors == Errors(data, parseDate)
    ensures r.Valid? <==> Errors(data, parseDate) == map[]
    ensures r.Valid? ==>
      && r.data.title == CleanText(Lookup(data, "title"))
      && r.data.description == CleanText(Lookup(data, "description"))
      && r.data.isResolved == CheckboxValue(Lookup(data, "is_resolved"))
      && DueDateOf(data, parseDate) == DateOk(r.data.dueDate)
  {
    var dd := DueDateOf(data, parseDate);
    if TitleErrorsOf(data) == [] && DescriptionErrorsOf(data) == [] && dd.DateOk? then
      Valid(CleanedData(
        CleanText(Lookup(data, "title")),
        CleanText(Lookup(data, "description")),
        dd.date,
        CheckboxValue(Lookup(data, "is_resolved"))))
    else
      var errors := Errors(data, parseDate);
      assert Title in errors || Description in errors || DueDate in errors;
      Invalid(errors)
  }

  /** The form is valid exactly when the stripped title is non-empty, at most
      200 characters and free of null characters, the stripped description
      is free of null characters, and the due date is absent, empty or
      parses. */
  lemma ValidIff(data: FormInput, parseDate: string -> Option<Date>)
    ensures Validate(data, parseDate).Valid? <==>
      var title := CleanText(Lookup(data, "title"));
      && title != "" && |title| <= TitleMaxLength && '\0' !in title
      && '\0' !in CleanText(Lookup(data, "description"))
      && CleanDueDate(Lookup(data, "due_date"), parseDate).DateOk?
  {
  }

  /** Only the four form fields are read: two submissions that agree on
      them validate alike, so extra keys such as `created_at` or `id` have
      no effect. */
  lemma OnlyFormFieldsRead(d1: FormInput, d2: FormInput, parseDate: string -> Option<Date>)
    requires forall f :: f in FormFields ==> Lookup(d1, Key(f)) == Lookup(d2, Key(f))
    ensures Validate(d1, parseDate) == Validate(d2, parseDate)
  {
    assert Key(Title) == "title" && Key(Description) == "description";
    assert Key(DueDate) == "due_date" && Key(IsResolved) == "is_resolved";
    assert Lookup(d1, "title") == Lookup(d2, "title");
    assert Lookup(d1, "description") == Lookup(d2, "description");
    assert Lookup(d1, "due_date") == Lookup(d2, "due_date");
    assert Lookup(d1, "is_resolved") == Lookup(d2, "is_resolved");
  }

  /** A blank or whitespace-only title (or none at all) makes the form
      invalid, with `Required` reported under the title. */
  lemma BlankTitleRejected(data: FormInput, parseDate: string -> Option<Date>)
    requires "title" !in data || AllIn(data["title"], PyWhitespace)
    ensures Validate(data, parseDate).Invalid?
    ensures Title in Validate(data, parseDate).errors
    ensures Validate(data, parseDate).errors[Title] == [Required]
  {
    if "title" in data {
      TrimEmptyIff(data["title"], PyWhitespace);
    }
    assert CleanText(Lookup(data, "title")) == "";
    var errors := Errors(data, parseDate);
    assert Title in errors && errors[Title] == [Required];
  }

  /** A good title with an empty description and an empty due date is
      accepted: no date, an empty description. */
  lemma BlankOptionalFieldsAccepted(data: FormInput, parseDate: string -> Option<Date>)
    requires "title" in data
    requires var t := Trim(data["title"], PyWhitespace); t != "" && |t| <= TitleMaxLength && '\0' !in t
    requires Lookup(data, "description") == Some("") && Lookup(data, "due_date") == Some("")
    ensures Validate(data, parseDate).Valid?
    ensures Validate(data, parseDate).data.description == ""
    ensures Validate(data, parseDate).data.dueDate == None
  {
    assert Trim("", PyWhitespace) == "";
    ValidIff(data, parseDate);
  }

  /** The length limit is inclusive: a cleaned title of exactly 200
      characters without null characters is accepted, one of 201 gives a
      `MaxLength` error and nothing else. (A title that does not start or end
      with whitespace is its own cleaned value, by `TrimUnchanged`.) */
  lemma TitleLengthBoundary(title: string)
    requires '\0' !in title
    ensures |title| == 200 ==> TitleErrors(title) == []
    ensures |title| == 201 ==> TitleErrors(title) == [MaxLength(200, 201)]
  {
  }

  /** A box submitted as "True" (the way a test client sends Python's
      `True`) or "on" (the way a browser sends a ticked box) is stored as
      resolved; "False" and an unticked box are not. */
  lemma CheckboxReadings()
    ensures CheckboxValue(Some("True")) && CheckboxValue(Some("on"))
    ensures !CheckboxValue(Some("False")) && !CheckboxValue(None)
  {
    assert Lower("True") == "true";
    assert Lower("False") == "false";
    assert Lower("on") == "on";
  }
}
