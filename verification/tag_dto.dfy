/**
 * Field constraints of the tag request and response schemas (pydantic models):
 * what a request or response must satisfy to be accepted, and the validation errors otherwise.
 */
module TagDto {
  import opened Optional

  const NameMinLength: nat := 1
  const NameMaxLength: nat := 50

  /** One field of the incoming data: the key is absent, is given as null, or carries a value. */
  datatype FieldInput<T> = Absent | Null | Given(value: T)

  /** The kinds of validation error the schemas can report (pydantic's error types). */
  datatype ErrorKind =
    | Missing                // a required key is absent
    | IntType                // null where an integer is required
    | StringType             // null where a string is required
    | DatetimeType           // null where a timestamp is required
    | StringTooShort
    | StringTooLong
    | StringPatternMismatch
  datatype Field = Id | Name | Color | CreatedAt
  datatype FieldError = FieldError(field: Field, kind: ErrorKind)

  datatype Validated<T> = Valid(value: T) | Invalid(errors: seq<FieldError>)

  /** A validated create request: both fields present and within their constraints. */
  datatype TagCreate = TagCreate(name: string, color: string)
  /** A validated update request: each field may be left out (None). */
  datatype TagUpdate = TagUpdate(name: Option<string>, color: Option<string>)
  /** A tag as the API returns it; timestamps are kept as their serialised text. */
  datatype TagResponse = TagResponse(id: int, name: string, color: string, createdAt: string, updatedAt: Option<string>)

  predicate IsHexDigit(c: char) {
    ('0' <= c <= '9') || ('a' <= c <= 'f') || ('A' <= c <= 'F')
  }

  /** The colour pattern `^#[0-9A-Fa-f]{6}$`: a '#' and then exactly six hexadecimal digits. */
  predicate ValidColor(s: string) {
    |s| == 7 && s[0] == '#' && forall i :: 1 <= i < 7 ==> IsHexDigit(s[i])
  }

  /** The name bounds of the create and update schemas (counted in characters). */
  predicate ValidName(s: string) {
    NameMinLength <= |s| <= NameMaxLength
  }

  /** The errors a given name gets from the length bounds. */
  function NameErrors(s: string): (errs: seq<FieldError>)
    ensures errs == [] <==> ValidName(s)
    ensures |errs| <= 1
    ensures forall e :: e in errs ==> e.field == Name && (e.kind == StringTooShort || e.kind == StringTooLong)
  {
    if |s| < NameMinLength then [FieldError(Name, StringTooShort)]
    else if |s| > NameMaxLength then [FieldError(Name, StringTooLong)]
    else []
  }

  /** The errors a given colour gets from the pattern check. */
  function ColorErrors(s: string): (errs: seq<FieldError>)
    ensures errs == [] <==> ValidColor(s)
    ensures forall e :: e in errs ==> e == FieldError(Color, StringPatternMismatch)
  {
    if ValidColor(s) then [] else [FieldError(Color, StringPatternMismatch)]
  }

  /** The error for a required field that is absent or null, or the field's own checks when given. */
  function RequiredErrors<T>(input: FieldInput<T>, field: Field, nullKind: ErrorKind, given: T -> seq<FieldError>): seq<FieldError> {
    match input
    case Absent => [FieldError(field, Missing)]
    case Null => [FieldError(field, nullKind)]
    case Given(v) => given(v)
  }

  /** The errors an optional field gets: none when absent or null, its own checks when given. */
  function OptionalErrors<T>(input: FieldInput<T>, given: T -> seq<FieldError>): seq<FieldError> {
    match input
    case Given(v) => given(v)
    case _ => []
  }

  /** No checks beyond presence. */
  function Unconstrained<T>(v: T): seq<FieldError> {
    []
  }

  /** An optional field's value: null and absence both become None. */
  function ValueOrNone<T>(input: FieldInput<T>): Option<T> {
    match input
    case Given(v) => Some(v)
    case _ => None
  }

  /**
   * The create schema: name and colour are both required (no defaults) and must meet their
   * constraints; an absent field is "missing", a null one a string type error.
   */
  function ValidateCreate(name: FieldInput<string>, color: FieldInput<string>): (r: Validated<TagCreate>)
    ensures r.Valid? <==> name.Given? && color.Given? && ValidName(name.value) && ValidColor(color.value)
    ensures r.Valid? ==> r.value == TagCreate(name.value, color.value)
    ensures r.Invalid? ==> r.errors != []
    ensures name.Absent? ==> r.Invalid? && FieldError(Name, Missing) in r.errors
    ensures name.Null? ==> r.Invalid? && FieldError(Name, StringType) in r.errors
    ensures color.Absent? ==> r.Invalid? && FieldError(Color, Missing) in r.errors
    ensures color.Null? ==> r.Invalid? && FieldError(Color, StringType) in r.errors
  {
    var errs := RequiredErrors(name, Name, StringType, NameErrors) + RequiredErrors(color, Color, StringType, ColorErrors);
    if errs == [] then Valid(TagCreate(name.value, color.value)) else Invalid(errs)
  }

  /** The update schema: a field left out or null is accepted as None; a given field obeys the create constraints. */
  function ValidateUpdate(name: FieldInput<string>, color: FieldInput<string>): (r: Validated<TagUpdate>)
    ensures r.Valid? <==> (name.Given? ==> ValidName(name.value)) && (color.Given? ==> ValidColor(color.value))
    ensures r.Valid? ==> r.value == TagUpdate(ValueOrNone(name), ValueOrNone(color))
    ensures r.Invalid? ==> r.errors != [] && forall e :: e in r.errors ==> e.kind != Missing
  {
    var errs := OptionalErrors(name, NameErrors) + OptionalErrors(color, ColorErrors);
    if errs == [] then Valid(TagUpdate(ValueOrNone(name), ValueOrNone(color))) else Invalid(errs)
  }

  /**
   * The response schema: id, name, colour and creation time are required (absent is "missing",
   * null a type error); only the colour is constrained; updated_at may be absent or null.
   */
  function ValidateResponse(id: FieldInput<int>, name: FieldInput<string>, color: FieldInput<string>,
                            createdAt: FieldInput<string>, updatedAt: FieldInput<string>): (r: Validated<TagResponse>)
    ensures r.Valid? <==> id.Given? && name.Given? && createdAt.Given? && color.Given? && ValidColor(color.value)
    ensures r.Valid? ==> r.value == TagResponse(id.value, name.value, color.value, createdAt.value, ValueOrNone(updatedAt))
    ensures r.Invalid? ==> r.errors != []
    ensures id.Null? ==> r.Invalid? && FieldError(Id, IntType) in r.errors
    ensures createdAt.Null? ==> r.Invalid? && FieldError(CreatedAt, DatetimeType) in r.errors
  {
    var errs :=
      RequiredErrors(id, Id, IntType, Unconstrained)
      + RequiredErrors(name, Name, StringType, Unconstrained)
      + RequiredErrors(color, Color, StringType, ColorErrors)
      + RequiredErrors(createdAt, CreatedAt, DatetimeType, Unconstrained);
    if errs == [] then Valid(TagResponse(id.value, name.value, color.value, createdAt.value, ValueOrNone(updatedAt)))
    else Invalid(errs)
  }

  /** An update giving both fields is accepted exactly when the same values would make a valid create request. */
  lemma UpdateAgreesWithCreate(name: string, color: string)
    ensures ValidateUpdate(Given(name), Given(color)).Valid? <==> ValidateCreate(Given(name), Given(color)).Valid?
  {
  }
}
