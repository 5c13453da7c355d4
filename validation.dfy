/**
 * The express-validator chains run on task request bodies before the
 * controllers call a store. Each chain checks one body field, runs every
 * validator it has (none of them bails), and adds one error per failed
 * validator, in chain order. `.optional()` skips a chain only when the
 * field is undefined. Validators see the field's string form.
 */
module Validation {
  import opened Common

  /** One entry of `validationResult(req).array()`: the field and the message. */
  datatype FieldError = FieldError(path: string, msg: string)

  /** The ISO 8601 date check, which belongs to the validator library. */
  type IsoCheck = string -> bool

  /** The fields of a create request: `None` is undefined, otherwise the string form of the value. */
  datatype CreateBody = CreateBody(
    title: Option<string>,
    description: Option<string>,
    priority: Option<string>,
    dueDate: Option<string>)

  /** The fields of an update request. */
  datatype UpdateBody = UpdateBody(
    title: Option<string>,
    description: Option<string>,
    completed: Option<string>,
    priority: Option<string>,
    dueDate: Option<string>)

  const TitleRequired := "Title is required"
  const TitleLength := "Title must be between 1 and 255 characters"
  const DescriptionLength := "Description must not exceed 1000 characters"
  const PriorityValues := "Priority must be low, medium, or high"
  const DueDateFormat := "Due date must be a valid ISO8601 date"
  const CompletedBoolean := "Completed must be a boolean value"

  /** The string a validator sees: an undefined field reads as the empty string. */
  function StringForm(v: Option<string>): string {
    if v.Some? then v.value else ""
  }

  predicate IsVariationSelector(c: char) {
    c == '\U{FE0E}' || c == '\U{FE0F}'
  }

  /** `isLength`'s length: code points, not counting the variation selectors U+FE0E and U+FE0F. */
  function CharLength(s: string): (n: nat)
    ensures n <= |s|
  {
    if s == [] then 0
    else (if IsVariationSelector(s[0]) then 0 else 1) + CharLength(s[1..])
  }

  /** A string of ordinary characters has its code-point count as its length. */
  lemma {:induction false} CharLengthPlain(s: string)
    requires forall i :: 0 <= i < |s| ==> !IsVariationSelector(s[i])
    ensures CharLength(s) == |s|
  {
    if s != [] {
      CharLengthPlain(s[1..]);
    }
  }

  /** The length is zero exactly for strings made only of variation selectors. */
  lemma {:induction false} CharLengthZero(s: string)
    ensures CharLength(s) == 0 <==> forall i :: 0 <= i < |s| ==> IsVariationSelector(s[i])
  {
    if s != [] {
      CharLengthZero(s[1..]);
      assert forall i :: 1 <= i < |s| ==> s[i] == s[1..][i - 1];
    }
  }

  /** `notEmpty()`: the string form is not the empty string. */
  predicate NotEmpty(s: string) {
    |s| > 0
  }

  /** `isBoolean()` in its strict form. */
  predicate IsBoolean(s: string) {
    s == "true" || s == "false" || s == "1" || s == "0"
  }

  /** `isIn(['low', 'medium', 'high'])`. */
  predicate IsPriorityName(s: string) {
    s == "low" || s == "medium" || s == "high"
  }

  /** One validator with its message: no error when it passes. */
  function Check(path: string, passes: bool, msg: string): (r: seq<FieldError>)
    ensures r == [] <==> passes
    ensures forall e :: e in r ==> e.path == path
  {
    if passes then [] else [FieldError(path, msg)]
  }

  /** Title on create: `notEmpty` then `isLength({ min: 1, max: 255 })`, both reported. */
  function CreateTitleErrors(title: Option<string>): seq<FieldError> {
    var s := StringForm(title);
    Check("title", NotEmpty(s), TitleRequired) + Check("title", 1 <= CharLength(s) <= 255, TitleLength)
  }

  /** An optional field checked by one validator. */
  function OptionalCheck(path: string, v: Option<string>, passes: string -> bool, msg: string): (r: seq<FieldError>)
    ensures r == [] <==> v.None? || passes(v.value)
  {
    if v.None? then [] else Check(path, passes(v.value), msg)
  }

  function DescriptionFits(s: string): bool { CharLength(s) <= 1000 }

  function TitleFits(s: string): bool { 1 <= CharLength(s) <= 255 }

  /** `createTaskValidation`, chains in order: title, description, priority, due date. */
  function CreateErrors(b: CreateBody, isIso: IsoCheck): seq<FieldError> {
    CreateTitleErrors(b.title)
      + OptionalCheck("description", b.description, DescriptionFits, DescriptionLength)
      + OptionalCheck("priority", b.priority, IsPriorityName, PriorityValues)
      + OptionalCheck("dueDate", b.dueDate, isIso, DueDateFormat)
  }

  /** `updateTaskValidation`: every chain optional; title, description, completed, priority, due date. */
  function UpdateErrors(b: UpdateBody, isIso: IsoCheck): seq<FieldError> {
    OptionalCheck("title", b.title, TitleFits, TitleLength)
      + OptionalCheck("description", b.description, DescriptionFits, DescriptionLength)
      + OptionalCheck("completed", b.completed, IsBoolean, CompletedBoolean)
      + OptionalCheck("priority", b.priority, IsPriorityName, PriorityValues)
      + OptionalCheck("dueDate", b.dueDate, isIso, DueDateFormat)
  }

  /** What a create body must satisfy, field by field. */
  predicate CreateAcceptable(b: CreateBody, isIso: IsoCheck) {
    && b.title.Some? && 1 <= CharLength(b.title.value) <= 255
    && (b.description.Some? ==> CharLength(b.description.value) <= 1000)
    && (b.priority.Some? ==> ParsePriority(b.priority.value).Some?)
    && (b.dueDate.Some? ==> isIso(b.dueDate.value))
  }

  /** What an update body must satisfy: each field that is present. */
  predicate UpdateAcceptable(b: UpdateBody, isIso: IsoCheck) {
    && (b.title.Some? ==> 1 <= CharLength(b.title.value) <= 255)
    && (b.description.Some? ==> CharLength(b.description.value) <= 1000)
    && (b.completed.Some? ==> IsBoolean(b.completed.value))
    && (b.priority.Some? ==> ParsePriority(b.priority.value).Some?)
    && (b.dueDate.Some? ==> isIso(b.dueDate.value))
  }

  /** The allowed priority strings are exactly the names of the priority levels. */
  lemma PriorityNamesParse(s: string)
    ensures IsPriorityName(s) <==> ParsePriority(s).Some?
  {
  }

  /** A create body yields no errors exactly when it is acceptable. */
  lemma CreateErrorsEmptyIffAcceptable(b: CreateBody, isIso: IsoCheck)
    ensures CreateErrors(b, isIso) == [] <==> CreateAcceptable(b, isIso)
  {
    if b.priority.Some? {
      PriorityNamesParse(b.priority.value);
    }
    var s := StringForm(b.title);
    if b.title.None? {
      assert CreateTitleErrors(b.title) != [];
    }
  }

  /** An update body yields no errors exactly when it is acceptable; the empty body is. */
  lemma UpdateErrorsEmptyIffAcceptable(b: UpdateBody, isIso: IsoCheck)
    ensures UpdateErrors(b, isIso) == [] <==> UpdateAcceptable(b, isIso)
    ensures UpdateErrors(UpdateBody(None, None, None, None, None), isIso) == []
  {
    if b.priority.Some? {
      PriorityNamesParse(b.priority.value);
    }
  }

  /** Without a title, create reports the two title messages, in chain order, before anything else. */
  lemma MissingTitleReportsBoth(b: CreateBody, isIso: IsoCheck)
    requires b.title.None?
    ensures CreateErrors(b, isIso)[..2] == [FieldError("title", TitleRequired), FieldError("title", TitleLength)]
  {
  }

  /** A title of only variation selectors passes `notEmpty` but fails the length check. */
  lemma SelectorTitleFailsLengthOnly(isIso: IsoCheck)
    ensures CreateErrors(CreateBody(Some("\U{FE0F}"), None, None, None), isIso) == [FieldError("title", TitleLength)]
  {
    assert CharLength("\U{FE0F}") == 0 by {
      assert "\U{FE0F}"[1..] == [];
    }
  }

  /** A body that passes create validation passes update validation with the same fields. */
  lemma CreateAcceptableIsUpdateAcceptable(b: CreateBody, isIso: IsoCheck)
    requires CreateAcceptable(b, isIso)
    ensures UpdateAcceptable(UpdateBody(b.title, b.description, None, b.priority, b.dueDate), isIso)
  {
  }

  /** Every reported error names one of the fields the chains check. */
  lemma ErrorPaths(b: CreateBody, u: UpdateBody, isIso: IsoCheck)
    ensures forall e :: e in CreateErrors(b, isIso) ==> e.path in {"title", "description", "priority", "dueDate"}
    ensures forall e :: e in UpdateErrors(u, isIso) ==> e.path in {"title", "description", "completed", "priority", "dueDate"}
  {
  }
}
