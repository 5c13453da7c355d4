/**
 * The Mongoose `Task` schema: how a draft document is cast (string paths
 * are trimmed, defaults filled in), which validator fails on which path
 * (one failure per path, the first in declaration order, `required`
 * first), the `ValidationError` message built from those failures, the
 * timestamps, and the `isOverdue` virtual.
 *
 * Instants (`Date`) are integers in milliseconds; "now" is a parameter.
 */
module TaskSchema {
  import opened Common

  type ObjectId = string

  predicate IsHexDigit(c: char) {
    '0' <= c <= '9' || 'a' <= c <= 'f' || 'A' <= c <= 'F'
  }

  /** `mongoose.Types.ObjectId.isValid` on a string: 24 hexadecimal digits, in either case. */
  predicate IsValidObjectId(s: string) {
    |s| == 24 && forall i :: 0 <= i < |s| ==> IsHexDigit(s[i])
  }

  predicate IsLowerHexDigit(c: char) {
    '0' <= c <= '9' || 'a' <= c <= 'f'
  }

  /** The form `ObjectId.toHexString` writes: 24 lower-case hexadecimal digits. */
  predicate IsObjectIdKey(s: string) {
    |s| == 24 && forall i :: 0 <= i < |s| ==> IsLowerHexDigit(s[i])
  }

  function LowerHexDigit(c: char): (d: char)
    requires IsHexDigit(c)
    ensures IsLowerHexDigit(d)
  {
    if 'A' <= c <= 'F' then (c as int - 'A' as int + 'a' as int) as char else c
  }

  /**
   * The id a valid id string casts to, `new ObjectId(s).toHexString()`:
   * the same digits in lower case. Queries on `_id` compare cast ids, so
   * every spelling of an id finds the same document.
   */
  function IdKey(s: string): (k: ObjectId)
    requires IsValidObjectId(s)
    ensures IsObjectIdKey(k)
    ensures |k| == |s| && forall i :: 0 <= i < |s| ==> k[i] == LowerHexDigit(s[i])
  {
    seq(|s|, i requires 0 <= i < |s| => LowerHexDigit(s[i]))
  }

  /** A canonical id is a valid one, and casts to itself. */
  lemma IdKeyOfKey(s: string)
    requires IsObjectIdKey(s)
    ensures IsValidObjectId(s) && IdKey(s) == s
  {
    assert forall i :: 0 <= i < |s| ==> IsHexDigit(s[i]);
    assert forall i :: 0 <= i < |s| ==> IdKey(s)[i] == s[i];
  }

  /** Casting is idempotent: the cast of a cast id is that id. */
  lemma IdKeyIdempotent(s: string)
    requires IsValidObjectId(s)
    ensures IsValidObjectId(IdKey(s)) && IdKey(IdKey(s)) == IdKey(s)
  {
    IdKeyOfKey(IdKey(s));
  }

  // ---------------------------------------------------------------------------
  // Stored documents
  // ---------------------------------------------------------------------------

  datatype Attachment = Attachment(name: string, url: string, size: int, kind: string)

  datatype TaskDoc = TaskDoc(
    id: ObjectId,
    title: string,
    description: Option<string>,
    completed: bool,
    priority: Priority,
    dueDate: Option<int>,
    userId: ObjectId,
    tags: seq<string>,
    category: Option<string>,
    attachments: seq<Attachment>,
    createdAt: int,
    updatedAt: int)

  /** What every saved or updated task satisfies, whatever the clock says now. */
  predicate WellFormed(t: TaskDoc) {
    && 1 <= Utf16Length(t.title) <= 255
    && (t.description.Some? ==> Utf16Length(t.description.value) <= 1000)
    && (forall i :: 0 <= i < |t.tags| ==> Utf16Length(t.tags[i]) <= 20)
    && (t.category.Some? ==> Utf16Length(t.category.value) <= 50)
    && (forall i :: 0 <= i < |t.attachments| ==> AttachmentOk(t.attachments[i]))
  }

  predicate AttachmentOk(a: Attachment) {
    a.name != "" && a.url != "" && a.size >= 0 && a.kind != ""
  }

  /** The `isOverdue` virtual: a due date that has passed on a task not yet completed. */
  predicate IsOverdue(t: TaskDoc, now: int) {
    t.dueDate.Some? && t.dueDate.value < now && !t.completed
  }

  // ---------------------------------------------------------------------------
  // Drafts: the values handed to `new Task({...})`, before casting
  // ---------------------------------------------------------------------------

  datatype AttachmentDraft = AttachmentDraft(
    name: Option<string>, url: Option<string>, size: Option<int>, kind: Option<string>)

  datatype Draft = Draft(
    title: Option<string>,
    description: Option<string>,
    completed: Option<bool>,
    priority: Option<string>,
    dueDate: Option<int>,
    userId: Option<ObjectId>,
    tags: seq<string>,
    category: Option<string>,
    attachments: seq<AttachmentDraft>)

  /** The schema's own messages. */
  const TitleMissing := "Title is required"
  const TitleTooLong := "Title must not exceed 255 characters"
  const DescriptionTooLong := "Description must not exceed 1000 characters"
  const CategoryTooLong := "Category must not exceed 50 characters"
  const TagTooLong := "Tag must not exceed 20 characters"
  const DueDatePassed := "Due date must be in the future"
  const UserIdMissing := "User ID is required"
  /** The name the schema is registered under. */
  const TaskModel := "Task"

  /** One failed validator: the document path and the validator's message. */
  datatype Violation = Violation(path: string, message: string)

  function TrimOpt(s: Option<string>): Option<string> {
    if s.Some? then Some(Trim(s.value)) else None
  }

  /** A string path with `required` and `maxlength`, checked after the `trim` setter. */
  function RequiredMaxViolation(v: Option<string>, max: nat, required: string, tooLong: string): (m: Option<string>)
    ensures m.None? <==> v.Some? && 1 <= Utf16Length(Trim(v.value)) <= max
  {
    // `minlength: 1` can only fail on the empty string, which `required` reports first.
    if v.None? || Trim(v.value) == "" then Some(required)
    else if Utf16Length(Trim(v.value)) > max then Some(tooLong)
    else None
  }

  /** An optional string path with `maxlength`, checked after the `trim` setter. */
  function MaxViolation(v: Option<string>, max: nat, tooLong: string): (m: Option<string>)
    ensures m.None? <==> v.None? || Utf16Length(Trim(v.value)) <= max
  {
    if v.Some? && Utf16Length(Trim(v.value)) > max then Some(tooLong) else None
  }

  function EnumViolation(v: Option<string>): (m: Option<string>)
    ensures m.None? <==> v.None? || ParsePriority(v.value).Some?
  {
    if v.Some? && ParsePriority(v.value).None? then
      Some("`" + v.value + "` is not a valid enum value for path `priority`.")
    else None
  }

  /** The custom `dueDate` validator `!value || value >= new Date()`. */
  function DueDateViolation(v: Option<int>, now: int): (m: Option<string>)
    ensures m.None? <==> v.None? || v.value >= now
  {
    if v.Some? && v.value < now then Some(DueDatePassed) else None
  }

  function At(path: string, m: Option<string>): (r: seq<Violation>)
    ensures r == [] <==> m.None?
  {
    if m.Some? then [Violation(path, m.value)] else []
  }

  /** The path of an array element, such as `tags.0`. */
  function ItemPath(list: string, i: nat): string {
    list + "." + NatToDecimal(i)
  }

  function TagViolation(t: string, i: nat): (r: seq<Violation>)
    ensures r == [] <==> TagFits(t)
  {
    At(ItemPath("tags", i), MaxViolation(Some(t), 20, TagTooLong))
  }

  /** A tag is within the limit once trimmed. */
  predicate TagFits(t: string) {
    Utf16Length(Trim(t)) <= 20
  }

  function TagViolations(tags: seq<string>): seq<Violation> {
    FlatMapIndexed(tags, 0, TagViolation)
  }

  /** Mongoose's default `required` message. */
  function RequiredMessage(name: string): string {
    "Path `" + name + "` is required."
  }

  function RequiredText(v: Option<string>, name: string): (m: Option<string>)
    ensures m.None? <==> v.Some? && v.value != ""
  {
    if v.None? || v.value == "" then Some(RequiredMessage(name)) else None
  }

  /** Mongoose's default `min` message for `size`. */
  function MinMessage(value: int): string {
    "Path `size` (" + IntToDecimal(value) + ") is less than minimum allowed value (0)."
  }

  function SizeViolation(v: Option<int>): (m: Option<string>)
    ensures m.None? <==> v.Some? && v.value >= 0
  {
    if v.None? then Some(RequiredMessage("size"))
    else if v.value < 0 then Some(MinMessage(v.value))
    else None
  }

  function OneAttachmentViolations(a: AttachmentDraft, prefix: string): (r: seq<Violation>)
    ensures r == [] <==> AttachmentDraftOk(a)
  {
    At(prefix + "name", RequiredText(TrimOpt(a.name), "name"))
    + At(prefix + "url", RequiredText(a.url, "url"))
    + At(prefix + "size", SizeViolation(a.size))
    + At(prefix + "type", RequiredText(a.kind, "type"))
  }

  function AttachmentViolation(a: AttachmentDraft, i: nat): (r: seq<Violation>)
    ensures r == [] <==> AttachmentDraftOk(a)
  {
    OneAttachmentViolations(a, ItemPath("attachments", i) + ".")
  }

  function AttachmentViolations(atts: seq<AttachmentDraft>): seq<Violation> {
    FlatMapIndexed(atts, 0, AttachmentViolation)
  }

  /** Every failing path of a new document, in schema order. */
  function Violations(d: Draft, now: int): seq<Violation> {
    At("title", RequiredMaxViolation(d.title, 255, TitleMissing, TitleTooLong))
    + At("description", MaxViolation(d.description, 1000, DescriptionTooLong))
    + At("priority", EnumViolation(d.priority))
    + At("dueDate", DueDateViolation(d.dueDate, now))
    + At("userId", if d.userId.None? then Some(UserIdMissing) else None)
    + TagViolations(d.tags)
    + At("category", MaxViolation(d.category, 50, CategoryTooLong))
    + AttachmentViolations(d.attachments)
  }

  predicate AttachmentDraftOk(a: AttachmentDraft) {
    && a.name.Some? && Trim(a.name.value) != ""
    && a.url.Some? && a.url.value != ""
    && a.size.Some? && a.size.value >= 0
    && a.kind.Some? && a.kind.value != ""
  }

  /** The schema's constraints stated path by path, independently of the validator order. */
  predicate Acceptable(d: Draft, now: int) {
    && d.title.Some? && 1 <= Utf16Length(Trim(d.title.value)) <= 255
    && (d.description.Some? ==> Utf16Length(Trim(d.description.value)) <= 1000)
    && (d.priority.Some? ==> d.priority.value in {"low", "medium", "high"})
    && (d.dueDate.Some? ==> d.dueDate.value >= now)
    && d.userId.Some?
    && (forall i :: 0 <= i < |d.tags| ==> TagFits(d.tags[i]))
    && (d.category.Some? ==> Utf16Length(Trim(d.category.value)) <= 50)
    && (forall i :: 0 <= i < |d.attachments| ==> AttachmentDraftOk(d.attachments[i]))
  }

  /** The validators report nothing exactly when the draft meets every constraint. */
  lemma ViolationsEmptyIffAcceptable(d: Draft, now: int)
    ensures Violations(d, now) == [] <==> Acceptable(d, now)
  {
    ScalarViolationsEmptyIffAcceptable(d, now);
    FlatMapIndexedEmpty(d.tags, 0, TagViolation, TagFits);
    FlatMapIndexedEmpty(d.attachments, 0, AttachmentViolation, AttachmentDraftOk);
  }

  /** The paths before `tags` report nothing exactly when their constraints hold. */
  lemma ScalarViolationsEmptyIffAcceptable(d: Draft, now: int)
    ensures
      At("title", RequiredMaxViolation(d.title, 255, TitleMissing, TitleTooLong))
      + At("description", MaxViolation(d.description, 1000, DescriptionTooLong))
      + At("priority", EnumViolation(d.priority))
      + At("dueDate", DueDateViolation(d.dueDate, now))
      + At("userId", if d.userId.None? then Some(UserIdMissing) else None) == []
      <==>
      && d.title.Some? && 1 <= Utf16Length(Trim(d.title.value)) <= 255
      && (d.description.Some? ==> Utf16Length(Trim(d.description.value)) <= 1000)
      && (d.priority.Some? ==> d.priority.value in {"low", "medium", "high"})
      && (d.dueDate.Some? ==> d.dueDate.value >= now)
      && d.userId.Some?
  {
  }

  /**
   * The head of a `ValidationError`'s message: "<model> validation failed"
   * for a document's validation, "Validation failed" for a query update's
   * validation, which has no document and so no model name.
   */
  function ValidationHeading(model: Option<string>): string {
    if model.Some? then model.value + " validation failed" else "Validation failed"
  }

  /** `ValidationError.message`: the heading, then `path: message` pairs joined by ", ". */
  function ValidationFailedMessage(model: Option<string>, vs: seq<Violation>): (m: string)
    ensures IsPrefix(ValidationHeading(model) + ": ", m)
  {
    var pairs := seq(|vs|, i requires 0 <= i < |vs| => vs[i].path + ": " + vs[i].message);
    var head := ValidationHeading(model) + ": ";
    var m := head + Join(pairs, ", ");
    assert m[..|head|] == head;
    m
  }

  /** The casting of a valid attachment draft (`name` is trimmed). */
  function CastAttachment(a: AttachmentDraft): (r: Attachment)
    requires AttachmentDraftOk(a)
    ensures AttachmentOk(r)
  {
    Attachment(Trim(a.name.value), a.url.value, a.size.value, a.kind.value)
  }

  /** The `trim` setter applied to every element of a string array. */
  function TrimAll(ss: seq<string>): (r: seq<string>)
    ensures |r| == |ss| && forall i :: 0 <= i < |ss| ==> r[i] == Trim(ss[i])
  {
    if ss == [] then [] else [Trim(ss[0])] + TrimAll(ss[1..])
  }

  function CastAttachments(atts: seq<AttachmentDraft>): (r: seq<Attachment>)
    requires forall i :: 0 <= i < |atts| ==> AttachmentDraftOk(atts[i])
    ensures |r| == |atts| && forall i :: 0 <= i < |r| ==> AttachmentOk(r[i]) && r[i] == CastAttachment(atts[i])
  {
    if atts == [] then [] else [CastAttachment(atts[0])] + CastAttachments(atts[1..])
  }

  /** The document a valid draft is cast to, with the schema defaults filled in. */
  function Cast(d: Draft, id: ObjectId, now: int): (t: TaskDoc)
    requires Acceptable(d, now)
    ensures WellFormed(t) && !IsOverdue(t, now)
  {
    var tags := TrimAll(d.tags);
    assert forall i :: 0 <= i < |tags| ==> Utf16Length(tags[i]) <= 20 by {
      forall i | 0 <= i < |tags| ensures Utf16Length(tags[i]) <= 20 {
        assert TagFits(d.tags[i]);
      }
    }
    TaskDoc(
      id := id,
      title := Trim(d.title.value),
      description := TrimOpt(d.description),
      completed := if d.completed.Some? then d.completed.value else false,
      priority := if d.priority.Some? then ParsePriority(d.priority.value).value else Medium,
      dueDate := d.dueDate,
      userId := d.userId.value,
      tags := tags,
      category := TrimOpt(d.category),
      attachments := CastAttachments(d.attachments),
      createdAt := now,
      updatedAt := now)
  }

  /**
   * `new Task(draft)` followed by validation at `now`: the saved document,
   * or every failing path. Timestamps are both set to `now`.
   */
  function Build(d: Draft, id: ObjectId, now: int): (r: Result<TaskDoc, seq<Violation>>)
    ensures r.Err? <==> !Acceptable(d, now)
    ensures r.Err? ==> r.error == Violations(d, now) && r.error != []
    ensures r.Ok? ==> WellFormed(r.value) && !IsOverdue(r.value, now)
    ensures r.Ok? ==> r.value.id == id && Some(r.value.userId) == d.userId
    ensures r.Ok? ==> r.value.title == Trim(d.title.value) && r.value.tags == TrimAll(d.tags)
    ensures r.Ok? ==> r.value.completed == (d.completed == Some(true))
    ensures r.Ok? ==> r.value.priority == (if d.priority.None? then Medium else ParsePriority(d.priority.value).value)
    ensures r.Ok? ==> r.value.dueDate == d.dueDate && r.value.createdAt == now && r.value.updatedAt == now
    ensures r.Ok? ==> r.value.description == TrimOpt(d.description) && r.value.category == TrimOpt(d.category)
    ensures r.Ok? ==>
      && (forall i :: 0 <= i < |d.attachments| ==> AttachmentDraftOk(d.attachments[i]))
      && r.value.attachments == CastAttachments(d.attachments)
  {
    ViolationsEmptyIffAcceptable(d, now);
    var vs := Violations(d, now);
    if vs != [] then Err(vs) else Ok(Cast(d, id, now))
  }

  /**
   * The `pre('save')` hook, which runs after validation: when `userId` was
   * modified and names no user, saving fails with 'User not found'.
   */
  function PreSave(userIdModified: bool, userId: ObjectId, users: set<ObjectId>): (r: Option<string>)
    ensures r.Some? <==> userIdModified && userId !in users
    ensures r.Some? ==> r.value == "User not found"
  {
    if userIdModified && userId !in users then Some("User not found") else None
  }

  // ---------------------------------------------------------------------------
  // Partial updates (`findOneAndUpdate` with `runValidators: true`)
  // ---------------------------------------------------------------------------

  /**
   * The keys of an update, which is the request body spread as it is;
   * absent keys are left alone. `userId` and `attachments` are schema
   * paths too, so a body that carries them rewrites them.
   */
  datatype Patch = Patch(
    title: Option<string>,
    description: Option<string>,
    completed: Option<bool>,
    priority: Option<string>,
    dueDate: Option<int>,
    userId: Option<ObjectId>,
    category: Option<string>,
    tags: Option<seq<string>>,
    attachments: Option<seq<AttachmentDraft>>)

  /**
   * Update validators run only on the paths the update sets; a `userId`
   * that is set meets `required`, and the `pre('save')` hook does not run
   * on a query update.
   */
  function PatchViolations(p: Patch, now: int): seq<Violation> {
    (if p.title.Some? then
       At("title", RequiredMaxViolation(p.title, 255, TitleMissing, TitleTooLong))
     else [])
    + At("description", MaxViolation(p.description, 1000, DescriptionTooLong))
    + At("priority", EnumViolation(p.priority))
    + At("dueDate", DueDateViolation(p.dueDate, now))
    + (if p.tags.Some? then TagViolations(p.tags.value) else [])
    + At("category", MaxViolation(p.category, 50, CategoryTooLong))
    + (if p.attachments.Some? then AttachmentViolations(p.attachments.value) else [])
  }

  predicate PatchAcceptable(p: Patch, now: int) {
    && (p.title.Some? ==> 1 <= Utf16Length(Trim(p.title.value)) <= 255)
    && (p.description.Some? ==> Utf16Length(Trim(p.description.value)) <= 1000)
    && (p.priority.Some? ==> p.priority.value in {"low", "medium", "high"})
    && (p.dueDate.Some? ==> p.dueDate.value >= now)
    && (p.tags.Some? ==> forall i :: 0 <= i < |p.tags.value| ==> TagFits(p.tags.value[i]))
    && (p.category.Some? ==> Utf16Length(Trim(p.category.value)) <= 50)
    && (p.attachments.Some? ==> forall i :: 0 <= i < |p.attachments.value| ==> AttachmentDraftOk(p.attachments.value[i]))
  }

  lemma PatchViolationsEmptyIffAcceptable(p: Patch, now: int)
    ensures PatchViolations(p, now) == [] <==> PatchAcceptable(p, now)
  {
    if p.tags.Some? {
      FlatMapIndexedEmpty(p.tags.value, 0, TagViolation, TagFits);
    }
    if p.attachments.Some? {
      FlatMapIndexedEmpty(p.attachments.value, 0, AttachmentViolation, AttachmentDraftOk);
    }
  }

  /**
   * The document after an accepted update at `now`: each key present is
   * written, cast as on creation (title, description, category and every
   * tag trimmed, the priority parsed, each attachment cast one for one,
   * `userId` and the dates as given); every other field is kept, and the
   * `updatedAt` timestamp moves to `now`.
   */
  function ApplyPatch(t: TaskDoc, p: Patch, now: int): (r: TaskDoc)
    requires PatchAcceptable(p, now)
    ensures r.id == t.id && r.createdAt == t.createdAt
    ensures r.updatedAt == now
  {
    var priority := if p.priority.Some? then ParsePriority(p.priority.value).value else t.priority;
    var attachments := if p.attachments.Some? then CastAttachments(p.attachments.value) else t.attachments;
    TaskDoc(
      id := t.id,
      title := if p.title.Some? then Trim(p.title.value) else t.title,
      description := if p.description.Some? then TrimOpt(p.description) else t.description,
      completed := if p.completed.Some? then p.completed.value else t.completed,
      priority := priority,
      dueDate := if p.dueDate.Some? then p.dueDate else t.dueDate,
      userId := if p.userId.Some? then p.userId.value else t.userId,
      tags := if p.tags.Some? then TrimAll(p.tags.value) else t.tags,
      category := if p.category.Some? then TrimOpt(p.category) else t.category,
      attachments := attachments,
      createdAt := t.createdAt,
      updatedAt := now)
  }

  /** The keys of `q` over those of `p`: the body of one update that does what `p` and then `q` do. */
  function Overlay(p: Patch, q: Patch): Patch {
    Patch(
      title := if q.title.Some? then q.title else p.title,
      description := if q.description.Some? then q.description else p.description,
      completed := if q.completed.Some? then q.completed else p.completed,
      priority := if q.priority.Some? then q.priority else p.priority,
      dueDate := if q.dueDate.Some? then q.dueDate else p.dueDate,
      userId := if q.userId.Some? then q.userId else p.userId,
      category := if q.category.Some? then q.category else p.category,
      tags := if q.tags.Some? then q.tags else p.tags,
      attachments := if q.attachments.Some? then q.attachments else p.attachments)
  }

  /** Two updates the validators accept at the same time overlay to one they accept. */
  lemma OverlayAcceptable(p: Patch, q: Patch, now: int)
    requires PatchAcceptable(p, now) && PatchAcceptable(q, now)
    ensures PatchAcceptable(Overlay(p, q), now)
  {
  }

  /**
   * Two successive accepted updates leave the document exactly as one
   * update with the second's keys over the first's: each key's last
   * written value wins, and the timestamp is the second update's.
   */
  lemma SuccessiveUpdatesCompose(t: TaskDoc, p: Patch, q: Patch, first: int, second: int)
    requires PatchAcceptable(p, first) && PatchAcceptable(q, second) && PatchAcceptable(Overlay(p, q), second)
    ensures ApplyPatch(ApplyPatch(t, p, first), q, second) == ApplyPatch(t, Overlay(p, q), second)
  {
  }

  /** Sending the same accepted update again, at a later time, changes only the timestamp. */
  lemma RepeatedUpdateIsIdempotent(t: TaskDoc, p: Patch, first: int, second: int)
    requires PatchAcceptable(p, first) && PatchAcceptable(p, second)
    ensures ApplyPatch(ApplyPatch(t, p, first), p, second) == ApplyPatch(t, p, first).(updatedAt := second)
  {
    assert Overlay(p, p) == p;
    SuccessiveUpdatesCompose(t, p, p, first, second);
  }

  /** No key is carried by both updates. */
  predicate DisjointKeys(p: Patch, q: Patch) {
    && !(p.title.Some? && q.title.Some?) && !(p.description.Some? && q.description.Some?)
    && !(p.completed.Some? && q.completed.Some?) && !(p.priority.Some? && q.priority.Some?)
    && !(p.dueDate.Some? && q.dueDate.Some?) && !(p.userId.Some? && q.userId.Some?)
    && !(p.category.Some? && q.category.Some?) && !(p.tags.Some? && q.tags.Some?)
    && !(p.attachments.Some? && q.attachments.Some?)
  }

  /** Two accepted updates on different keys, at the same time, give the same document in either order. */
  lemma DisjointUpdatesCommute(t: TaskDoc, p: Patch, q: Patch, now: int)
    requires PatchAcceptable(p, now) && PatchAcceptable(q, now) && DisjointKeys(p, q)
    ensures ApplyPatch(ApplyPatch(t, p, now), q, now) == ApplyPatch(ApplyPatch(t, q, now), p, now)
  {
    OverlayAcceptable(p, q, now);
    OverlayAcceptable(q, p, now);
    assert Overlay(p, q) == Overlay(q, p);
    SuccessiveUpdatesCompose(t, p, q, now, now);
    SuccessiveUpdatesCompose(t, q, p, now, now);
  }

  /** An accepted update of a well-formed task is well formed. */
  lemma ApplyPatchKeepsWellFormed(t: TaskDoc, p: Patch, now: int)
    requires PatchAcceptable(p, now) && WellFormed(t)
    ensures WellFormed(ApplyPatch(t, p, now))
  {
    var r := ApplyPatch(t, p, now);
    if p.tags.Some? {
      forall i | 0 <= i < |r.tags| ensures Utf16Length(r.tags[i]) <= 20 {
        assert TagFits(p.tags.value[i]);
      }
    }
  }

  /** An update with no keys changes nothing but the `updatedAt` timestamp. */
  lemma EmptyPatchTouchesOnlyTimestamp(t: TaskDoc, now: int)
    ensures ApplyPatch(t, Patch(None, None, None, None, None, None, None, None, None), now) == t.(updatedAt := now)
  {
  }
}
