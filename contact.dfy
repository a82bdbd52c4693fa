/** Contact-form submissions and their review workflow: the model's status
    mutators and scopes (app/Models/ContactSubmission.php), the admin
    resource's badge, colours, action visibility, bulk actions and reply link
    (app/Filament/Resources/ContactSubmissionResource.php), and the view page
    that marks a new submission read (.../Pages/ViewContactSubmission.php).
    A status is any string: `new`, `read`, `replied` and `archived` are the
    ones the workflow writes. */
module Contact {
  import opened Common
  import opened Collections

  /** A submission's fillable columns. */
  datatype Record = Record(
    name: string,
    email: string,
    phone: Option<string>,
    subject: Option<string>,
    message: string,
    ipAddress: Option<string>,
    userAgent: Option<string>,
    status: string,
    adminNotes: Option<string>)

  /** The three transitions; none of them looks at the current status. */
  datatype Transition = MarkAsRead | MarkAsReplied | Archive

  function Target(t: Transition): string
  {
    match t
    case MarkAsRead => "read"
    case MarkAsReplied => "replied"
    case Archive => "archived"
  }

  /** `update(['status' => ...])`: the record with only its status replaced. */
  function Apply(t: Transition, r: Record): (r': Record)
    ensures r'.status == Target(t)
    ensures r' == r.(status := r'.status)
  {
    r.(status := Target(t))
  }

  /** Applying a transition twice is applying it once, and the last of two
      transitions wins whatever came before. */
  lemma TransitionsIdempotent(t: Transition, u: Transition, r: Record)
    ensures Apply(t, Apply(t, r)) == Apply(t, r)
    ensures Apply(u, Apply(t, r)) == Apply(u, r)
  {
  }

  class Submission {
    var record: Record

    constructor (r: Record)
      ensures record == r
    {
      record := r;
    }

    /** `markAsRead()`, `markAsReplied()` and `archive()`. */
    method Perform(t: Transition)
      modifies this
      ensures record == Apply(t, old(record))
    {
      record := record.(status := Target(t));
    }
  }

  // ---- Scopes, badge and colours ----

  predicate IsNew(r: Record) { r.status == "new" }

  predicate StatusIn(r: Record, statuses: seq<string>) { r.status in statuses }

  predicate IsUnread(r: Record) { StatusIn(r, ["new"]) }

  /** `scopeNew`: `where('status', 'new')`. */
  function ScopeNew(rs: seq<Record>): seq<Record>
  {
    Filter(rs, IsNew)
  }

  /** `scopeUnread`: `whereIn('status', ['new'])`. */
  function ScopeUnread(rs: seq<Record>): seq<Record>
  {
    Filter(rs, IsUnread)
  }

  /** The two scopes select the same rows. */
  lemma ScopesAgree(rs: seq<Record>)
    ensures ScopeNew(rs) == ScopeUnread(rs)
  {
    forall r ensures IsNew(r) == IsUnread(r) {
      assert IsUnread(r) <==> r.status == "new";
    }
    FilterSame(rs, IsNew, IsUnread);
  }

  /** `getNavigationBadge()`: the number of new submissions, or null when
      there are none (`count() ?: null`). */
  function NavigationBadge(rs: seq<Record>): (b: Option<nat>)
    ensures b.None? <==> forall i :: 0 <= i < |rs| ==> !IsNew(rs[i])
    ensures b.Some? ==> b.value == |ScopeNew(rs)| && b.value > 0
  {
    var n := |ScopeNew(rs)|;
    if n == 0 then
      None
    else
      assert IsNew(ScopeNew(rs)[0]) && ScopeNew(rs)[0] in rs;
      Some(n)
  }

  /** `getNavigationBadgeColor()`. */
  function NavigationBadgeColor(rs: seq<Record>): (c: string)
    ensures c == "danger" <==> exists i :: 0 <= i < |rs| && IsNew(rs[i])
    ensures c != "danger" ==> c == "gray"
  {
    if |ScopeNew(rs)| > 0 then
      assert IsNew(ScopeNew(rs)[0]) && ScopeNew(rs)[0] in rs;
      "danger"
    else
      assert NavigationBadge(rs).None?;
      "gray"
  }

  /** The status badge colour of the table. */
  function StatusColor(state: string): (c: string)
    ensures c == "danger" <==> state == "new"
    ensures c == "warning" <==> state == "read"
    ensures c == "success" <==> state == "replied"
    ensures c == "gray" <==> state !in {"new", "read", "replied"}
  {
    match state
    case "new" => "danger"
    case "read" => "warning"
    case "replied" => "success"
    case "archived" => "gray"
    case _ => "gray"
  }

  // ---- Row actions ----

  /** "Mark Read" is offered only for a new submission. */
  predicate MarkReadVisible(r: Record) { r.status == "new" }

  /** "Mark Replied" is offered for a new or read submission. */
  predicate MarkRepliedVisible(r: Record) { r.status in ["new", "read"] }

  /** The actions follow the workflow: after "Mark Read" only "Mark
      Replied" remains, after "Mark Replied" or "Archive" neither does. */
  lemma ActionsFollowWorkflow(r: Record)
    ensures !MarkReadVisible(Apply(MarkAsRead, r)) && MarkRepliedVisible(Apply(MarkAsRead, r))
    ensures !MarkReadVisible(Apply(MarkAsReplied, r)) && !MarkRepliedVisible(Apply(MarkAsReplied, r))
    ensures !MarkReadVisible(Apply(Archive, r)) && !MarkRepliedVisible(Apply(Archive, r))
    ensures MarkReadVisible(r) ==> MarkRepliedVisible(r)
  {
  }

  /** The "Reply via Email" link, used by the table row and the view page
      alike; a null subject interpolates as the empty string. */
  function ReplyUrl(email: string, subject: Option<string>): (u: string)
    ensures StartsWith(u, "mailto:" + email + "?subject=Re: ")
    ensures u[|"mailto:" + email + "?subject=Re: "|..] == if subject.Some? then subject.value else ""
  {
    var s := if subject.Some? then subject.value else "";
    var p := "mailto:" + email + "?subject=Re: ";
    assert (p + s)[..|p|] == p;
    p + s
  }

  /** The bulk actions: the same transition on every selected submission,
      their other columns untouched. */
  method Bulk(records: seq<Submission>, t: Transition)
    modifies set r | r in records
    ensures forall r :: r in records ==> r.record == Apply(t, old(r.record))
  {
    var i := 0;
    while i < |records|
      invariant 0 <= i <= |records|
      invariant forall r :: r in records ==> r.record == old(r.record).(status := r.record.status)
      invariant forall j :: 0 <= j < i ==> records[j].record.status == Target(t)
    {
      records[i].Perform(t);
      i := i + 1;
    }
    forall r | r in records ensures r.record == Apply(t, old(r.record)) {
      var j :| 0 <= j < |records| && records[j] == r;
    }
  }

  // ---- The view page ----

  /** `mutateFormDataBeforeFill($data)`: viewing a new submission marks it
      read; the form is filled with the data as received, so it shows the
      status from before the view. */
  method ViewBeforeFill(sub: Submission, data: map<string, Option<string>>) returns (filled: map<string, Option<string>>)
    modifies sub
    ensures filled == data
    ensures old(sub.record.status) == "new" ==> sub.record == Apply(MarkAsRead, old(sub.record))
    ensures old(sub.record.status) != "new" ==> sub.record == old(sub.record)
  {
    if sub.record.status == "new" {
      sub.Perform(MarkAsRead);
    }
    filled := data;
  }
}
