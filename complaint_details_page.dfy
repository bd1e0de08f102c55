/** The presentation rules of src/pages/ComplaintDetailsPage.tsx: the badge
    classes and icons per status and priority, the not-found rule, the status
    timeline, and which optional sections appear. */
module ComplaintDetailsPage {
  import opened Wrappers
  import opened Types
  import opened ComplaintContext

  // ---------------------------------------------------------------------------
  // Badges
  // ---------------------------------------------------------------------------

  const WarningBadge := "text-warning-600 bg-warning-100"
  const SecondaryBadge := "text-secondary-600 bg-secondary-100"
  const SuccessBadge := "text-success-600 bg-success-100"
  const ErrorBadge := "text-error-600 bg-error-100"
  const UrgentBadge := "text-error-800 bg-error-200"
  const GrayBadge := "text-gray-600 bg-gray-100"

  /** The icons the page draws, as tags. */
  datatype Icon = Clock | FileText | CheckCircle | AlertTriangle

  /** `getStatusColor`: a `switch` over the status string with a gray default. */
  function StatusColor(status: string): (r: string)
    ensures r == GrayBadge <==> status != "pending" && status != "inProgress" && status != "resolved" && status != "escalated"
  {
    if status == "pending" then WarningBadge
    else if status == "inProgress" then SecondaryBadge
    else if status == "resolved" then SuccessBadge
    else if status == "escalated" then ErrorBadge
    else GrayBadge
  }

  /** `getStatusIcon`: the default shares `Clock` with `pending`. */
  function StatusIcon(status: string): (r: Icon)
    ensures r == Clock <==> status != "inProgress" && status != "resolved" && status != "escalated"
  {
    if status == "pending" then Clock
    else if status == "inProgress" then FileText
    else if status == "resolved" then CheckCircle
    else if status == "escalated" then AlertTriangle
    else Clock
  }

  /** `getPriorityColor`. */
  function PriorityColor(priority: string): (r: string)
    ensures r == GrayBadge <==> priority != "low" && priority != "medium" && priority != "high" && priority != "urgent"
  {
    if priority == "low" then SuccessBadge
    else if priority == "medium" then WarningBadge
    else if priority == "high" then ErrorBadge
    else if priority == "urgent" then UrgentBadge
    else GrayBadge
  }

  /** The four open statuses get four different badges, none of them gray;
      `closed` and every other string fall through to gray. */
  lemma StatusColorRule(a: Status, b: Status, other: string)
    ensures StatusColor(StatusName(a)) == GrayBadge <==> a == Closed
    ensures a != b && a != Closed && b != Closed ==> StatusColor(StatusName(a)) != StatusColor(StatusName(b))
    ensures (forall s :: StatusName(s) != other) ==> StatusColor(other) == GrayBadge
  {
    if forall s :: StatusName(s) != other {
      assert StatusName(Pending) != other && StatusName(InProgress) != other;
      assert StatusName(Resolved) != other && StatusName(Escalated) != other;
    }
  }

  /** `Clock` is drawn exactly for `pending` and `closed`; `resolved` gets
      `CheckCircle` and `escalated` `AlertTriangle`. */
  lemma StatusIconRule(s: Status)
    ensures StatusIcon(StatusName(s)) == Clock <==> s == Pending || s == Closed
    ensures StatusIcon(StatusName(s)) == CheckCircle <==> s == Resolved
    ensures StatusIcon(StatusName(s)) == AlertTriangle <==> s == Escalated
  {
  }

  /** The four priorities get four different badges, none of them gray. */
  lemma PriorityColorRule(a: Priority, b: Priority, other: string)
    ensures PriorityColor(PriorityName(a)) != GrayBadge
    ensures a != b ==> PriorityColor(PriorityName(a)) != PriorityColor(PriorityName(b))
    ensures (forall p :: PriorityName(p) != other) ==> PriorityColor(other) == GrayBadge
  {
    if forall p :: PriorityName(p) != other {
      assert PriorityName(Low) != other && PriorityName(Medium) != other;
      assert PriorityName(High) != other && PriorityName(Urgent) != other;
    }
  }

  // ---------------------------------------------------------------------------
  // Not found
  // ---------------------------------------------------------------------------

  /** `id ? getComplaint(id) : null`: the complaint to show; `None` is the
      not-found view. An empty route id counts as missing. */
  function Shown(routeId: Option<string>, cs: seq<Complaint>): (r: Option<Complaint>)
    ensures r.None? <==> routeId.None? || routeId.value == "" || Find(cs, routeId.value).None?
    ensures r.Some? ==> r.value in cs && r.value.id == routeId.value
    ensures r.Some? ==> r == Find(cs, routeId.value)
  {
    match routeId
    case None => None
    case Some(id) =>
      if id == "" then None
      else
        var found := Find(cs, id);
        assert found.Some? ==> found.value in cs && found.value.id == id by {
          if found.Some? {
            var i :| FirstMatch(cs, id, i) && cs[i] == found.value;
          }
        }
        found
  }

  // ---------------------------------------------------------------------------
  // Timeline
  // ---------------------------------------------------------------------------

  /** One entry of the status timeline: the update, its icon and badge, and
      whether the connector line to the next entry is drawn. */
  datatype TimelineRow = TimelineRow(update: ComplaintUpdate, icon: Icon, color: string, connector: bool)

  function Row(u: ComplaintUpdate, isLast: bool): TimelineRow
  {
    TimelineRow(u, StatusIcon(StatusName(u.status)), StatusColor(StatusName(u.status)), !isLast)
  }

  /** `updates.map((update, index) => …)` with `isLast = index === updates.length - 1`. */
  function Timeline(updates: seq<ComplaintUpdate>): (rows: seq<TimelineRow>)
    ensures |rows| == |updates|
  {
    seq(|updates|, i requires 0 <= i < |updates| => Row(updates[i], i == |updates| - 1))
  }

  /** The rows follow the updates in insertion order, and every row but the last
      has a connector. */
  lemma TimelineOrder(updates: seq<ComplaintUpdate>, i: int)
    requires 0 <= i < |updates|
    ensures Timeline(updates)[i].update == updates[i]
    ensures Timeline(updates)[i].connector <==> i < |updates| - 1
  {
  }

  /** Appending an update adds a final row without a connector and gives the
      previous last row one; nothing else changes. */
  lemma TimelineAppend(updates: seq<ComplaintUpdate>, u: ComplaintUpdate)
    ensures var before, after := Timeline(updates), Timeline(updates + [u]);
            && |after| == |before| + 1
            && after[|updates|] == Row(u, true)
            && forall i :: 0 <= i < |updates| ==> after[i] == before[i].(connector := true)
  {
    var before, after := Timeline(updates), Timeline(updates + [u]);
    forall i | 0 <= i < |updates| ensures after[i] == before[i].(connector := true) {
      assert (updates + [u])[i] == updates[i];
    }
  }

  // ---------------------------------------------------------------------------
  // Feedback and the optional rows
  // ---------------------------------------------------------------------------

  /** The five stars `[1, 2, 3, 4, 5]`: star `k` (at index `k - 1`) is filled iff `k <= rating`. */
  function Stars(rating: int): (r: seq<bool>)
    ensures |r| == 5
    ensures forall i :: 0 <= i < 5 ==> r[i] == (i + 1 <= rating)
  {
    [1 <= rating, 2 <= rating, 3 <= rating, 4 <= rating, 5 <= rating]
  }

  function CountFilled(stars: seq<bool>): nat
  {
    if stars == [] then 0 else (if stars[0] then 1 else 0) + CountFilled(stars[1..])
  }

  /** The number of filled stars is the rating, clamped to 0..5. */
  lemma FilledStarsCount(rating: int)
    ensures CountFilled(Stars(rating)) == if rating < 0 then 0 else if rating > 5 then 5 else rating
  {
    var s := Stars(rating);
    var b := seq(5, i requires 0 <= i < 5 => if s[i] then 1 else 0);
    assert CountFilled(s[4..]) == b[4] by { assert s[4..][1..] == []; }
    assert CountFilled(s[3..]) == b[3] + b[4] by { assert s[3..][1..] == s[4..]; }
    assert CountFilled(s[2..]) == b[2] + b[3] + b[4] by { assert s[2..][1..] == s[3..]; }
    assert CountFilled(s[1..]) == b[1] + b[2] + b[3] + b[4] by { assert s[1..][1..] == s[2..]; }
  }

  /** What the page shows besides the fixed fields. */
  datatype Sections = Sections(
    attachments: bool,
    feedbackStars: Option<seq<bool>>,
    resolvedRow: bool,
    assignedToRow: bool,
    departmentRow: bool)

  /** The conditional sections, each guarded by a truthiness test: attachments
      when the list is present and non-empty, feedback when the status is
      `resolved` and feedback exists, the resolved row when `resolvedAt` is set,
      the assignee and department rows when those strings are present and not empty. */
  function SectionsOf(c: Complaint): (r: Sections)
    ensures r.attachments <==> c.attachments.Some? && |c.attachments.value| > 0
    ensures r.feedbackStars.Some? <==> c.status == Resolved && c.feedback.Some?
    ensures r.feedbackStars.Some? ==> r.feedbackStars.value == Stars(c.feedback.value.rating)
    ensures r.resolvedRow <==> c.resolvedAt.Some?
    ensures r.assignedToRow <==> c.assignedTo.Some? && c.assignedTo.value != ""
    ensures r.departmentRow <==> c.assignedDepartment.Some? && c.assignedDepartment.value != ""
  {
    Sections(
      c.attachments.Some? && |c.attachments.value| > 0,
      if c.status == Resolved && c.feedback.Some? then Some(Stars(c.feedback.value.rating)) else None,
      c.resolvedAt.Some?,
      c.assignedTo.Some? && c.assignedTo.value != "",
      c.assignedDepartment.Some? && c.assignedDepartment.value != "")
  }

  /** An update that keeps the status `resolved` but drops the feedback hides the
      feedback section; one that reopens the complaint hides it as well. */
  lemma FeedbackNeedsBoth(c: Complaint, now: Time)
    requires c.status == Resolved && c.feedback.Some?
    ensures SectionsOf(c).feedbackStars.Some?
    ensures SectionsOf(Merge(c, EmptyPatch.(feedback := Some(None)), now)).feedbackStars.None?
    ensures SectionsOf(Merge(c, EmptyPatch.(status := Some(InProgress)), now)).feedbackStars.None?
  {
  }
}
