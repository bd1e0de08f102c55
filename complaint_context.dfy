/** The complaint store of src/contexts/ComplaintContext.tsx: an in-memory table of
    complaints, seeded with two sample complaints, with submit, update, lookup,
    per-owner listing, tracking and a `loading` flag. */
module ComplaintContext {
  import opened Wrappers
  import opened Strings
  import opened Types

  // ---------------------------------------------------------------------------
  // Complaint ids
  // ---------------------------------------------------------------------------

  /** The id given to the `n`-th complaint: `CMP` and the decimal of `n`,
      left-padded with zeros to at least three digits and never truncated. */
  function ComplaintId(n: nat): string
  {
    "CMP" + PadStart(Decimal(n), 3, '0')
  }

  /** An id is `CMP`, then zeros, then the decimal of `n`, with at least three
      characters after the prefix. */
  lemma ComplaintIdShape(n: nat)
    ensures var id := ComplaintId(n);
            && |id| == 3 + (if |Decimal(n)| >= 3 then |Decimal(n)| else 3)
            && id[..3] == "CMP"
            && id[|id| - |Decimal(n)|..] == Decimal(n)
            && forall i :: 3 <= i < |id| - |Decimal(n)| ==> id[i] == '0'
  {
    var digits := PadStart(Decimal(n), 3, '0');
    assert ComplaintId(n)[3..] == digits;
  }

  /** Reads back the number in a complaint id. */
  function ParseComplaintId(id: string): Option<nat>
  {
    if |id| > 3 && id[..3] == "CMP" && forall i :: 3 <= i < |id| ==> IsDigit(id[i]) then
      Some(DigitsValue(id[3..]))
    else
      None
  }

  lemma ComplaintIdRoundTrip(n: nat)
    ensures ParseComplaintId(ComplaintId(n)) == Some(n)
  {
    var d := Decimal(n);
    var id := ComplaintId(n);
    ComplaintIdShape(n);
    var k := if |d| >= 3 then 0 else 3 - |d|;
    assert id[3..] == Repeat('0', k) + d;
    LeadingZerosValue(k, d);
    DecimalRoundTrip(n);
  }

  /** Distinct positions get distinct ids. */
  lemma ComplaintIdInjective(a: nat, b: nat)
    requires ComplaintId(a) == ComplaintId(b)
    ensures a == b
  {
    ComplaintIdRoundTrip(a);
    ComplaintIdRoundTrip(b);
  }

  // ---------------------------------------------------------------------------
  // The sample data the store starts with
  // ---------------------------------------------------------------------------

  const Jan10: Time := 1704844800000
  const Jan14: Time := 1705190400000
  const Jan15: Time := 1705276800000
  const Jan16: Time := 1705363200000

  /** The first sample complaint, CMP001. */
  const MockGarbage := Complaint(
    "CMP001", "1", Sanitation, "Garbage not collected for 3 days",
    "The garbage in our area has not been collected for the past 3 days. It is causing health issues and bad smell.",
    "Sector 15, Noida", High, InProgress, None,
    Some("Municipal Worker #123"), Some("Sanitation Department"),
    Jan15, Jan16, None, None,
    [ComplaintUpdate("UPD001", "CMP001", "Complaint received and assigned to sanitation team",
                     InProgress, "System", Jan15, None)])

  /** The second sample complaint, CMP002, resolved with feedback. */
  const MockPothole := Complaint(
    "CMP002", "1", Infrastructure, "Pothole on main road",
    "Large pothole on the main road causing traffic issues and vehicle damage.",
    "MG Road, Bangalore", Medium, Resolved, None,
    Some("Road Maintenance Team"), Some("Public Works"),
    Jan10, Jan14, Some(Jan14), Some(ComplaintFeedback(4, Some("Good work, fixed quickly"), Jan14)),
    [ComplaintUpdate("UPD002", "CMP002", "Complaint received and assigned to road maintenance team",
                     InProgress, "System", Jan10, None),
     ComplaintUpdate("UPD003", "CMP002", "Pothole has been filled and road repaired",
                     Resolved, "Road Maintenance Team", Jan14, None)])

  /** `mockComplaints`, the table the store starts with. */
  function MockComplaints(): (r: seq<Complaint>)
    ensures |r| == 2
  {
    [MockGarbage, MockPothole]
  }

  // ---------------------------------------------------------------------------
  // Submitting
  // ---------------------------------------------------------------------------

  const SubmittedMessage := "Complaint submitted successfully"
  const SystemActor := "System"
  const SubmitFailedMessage := "Failed to submit complaint"
  const UpdateFailedMessage := "Failed to update complaint"
  const TrackFailedMessage := "Failed to track complaint"

  /** `user?.id || ''`: the owner stamped on a new complaint (an empty id and no
      user both give `''`). */
  function OwnerId(user: Option<User>): (r: string)
    ensures r == "" <==> user.None? || user.value.id == ""
    ensures r != "" ==> r == user.value.id
  {
    match user
    case None => ""
    case Some(u) => u.id
  }

  /** The record `submitComplaint` builds when the store holds `count` complaints:
      the input's fields, the next id, the owner, both timestamps `now`, and one
      audit entry for the submission. */
  function NewComplaint(data: ComplaintInput, count: nat, userId: string, now: Time): Complaint
  {
    var id := ComplaintId(count + 1);
    Complaint(id, userId, data.category, data.subject, data.description, data.location,
              data.priority, data.status, data.attachments, data.assignedTo,
              data.assignedDepartment, now, now, data.resolvedAt, data.feedback,
              [ComplaintUpdate("UPD" + Decimal(now), id, SubmittedMessage, data.status,
                               SystemActor, now, None)])
  }

  // ---------------------------------------------------------------------------
  // Updating
  // ---------------------------------------------------------------------------

  /** One key of a spread: a key the partial has gives its value (for an optional
      field `Some(None)` clears it); an absent key keeps the current value. */
  ghost predicate Spread<T>(patched: Option<T>, current: T, result: T)
  {
    (patched.Some? ==> result == patched.value) && (patched.None? ==> result == current)
  }

  /** One key of a spread, computed. */
  function Pick<T>(patched: Option<T>, current: T): (r: T)
    ensures Spread(patched, current, r)
  {
    match patched
    case Some(v) => v
    case None => current
  }

  /** `{ ...complaint, ...updates, updatedAt: now }`: every key the partial has
      replaces the complaint's, and `updatedAt` is `now` whatever the partial says. */
  function Merge(c: Complaint, p: ComplaintPatch, now: Time): (r: Complaint)
    ensures r.updatedAt == now
    ensures Spread(p.id, c.id, r.id) && Spread(p.userId, c.userId, r.userId)
    ensures Spread(p.category, c.category, r.category) && Spread(p.subject, c.subject, r.subject)
    ensures Spread(p.description, c.description, r.description) && Spread(p.location, c.location, r.location)
    ensures Spread(p.priority, c.priority, r.priority) && Spread(p.status, c.status, r.status)
    ensures Spread(p.attachments, c.attachments, r.attachments)
    ensures Spread(p.assignedTo, c.assignedTo, r.assignedTo)
    ensures Spread(p.assignedDepartment, c.assignedDepartment, r.assignedDepartment)
    ensures Spread(p.submittedAt, c.submittedAt, r.submittedAt)
    ensures Spread(p.resolvedAt, c.resolvedAt, r.resolvedAt) && Spread(p.feedback, c.feedback, r.feedback)
    ensures Spread(p.updates, c.updates, r.updates)
  {
    Complaint(
      Pick(p.id, c.id),
      Pick(p.userId, c.userId),
      Pick(p.category, c.category),
      Pick(p.subject, c.subject),
      Pick(p.description, c.description),
      Pick(p.location, c.location),
      Pick(p.priority, c.priority),
      Pick(p.status, c.status),
      Pick(p.attachments, c.attachments),
      Pick(p.assignedTo, c.assignedTo),
      Pick(p.assignedDepartment, c.assignedDepartment),
      Pick(p.submittedAt, c.submittedAt),
      now,
      Pick(p.resolvedAt, c.resolvedAt),
      Pick(p.feedback, c.feedback),
      Pick(p.updates, c.updates))
  }

  /** `{ ...first, ...second }`: the later partial wins on every key both have. */
  function CombinePatches(first: ComplaintPatch, second: ComplaintPatch): ComplaintPatch
  {
    ComplaintPatch(
      if second.id.Some? then second.id else first.id,
      if second.userId.Some? then second.userId else first.userId,
      if second.category.Some? then second.category else first.category,
      if second.subject.Some? then second.subject else first.subject,
      if second.description.Some? then second.description else first.description,
      if second.location.Some? then second.location else first.location,
      if second.priority.Some? then second.priority else first.priority,
      if second.status.Some? then second.status else first.status,
      if second.attachments.Some? then second.attachments else first.attachments,
      if second.assignedTo.Some? then second.assignedTo else first.assignedTo,
      if second.assignedDepartment.Some? then second.assignedDepartment else first.assignedDepartment,
      if second.submittedAt.Some? then second.submittedAt else first.submittedAt,
      if second.updatedAt.Some? then second.updatedAt else first.updatedAt,
      if second.resolvedAt.Some? then second.resolvedAt else first.resolvedAt,
      if second.feedback.Some? then second.feedback else first.feedback,
      if second.updates.Some? then second.updates else first.updates)
  }

  /** An empty partial only refreshes `updatedAt`. */
  lemma MergeEmptyPatch(c: Complaint, now: Time)
    ensures Merge(c, EmptyPatch, now) == c.(updatedAt := now)
  {
  }

  /** Two merges in a row are one merge of the combined partial (last write wins
      per field), stamped with the second time. */
  lemma MergeTwice(c: Complaint, first: ComplaintPatch, t1: Time, second: ComplaintPatch, t2: Time)
    ensures Merge(Merge(c, first, t1), second, t2) == Merge(c, CombinePatches(first, second), t2)
  {
  }

  /** `prev.map(complaint => complaint.id === id ? merged : complaint)`. */
  function MergeById(cs: seq<Complaint>, id: string, p: ComplaintPatch, now: Time): (r: seq<Complaint>)
    ensures |r| == |cs|
    ensures forall k :: 0 <= k < |cs| ==>
              r[k] == if cs[k].id == id then Merge(cs[k], p, now) else cs[k]
  {
    if cs == [] then []
    else
      var rest := MergeById(cs[1..], id, p, now);
      assert forall k :: 1 <= k < |cs| ==> cs[1..][k - 1] == cs[k];
      [if cs[0].id == id then Merge(cs[0], p, now) else cs[0]] + rest
  }

  /** An id no complaint has leaves the table as it was. */
  lemma MergeUnknownId(cs: seq<Complaint>, id: string, p: ComplaintPatch, now: Time)
    requires forall k :: 0 <= k < |cs| ==> cs[k].id != id
    ensures MergeById(cs, id, p, now) == cs
  {
  }

  /** A partial that keeps the id: two updates of one complaint equal one update
      with the combined partial. */
  lemma MergeByIdTwice(cs: seq<Complaint>, id: string, first: ComplaintPatch, t1: Time,
                       second: ComplaintPatch, t2: Time)
    requires first.id.None? || first.id == Some(id)
    ensures MergeById(MergeById(cs, id, first, t1), id, second, t2)
         == MergeById(cs, id, CombinePatches(first, second), t2)
  {
    var once := MergeById(cs, id, first, t1);
    var lhs := MergeById(once, id, second, t2);
    var rhs := MergeById(cs, id, CombinePatches(first, second), t2);
    forall k | 0 <= k < |cs| ensures lhs[k] == rhs[k] {
      if cs[k].id == id {
        MergeTwice(cs[k], first, t1, second, t2);
      }
    }
  }

  // ---------------------------------------------------------------------------
  // Lookups
  // ---------------------------------------------------------------------------

  /** `i` is the first position holding a complaint with `id`. */
  ghost predicate FirstMatch(cs: seq<Complaint>, id: string, i: int)
  {
    0 <= i < |cs| && cs[i].id == id && forall j :: 0 <= j < i ==> cs[j].id != id
  }

  /** `complaints.find(complaint => complaint.id === id)`. */
  function Find(cs: seq<Complaint>, id: string): (r: Option<Complaint>)
    ensures r.None? <==> forall j :: 0 <= j < |cs| ==> cs[j].id != id
    ensures r.Some? ==> exists i :: FirstMatch(cs, id, i) && cs[i] == r.value
  {
    if cs == [] then None
    else if cs[0].id == id then
      assert FirstMatch(cs, id, 0);
      Some(cs[0])
    else
      var r := Find(cs[1..], id);
      assert r.Some? ==> exists i :: FirstMatch(cs, id, i) && cs[i] == r.value by {
        if r.Some? {
          var i :| FirstMatch(cs[1..], id, i) && cs[1..][i] == r.value;
          assert FirstMatch(cs, id, i + 1);
        }
      }
      assert r.None? ==> forall j :: 0 <= j < |cs| ==> cs[j].id != id by {
        if r.None? {
          forall j | 0 <= j < |cs| ensures cs[j].id != id {
            if j > 0 { assert cs[j] == cs[1..][j - 1]; }
          }
        }
      }
      r
  }

  /** The first match is what `Find` returns. */
  lemma {:induction false} FindFirst(cs: seq<Complaint>, id: string, i: int)
    requires FirstMatch(cs, id, i)
    ensures Find(cs, id) == Some(cs[i])
  {
    if i > 0 {
      assert FirstMatch(cs[1..], id, i - 1);
      FindFirst(cs[1..], id, i - 1);
    }
  }

  /** `complaints.filter(complaint => complaint.userId === userId)`. */
  function OwnedBy(cs: seq<Complaint>, userId: string): (r: seq<Complaint>)
    ensures |r| <= |cs|
    ensures forall c :: c in r <==> c in cs && c.userId == userId
  {
    if cs == [] then []
    else
      var rest := OwnedBy(cs[1..], userId);
      assert forall c :: c in cs <==> c == cs[0] || c in cs[1..];
      if cs[0].userId == userId then [cs[0]] + rest else rest
  }

  /** The filter keeps store order: it distributes over concatenation. */
  lemma {:induction false} OwnedByAppend(a: seq<Complaint>, b: seq<Complaint>, userId: string)
    ensures OwnedBy(a + b, userId) == OwnedBy(a, userId) + OwnedBy(b, userId)
  {
    if a == [] {
      assert a + b == b;
    } else {
      assert (a + b)[1..] == a[1..] + b;
      OwnedByAppend(a[1..], b, userId);
    }
  }

  // ---------------------------------------------------------------------------
  // Id uniqueness
  // ---------------------------------------------------------------------------

  /** Every complaint sits under the id its position would give it. */
  ghost predicate IdsCanonical(cs: seq<Complaint>)
  {
    forall i :: 0 <= i < |cs| ==> cs[i].id == ComplaintId(i + 1)
  }

  ghost predicate UniqueIds(cs: seq<Complaint>)
  {
    forall i, j :: 0 <= i < j < |cs| ==> cs[i].id != cs[j].id
  }

  lemma CanonicalIdsUnique(cs: seq<Complaint>)
    requires IdsCanonical(cs)
    ensures UniqueIds(cs)
  {
    forall i, j | 0 <= i < j < |cs| ensures cs[i].id != cs[j].id {
      if cs[i].id == cs[j].id {
        ComplaintIdInjective(i + 1, j + 1);
      }
    }
  }

  lemma FirstTwoIds()
    ensures ComplaintId(1) == "CMP001" && ComplaintId(2) == "CMP002"
  {
    assert Decimal(1) == ['1'] && Decimal(2) == ['2'];
    assert Repeat('0', 2) == ['0', '0'];
  }

  /** The sample data is numbered CMP001, CMP002. */
  lemma MockIdsCanonical()
    ensures IdsCanonical(MockComplaints())
  {
    var cs := MockComplaints();
    forall i | 0 <= i < |cs| ensures cs[i].id == ComplaintId(i + 1) {
      FirstTwoIds();
      if i == 0 {
        assert cs[i] == MockGarbage;
      } else {
        assert cs[i] == MockPothole;
      }
    }
  }

  lemma SubmitKeepsCanonical(cs: seq<Complaint>, data: ComplaintInput, userId: string, now: Time)
    requires IdsCanonical(cs)
    ensures IdsCanonical(cs + [NewComplaint(data, |cs|, userId, now)])
  {
    var c := NewComplaint(data, |cs|, userId, now);
    var all := cs + [c];
    forall i | 0 <= i < |all| ensures all[i].id == ComplaintId(i + 1) {
      if i < |cs| { assert all[i] == cs[i]; } else { assert all[i] == c; }
    }
  }

  /** An update whose partial has no `id` key (or repeats the id) keeps the numbering. */
  lemma UpdateKeepsCanonical(cs: seq<Complaint>, id: string, p: ComplaintPatch, now: Time)
    requires IdsCanonical(cs)
    requires p.id.None? || p.id == Some(id)
    ensures IdsCanonical(MergeById(cs, id, p, now))
  {
  }

  /** The spread accepts any `Complaint` key, so a partial carrying another id
      makes two complaints share one. */
  lemma UpdateCanDuplicateIds()
    ensures var cs := MockComplaints();
            UniqueIds(cs) && !UniqueIds(MergeById(cs, "CMP002", EmptyPatch.(id := Some("CMP001")), Jan16))
  {
    var cs := MockComplaints();
    var r := MergeById(cs, "CMP002", EmptyPatch.(id := Some("CMP001")), Jan16);
    assert r[0].id == "CMP001" && r[1].id == "CMP001";
  }

  /** After a submit on a consistently numbered table, looking the returned id up
      finds the new complaint: submitted status, one audit entry recording it. */
  lemma SubmitThenFind(cs: seq<Complaint>, data: ComplaintInput, userId: string, now: Time)
    requires IdsCanonical(cs)
    ensures var c := NewComplaint(data, |cs|, userId, now);
            var id := ComplaintId(|cs| + 1);
            && Find(cs, id).None?
            && Find(cs + [c], id) == Some(c)
            && c.id == id && c.userId == userId && c.status == data.status
            && c.submittedAt == now && c.updatedAt == now
            && |c.updates| == 1 && c.updates[0].complaintId == id
            && c.updates[0].status == data.status && c.updates[0].message == SubmittedMessage
            && c.updates[0].updatedBy == SystemActor
  {
    var c := NewComplaint(data, |cs|, userId, now);
    var id := ComplaintId(|cs| + 1);
    forall j | 0 <= j < |cs| ensures cs[j].id != id {
      if cs[j].id == id { ComplaintIdInjective(j + 1, |cs| + 1); }
    }
    var all := cs + [c];
    assert FirstMatch(all, id, |cs|) by {
      forall j | 0 <= j < |cs| ensures all[j].id != id {
        assert all[j] == cs[j];
      }
    }
    FindFirst(all, id, |cs|);
  }

  /** After a submit, the owner's listing is the old listing plus the new complaint. */
  lemma SubmitThenOwned(cs: seq<Complaint>, data: ComplaintInput, user: Option<User>, now: Time)
    ensures var c := NewComplaint(data, |cs|, OwnerId(user), now);
            OwnedBy(cs + [c], OwnerId(user)) == OwnedBy(cs, OwnerId(user)) + [c]
  {
    var c := NewComplaint(data, |cs|, OwnerId(user), now);
    OwnedByAppend(cs, [c], OwnerId(user));
    assert [c][1..] == [];
    assert OwnedBy([c], OwnerId(user)) == [c];
  }

  /** After an update that keeps the id, looking the id up finds the merged
      record, stamped `now`. */
  lemma UpdateThenFind(cs: seq<Complaint>, id: string, p: ComplaintPatch, now: Time)
    requires p.id.None? || p.id == Some(id)
    ensures Find(cs, id).Some? ==> Find(MergeById(cs, id, p, now), id) == Some(Merge(Find(cs, id).value, p, now))
    ensures Find(cs, id).None? ==> Find(MergeById(cs, id, p, now), id).None?
  {
    var r := MergeById(cs, id, p, now);
    forall j | 0 <= j < |cs| ensures (r[j].id == id) == (cs[j].id == id) {
    }
    if Find(cs, id).Some? {
      var i :| FirstMatch(cs, id, i) && cs[i] == Find(cs, id).value;
      assert FirstMatch(r, id, i);
      FindFirst(r, id, i);
    }
  }

  // ---------------------------------------------------------------------------
  // The provider
  // ---------------------------------------------------------------------------

  /** The provider's state: the `complaints` list and the `loading` flag. Each
      asynchronous operation sets `loading` and clears it in its `finally`. The
      awaited backing call either completes or throws (`backendFails`); the
      current user and the clock are inputs. */
  class ComplaintStore {
    var complaints: seq<Complaint>
    var loading: bool

    constructor ()
      ensures complaints == MockComplaints() && !loading
    {
      complaints := MockComplaints();
      loading := false;
    }

    /** `submitComplaint`: appends the new complaint and returns its id. */
    method SubmitComplaint(data: ComplaintInput, currentUser: Option<User>, now: Time, backendFails: bool)
      returns (r: Result<string>)
      modifies this
      ensures !loading
      ensures backendFails ==> r == Err(SubmitFailedMessage) && complaints == old(complaints)
      ensures !backendFails ==>
                && r == Ok(ComplaintId(|old(complaints)| + 1))
                && complaints == old(complaints) + [NewComplaint(data, |old(complaints)|, OwnerId(currentUser), now)]
    {
      loading := true;
      if backendFails {
        r := Err(SubmitFailedMessage);
      } else {
        var c := NewComplaint(data, |complaints|, OwnerId(currentUser), now);
        complaints := complaints + [c];
        r := Ok(c.id);
      }
      loading := false;
    }

    /** `updateComplaint`: merges the partial into every complaint with that id. */
    method UpdateComplaint(id: string, p: ComplaintPatch, now: Time, backendFails: bool)
      returns (r: Result<()>)
      modifies this
      ensures !loading
      ensures backendFails ==> r == Err(UpdateFailedMessage) && complaints == old(complaints)
      ensures !backendFails ==> r == Ok(()) && complaints == MergeById(old(complaints), id, p, now)
    {
      loading := true;
      if backendFails {
        r := Err(UpdateFailedMessage);
      } else {
        complaints := MergeById(complaints, id, p, now);
        r := Ok(());
      }
      loading := false;
    }

    /** `getComplaint`: the first complaint with that id, if any. */
    function GetComplaint(id: string): (r: Option<Complaint>)
      reads this
      ensures r.None? <==> forall j :: 0 <= j < |complaints| ==> complaints[j].id != id
      ensures r.Some? ==> r.value in complaints && r.value.id == id
      ensures r == Find(complaints, id)
    {
      Find(complaints, id)
    }

    /** `getComplaintsByUser`: the owner's complaints, in store order. */
    function GetComplaintsByUser(userId: string): (r: seq<Complaint>)
      reads this
      ensures forall c :: c in r <==> c in complaints && c.userId == userId
      ensures r == OwnedBy(complaints, userId)
    {
      OwnedBy(complaints, userId)
    }

    /** `trackComplaint`: the same lookup as `getComplaint`, with `null` for a miss. */
    method TrackComplaint(id: string, backendFails: bool) returns (r: Result<Option<Complaint>>)
      modifies this`loading
      ensures !loading
      ensures backendFails ==> r == Err(TrackFailedMessage)
      ensures !backendFails ==> r == Ok(Find(complaints, id))
    {
      loading := true;
      if backendFails {
        r := Err(TrackFailedMessage);
      } else {
        r := Ok(Find(complaints, id));
      }
      loading := false;
    }
  }
}
