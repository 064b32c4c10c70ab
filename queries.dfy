/**
 * The backend queries the pages issue, as functions of the collections they read. A query
 * keeps the collection's order; `orderBy(field, "desc")` leaves out documents lacking the
 * field and sorts the rest, newest first.
 */
module Queries {
  import opened Common
  import opened Records
  import Sorting

  /** `where("club", "==", club)` on the members collection. */
  function MembersOfClub(ms: seq<MemberDoc>, club: string): (r: seq<MemberDoc>)
    ensures |r| <= |ms|
    ensures forall i | 0 <= i < |r| :: r[i] in ms && r[i].data.club == club
    ensures forall i | 0 <= i < |ms| && ms[i].data.club == club :: ms[i] in r
  {
    if ms == [] then []
    else
      var rest := MembersOfClub(ms[..|ms| - 1], club);
      var last := ms[|ms| - 1];
      assert forall i | 0 <= i < |ms| - 1 :: ms[..|ms| - 1][i] == ms[i];
      if last.data.club == club then rest + [last] else rest
  }

  /** `docs.map((doc) => doc.id)`. */
  function Ids(ms: seq<MemberDoc>): (ids: seq<string>)
    ensures |ids| == |ms|
    ensures forall i | 0 <= i < |ms| :: ids[i] == ms[i].id
  {
    if ms == [] then [] else Ids(ms[..|ms| - 1]) + [ms[|ms| - 1].id]
  }

  /** The record is a member check-in of one of the `batch` ids. */
  predicate InBatchMatch(d: AttendanceDoc, batch: seq<string>) {
    d.data.userId in batch && d.data.kind == MemberKind
  }

  /** `where("userId", "in", batch), where("type", "==", "member")`, as the records' data. */
  function InBatch(coll: seq<AttendanceDoc>, batch: seq<string>): (r: seq<Attendance>)
    ensures |r| <= |coll|
    ensures forall i | 0 <= i < |r| :: r[i].userId in batch && r[i].kind == MemberKind
    ensures forall i | 0 <= i < |coll| && InBatchMatch(coll[i], batch) :: coll[i].data in r
  {
    if coll == [] then []
    else
      var rest := InBatch(coll[..|coll| - 1], batch);
      var last := coll[|coll| - 1];
      assert forall i | 0 <= i < |coll| - 1 :: coll[..|coll| - 1][i] == coll[i];
      if InBatchMatch(last, batch) then rest + [last.data] else rest
  }

  /** The same query with `where("checkIn", ">=", since)` added. */
  function InBatchSince(coll: seq<AttendanceDoc>, batch: seq<string>, since: int): (r: seq<Attendance>)
    ensures |r| <= |coll|
    ensures forall i | 0 <= i < |r| ::
      r[i].userId in batch && r[i].kind == MemberKind && CheckedInSince(r[i], since)
    ensures forall i | 0 <= i < |coll| && InBatchMatch(coll[i], batch) && CheckedInSince(coll[i].data, since) ::
      coll[i].data in r
  {
    if coll == [] then []
    else
      var rest := InBatchSince(coll[..|coll| - 1], batch, since);
      var last := coll[|coll| - 1];
      assert forall i | 0 <= i < |coll| - 1 :: coll[..|coll| - 1][i] == coll[i];
      if InBatchMatch(last, batch) && CheckedInSince(last.data, since) then rest + [last.data] else rest
  }

  /** The member-type records of every batch, batch after batch. */
  function FetchAll(coll: seq<AttendanceDoc>, batches: seq<seq<string>>): seq<Attendance> {
    if batches == [] then []
    else FetchAll(coll, batches[..|batches| - 1]) + InBatch(coll, batches[|batches| - 1])
  }

  /** Today's member-type records of every batch, batch after batch. */
  function FetchAllSince(coll: seq<AttendanceDoc>, batches: seq<seq<string>>, since: int): seq<Attendance> {
    if batches == [] then []
    else FetchAllSince(coll, batches[..|batches| - 1], since) + InBatchSince(coll, batches[|batches| - 1], since)
  }

  /** `where("userId", "==", id), where("type", "==", "member")` on the attendance collection. */
  function OfMember(coll: seq<AttendanceDoc>, id: string): (r: seq<AttendanceDoc>)
    ensures |r| <= |coll|
    ensures forall i | 0 <= i < |r| :: r[i] in coll && r[i].data.userId == id && r[i].data.kind == MemberKind
    ensures forall i | 0 <= i < |coll| && coll[i].data.userId == id && coll[i].data.kind == MemberKind :: coll[i] in r
  {
    if coll == [] then []
    else
      var rest := OfMember(coll[..|coll| - 1], id);
      var last := coll[|coll| - 1];
      assert forall i | 0 <= i < |coll| - 1 :: coll[..|coll| - 1][i] == coll[i];
      if last.data.userId == id && last.data.kind == MemberKind then rest + [last] else rest
  }

  /** The data of each document, in order. */
  function DataOf(ds: seq<AttendanceDoc>): (r: seq<Attendance>)
    ensures |r| == |ds|
    ensures forall i | 0 <= i < |ds| :: r[i] == ds[i].data
  {
    if ds == [] then [] else DataOf(ds[..|ds| - 1]) + [ds[|ds| - 1].data]
  }

  /** The documents that have a check-in time: `orderBy("checkIn")` never returns the others. */
  function WithCheckIn(coll: seq<AttendanceDoc>): (r: seq<AttendanceDoc>)
    ensures forall i | 0 <= i < |r| :: r[i] in coll && r[i].data.checkIn.Some?
    ensures forall i | 0 <= i < |coll| && coll[i].data.checkIn.Some? :: coll[i] in r
    ensures multiset(r) <= multiset(coll)
  {
    if coll == [] then []
    else
      var rest := WithCheckIn(coll[..|coll| - 1]);
      var last := coll[|coll| - 1];
      assert forall i | 0 <= i < |coll| - 1 :: coll[..|coll| - 1][i] == coll[i];
      assert coll == coll[..|coll| - 1] + [last];
      if last.data.checkIn.Some? then rest + [last] else rest
  }

  /** The sort key of an attendance document: its check-in time. */
  function CheckInKey(d: AttendanceDoc): int {
    d.data.checkIn.GetOr(0)
  }

  /** `orderBy("checkIn", "desc")`: the documents with a check-in time, newest first. */
  function ByCheckInDesc(coll: seq<AttendanceDoc>): (r: seq<AttendanceDoc>)
    ensures Sorting.SortedDesc(r, CheckInKey)
    ensures multiset(r) == multiset(WithCheckIn(coll))
    ensures forall i | 0 <= i < |r| :: r[i] in coll && r[i].data.checkIn.Some?
  {
    var r := Sorting.SortDesc(WithCheckIn(coll), CheckInKey);
    assert forall i | 0 <= i < |r| :: r[i] in multiset(WithCheckIn(coll));
    r
  }

  /** The sort key of a guest document: its creation time. */
  function CreatedAtKey(g: GuestDoc): int {
    g.data.createdAt.GetOr(0)
  }

  /** The guest documents that have a creation time. */
  function WithCreatedAt(gs: seq<GuestDoc>): (r: seq<GuestDoc>)
    ensures forall i | 0 <= i < |r| :: r[i] in gs && r[i].data.createdAt.Some?
    ensures forall i | 0 <= i < |gs| && gs[i].data.createdAt.Some? :: gs[i] in r
  {
    if gs == [] then []
    else
      var rest := WithCreatedAt(gs[..|gs| - 1]);
      var last := gs[|gs| - 1];
      assert forall i | 0 <= i < |gs| - 1 :: gs[..|gs| - 1][i] == gs[i];
      if last.data.createdAt.Some? then rest + [last] else rest
  }

  /** `orderBy("createdAt", "desc")` on the guests collection. */
  function GuestsByCreatedDesc(gs: seq<GuestDoc>): (r: seq<GuestDoc>)
    ensures Sorting.SortedDesc(r, CreatedAtKey)
    ensures multiset(r) == multiset(WithCreatedAt(gs))
  {
    Sorting.SortDesc(WithCreatedAt(gs), CreatedAtKey)
  }
}
