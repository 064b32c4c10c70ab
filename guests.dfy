/**
 * The admin guests page: each guest's latest visit from a map keyed by guest id in which the
 * first record seen wins, the guest rows with their duration labels, the search filter and the
 * "currently visiting" count.
 */
module Guests {
  import opened Common
  import opened Strings
  import opened Durations
  import opened Records
  import opened Queries
  import Sorting

  /** The `{ checkIn, checkOut }` value of the attendance map. */
  datatype Visit = Visit(checkIn: Option<int>, checkOut: Option<int>)

  predicate IsGuestRecordOf(d: AttendanceDoc, id: string) {
    d.data.kind == GuestKind && d.data.userId == id
  }

  function VisitOf(d: AttendanceDoc): Visit {
    Visit(d.data.checkIn, d.data.checkOut)
  }

  /** The map after the `forEach` over `ds`: guest records only, and an id already present is not overwritten. */
  function FirstVisits(ds: seq<AttendanceDoc>): map<string, Visit> {
    if ds == [] then map[]
    else
      var m := FirstVisits(ds[..|ds| - 1]);
      var d := ds[|ds| - 1];
      if d.data.kind == GuestKind && d.data.userId !in m then m[d.data.userId := VisitOf(d)] else m
  }

  /**
   * An id is in the map exactly when some guest record has it, and then it holds the visit of
   * the first such record.
   */
  lemma {:induction false} FirstVisitsSpec(ds: seq<AttendanceDoc>, id: string)
    ensures id in FirstVisits(ds) <==> exists i | 0 <= i < |ds| :: IsGuestRecordOf(ds[i], id)
    ensures id in FirstVisits(ds) ==> exists i | 0 <= i < |ds| ::
      && IsGuestRecordOf(ds[i], id) && FirstVisits(ds)[id] == VisitOf(ds[i])
      && forall j | 0 <= j < i :: !IsGuestRecordOf(ds[j], id)
  {
    if ds != [] {
      var init := ds[..|ds| - 1];
      FirstVisitsSpec(init, id);
      assert forall i | 0 <= i < |init| :: init[i] == ds[i];
      var d := ds[|ds| - 1];
      if id in FirstVisits(init) {
        var i :| 0 <= i < |init| && IsGuestRecordOf(init[i], id) && FirstVisits(init)[id] == VisitOf(init[i])
          && forall j | 0 <= j < i :: !IsGuestRecordOf(init[j], id);
        assert IsGuestRecordOf(ds[i], id);
      } else if IsGuestRecordOf(d, id) {
        assert IsGuestRecordOf(ds[|ds| - 1], id);
      }
    }
  }

  /** `attendanceSnap.docs.forEach(...)` filling `attendanceMap`. */
  method BuildAttendanceMap(ds: seq<AttendanceDoc>) returns (attendanceMap: map<string, Visit>)
    ensures attendanceMap == FirstVisits(ds)
  {
    attendanceMap := map[];
    var i := 0;
    while i < |ds|
      invariant 0 <= i <= |ds|
      invariant attendanceMap == FirstVisits(ds[..i])
    {
      var data := ds[i].data;
      if data.kind == GuestKind {
        if data.userId !in attendanceMap {
          attendanceMap := attendanceMap[data.userId := Visit(data.checkIn, data.checkOut)];
        }
      }
      assert ds[..i + 1][..i] == ds[..i];
      i := i + 1;
    }
    assert ds[..|ds|] == ds;
  }

  /**
   * Built from `orderBy("checkIn", "desc")`, the map holds each guest's most recent visit: no
   * guest record of that id in the collection was checked in later.
   */
  lemma LatestVisitKept(attendance: seq<AttendanceDoc>, id: string, k: nat)
    requires id in FirstVisits(ByCheckInDesc(attendance))
    requires k < |attendance| && IsGuestRecordOf(attendance[k], id) && attendance[k].data.checkIn.Some?
    ensures FirstVisits(ByCheckInDesc(attendance))[id].checkIn.Some?
    ensures attendance[k].data.checkIn.value <= FirstVisits(ByCheckInDesc(attendance))[id].checkIn.value
  {
    var sorted := ByCheckInDesc(attendance);
    FirstVisitsSpec(sorted, id);
    var i :| 0 <= i < |sorted| && IsGuestRecordOf(sorted[i], id) && FirstVisits(sorted)[id] == VisitOf(sorted[i])
      && forall j | 0 <= j < i :: !IsGuestRecordOf(sorted[j], id);
    assert attendance[k] in WithCheckIn(attendance);
    assert attendance[k] in multiset(sorted);
    var j :| 0 <= j < |sorted| && sorted[j] == attendance[k];
    assert i <= j;
    assert Sorting.SortedDesc(sorted, CheckInKey);
    if i < j {
      assert CheckInKey(sorted[i]) >= CheckInKey(sorted[j]);
    }
  }

  const StillHere: string := "Still here"

  /** One guest row; the dates stay milliseconds (`None` where the page prints "-" or nothing). */
  datatype GuestRow = GuestRow(
    id: string, usn: string, fullName: string, phoneNumber: string, purpose: string,
    createdAt: Option<int>, checkIn: Option<int>, checkOut: Option<int>, duration: string)

  /**
   * The `map` callback for one guest: "-" without a visit, "Still here" for an open visit, the
   * `"{h}h {m}m"` label for a closed one. A visit with a check-out but no check-in makes
   * `checkIn.getTime()` throw, which is `None`.
   */
  function RowOfGuest(g: GuestDoc, v: Option<Visit>): Option<GuestRow> {
    var row := GuestRow(g.id, Or(g.data.usn, "-"), Or(g.data.fullName, "Unknown"), Or(g.data.phoneNumber, "-"),
      Or(g.data.purpose, "-"), g.data.createdAt, None, None, "-");
    match v
    case None => Some(row)
    case Some(Visit(checkIn, checkOut)) =>
      if checkOut.None? then Some(row.(checkIn := checkIn, duration := StillHere))
      else if checkIn.None? then None
      else Some(row.(checkIn := checkIn, checkOut := checkOut, duration := DurationText(checkOut.value - checkIn.value)))
  }

  /** The visit of the guest with that id, if the map has one. */
  function Lookup(m: map<string, Visit>, id: string): Option<Visit> {
    if id in m then Some(m[id]) else None
  }

  /** A row's label says what the guest's visit is: none, open, or closed with its length. */
  lemma RowOfGuestLabel(g: GuestDoc, v: Option<Visit>)
    requires RowOfGuest(g, v).Some?
    ensures var r := RowOfGuest(g, v).value;
      && r.id == g.id && r.fullName != "" && r.usn != "" && r.phoneNumber != "" && r.purpose != ""
      && (r.duration == "-" <==> v.None?)
      && (r.duration == StillHere <==> v.Some? && v.value.checkOut.None?)
      && (v.Some? && v.value.checkOut.Some? ==>
            v.value.checkIn.Some? && r.duration == DurationText(v.value.checkOut.value - v.value.checkIn.value))
      && (v.None? ==> r.checkIn.None? && r.checkOut.None?)
  {
    if v.Some? && v.value.checkOut.Some? {
      DurationTextIsNotMarker(v.value.checkOut.value - v.value.checkIn.value);
    }
  }

  /** `guestsSnap.docs.map(...)`, or `None` when the callback throws for some guest. */
  function GuestRows(gs: seq<GuestDoc>, m: map<string, Visit>): Option<seq<GuestRow>> {
    if gs == [] then Some([])
    else
      match (GuestRows(gs[..|gs| - 1], m), RowOfGuest(gs[|gs| - 1], Lookup(m, gs[|gs| - 1].id)))
      case (Some(rows), Some(row)) => Some(rows + [row])
      case _ => None
  }

  /** When every visit in the map has a check-in time, there is exactly one row per guest, in guest order. */
  lemma {:induction false} GuestRowsSpec(gs: seq<GuestDoc>, m: map<string, Visit>)
    requires forall id | id in m :: m[id].checkIn.Some?
    ensures GuestRows(gs, m).Some?
    ensures |GuestRows(gs, m).value| == |gs|
    ensures forall i | 0 <= i < |gs| :: Some(GuestRows(gs, m).value[i]) == RowOfGuest(gs[i], Lookup(m, gs[i].id))
  {
    if gs != [] {
      GuestRowsSpec(gs[..|gs| - 1], m);
    }
  }

  /** The records `orderBy("checkIn", ...)` returns all have a check-in time, so building the rows never throws. */
  lemma QueryVisitsHaveCheckIn(attendance: seq<AttendanceDoc>)
    ensures forall id | id in FirstVisits(ByCheckInDesc(attendance)) :: FirstVisits(ByCheckInDesc(attendance))[id].checkIn.Some?
  {
    var sorted := ByCheckInDesc(attendance);
    forall id | id in FirstVisits(sorted) ensures FirstVisits(sorted)[id].checkIn.Some? {
      FirstVisitsSpec(sorted, id);
    }
  }

  /** The lowercased query occurs in the lowercased name, USN or purpose, or in the phone number as typed. */
  predicate MatchesGuest(g: GuestRow, q: string) {
    var lq := ToLower(q);
    Includes(ToLower(g.fullName), lq) || Includes(ToLower(g.usn), lq) || Includes(ToLower(g.purpose), lq)
    || Includes(g.phoneNumber, lq)
  }

  function KeepMatching(rows: seq<GuestRow>, q: string): seq<GuestRow> {
    if rows == [] then []
    else
      var rest := KeepMatching(rows[..|rows| - 1], q);
      if MatchesGuest(rows[|rows| - 1], q) then rest + [rows[|rows| - 1]] else rest
  }

  /** The filter effect: every row for an empty query, otherwise the matching rows. */
  function FilterGuests(rows: seq<GuestRow>, q: string): seq<GuestRow> {
    if q == "" then rows else KeepMatching(rows, q)
  }

  /** The search keeps, in order, exactly the rows that match the query. */
  lemma {:induction false} KeepMatchingSpec(rows: seq<GuestRow>, q: string)
    ensures IsSubsequence(KeepMatching(rows, q), rows)
    ensures forall i | 0 <= i < |KeepMatching(rows, q)| :: MatchesGuest(KeepMatching(rows, q)[i], q)
    ensures forall i | 0 <= i < |rows| && MatchesGuest(rows[i], q) :: rows[i] in KeepMatching(rows, q)
  {
    if rows != [] {
      var init := rows[..|rows| - 1];
      var rest := KeepMatching(init, q);
      var last := rows[|rows| - 1];
      KeepMatchingSpec(init, q);
      assert forall i | 0 <= i < |rows| - 1 :: init[i] == rows[i];
      if MatchesGuest(last, q) {
        assert (rest + [last])[..|rest|] == rest;
      }
    }
  }

  /** Counted with multiplicity: each matching row occurs as often as in the input, any other never. */
  lemma {:induction false} KeepMatchingCounts(rows: seq<GuestRow>, q: string)
    ensures forall x :: multiset(KeepMatching(rows, q))[x] == if MatchesGuest(x, q) then multiset(rows)[x] else 0
  {
    if rows != [] {
      var init := rows[..|rows| - 1];
      var last := rows[|rows| - 1];
      KeepMatchingCounts(init, q);
      assert rows == init + [last];
      assert multiset(rows) == multiset(init) + multiset{last};
    }
  }

  /** "{n} currently visiting": the rows labelled "Still here". */
  function VisitingCount(rows: seq<GuestRow>): (n: nat)
    ensures n <= |rows|
  {
    if rows == [] then 0 else VisitingCount(rows[..|rows| - 1]) + (if rows[|rows| - 1].duration == StillHere then 1 else 0)
  }

  /** The guests whose kept visit is open. */
  function OpenVisits(gs: seq<GuestDoc>, m: map<string, Visit>): nat {
    if gs == [] then 0
    else
      var g := gs[|gs| - 1];
      OpenVisits(gs[..|gs| - 1], m) + (if g.id in m && m[g.id].checkOut.None? then 1 else 0)
  }

  /** The visiting count is the number of guests whose latest visit has no check-out. */
  lemma {:induction false} VisitingCountIsOpenVisits(gs: seq<GuestDoc>, m: map<string, Visit>)
    requires GuestRows(gs, m).Some?
    ensures VisitingCount(GuestRows(gs, m).value) == OpenVisits(gs, m)
  {
    if gs != [] {
      var init := gs[..|gs| - 1];
      var g := gs[|gs| - 1];
      VisitingCountIsOpenVisits(init, m);
      var rows := GuestRows(gs, m).value;
      assert rows[..|rows| - 1] == GuestRows(init, m).value;
      RowOfGuestLabel(g, Lookup(m, g.id));
    }
  }

  /** The guests page state; `filteredGuests` always reflects the rows and the query. */
  class GuestsPage {
    var guests: seq<GuestRow>
    var filteredGuests: seq<GuestRow>
    var searchQuery: string
    var loading: bool

    ghost predicate Valid()
      reads this`filteredGuests, this`guests, this`searchQuery
    {
      filteredGuests == FilterGuests(guests, searchQuery)
    }

    constructor ()
      ensures Valid() && guests == [] && searchQuery == "" && loading
    {
      guests, filteredGuests, searchQuery, loading := [], [], "", true;
    }

    /**
     * `fetchGuests` on mount: guests newest first, the attendance map from all records newest
     * first, one row per guest (no row throws, by `QueryVisitsHaveCheckIn`). A failing query keeps
     * the old rows.
     */
    method FetchGuests(guestColl: seq<GuestDoc>, attendance: seq<AttendanceDoc>, queriesOk: bool)
      modifies this`guests, this`filteredGuests, this`loading
      ensures Valid() && !loading
      ensures queriesOk ==> Some(guests) == GuestRows(GuestsByCreatedDesc(guestColl), FirstVisits(ByCheckInDesc(attendance)))
      ensures !queriesOk ==> guests == old(guests)
    {
      if queriesOk {
        var guestsSnap := GuestsByCreatedDesc(guestColl);
        var attendanceSnap := ByCheckInDesc(attendance);
        var attendanceMap := BuildAttendanceMap(attendanceSnap);
        QueryVisitsHaveCheckIn(attendance);
        GuestRowsSpec(guestsSnap, attendanceMap);
        var guestList := GuestRows(guestsSnap, attendanceMap).value;
        guests := guestList;
      }
      filteredGuests := FilterGuests(guests, searchQuery);
      loading := false;
    }

    /** Typing in the search box. */
    method SetSearch(q: string)
      modifies this`searchQuery, this`filteredGuests
      ensures Valid() && searchQuery == q
    {
      searchQuery := q;
      filteredGuests := FilterGuests(guests, searchQuery);
    }
  }
}
