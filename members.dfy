/**
 * The admin members page: one row per club member with check-in count, rounded hours, last
 * check-in and active flag; the search and status filters; a member's attendance details with
 * duration labels, fetched once and then only toggled; and adding a member.
 */
module Members {
  import opened Common
  import opened Strings
  import opened Durations
  import opened Records
  import opened Queries

  /** `lastCheckIn`: "Never", or the date of the latest check-in (its locale formatting is not modelled). */
  datatype LastSeen = Never | On(ms: int)

  /** One table row. `totalHours` is in tenths of an hour. */
  datatype MemberRow = MemberRow(
    id: string, name: string, usn: string, email: string, phone: string, club: string,
    totalCheckIns: nat, totalHours: int, lastCheckIn: LastSeen, isActive: bool)

  function LastSeenOf(t: Option<int>): LastSeen {
    match t
    case Some(ms) => On(ms)
    case None => Never
  }

  /** The row pushed for member document `d` whose member-type records are `rs`. */
  function RowOf(d: MemberDoc, rs: seq<Attendance>): MemberRow {
    MemberRow(d.id, Or(d.data.name, "Unknown"), Or(d.data.usn, d.id), Or(d.data.email, "-"), Or(d.data.phone, "-"),
      d.data.club, |rs|, TenthsOfHour(TotalClosedMs(rs)), LastSeenOf(LatestCheckIn(rs)), CountOpen(rs) > 0)
  }

  /**
   * A row's summary of the member's records: active exactly when one is open, "Never" exactly
   * when none has a check-in, otherwise the latest check-in; only closed records add hours.
   */
  lemma RowSummary(d: MemberDoc, rs: seq<Attendance>)
    ensures RowOf(d, rs).totalCheckIns == |rs|
    ensures RowOf(d, rs).isActive <==> exists i | 0 <= i < |rs| :: IsOpen(rs[i])
    ensures RowOf(d, rs).lastCheckIn == Never <==> forall i | 0 <= i < |rs| :: rs[i].checkIn.None?
    ensures RowOf(d, rs).lastCheckIn.On? ==>
      && (exists i | 0 <= i < |rs| :: rs[i].checkIn == Some(RowOf(d, rs).lastCheckIn.ms))
      && (forall i | 0 <= i < |rs| && rs[i].checkIn.Some? :: rs[i].checkIn.value <= RowOf(d, rs).lastCheckIn.ms)
    ensures (forall i | 0 <= i < |rs| :: !IsClosed(rs[i])) ==> RowOf(d, rs).totalHours == 0
  {
    CountOpenZero(rs);
    if forall i | 0 <= i < |rs| :: !IsClosed(rs[i]) {
      TotalClosedMsOfOpen(rs);
    }
  }

  /** The name, USN, email and phone fall back to "Unknown", the document id, "-" and "-". */
  lemma RowDefaults(d: MemberDoc, rs: seq<Attendance>)
    ensures RowOf(d, rs).id == d.id && RowOf(d, rs).club == d.data.club
    ensures RowOf(d, rs).name != "" && RowOf(d, rs).email != "" && RowOf(d, rs).phone != ""
    ensures d.data.usn == "" ==> RowOf(d, rs).usn == d.id
    ensures d.data.name != "" ==> RowOf(d, rs).name == d.data.name
  {
  }

  /** The `attendanceSnap.docs.forEach(...)` pass for one member, then the row literal. */
  method SummarizeMember(d: MemberDoc, rs: seq<Attendance>) returns (row: MemberRow)
    ensures row == RowOf(d, rs)
  {
    var totalMs := 0;
    var lastCheckIn: Option<int> := None;
    var isActive := false;
    var i := 0;
    while i < |rs|
      invariant 0 <= i <= |rs|
      invariant totalMs == TotalClosedMs(rs[..i])
      invariant lastCheckIn == LatestCheckIn(rs[..i])
      invariant isActive == (CountOpen(rs[..i]) > 0)
    {
      var a := rs[i];
      if a.checkIn.Some? && a.checkOut.Some? {
        totalMs := totalMs + (a.checkOut.value - a.checkIn.value);
      }
      if a.checkIn.Some? && (lastCheckIn.None? || a.checkIn.value > lastCheckIn.value) {
        lastCheckIn := a.checkIn;
      }
      if a.checkOut.None? {
        isActive := true;
      }
      assert rs[..i + 1][..i] == rs[..i];
      i := i + 1;
    }
    assert rs[..|rs|] == rs;
    row := MemberRow(d.id, Or(d.data.name, "Unknown"), Or(d.data.usn, d.id), Or(d.data.email, "-"), Or(d.data.phone, "-"),
      d.data.club, |rs|, TenthsOfHour(totalMs), LastSeenOf(lastCheckIn), isActive);
  }

  /** The member-type records of one member, as its attendance query returns them. */
  function RecordsOf(attendance: seq<AttendanceDoc>, id: string): seq<Attendance> {
    DataOf(OfMember(attendance, id))
  }

  /** One row per member document, in query order. */
  function RowsOf(ms: seq<MemberDoc>, attendance: seq<AttendanceDoc>): (rows: seq<MemberRow>)
    ensures |rows| == |ms|
    ensures forall i | 0 <= i < |ms| :: rows[i] == RowOf(ms[i], RecordsOf(attendance, ms[i].id))
  {
    if ms == [] then [] else RowsOf(ms[..|ms| - 1], attendance) + [RowOf(ms[|ms| - 1], RecordsOf(attendance, ms[|ms| - 1].id))]
  }

  /** `fetchMembers` without the final sort: the club's members, one query and one row each. */
  method FetchMemberRows(club: string, members: seq<MemberDoc>, attendance: seq<AttendanceDoc>)
    returns (memberList: seq<MemberRow>)
    ensures memberList == RowsOf(MembersOfClub(members, club), attendance)
  {
    var docs := MembersOfClub(members, club);
    memberList := [];
    var k := 0;
    while k < |docs|
      invariant 0 <= k <= |docs|
      invariant memberList == RowsOf(docs[..k], attendance)
    {
      var row := SummarizeMember(docs[k], RecordsOf(attendance, docs[k].id));
      assert docs[..k + 1][..k] == docs[..k];
      memberList := memberList + [row];
      k := k + 1;
    }
    assert docs[..|docs|] == docs;
  }

  /** The status filter. */
  datatype Status = AnyStatus | ActiveOnly | InactiveOnly

  /** The lowercased name, USN or email contains the lowercased query. */
  predicate MatchesQuery(m: MemberRow, q: string) {
    var lq := ToLower(q);
    Includes(ToLower(m.name), lq) || Includes(ToLower(m.usn), lq) || Includes(ToLower(m.email), lq)
  }

  predicate MatchesStatus(m: MemberRow, st: Status) {
    match st
    case AnyStatus => true
    case ActiveOnly => m.isActive
    case InactiveOnly => !m.isActive
  }

  /** A row passes both filters; an empty query lets every row through the first. */
  predicate Shown(m: MemberRow, q: string, st: Status) {
    (q == "" || MatchesQuery(m, q)) && MatchesStatus(m, st)
  }

  /**
   * The filter effect: the query filter (when the query is non-empty) followed by the status
   * filter, which keeps the rows passing both, in order.
   */
  function FilterMembers(rows: seq<MemberRow>, q: string, st: Status): seq<MemberRow> {
    if rows == [] then []
    else
      var rest := FilterMembers(rows[..|rows| - 1], q, st);
      var last := rows[|rows| - 1];
      if Shown(last, q, st) then rest + [last] else rest
  }

  /** Counted with multiplicity: each row passing both filters occurs as often as in the input, any other never. */
  lemma {:induction false} FilterMembersCounts(rows: seq<MemberRow>, q: string, st: Status)
    ensures forall x :: multiset(FilterMembers(rows, q, st))[x] == if Shown(x, q, st) then multiset(rows)[x] else 0
  {
    if rows != [] {
      var init := rows[..|rows| - 1];
      var last := rows[|rows| - 1];
      FilterMembersCounts(init, q, st);
      assert rows == init + [last];
      assert multiset(rows) == multiset(init) + multiset{last};
    }
  }

  /** The filtered rows are an order-preserving sublist of the rows, made of exactly the rows passing both filters. */
  lemma {:induction false} FilterMembersSpec(rows: seq<MemberRow>, q: string, st: Status)
    ensures IsSubsequence(FilterMembers(rows, q, st), rows)
    ensures forall i | 0 <= i < |FilterMembers(rows, q, st)| :: Shown(FilterMembers(rows, q, st)[i], q, st)
    ensures forall i | 0 <= i < |rows| && Shown(rows[i], q, st) :: rows[i] in FilterMembers(rows, q, st)
  {
    if rows != [] {
      var init := rows[..|rows| - 1];
      var rest := FilterMembers(init, q, st);
      var last := rows[|rows| - 1];
      FilterMembersSpec(init, q, st);
      var r := FilterMembers(rows, q, st);
      if Shown(last, q, st) {
        assert r == rest + [last];
        assert r[..|r| - 1] == rest;
      } else {
        assert r == rest;
      }
      forall i | 0 <= i < |rows| && Shown(rows[i], q, st) ensures rows[i] in r {
        if i < |rows| - 1 {
          assert rows[i] == init[i];
        }
      }
    }
  }

  /** No query and no status filter show every row. */
  lemma {:induction false} FilterNothing(rows: seq<MemberRow>)
    ensures FilterMembers(rows, "", AnyStatus) == rows
  {
    if rows != [] {
      FilterNothing(rows[..|rows| - 1]);
    }
  }

  /** "{n} currently active": the rows with the active flag. */
  function ActiveCount(rows: seq<MemberRow>): (n: nat)
    ensures n <= |rows|
  {
    if rows == [] then 0 else ActiveCount(rows[..|rows| - 1]) + (if rows[|rows| - 1].isActive then 1 else 0)
  }

  /** The active count is the length of the "active" view, and with the "inactive" view it makes up all rows. */
  lemma {:induction false} ActiveCountIsActiveView(rows: seq<MemberRow>)
    ensures ActiveCount(rows) == |FilterMembers(rows, "", ActiveOnly)|
    ensures ActiveCount(rows) + |FilterMembers(rows, "", InactiveOnly)| == |rows|
  {
    if rows != [] {
      ActiveCountIsActiveView(rows[..|rows| - 1]);
    }
  }

  /** One line of a member's attendance history; the times stay milliseconds. */
  datatype Detail = Detail(id: string, checkIn: Option<int>, checkOut: Option<int>, duration: string)

  const ActiveText: string := "Active"

  /** The `map` callback: "Active" unless both times exist, else the `"{h}h {m}m"` label of their difference. */
  function DetailOf(d: AttendanceDoc): (r: Detail)
    ensures r.id == d.id && r.checkIn == d.data.checkIn && r.checkOut == d.data.checkOut
    ensures r.duration == ActiveText <==> !IsClosed(d.data)
    ensures IsClosed(d.data) ==> r.duration == DurationText(ClosedMs(d.data))
  {
    var duration := if IsClosed(d.data) then DurationText(d.data.checkOut.value - d.data.checkIn.value) else ActiveText;
    DurationTextIsNotMarker(ClosedMs(d.data));
    Detail(d.id, d.data.checkIn, d.data.checkOut, duration)
  }

  function DetailsOf(ds: seq<AttendanceDoc>): (r: seq<Detail>)
    ensures |r| == |ds|
    ensures forall i | 0 <= i < |ds| :: r[i] == DetailOf(ds[i])
  {
    if ds == [] then [] else [DetailOf(ds[0])] + DetailsOf(ds[1..])
  }

  /** The member's records that have a check-in, newest first, as detail lines (see `MemberDetailsSpec`). */
  function MemberDetails(attendance: seq<AttendanceDoc>, id: string): (r: seq<Detail>)
    ensures |r| == |ByCheckInDesc(OfMember(attendance, id))|
  {
    DetailsOf(ByCheckInDesc(OfMember(attendance, id)))
  }

  /** Each line is one of the member's records with a check-in, and the lines are newest first. */
  lemma MemberDetailsSpec(attendance: seq<AttendanceDoc>, id: string)
    ensures var r := MemberDetails(attendance, id);
      && (forall i | 0 <= i < |r| :: r[i] == DetailOf(ByCheckInDesc(OfMember(attendance, id))[i]))
      && (forall i | 0 <= i < |r| :: r[i].checkIn.Some?)
      && (forall i, j | 0 <= i < j < |r| :: r[i].checkIn.value >= r[j].checkIn.value)
  {
    var sorted := ByCheckInDesc(OfMember(attendance, id));
    assert forall i | 0 <= i < |sorted| :: CheckInKey(sorted[i]) == sorted[i].data.checkIn.value;
  }

  /** A closed visit of non-negative length is labelled with whole hours and 0 to 59 minutes. */
  lemma ClosedDetailLabel(d: AttendanceDoc)
    requires IsClosed(d.data) && d.data.checkIn.value <= d.data.checkOut.value
    ensures DetailOf(d).duration == IntToString(HoursPart(ClosedMs(d.data))) + "h " + IntToString(MinutesPart(ClosedMs(d.data))) + "m"
    ensures 0 <= MinutesPart(ClosedMs(d.data)) < 60
  {
    PartsOfDuration(ClosedMs(d.data));
  }

  /** The add-member form. */
  datatype AddForm = AddForm(usn: string, name: string, email: string, phone: string)

  const EmptyForm: AddForm := AddForm("", "", "", "")
  const RequiredMessage: string := "USN and Name are required."
  const AddFailedMessage: string := "Failed to add member. The USN might already exist."

  /** `admin && usn.trim() && name.trim()`: the guard of the add handler. */
  predicate CanAdd(admin: Option<AdminSession>, form: AddForm) {
    admin.Some? && !IsBlank(form.usn) && !IsBlank(form.name)
  }

  /** The handler gets past its guard exactly with an admin and a USN and a name that are not all white space. */
  lemma CanAddSpec(admin: Option<AdminSession>, form: AddForm)
    ensures CanAdd(admin, form) <==> admin.Some? && !AllSpace(form.usn) && !AllSpace(form.name)
  {
    TrimEmpty(form.usn);
    TrimEmpty(form.name);
  }

  /** The document `setDoc` writes: id and USN the trimmed USN, the trimmed fields, the admin's club. */
  function NewMember(form: AddForm, club: string): MemberDoc {
    MemberDoc(Trim(form.usn), Member(Trim(form.name), Trim(form.usn), Trim(form.email), Trim(form.phone), club))
  }

  /** Every document with `d`'s id replaced by `d`. */
  function ReplaceId(coll: seq<MemberDoc>, d: MemberDoc): (r: seq<MemberDoc>)
    ensures |r| == |coll|
    ensures forall i | 0 <= i < |coll| :: r[i] == if coll[i].id == d.id then d else coll[i]
  {
    if coll == [] then [] else ReplaceId(coll[..|coll| - 1], d) + [if coll[|coll| - 1].id == d.id then d else coll[|coll| - 1]]
  }

  predicate HasId(coll: seq<MemberDoc>, id: string) {
    exists i | 0 <= i < |coll| :: coll[i].id == id
  }

  /**
   * `setDoc(doc(db, "members", id), data)`: the document with that id now holds `data`, whether
   * it existed (in any club) or not; every other document is kept.
   */
  function Upsert(coll: seq<MemberDoc>, d: MemberDoc): seq<MemberDoc> {
    if HasId(coll, d.id) then ReplaceId(coll, d) else coll + [d]
  }

  /** After the write, `d` is the one document with its id, and every other document is kept. */
  lemma UpsertContents(coll: seq<MemberDoc>, d: MemberDoc)
    ensures d in Upsert(coll, d)
    ensures forall i | 0 <= i < |Upsert(coll, d)| && Upsert(coll, d)[i].id == d.id :: Upsert(coll, d)[i] == d
    ensures forall i | 0 <= i < |Upsert(coll, d)| && Upsert(coll, d)[i] != d :: Upsert(coll, d)[i] in coll
    ensures forall i | 0 <= i < |coll| && coll[i].id != d.id :: coll[i] in Upsert(coll, d)
  {
    if HasId(coll, d.id) {
      var k :| 0 <= k < |coll| && coll[k].id == d.id;
      assert ReplaceId(coll, d)[k] == d;
    } else {
      assert forall i | 0 <= i < |coll| :: (coll + [d])[i] == coll[i];
    }
  }

  /** After adding, the next `fetchMembers` of the admin's club lists the new member. */
  lemma AddedMemberListed(coll: seq<MemberDoc>, form: AddForm, club: string)
    ensures NewMember(form, club) in MembersOfClub(Upsert(coll, NewMember(form, club)), club)
  {
    var d := NewMember(form, club);
    var r := Upsert(coll, d);
    UpsertContents(coll, d);
    var k :| 0 <= k < |r| && r[k] == d;
  }

  const DeleteFailedMessage: string := "Failed to delete member."

  /** `deleteDoc(doc(db, "members", id))`: every document but the one with that id, in order. */
  function WithoutId(coll: seq<MemberDoc>, id: string): (r: seq<MemberDoc>)
    ensures forall i | 0 <= i < |r| :: r[i].id != id && r[i] in coll
    ensures forall i | 0 <= i < |coll| && coll[i].id != id :: coll[i] in r
  {
    if coll == [] then []
    else
      var rest := WithoutId(coll[..|coll| - 1], id);
      var last := coll[|coll| - 1];
      assert forall i | 0 <= i < |coll| - 1 :: coll[..|coll| - 1][i] == coll[i];
      if last.id == id then rest else rest + [last]
  }

  /** After a delete, the next `fetchMembers` of any club no longer lists a row for that id. */
  lemma DeletedMemberGone(coll: seq<MemberDoc>, id: string, club: string, attendance: seq<AttendanceDoc>)
    ensures forall i | 0 <= i < |RowsOf(MembersOfClub(WithoutId(coll, id), club), attendance)| ::
      RowsOf(MembersOfClub(WithoutId(coll, id), club), attendance)[i].id != id
  {
    var ms := MembersOfClub(WithoutId(coll, id), club);
    var rows := RowsOf(ms, attendance);
    forall i | 0 <= i < |rows| ensures rows[i].id != id {
      assert ms[i] in WithoutId(coll, id);
    }
  }

  /** The members page state; `filteredMembers` always reflects the current rows, query and status. */
  class MembersPage {
    var admin: Option<AdminSession>
    var members: seq<MemberRow>
    var filteredMembers: seq<MemberRow>
    var searchQuery: string
    var filterStatus: Status
    var loading: bool
    var expandedMember: Option<string>
    var attendanceDetails: map<string, seq<Detail>>
    var showAddModal: bool
    var addForm: AddForm
    var addError: string

    /** What the filter effect keeps true after every update of its three inputs. */
    ghost predicate Valid()
      reads this`filteredMembers, this`members, this`searchQuery, this`filterStatus
    {
      filteredMembers == FilterMembers(members, searchQuery, filterStatus)
    }

    constructor ()
      ensures Valid()
      ensures admin.None? && members == [] && searchQuery == "" && filterStatus == AnyStatus && loading
      ensures expandedMember.None? && attendanceDetails == map[] && !showAddModal && addForm == EmptyForm && addError == ""
    {
      admin, members, filteredMembers, searchQuery, filterStatus, loading := None, [], [], "", AnyStatus, true;
      expandedMember, attendanceDetails, showAddModal, addForm, addError := None, map[], false, EmptyForm, "";
    }

    /** `fetchMembers`: on success the rows of the club's members; a failing query keeps the old rows. */
    method FetchMembers(session: AdminSession, memberColl: seq<MemberDoc>, attendance: seq<AttendanceDoc>, queriesOk: bool)
      modifies this`members, this`filteredMembers, this`loading
      ensures Valid() && !loading
      ensures members == if queriesOk then RowsOf(MembersOfClub(memberColl, session.club), attendance) else old(members)
    {
      if queriesOk {
        var memberList := FetchMemberRows(session.club, memberColl, attendance);
        members := memberList;
      }
      filteredMembers := FilterMembers(members, searchQuery, filterStatus);
      loading := false;
    }

    /** The mount effect: with an admin session, remember it and fetch its club's members. */
    method Mount(session: Option<AdminSession>, memberColl: seq<MemberDoc>, attendance: seq<AttendanceDoc>, queriesOk: bool)
      requires Valid()
      modifies this`admin, this`members, this`filteredMembers, this`loading
      ensures Valid()
      ensures session.None? ==> admin == old(admin) && members == old(members) && loading == old(loading)
      ensures session.Some? ==> admin == session && !loading
      ensures session.Some? ==>
        members == if queriesOk then RowsOf(MembersOfClub(memberColl, session.value.club), attendance) else old(members)
    {
      if session.Some? {
        admin := session;
        FetchMembers(session.value, memberColl, attendance, queriesOk);
      }
    }

    /** Typing in the search box. */
    method SetSearch(q: string)
      modifies this`searchQuery, this`filteredMembers
      ensures Valid() && searchQuery == q
    {
      searchQuery := q;
      filteredMembers := FilterMembers(members, searchQuery, filterStatus);
    }

    /** Choosing a status. */
    method SetStatus(st: Status)
      modifies this`filterStatus, this`filteredMembers
      ensures Valid() && filterStatus == st
    {
      filterStatus := st;
      filteredMembers := FilterMembers(members, searchQuery, filterStatus);
    }

    /**
     * `fetchAttendanceDetails`: cached details only toggle the expansion, without a query;
     * otherwise the query's details are cached and the member is expanded. A failing query
     * changes nothing.
     */
    method ToggleDetails(memberId: string, attendance: seq<AttendanceDoc>, queryOk: bool)
      requires Valid()
      modifies this`attendanceDetails, this`expandedMember
      ensures Valid()
      ensures memberId in old(attendanceDetails) ==>
        && attendanceDetails == old(attendanceDetails)
        && expandedMember == if old(expandedMember) == Some(memberId) then None else Some(memberId)
      ensures memberId !in old(attendanceDetails) && queryOk ==>
        && attendanceDetails == old(attendanceDetails)[memberId := MemberDetails(attendance, memberId)]
        && expandedMember == Some(memberId)
      ensures memberId !in old(attendanceDetails) && !queryOk ==>
        attendanceDetails == old(attendanceDetails) && expandedMember == old(expandedMember)
    {
      if memberId in attendanceDetails {
        expandedMember := if expandedMember == Some(memberId) then None else Some(memberId);
        return;
      }
      if queryOk {
        var details := MemberDetails(attendance, memberId);
        attendanceDetails := attendanceDetails[memberId := details];
        expandedMember := Some(memberId);
      }
    }

    /**
     * `handleAddMember`: without an admin, or with a blank USN or name, only the error is set.
     * Otherwise the member document is written; on success the form is reset, the modal closed
     * and the list refetched, and on failure the error is set. Returns the members collection.
     */
    method AddMember(memberColl: seq<MemberDoc>, attendance: seq<AttendanceDoc>, writeOk: bool, queriesOk: bool)
      returns (after: seq<MemberDoc>)
      requires Valid()
      modifies this`members, this`filteredMembers, this`loading, this`addForm, this`showAddModal, this`addError
      ensures Valid()
      ensures !CanAdd(old(admin), old(addForm)) ==>
        && addError == RequiredMessage && after == memberColl
        && members == old(members) && addForm == old(addForm) && showAddModal == old(showAddModal)
      ensures CanAdd(old(admin), old(addForm)) && writeOk ==>
        && after == Upsert(memberColl, NewMember(old(addForm), old(admin).value.club))
        && addForm == EmptyForm && !showAddModal && addError == ""
        && members == if queriesOk then RowsOf(MembersOfClub(after, old(admin).value.club), attendance) else old(members)
      ensures CanAdd(old(admin), old(addForm)) && !writeOk ==>
        && after == memberColl && addError == AddFailedMessage
        && members == old(members) && addForm == old(addForm) && showAddModal == old(showAddModal)
    {
      if !CanAdd(admin, addForm) {
        addError := RequiredMessage;
        return memberColl;
      }
      addError := "";
      after := SaveMember(admin.value, memberColl, attendance, writeOk, queriesOk);
    }

    /** The `try` block of `handleAddMember`: the write, then the reset and refetch, or the error. */
    method SaveMember(session: AdminSession, memberColl: seq<MemberDoc>, attendance: seq<AttendanceDoc>, writeOk: bool, queriesOk: bool)
      returns (after: seq<MemberDoc>)
      requires Valid()
      modifies this`members, this`filteredMembers, this`loading, this`addForm, this`showAddModal, this`addError
      ensures Valid()
      ensures writeOk ==>
        && after == Upsert(memberColl, NewMember(old(addForm), session.club))
        && addForm == EmptyForm && !showAddModal && addError == old(addError)
        && members == if queriesOk then RowsOf(MembersOfClub(after, session.club), attendance) else old(members)
      ensures !writeOk ==>
        && after == memberColl && addError == AddFailedMessage
        && members == old(members) && addForm == old(addForm) && showAddModal == old(showAddModal)
    {
      if !writeOk {
        addError := AddFailedMessage;
        return memberColl;
      }
      after := Upsert(memberColl, NewMember(addForm, session.club));
      addForm := EmptyForm;
      showAddModal := false;
      FetchMembers(session, after, attendance, queriesOk);
    }

    /**
     * `handleDeleteMember`: with an admin and a confirmed dialog, the document is deleted and the
     * list refetched; a failed delete alerts. Returns the members collection and the alert shown.
     */
    method DeleteMember(memberId: string, confirmed: bool, memberColl: seq<MemberDoc>, attendance: seq<AttendanceDoc>,
                        writeOk: bool, queriesOk: bool)
      returns (after: seq<MemberDoc>, alert: Option<string>)
      requires Valid()
      modifies this`members, this`filteredMembers, this`loading
      ensures Valid()
      ensures admin.None? || !confirmed ==> after == memberColl && alert.None? && members == old(members)
      ensures admin.Some? && confirmed && writeOk ==>
        && after == WithoutId(memberColl, memberId) && alert.None?
        && members == if queriesOk then RowsOf(MembersOfClub(after, admin.value.club), attendance) else old(members)
      ensures admin.Some? && confirmed && !writeOk ==>
        after == memberColl && alert == Some(DeleteFailedMessage) && members == old(members)
    {
      if admin.None? || !confirmed {
        return memberColl, None;
      }
      if !writeOk {
        return memberColl, Some(DeleteFailedMessage);
      }
      after, alert := WithoutId(memberColl, memberId), None;
      FetchMembers(admin.value, after, attendance, queriesOk);
    }

    /**
     * The add button: enabled exactly when not saving and both required fields have text other
     * than white space, and, for a signed-in admin, exactly when the handler's check would let the
     * form through.
     */
    function AddEnabled(addLoading: bool): (b: bool)
      reads this
      ensures b <==> !addLoading && !AllSpace(addForm.usn) && !AllSpace(addForm.name)
      ensures admin.Some? ==> (b <==> !addLoading && CanAdd(admin, addForm))
    {
      TrimEmpty(addForm.usn);
      TrimEmpty(addForm.name);
      !(addLoading || Trim(addForm.usn) == "" || Trim(addForm.name) == "")
    }
  }
}
