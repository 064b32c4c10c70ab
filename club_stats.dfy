/**
 * One club's statistics (`fetchClubStats`): the member query, the attendance records fetched
 * batch by batch, the counters and per-member tallies folded over them, and the top five.
 */
module ClubStats {
  import opened Common
  import opened Records
  import opened Queries
  import opened Batching
  import opened Durations
  import Sorting

  /** One key of the `memberCheckIns` dictionary with its `{count, hours}` value (in ms). */
  datatype Entry = Entry(id: string, count: nat, ms: int)

  predicate HasKey(t: seq<Entry>, id: string) {
    exists i | 0 <= i < |t| :: t[i].id == id
  }

  predicate DistinctKeys(t: seq<Entry>) {
    forall i, j | 0 <= i < j < |t| :: t[i].id != t[j].id
  }

  /** `memberCheckIns[id]?.count ?? 0`. */
  function CountOf(t: seq<Entry>, id: string): nat {
    if t == [] then 0 else if t[0].id == id then t[0].count else CountOf(t[1..], id)
  }

  /** `memberCheckIns[id]?.hours ?? 0`, in milliseconds. */
  function MsOf(t: seq<Entry>, id: string): int {
    if t == [] then 0 else if t[0].id == id then t[0].ms else MsOf(t[1..], id)
  }

  function SumCounts(t: seq<Entry>): nat {
    if t == [] then 0 else t[0].count + SumCounts(t[1..])
  }

  function SumMs(t: seq<Entry>): int {
    if t == [] then 0 else t[0].ms + SumMs(t[1..])
  }

  /** The number of records of user `id`. */
  function CountFor(rs: seq<Attendance>, id: string): nat {
    if rs == [] then 0 else CountFor(rs[..|rs| - 1], id) + (if rs[|rs| - 1].userId == id then 1 else 0)
  }

  /** The summed closed durations of user `id`'s records. */
  function MsFor(rs: seq<Attendance>, id: string): int {
    if rs == [] then 0 else MsFor(rs[..|rs| - 1], id) + (if rs[|rs| - 1].userId == id then ClosedMs(rs[|rs| - 1]) else 0)
  }

  /**
   * The dictionary update for one record: create `{count: 0, hours: 0}` when the user is new,
   * then `count++` and, for a closed record, `hours += duration`.
   */
  function Bump(t: seq<Entry>, r: Attendance): (u: seq<Entry>)
    ensures SumCounts(u) == SumCounts(t) + 1
    ensures SumMs(u) == SumMs(t) + ClosedMs(r)
  {
    if t == [] then [Entry(r.userId, 1, ClosedMs(r))]
    else if t[0].id == r.userId then [t[0].(count := t[0].count + 1, ms := t[0].ms + ClosedMs(r))] + t[1..]
    else
      var u := [t[0]] + Bump(t[1..], r);
      assert u[1..] == Bump(t[1..], r);
      u
  }

  lemma HasKeyCons(e: Entry, t: seq<Entry>, id: string)
    ensures HasKey([e] + t, id) <==> e.id == id || HasKey(t, id)
  {
    var u := [e] + t;
    if e.id == id {
      assert u[0].id == id;
    }
    if HasKey(t, id) {
      var i :| 0 <= i < |t| && t[i].id == id;
      assert u[i + 1].id == id;
    }
    if HasKey(u, id) && e.id != id {
      var i :| 0 <= i < |u| && u[i].id == id;
      assert t[i - 1].id == id;
    }
  }

  /** After one record, the record's user has one more check-in and its closed time; no other key changes. */
  lemma {:induction false} BumpLookup(t: seq<Entry>, r: Attendance, id: string)
    ensures CountOf(Bump(t, r), id) == CountOf(t, id) + (if id == r.userId then 1 else 0)
    ensures MsOf(Bump(t, r), id) == MsOf(t, id) + (if id == r.userId then ClosedMs(r) else 0)
    ensures HasKey(Bump(t, r), id) <==> HasKey(t, id) || id == r.userId
  {
    var u := Bump(t, r);
    if t == [] {
      HasKeyCons(u[0], [], id);
      assert u == [u[0]] + [];
    } else {
      assert t == [t[0]] + t[1..];
      HasKeyCons(t[0], t[1..], id);
      HasKeyCons(u[0], u[1..], id);
      assert u == [u[0]] + u[1..];
      if t[0].id != r.userId {
        BumpLookup(t[1..], r, id);
      }
    }
  }

  /** A new key is only ever appended, so keys stay distinct. */
  lemma {:induction false} BumpDistinct(t: seq<Entry>, r: Attendance)
    requires DistinctKeys(t)
    ensures DistinctKeys(Bump(t, r))
  {
    var u := Bump(t, r);
    if t != [] && t[0].id != r.userId {
      var rest := Bump(t[1..], r);
      assert DistinctKeys(t[1..]);
      BumpDistinct(t[1..], r);
      BumpLookup(t[1..], r, t[0].id);
      forall i | 0 <= i < |t| - 1 ensures t[1..][i].id != t[0].id {
        assert t[1..][i] == t[i + 1];
      }
      forall i, j | 0 <= i < j < |u| ensures u[i].id != u[j].id {
        if i == 0 {
          assert u[j].id == rest[j - 1].id;
        } else {
          assert u[i].id == rest[i - 1].id && u[j].id == rest[j - 1].id;
        }
      }
    }
  }

  /** The dictionary after folding the records first to last: per record one more check-in in all. */
  function Tally(rs: seq<Attendance>): (t: seq<Entry>)
    ensures SumCounts(t) == |rs|
    ensures SumMs(t) == TotalClosedMs(rs)
  {
    if rs == [] then [] else Bump(Tally(rs[..|rs| - 1]), rs[|rs| - 1])
  }

  /** The dictionary holds for each user exactly its record count and closed time, and a key for each user seen. */
  lemma {:induction false} TallyLookup(rs: seq<Attendance>, id: string)
    ensures CountOf(Tally(rs), id) == CountFor(rs, id)
    ensures MsOf(Tally(rs), id) == MsFor(rs, id)
    ensures HasKey(Tally(rs), id) <==> CountFor(rs, id) > 0
  {
    if rs != [] {
      TallyLookup(rs[..|rs| - 1], id);
      BumpLookup(Tally(rs[..|rs| - 1]), rs[|rs| - 1], id);
    }
  }

  /** One entry per user. */
  lemma {:induction false} TallyDistinct(rs: seq<Attendance>)
    ensures DistinctKeys(Tally(rs))
  {
    if rs != [] {
      TallyDistinct(rs[..|rs| - 1]);
      BumpDistinct(Tally(rs[..|rs| - 1]), rs[|rs| - 1]);
    }
  }

  /** With distinct keys, an entry's value is what the dictionary holds for its key. */
  lemma {:induction false} EntryIsLookup(t: seq<Entry>, i: nat)
    requires DistinctKeys(t) && i < |t|
    ensures CountOf(t, t[i].id) == t[i].count && MsOf(t, t[i].id) == t[i].ms
  {
    if i > 0 {
      assert DistinctKeys(t[1..]);
      EntryIsLookup(t[1..], i - 1);
    }
  }

  /** Each dictionary entry holds exactly its user's record count and closed time, count at least 1. */
  lemma TallyEntry(rs: seq<Attendance>, i: nat)
    requires i < |Tally(rs)|
    ensures Tally(rs)[i].count == CountFor(rs, Tally(rs)[i].id) >= 1
    ensures Tally(rs)[i].ms == MsFor(rs, Tally(rs)[i].id)
  {
    var t := Tally(rs);
    TallyDistinct(rs);
    EntryIsLookup(t, i);
    TallyLookup(rs, t[i].id);
    assert HasKey(t, t[i].id);
  }

  /** One row of the top-members table. `hours` is in tenths of an hour. */
  datatype TopMember = TopMember(name: string, usn: string, checkIns: nat, hours: int)

  /** `memberNames[id]`: the last club member document with that id (later writes win). */
  function MemberNamed(ms: seq<MemberDoc>, id: string): (r: Option<MemberDoc>)
    ensures r.Some? ==> r.value in ms && r.value.id == id
    ensures r.None? ==> forall i | 0 <= i < |ms| :: ms[i].id != id
  {
    if ms == [] then None
    else if ms[|ms| - 1].id == id then Some(ms[|ms| - 1])
    else
      assert forall i | 0 <= i < |ms| - 1 :: ms[..|ms| - 1][i] == ms[i];
      MemberNamed(ms[..|ms| - 1], id)
  }

  /** `{ name: memberNames[id]?.name || "Unknown", usn: memberNames[id]?.usn || id, ... }`. */
  function Present(ms: seq<MemberDoc>, e: Entry): (m: TopMember)
    ensures m.checkIns == e.count && m.hours == TenthsOfHour(e.ms)
  {
    match MemberNamed(ms, e.id)
    case Some(d) => TopMember(Or(d.data.name, "Unknown"), Or(d.data.usn, d.id), e.count, TenthsOfHour(e.ms))
    case None => TopMember("Unknown", e.id, e.count, TenthsOfHour(e.ms))
  }

  function PresentAll(ms: seq<MemberDoc>, es: seq<Entry>): (r: seq<TopMember>)
    ensures |r| == |es|
    ensures forall i | 0 <= i < |es| :: r[i] == Present(ms, es[i])
  {
    if es == [] then [] else [Present(ms, es[0])] + PresentAll(ms, es[1..])
  }

  function CountKey(e: Entry): int {
    e.count
  }

  /** `Object.entries(memberCheckIns).sort((a, b) => b[1].count - a[1].count)`. */
  function Rank(t: seq<Entry>): (r: seq<Entry>)
    ensures multiset(r) == multiset(t) && |r| == |t|
    ensures forall i, j | 0 <= i < j < |r| :: r[i].count >= r[j].count
  {
    var r := Sorting.SortDesc(t, CountKey);
    assert forall i | 0 <= i < |r| :: CountKey(r[i]) == r[i].count;
    r
  }

  /** `.slice(0, 5).map(...)`: the first five ranked entries, presented (see `TopMembersSpec`). */
  function TopMembers(ms: seq<MemberDoc>, t: seq<Entry>): (top: seq<TopMember>)
    ensures |top| == Min(5, |t|)
  {
    PresentAll(ms, Rank(t)[..Min(5, |t|)])
  }

  /** The five highest counts, highest first, each from an entry of the tally; no left-out entry beats one kept. */
  lemma TopMembersSpec(ms: seq<MemberDoc>, t: seq<Entry>)
    ensures var top := TopMembers(ms, t);
      && (forall i | 0 <= i < |top| :: top[i] == Present(ms, Rank(t)[i]) && Rank(t)[i] in t)
      && (forall i, j | 0 <= i < j < |top| :: top[i].checkIns >= top[j].checkIns)
      && (forall i, k | 0 <= i < |top| <= k < |t| :: Rank(t)[k].count <= top[i].checkIns)
  {
    var r := Rank(t);
    var top := TopMembers(ms, t);
    var n := Min(5, |t|);
    forall i | 0 <= i < n ensures top[i] == Present(ms, r[i]) && r[i] in t {
      assert r[..n][i] == r[i];
      assert r[i] in multiset(t);
    }
    forall i, j | 0 <= i < j < n ensures top[i].checkIns >= top[j].checkIns {
      assert top[i].checkIns == r[i].count && top[j].checkIns == r[j].count;
    }
    forall i, k | 0 <= i < n <= k < |t| ensures r[k].count <= top[i].checkIns {
      assert top[i].checkIns == r[i].count;
    }
  }

  /** The statistics the page shows for one club. Hours are in tenths of an hour. */
  datatype ClubStatsData = ClubStatsData(
    club: string,
    totalMembers: nat,
    totalCheckIns: nat,
    activeToday: nat,
    activeNow: nat,
    totalHours: int,
    avgHoursPerMember: int,
    topMembers: seq<TopMember>)

  /** The records the batched queries return for these member ids; none when there are no ids. */
  function Fetched(attendance: seq<AttendanceDoc>, ids: seq<string>): seq<Attendance> {
    if |ids| > 0 then FetchAll(attendance, Chunks(ids)) else []
  }

  /** `Math.round((totalHours / size) * 10)`, or 0 for a club without members. */
  function AvgTenths(totalMs: int, size: nat): (r: int)
    ensures size == 0 ==> r == 0
    ensures size > 0 ==> 2 * totalMs - size * MsPerTenthHour < 2 * (size * MsPerTenthHour) * r
                                                           <= 2 * totalMs + size * MsPerTenthHour
  {
    if size > 0 then RoundDiv(totalMs, size * MsPerTenthHour) else 0
  }

  /** The member-type attendance records of the club's members, as the batches return them. */
  function ClubRecords(club: string, members: seq<MemberDoc>, attendance: seq<AttendanceDoc>): seq<Attendance> {
    Fetched(attendance, Ids(MembersOfClub(members, club)))
  }

  /** What `fetchClubStats` computes for `club`, given the two collections and local midnight. */
  function ClubStatsOf(club: string, members: seq<MemberDoc>, attendance: seq<AttendanceDoc>, todayStart: int): (s: ClubStatsData)
    ensures s.club == club
  {
    var clubMembers := MembersOfClub(members, club);
    var fetched := ClubRecords(club, members, attendance);
    var totalMs := TotalClosedMs(fetched);
    ClubStatsData(club, |clubMembers|, |fetched|, CountSince(fetched, todayStart), CountOpen(fetched),
      TenthsOfHour(totalMs), AvgTenths(totalMs, |clubMembers|), TopMembers(clubMembers, Tally(fetched)))
  }

  /** The counters of one pass over the records `rs`. */
  ghost predicate Tallied(rs: seq<Attendance>, todayStart: int, totalCheckIns: nat, activeToday: nat,
                          activeNow: nat, totalMs: int, memberCheckIns: seq<Entry>) {
    && totalCheckIns == |rs|
    && activeToday == CountSince(rs, todayStart)
    && activeNow == CountOpen(rs)
    && totalMs == TotalClosedMs(rs)
    && memberCheckIns == Tally(rs)
  }

  /** What one more record does to each counter of a pass. */
  lemma TallyStep(rs: seq<Attendance>, r: Attendance, todayStart: int)
    ensures Tally(rs + [r]) == Bump(Tally(rs), r)
    ensures TotalClosedMs(rs + [r]) == TotalClosedMs(rs) + ClosedMs(r)
    ensures CountOpen(rs + [r]) == CountOpen(rs) + (if IsOpen(r) then 1 else 0)
    ensures CountSince(rs + [r], todayStart) == CountSince(rs, todayStart) + (if CheckedInSince(r, todayStart) then 1 else 0)
  {
    assert (rs + [r])[..|rs|] == rs;
  }

  /** `snapshot.forEach(...)`: folds one batch's records into the running counters. */
  method CountSnapshot(snap: seq<Attendance>, todayStart: int, ghost before: seq<Attendance>,
                       totalCheckIns0: nat, activeToday0: nat, activeNow0: nat, totalMs0: int, memberCheckIns0: seq<Entry>)
    returns (totalCheckIns: nat, activeToday: nat, activeNow: nat, totalMs: int, memberCheckIns: seq<Entry>)
    requires Tallied(before, todayStart, totalCheckIns0, activeToday0, activeNow0, totalMs0, memberCheckIns0)
    ensures Tallied(before + snap, todayStart, totalCheckIns, activeToday, activeNow, totalMs, memberCheckIns)
  {
    totalCheckIns, activeToday, activeNow, totalMs, memberCheckIns := totalCheckIns0, activeToday0, activeNow0, totalMs0, memberCheckIns0;
    var j := 0;
    assert before + snap[..0] == before;
    while j < |snap|
      invariant 0 <= j <= |snap|
      invariant Tallied(before + snap[..j], todayStart, totalCheckIns, activeToday, activeNow, totalMs, memberCheckIns)
    {
      var data := snap[j];
      totalCheckIns := totalCheckIns + 1;
      memberCheckIns := Bump(memberCheckIns, data);
      if data.checkIn.Some? && data.checkOut.Some? {
        totalMs := totalMs + (data.checkOut.value - data.checkIn.value);
      }
      if data.checkOut.None? {
        activeNow := activeNow + 1;
      }
      if data.checkIn.Some? && data.checkIn.value >= todayStart {
        activeToday := activeToday + 1;
      }
      assert before + snap[..j + 1] == (before + snap[..j]) + [data];
      TallyStep(before + snap[..j], data, todayStart);
      j := j + 1;
    }
    assert snap[..|snap|] == snap;
  }

  /** `fetchClubStats`: the member and batched attendance queries, then the counting loop. */
  method FetchClubStats(club: string, members: seq<MemberDoc>, attendance: seq<AttendanceDoc>, todayStart: int)
    returns (stats: ClubStatsData)
    ensures stats == ClubStatsOf(club, members, attendance, todayStart)
  {
    var clubMembers := MembersOfClub(members, club);
    var memberIds := Ids(clubMembers);
    var totalCheckIns, activeToday, activeNow, totalMs := 0, 0, 0, 0;
    var memberCheckIns: seq<Entry> := [];
    if |memberIds| > 0 {
      var batches := MakeBatches(memberIds);
      var b := 0;
      while b < |batches|
        invariant 0 <= b <= |batches|
        invariant Tallied(FetchAll(attendance, batches[..b]), todayStart, totalCheckIns, activeToday, activeNow, totalMs, memberCheckIns)
      {
        var snap := InBatch(attendance, batches[b]);
        totalCheckIns, activeToday, activeNow, totalMs, memberCheckIns :=
          CountSnapshot(snap, todayStart, FetchAll(attendance, batches[..b]),
                        totalCheckIns, activeToday, activeNow, totalMs, memberCheckIns);
        assert batches[..b + 1][..b] == batches[..b];
        b := b + 1;
      }
      assert batches[..|batches|] == batches;
    }
    stats := ClubStatsData(club, |clubMembers|, totalCheckIns, activeToday, activeNow,
      TenthsOfHour(totalMs), AvgTenths(totalMs, |clubMembers|), TopMembers(clubMembers, memberCheckIns));
  }

  predicate NoDuplicates(s: seq<string>) {
    forall i, j | 0 <= i < j < |s| :: s[i] != s[j]
  }

  predicate Disjoint(a: seq<string>, b: seq<string>) {
    forall x | x in a :: x !in b
  }

  /** Querying two disjoint id lists returns the records of querying their union. */
  lemma {:induction false} InBatchUnion(coll: seq<AttendanceDoc>, a: seq<string>, b: seq<string>)
    requires Disjoint(a, b)
    ensures multiset(InBatch(coll, a + b)) == multiset(InBatch(coll, a)) + multiset(InBatch(coll, b))
  {
    if coll != [] {
      var init := coll[..|coll| - 1];
      InBatchUnion(init, a, b);
      var d := coll[|coll| - 1];
      assert d.data.userId in a + b <==> d.data.userId in a || d.data.userId in b;
    }
  }

  /** An empty id list matches nothing. */
  lemma {:induction false} InBatchOfNoIds(coll: seq<AttendanceDoc>)
    ensures InBatch(coll, []) == []
  {
    if coll != [] {
      InBatchOfNoIds(coll[..|coll| - 1]);
    }
  }

  lemma {:induction false} FlattenSnoc<T>(bs: seq<seq<T>>)
    requires bs != []
    ensures Flatten(bs) == Flatten(bs[..|bs| - 1]) + bs[|bs| - 1]
  {
    if |bs| > 1 {
      FlattenSnoc(bs[1..]);
      assert bs[1..][..|bs| - 2] == bs[..|bs| - 1][1..];
    } else {
      assert bs[..0] == [];
    }
  }

  /** Batches that share no id fetch every matching record once: concatenating the batch queries is one big query. */
  lemma {:induction false} FetchAllIsOneQuery(coll: seq<AttendanceDoc>, bs: seq<seq<string>>)
    requires NoDuplicates(Flatten(bs))
    ensures multiset(FetchAll(coll, bs)) == multiset(InBatch(coll, Flatten(bs)))
  {
    if bs != [] {
      var init := bs[..|bs| - 1];
      var last := bs[|bs| - 1];
      FlattenSnoc(bs);
      var f := Flatten(init);
      assert Flatten(bs) == f + last;
      assert NoDuplicates(f) by {
        forall i, j | 0 <= i < j < |f| ensures f[i] != f[j] {
          assert f[i] == Flatten(bs)[i] && f[j] == Flatten(bs)[j];
        }
      }
      forall i, j | 0 <= i < |f| && 0 <= j < |last| ensures f[i] != last[j] {
        assert Flatten(bs)[i] == f[i] && Flatten(bs)[|f| + j] == last[j];
      }
      assert Disjoint(f, last);
      FetchAllIsOneQuery(coll, init);
      InBatchUnion(coll, f, last);
    } else {
      InBatchOfNoIds(coll);
    }
  }

  /**
   * Splitting the member ids into batches neither loses nor double counts a record: the
   * fetched records are exactly the member-type records of the club's members.
   */
  lemma ClubRecordsAreMemberRecords(club: string, members: seq<MemberDoc>, attendance: seq<AttendanceDoc>)
    requires NoDuplicates(Ids(MembersOfClub(members, club)))
    ensures multiset(ClubRecords(club, members, attendance)) == multiset(InBatch(attendance, Ids(MembersOfClub(members, club))))
  {
    var ids := Ids(MembersOfClub(members, club));
    if |ids| > 0 {
      FlattenChunks(ids);
      FetchAllIsOneQuery(attendance, Chunks(ids));
    } else {
      InBatchOfNoIds(attendance);
    }
  }

  /** An entry's count is part of the total. */
  lemma {:induction false} EntryWithinSum(t: seq<Entry>, i: nat)
    requires i < |t|
    ensures t[i].count <= SumCounts(t)
  {
    if i > 0 {
      EntryWithinSum(t[1..], i - 1);
    }
  }

  /** `activeNow` and `activeToday` count some of the fetched records, so neither exceeds `totalCheckIns`. */
  lemma ClubStatsCounterBounds(club: string, members: seq<MemberDoc>, attendance: seq<AttendanceDoc>, todayStart: int)
    ensures var s := ClubStatsOf(club, members, attendance, todayStart);
      s.activeNow <= s.totalCheckIns && s.activeToday <= s.totalCheckIns
  {
  }

  /**
   * Each top member's numbers are one user's record count (at least 1, at most `totalCheckIns`)
   * and that user's rounded closed time.
   */
  lemma TopMemberBounds(club: string, members: seq<MemberDoc>, attendance: seq<AttendanceDoc>, todayStart: int, i: nat)
    requires i < |ClubStatsOf(club, members, attendance, todayStart).topMembers|
    ensures var s := ClubStatsOf(club, members, attendance, todayStart);
      var fetched := ClubRecords(club, members, attendance);
      && s.topMembers[i].checkIns <= s.totalCheckIns
      && exists e | e in Tally(fetched) ::
        && s.topMembers[i].checkIns == CountFor(fetched, e.id) >= 1
        && s.topMembers[i].hours == TenthsOfHour(MsFor(fetched, e.id))
  {
    var fetched := ClubRecords(club, members, attendance);
    var t := Tally(fetched);
    TopMembersSpec(MembersOfClub(members, club), t);
    var e := Rank(t)[i];
    assert e in t;
    var k :| 0 <= k < |t| && t[k] == e;
    TallyEntry(fetched, k);
    EntryWithinSum(t, k);
  }

  /** A club without members has all-zero statistics and no top members. */
  lemma EmptyClub(club: string, members: seq<MemberDoc>, attendance: seq<AttendanceDoc>, todayStart: int)
    requires forall i | 0 <= i < |members| :: members[i].data.club != club
    ensures ClubStatsOf(club, members, attendance, todayStart) == ClubStatsData(club, 0, 0, 0, 0, 0, 0, [])
  {
    NoClubMembers(members, club);
  }

  lemma {:induction false} NoClubMembers(members: seq<MemberDoc>, club: string)
    requires forall i | 0 <= i < |members| :: members[i].data.club != club
    ensures MembersOfClub(members, club) == []
  {
    if members != [] {
      NoClubMembers(members[..|members| - 1], club);
    }
  }

  /** The statistics page: the signed-in admin, the club's statistics once fetched, the spinner flag. */
  class StatsPage {
    var admin: Option<AdminSession>
    var clubStats: Option<ClubStatsData>
    var loading: bool

    constructor ()
      ensures admin.None? && clubStats.None? && loading
    {
      admin, clubStats, loading := None, None, true;
    }

    /**
     * The mount effect. Without an admin session nothing happens (the spinner stays); otherwise the
     * admin's club is fetched. A failing query is only logged, so the statistics stay unset.
     */
    method Mount(session: Option<AdminSession>, members: seq<MemberDoc>, attendance: seq<AttendanceDoc>,
                 todayStart: int, queriesOk: bool)
      modifies this
      ensures session.None? ==> admin == old(admin) && clubStats == old(clubStats) && loading == old(loading)
      ensures session.Some? ==> admin == session && !loading
      ensures session.Some? && queriesOk ==> clubStats == Some(ClubStatsOf(session.value.club, members, attendance, todayStart))
      ensures session.Some? && !queriesOk ==> clubStats == old(clubStats)
    {
      if session.None? {
        return;
      }
      admin := session;
      if queriesOk {
        var stats := FetchClubStats(session.value.club, members, attendance, todayStart);
        clubStats := Some(stats);
      }
      loading := false;
    }
  }
}
