/**
 * The admin dashboard: the club's member count, today's check-ins and how many of them are
 * still open, the number of guests, and the ten most recent check-ins of any kind.
 */
module Dashboard {
  import opened Common
  import opened Records
  import opened Queries
  import opened Batching
  import Sorting
  import ClubStats

  /** The four cards. */
  datatype DashboardStats = DashboardStats(totalMembers: nat, todayCheckIns: nat, activeNow: nat, totalGuests: nat)

  /** One row of the recent-activity table; `time` is the check-in time in ms (its locale formatting is not modelled). */
  datatype Activity = Activity(id: string, name: string, kind: string, time: int, action: string)

  const CheckedOut: string := "Checked Out"
  const CheckedIn: string := "Checked In"

  /** Today's member-type records of the club's members, batch after batch; nothing without members. */
  function TodayRecords(club: string, members: seq<MemberDoc>, attendance: seq<AttendanceDoc>, todayStart: int): seq<Attendance> {
    var ids := Ids(MembersOfClub(members, club));
    if |ids| > 0 then FetchAllSince(attendance, Chunks(ids), todayStart) else []
  }

  /** What `fetchDashboardData` puts on the cards. */
  function DashboardStatsOf(club: string, members: seq<MemberDoc>, attendance: seq<AttendanceDoc>,
                            guests: seq<GuestDoc>, todayStart: int): DashboardStats {
    var today := TodayRecords(club, members, attendance, todayStart);
    DashboardStats(|MembersOfClub(members, club)|, |today|, CountOpen(today), |guests|)
  }

  /** `snapshot.docs.forEach(...)`: one more for each record without a check-out time. */
  method CountOpenSnapshot(snap: seq<Attendance>, activeNow0: nat) returns (activeNow: nat)
    ensures activeNow == activeNow0 + CountOpen(snap)
  {
    activeNow := activeNow0;
    var j := 0;
    while j < |snap|
      invariant 0 <= j <= |snap|
      invariant activeNow == activeNow0 + CountOpen(snap[..j])
    {
      if snap[j].checkOut.None? {
        activeNow := activeNow + 1;
      }
      assert snap[..j + 1][..j] == snap[..j];
      j := j + 1;
    }
    assert snap[..|snap|] == snap;
  }

  lemma {:induction false} CountOpenAppend(a: seq<Attendance>, b: seq<Attendance>)
    ensures CountOpen(a + b) == CountOpen(a) + CountOpen(b)
  {
    if b == [] {
      assert a + b == a;
    } else {
      assert (a + b)[..|a + b| - 1] == a + b[..|b| - 1];
      CountOpenAppend(a, b[..|b| - 1]);
    }
  }

  /** The card computation: `todayCheckIns += snapshot.size` per batch, `activeNow++` per open record. */
  method FetchDashboardStats(club: string, members: seq<MemberDoc>, attendance: seq<AttendanceDoc>,
                             guests: seq<GuestDoc>, todayStart: int)
    returns (stats: DashboardStats)
    ensures stats == DashboardStatsOf(club, members, attendance, guests, todayStart)
  {
    var clubMembers := MembersOfClub(members, club);
    var memberIds := Ids(clubMembers);
    var todayCheckIns, activeNow := 0, 0;
    if |memberIds| > 0 {
      var batches := MakeBatches(memberIds);
      var b := 0;
      while b < |batches|
        invariant 0 <= b <= |batches|
        invariant todayCheckIns == |FetchAllSince(attendance, batches[..b], todayStart)|
        invariant activeNow == CountOpen(FetchAllSince(attendance, batches[..b], todayStart))
      {
        ghost var before := FetchAllSince(attendance, batches[..b], todayStart);
        var snap := InBatchSince(attendance, batches[b], todayStart);
        todayCheckIns := todayCheckIns + |snap|;
        activeNow := CountOpenSnapshot(snap, activeNow);
        CountOpenAppend(before, snap);
        assert batches[..b + 1][..b] == batches[..b];
        b := b + 1;
      }
      assert batches[..|batches|] == batches;
    }
    stats := DashboardStats(|clubMembers|, todayCheckIns, activeNow, |guests|);
  }

  /** Only today's open records count as present, so `activeNow <= todayCheckIns`; without members both are 0. */
  lemma DashboardBounds(club: string, members: seq<MemberDoc>, attendance: seq<AttendanceDoc>, guests: seq<GuestDoc>, todayStart: int)
    ensures var s := DashboardStatsOf(club, members, attendance, guests, todayStart);
      && s.activeNow <= s.todayCheckIns
      && (s.totalMembers == 0 ==> s.todayCheckIns == 0 && s.activeNow == 0)
  {
  }

  lemma {:induction false} CountSinceAppend(a: seq<Attendance>, b: seq<Attendance>, since: int)
    ensures CountSince(a + b, since) == CountSince(a, since) + CountSince(b, since)
  {
    if b == [] {
      assert a + b == a;
    } else {
      assert (a + b)[..|a + b| - 1] == a + b[..|b| - 1];
      CountSinceAppend(a, b[..|b| - 1], since);
    }
  }

  /** Adding the check-in condition to a batch query keeps exactly its records checked in since then. */
  lemma {:induction false} InBatchSinceCount(coll: seq<AttendanceDoc>, batch: seq<string>, since: int)
    ensures |InBatchSince(coll, batch, since)| == CountSince(InBatch(coll, batch), since)
  {
    if coll != [] {
      var init := coll[..|coll| - 1];
      InBatchSinceCount(init, batch, since);
      var last := coll[|coll| - 1];
      if InBatchMatch(last, batch) {
        assert InBatch(coll, batch) == InBatch(init, batch) + [last.data];
        CountSinceAppend(InBatch(init, batch), [last.data], since);
        assert [last.data][..0] == [];
      }
    }
  }

  lemma {:induction false} FetchAllSinceCount(coll: seq<AttendanceDoc>, bs: seq<seq<string>>, since: int)
    ensures |FetchAllSince(coll, bs, since)| == CountSince(FetchAll(coll, bs), since)
  {
    if bs != [] {
      FetchAllSinceCount(coll, bs[..|bs| - 1], since);
      InBatchSinceCount(coll, bs[|bs| - 1], since);
      CountSinceAppend(FetchAll(coll, bs[..|bs| - 1]), InBatch(coll, bs[|bs| - 1]), since);
    }
  }

  /** The dashboard's member count and today's check-ins agree with the statistics page's `totalMembers` and `activeToday`. */
  lemma DashboardAgreesWithStats(club: string, members: seq<MemberDoc>, attendance: seq<AttendanceDoc>,
                                 guests: seq<GuestDoc>, todayStart: int)
    ensures var d := DashboardStatsOf(club, members, attendance, guests, todayStart);
      var s := ClubStats.ClubStatsOf(club, members, attendance, todayStart);
      d.totalMembers == s.totalMembers && d.todayCheckIns == s.activeToday
  {
    var ids := Ids(MembersOfClub(members, club));
    if |ids| > 0 {
      FetchAllSinceCount(attendance, Chunks(ids), todayStart);
    }
  }

  /** One row: `userId || "Unknown"`, `type || "member"`, the check-in time or `now`, and the action. */
  function ActivityOf(d: AttendanceDoc, now: int): (a: Activity)
    ensures a.action == CheckedOut <==> d.data.checkOut.Some?
    ensures a.action == CheckedIn <==> d.data.checkOut.None?
    ensures a.id == d.id && a.name != "" && a.kind != ""
    ensures d.data.userId != "" ==> a.name == d.data.userId
    ensures d.data.kind != "" ==> a.kind == d.data.kind
  {
    Activity(d.id, Or(d.data.userId, "Unknown"), Or(d.data.kind, MemberKind), d.data.checkIn.GetOr(now),
      if d.data.checkOut.Some? then CheckedOut else CheckedIn)
  }

  function ActivitiesOf(ds: seq<AttendanceDoc>, now: int): (r: seq<Activity>)
    ensures |r| == |ds|
    ensures forall i | 0 <= i < |ds| :: r[i] == ActivityOf(ds[i], now)
  {
    if ds == [] then [] else [ActivityOf(ds[0], now)] + ActivitiesOf(ds[1..], now)
  }

  /**
   * `orderBy("checkIn", "desc")`, first ten, as rows: at most ten, taken from records of every
   * kind (their order is `RecentActivitySpec`).
   */
  function RecentActivity(attendance: seq<AttendanceDoc>, now: int): (r: seq<Activity>)
    ensures |r| == Min(10, |ByCheckInDesc(attendance)|) <= 10
  {
    var sorted := ByCheckInDesc(attendance);
    ActivitiesOf(sorted[..Min(10, |sorted|)], now)
  }

  /**
   * The rows are the first ten records of the query in order, so their times do not increase,
   * and no record left out is newer than one shown.
   */
  lemma RecentActivitySpec(attendance: seq<AttendanceDoc>, now: int)
    ensures var r := RecentActivity(attendance, now);
      && (forall i | 0 <= i < |r| :: r[i] == ActivityOf(ByCheckInDesc(attendance)[i], now))
      && (forall i, j | 0 <= i < j < |r| :: r[i].time >= r[j].time)
      && (forall i, k | 0 <= i < |r| <= k < |ByCheckInDesc(attendance)| ::
            ByCheckInDesc(attendance)[k].data.checkIn.value <= r[i].time)
  {
    var sorted := ByCheckInDesc(attendance);
    assert forall i | 0 <= i < |sorted| :: CheckInKey(sorted[i]) == sorted[i].data.checkIn.value;
  }

  /** The dashboard page's state. */
  class DashboardPage {
    var admin: Option<AdminSession>
    var stats: DashboardStats
    var recentActivity: seq<Activity>
    var loading: bool

    constructor ()
      ensures admin.None? && stats == DashboardStats(0, 0, 0, 0) && recentActivity == [] && loading
    {
      admin, stats, recentActivity, loading := None, DashboardStats(0, 0, 0, 0), [], true;
    }

    /**
     * The mount effect. With an admin session the cards are fetched (`statsOk`: the member,
     * attendance and guest queries succeed), then the recent activity (`recentOk`). A failure
     * keeps whatever was not yet set.
     */
    method Mount(session: Option<AdminSession>, members: seq<MemberDoc>, attendance: seq<AttendanceDoc>,
                 guests: seq<GuestDoc>, todayStart: int, now: int, statsOk: bool, recentOk: bool)
      modifies this
      ensures session.None? ==> admin == old(admin) && stats == old(stats) && recentActivity == old(recentActivity) && loading == old(loading)
      ensures session.Some? ==> admin == session && !loading
      ensures session.Some? ==>
        stats == if statsOk then DashboardStatsOf(session.value.club, members, attendance, guests, todayStart) else old(stats)
      ensures session.Some? ==>
        recentActivity == if statsOk && recentOk then RecentActivity(attendance, now) else old(recentActivity)
    {
      if session.None? {
        return;
      }
      admin := session;
      if statsOk {
        stats := FetchDashboardStats(session.value.club, members, attendance, guests, todayStart);
        if recentOk {
          recentActivity := RecentActivity(attendance, now);
        }
      }
      loading := false;
    }
  }
}
