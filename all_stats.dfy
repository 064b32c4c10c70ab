/**
 * The all-clubs statistics page, open to SOSC admins only: the per-club statistics of every
 * club in a fixed order, their totals, and the club selector.
 */
module AllStats {
  import opened Common
  import opened Records
  import opened Durations
  import opened ClubStats

  const SOSC: string := "SOSC"

  /** `CLUBS`: every club, in the order the page lists them. */
  const Clubs: seq<string> := ["SOSC", "Challengers", "SRC"]

  /** The statistics of `clubs[..]`, one entry per club in order, all against the same `todayStart`. */
  function StatsOfClubs(clubs: seq<string>, members: seq<MemberDoc>, attendance: seq<AttendanceDoc>, todayStart: int): (r: seq<ClubStatsData>)
    ensures |r| == |clubs|
    ensures forall i | 0 <= i < |clubs| :: r[i] == ClubStatsOf(clubs[i], members, attendance, todayStart)
  {
    if clubs == [] then []
    else StatsOfClubs(clubs[..|clubs| - 1], members, attendance, todayStart) + [ClubStatsOf(clubs[|clubs| - 1], members, attendance, todayStart)]
  }

  /** Every entry is labelled with its own club, so the result has exactly one entry per club, in order. */
  lemma AllClubsInOrder(members: seq<MemberDoc>, attendance: seq<AttendanceDoc>, todayStart: int)
    ensures var all := StatsOfClubs(Clubs, members, attendance, todayStart);
      |all| == 3 && all[0].club == "SOSC" && all[1].club == "Challengers" && all[2].club == "SRC"
  {
  }

  /** `fetchAllClubStats`: one pass of the per-club computation for each club, pushed in order. */
  method FetchAllClubStats(members: seq<MemberDoc>, attendance: seq<AttendanceDoc>, todayStart: int)
    returns (allStats: seq<ClubStatsData>)
    ensures allStats == StatsOfClubs(Clubs, members, attendance, todayStart)
  {
    allStats := [];
    var c := 0;
    while c < |Clubs|
      invariant 0 <= c <= |Clubs|
      invariant allStats == StatsOfClubs(Clubs[..c], members, attendance, todayStart)
    {
      var stats := FetchClubStats(Clubs[c], members, attendance, todayStart);
      assert Clubs[..c + 1][..c] == Clubs[..c];
      allStats := allStats + [stats];
      c := c + 1;
    }
    assert Clubs[..|Clubs|] == Clubs;
  }

  /** The four summed cards. `hours` is in tenths of an hour, the sum of the clubs' rounded totals. */
  datatype Totals = Totals(members: int, checkIns: int, activeNow: int, hours: int)

  function Plus(a: Totals, b: Totals): Totals {
    Totals(a.members + b.members, a.checkIns + b.checkIns, a.activeNow + b.activeNow, a.hours + b.hours)
  }

  function Of(s: ClubStatsData): Totals {
    Totals(s.totalMembers, s.totalCheckIns, s.activeNow, s.totalHours)
  }

  /** `clubStats.reduce(...)` from all-zero totals, a left fold. */
  function SumTotals(stats: seq<ClubStatsData>): Totals {
    if stats == [] then Totals(0, 0, 0, 0) else Plus(SumTotals(stats[..|stats| - 1]), Of(stats[|stats| - 1]))
  }

  /** The totals of two lists of clubs add up. */
  lemma {:induction false} SumTotalsAppend(a: seq<ClubStatsData>, b: seq<ClubStatsData>)
    ensures SumTotals(a + b) == Plus(SumTotals(a), SumTotals(b))
  {
    if b != [] {
      assert (a + b)[..|a + b| - 1] == a + b[..|b| - 1];
      SumTotalsAppend(a, b[..|b| - 1]);
    } else {
      assert a + b == a;
    }
  }

  /** When no club has more people present than check-ins, neither do the totals; the counts are non-negative. */
  lemma {:induction false} SumTotalsBounds(stats: seq<ClubStatsData>)
    requires forall i | 0 <= i < |stats| :: stats[i].activeNow <= stats[i].totalCheckIns
    ensures 0 <= SumTotals(stats).activeNow <= SumTotals(stats).checkIns
    ensures SumTotals(stats).members >= 0
  {
    if stats != [] {
      SumTotalsBounds(stats[..|stats| - 1]);
    }
  }

  /** On the page's own data: at most as many people present as check-ins across all clubs. */
  lemma AllClubsActiveBound(members: seq<MemberDoc>, attendance: seq<AttendanceDoc>, todayStart: int)
    ensures var t := SumTotals(StatsOfClubs(Clubs, members, attendance, todayStart));
      0 <= t.activeNow <= t.checkIns
  {
    var all := StatsOfClubs(Clubs, members, attendance, todayStart);
    forall i | 0 <= i < |all| ensures all[i].activeNow <= all[i].totalCheckIns {
      ClubStatsCounterBounds(Clubs[i], members, attendance, todayStart);
    }
    SumTotalsBounds(all);
  }

  /** The club selector: `"all"` or one club. */
  datatype Selection = All | Only(club: string)

  /** `displayedStats`: every entry for "all", otherwise the entries of the selected club, in order. */
  function Displayed(stats: seq<ClubStatsData>, sel: Selection): (r: seq<ClubStatsData>)
    ensures sel.All? ==> r == stats
    ensures sel.Only? ==> |r| <= |stats|
    ensures sel.Only? ==> forall i | 0 <= i < |r| :: r[i] in stats && r[i].club == sel.club
    ensures sel.Only? ==> forall i | 0 <= i < |stats| && stats[i].club == sel.club :: stats[i] in r
  {
    match sel
    case All => stats
    case Only(c) => OfClub(stats, c)
  }

  function OfClub(stats: seq<ClubStatsData>, c: string): (r: seq<ClubStatsData>)
    ensures |r| <= |stats|
    ensures forall i | 0 <= i < |r| :: r[i] in stats && r[i].club == c
    ensures forall i | 0 <= i < |stats| && stats[i].club == c :: stats[i] in r
  {
    if stats == [] then []
    else
      var rest := OfClub(stats[..|stats| - 1], c);
      assert forall i | 0 <= i < |stats| - 1 :: stats[..|stats| - 1][i] == stats[i];
      if stats[|stats| - 1].club == c then rest + [stats[|stats| - 1]] else rest
  }

  lemma {:induction false} OfClubNone(stats: seq<ClubStatsData>, c: string)
    requires forall i | 0 <= i < |stats| :: stats[i].club != c
    ensures OfClub(stats, c) == []
  {
    if stats != [] {
      OfClubNone(stats[..|stats| - 1], c);
    }
  }

  /** When every entry has its own club, selecting an entry's club shows that entry alone. */
  lemma {:induction false} OfClubUnique(stats: seq<ClubStatsData>, k: nat)
    requires k < |stats|
    requires forall i, j | 0 <= i < j < |stats| :: stats[i].club != stats[j].club
    ensures OfClub(stats, stats[k].club) == [stats[k]]
  {
    var init := stats[..|stats| - 1];
    if k == |stats| - 1 {
      OfClubNone(init, stats[k].club);
    } else {
      OfClubUnique(init, k);
    }
  }

  /** Selecting one of the clubs shows exactly that club's statistics and nothing else. */
  lemma SelectOneClub(members: seq<MemberDoc>, attendance: seq<AttendanceDoc>, todayStart: int, k: nat)
    requires k < |Clubs|
    ensures Displayed(StatsOfClubs(Clubs, members, attendance, todayStart), Only(Clubs[k]))
         == [ClubStatsOf(Clubs[k], members, attendance, todayStart)]
  {
    var all := StatsOfClubs(Clubs, members, attendance, todayStart);
    AllClubsInOrder(members, attendance, todayStart);
    SelectAmongClubs(all, k);
  }

  lemma SelectAmongClubs(all: seq<ClubStatsData>, k: nat)
    requires |all| == |Clubs| && k < |Clubs|
    requires forall i | 0 <= i < |Clubs| :: all[i].club == Clubs[i]
    ensures Displayed(all, Only(Clubs[k])) == [all[k]]
  {
    OfClubUnique(all, k);
  }

  /** What the page shows. */
  datatype View = Spinner | Nothing | Overview(totals: Totals, shown: seq<ClubStatsData>)

  /** The all-clubs page: the admin once accepted, the fetched statistics, the spinner and the selector. */
  class AllStatsPage {
    var admin: Option<AdminSession>
    var clubStats: seq<ClubStatsData>
    var loading: bool
    var selected: Selection
    /** The route the page navigated to, if any. */
    var route: Option<string>

    constructor ()
      ensures admin.None? && clubStats == [] && loading && selected == All && route.None?
      ensures Settled()
    {
      admin, clubStats, loading, selected, route := None, [], true, All, None;
    }

    /** Once the spinner is gone, the accepted admin is an SOSC admin. */
    ghost predicate Settled()
      reads this
    {
      !loading ==> admin.Some? && admin.value.club == SOSC
    }

    /**
     * The mount effect. Without a session nothing happens; a non-SOSC admin is sent to `/admin`
     * and nothing is fetched; an SOSC admin's page fetches every club. A failing query is only
     * logged and leaves the list as it was.
     */
    method Mount(session: Option<AdminSession>, members: seq<MemberDoc>, attendance: seq<AttendanceDoc>,
                 todayStart: int, queriesOk: bool)
      requires Settled()
      modifies this
      ensures Settled()
      ensures selected == old(selected)
      ensures session.None? ==> admin == old(admin) && clubStats == old(clubStats) && loading == old(loading) && route == old(route)
      ensures session.Some? && session.value.club != SOSC ==>
        route == Some("/admin") && admin == old(admin) && clubStats == old(clubStats) && loading == old(loading)
      ensures session.Some? && session.value.club == SOSC ==> admin == session && !loading && route == old(route)
      ensures session.Some? && session.value.club == SOSC ==>
        clubStats == if queriesOk then StatsOfClubs(Clubs, members, attendance, todayStart) else old(clubStats)
    {
      if session.None? {
        return;
      }
      if session.value.club != SOSC {
        route := Some("/admin");
        return;
      }
      admin := session;
      if queriesOk {
        clubStats := FetchAllClubStats(members, attendance, todayStart);
      }
      loading := false;
    }

    /** `setSelectedClub`. */
    method Select(sel: Selection)
      modifies this
      ensures selected == sel
      ensures admin == old(admin) && clubStats == old(clubStats) && loading == old(loading) && route == old(route)
    {
      selected := sel;
    }

    /** The render: the spinner while loading, nothing for a non-SOSC admin, else totals and the selected clubs. */
    function Render(): (v: View)
      reads this
      ensures loading ==> v == Spinner
      ensures !loading && (admin.None? || admin.value.club != SOSC) ==> v == Nothing
      ensures !loading && admin.Some? && admin.value.club == SOSC ==>
                v == Overview(SumTotals(clubStats), Displayed(clubStats, selected))
    {
      if loading then Spinner
      else if admin.None? || admin.value.club != SOSC then Nothing
      else Overview(SumTotals(clubStats), Displayed(clubStats, selected))
    }

    /** In a settled page the "nothing" branch of the render is never taken. */
    lemma SettledNeverBlank()
      requires Settled()
      ensures Render() != Nothing
    {
    }
  }
}
