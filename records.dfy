/**
 * The documents the app reads and writes (members, guests, attendance, the two local sessions)
 * and the per-record facts every page derives from attendance: closed durations, open visits,
 * check-ins since a time, the latest check-in. Times are integer milliseconds.
 */
module Records {
  import opened Common

  /** The `type` tags the app writes into attendance documents. */
  const MemberKind: string := "member"
  const GuestKind: string := "guest"

  /** An attendance document's fields; a missing `checkOut` means the visit is still open. */
  datatype Attendance = Attendance(userId: string, kind: string, checkIn: Option<int>, checkOut: Option<int>)

  /** An attendance document with its generated id. */
  datatype AttendanceDoc = AttendanceDoc(id: string, data: Attendance)

  /** A member document's fields; its id is the member's USN. */
  datatype Member = Member(name: string, usn: string, email: string, phone: string, club: string)

  datatype MemberDoc = MemberDoc(id: string, data: Member)

  /** A guest document's fields, as self-registration writes them. */
  datatype Guest = Guest(usn: string, fullName: string, phoneNumber: string, purpose: string, createdAt: Option<int>)

  datatype GuestDoc = GuestDoc(id: string, data: Guest)

  /** The check-in session kept in local storage (`attendance_session`). */
  datatype Session = Session(attendanceId: string, userId: string, kind: string, checkInTime: int, userName: Option<string>)

  /** The signed-in admin kept in local storage (`admin_session`). */
  datatype AdminSession = AdminSession(uid: string, email: string, name: string, club: string)

  /** Both timestamps are present, so the visit has a duration. */
  predicate IsClosed(r: Attendance) {
    r.checkIn.Some? && r.checkOut.Some?
  }

  /** `!data.checkOut`: the visit counts as someone present now. */
  predicate IsOpen(r: Attendance) {
    r.checkOut.None?
  }

  /** `checkIn && checkIn >= since`. */
  predicate CheckedInSince(r: Attendance, since: int) {
    r.checkIn.Some? && r.checkIn.value >= since
  }

  /** What one record adds to a sum of durations: check-out minus check-in, or nothing. */
  function ClosedMs(r: Attendance): (ms: int)
    ensures !IsClosed(r) ==> ms == 0
    ensures IsClosed(r) ==> ms == r.checkOut.value - r.checkIn.value
  {
    if IsClosed(r) then r.checkOut.value - r.checkIn.value else 0
  }

  /** The summed durations of the closed records, accumulated first to last. */
  function TotalClosedMs(rs: seq<Attendance>): int {
    if rs == [] then 0 else TotalClosedMs(rs[..|rs| - 1]) + ClosedMs(rs[|rs| - 1])
  }

  /** The number of open records. */
  function CountOpen(rs: seq<Attendance>): (n: nat)
    ensures n <= |rs|
  {
    if rs == [] then 0 else CountOpen(rs[..|rs| - 1]) + (if IsOpen(rs[|rs| - 1]) then 1 else 0)
  }

  /** The number of records checked in at or after `since`. */
  function CountSince(rs: seq<Attendance>, since: int): (n: nat)
    ensures n <= |rs|
  {
    if rs == [] then 0
    else CountSince(rs[..|rs| - 1], since) + (if CheckedInSince(rs[|rs| - 1], since) then 1 else 0)
  }

  /** Nobody is counted present exactly when every record has a check-out time. */
  lemma {:induction false} CountOpenZero(rs: seq<Attendance>)
    ensures CountOpen(rs) == 0 <==> forall i | 0 <= i < |rs| :: !IsOpen(rs[i])
  {
    if rs != [] {
      CountOpenZero(rs[..|rs| - 1]);
      assert forall i | 0 <= i < |rs| - 1 :: rs[..|rs| - 1][i] == rs[i];
    }
  }

  /** Every record is counted exactly when every record was checked in at or after `since`. */
  lemma {:induction false} CountSinceAll(rs: seq<Attendance>, since: int)
    ensures CountSince(rs, since) == |rs| <==> forall i | 0 <= i < |rs| :: CheckedInSince(rs[i], since)
  {
    if rs != [] {
      CountSinceAll(rs[..|rs| - 1], since);
      assert forall i | 0 <= i < |rs| - 1 :: rs[..|rs| - 1][i] == rs[i];
    }
  }

  /** Without closed records there is no duration to add up. */
  lemma {:induction false} TotalClosedMsOfOpen(rs: seq<Attendance>)
    requires forall i | 0 <= i < |rs| :: !IsClosed(rs[i])
    ensures TotalClosedMs(rs) == 0
  {
    if rs != [] {
      TotalClosedMsOfOpen(rs[..|rs| - 1]);
    }
  }

  /** Durations of well-ordered records add up to a non-negative total. */
  lemma {:induction false} TotalClosedMsNonNegative(rs: seq<Attendance>)
    requires forall i | 0 <= i < |rs| :: IsClosed(rs[i]) ==> rs[i].checkIn.value <= rs[i].checkOut.value
    ensures TotalClosedMs(rs) >= 0
  {
    if rs != [] {
      TotalClosedMsNonNegative(rs[..|rs| - 1]);
    }
  }

  /** The latest check-in time among the records, if any has one. */
  function LatestCheckIn(rs: seq<Attendance>): (t: Option<int>)
    ensures t.None? <==> forall i | 0 <= i < |rs| :: rs[i].checkIn.None?
    ensures t.Some? ==> exists i | 0 <= i < |rs| :: rs[i].checkIn == t
    ensures t.Some? ==> forall i | 0 <= i < |rs| && rs[i].checkIn.Some? :: rs[i].checkIn.value <= t.value
  {
    if rs == [] then None
    else
      var prev := LatestCheckIn(rs[..|rs| - 1]);
      var last := rs[|rs| - 1];
      assert forall i | 0 <= i < |rs| - 1 :: rs[..|rs| - 1][i] == rs[i];
      if last.checkIn.Some? && (prev.None? || last.checkIn.value > prev.value) then last.checkIn
      else prev
  }
}
