/**
 * The public kiosk: the home page's check-in by USN, the guest registration form and the status
 * page's check-out. The backend's members, guests and attendance collections and the stored
 * check-in session are fields of one `Kiosk` object; what the backend does on a write (a fresh
 * document id, a server time, a failure) is passed in.
 */
module Kiosk {
  import opened Common
  import opened Strings
  import opened Records
  import Guests

  const HomeRoute: string := "/"
  const StatusRoute: string := "/status"
  const GuestRoute: string := "/guest-registration"

  /** The alerts the three pages show. */
  const CheckInFailed: string := "An error occurred. Please try again."
  const CheckOutFailed: string := "An error occurred during check-out. Please try again."
  const FillAllFields: string := "Please fill in all fields"

  /** The attendance record a check-in writes: checked in at `now`, `checkOut: null`. */
  function OpenRecord(userId: string, kind: string, now: int): (r: Attendance)
    ensures IsOpen(r) && CheckedInSince(r, now)
  {
    Attendance(userId, kind, Some(now), None)
  }

  /** The session a member check-in stores; it has no `userName`. */
  function MemberSession(attendanceId: string, userId: string, now: int): Session {
    Session(attendanceId, userId, MemberKind, now, None)
  }

  /** The session a guest registration stores, named after the guest. */
  function GuestSession(attendanceId: string, guestId: string, now: int, name: string): Session {
    Session(attendanceId, guestId, GuestKind, now, Some(name))
  }

  /** The status card's label and value: "USN" and the id for members, otherwise "Name" and `userName || userId`. */
  function Identity(s: Session): (string, string) {
    (if s.kind == MemberKind then "USN" else "Name", Or(s.userName.GetOr(""), s.userId))
  }

  /** A member sees the USN they typed, trimmed; a guest sees the name they registered with. */
  lemma IdentityShown(attendanceId: string, id: string, now: int, name: string)
    requires name != ""
    ensures Identity(MemberSession(attendanceId, id, now)) == ("USN", id)
    ensures Identity(GuestSession(attendanceId, id, now, name)) == ("Name", name)
  {
  }

  /** The "Check In" button: enabled when not loading and the USN is not all white space. */
  function CheckInEnabled(loading: bool, serialNumber: string): (b: bool)
    ensures b <==> !loading && !AllSpace(serialNumber)
  {
    TrimEmpty(serialNumber);
    !(loading || Trim(serialNumber) == "")
  }

  /** The guest registration form's four fields, as typed. */
  datatype GuestForm = GuestForm(usn: string, fullName: string, phoneNumber: string, purpose: string)

  /** The submit handler's check: the alert it raises, or `None` when every field has text. */
  function Validate(f: GuestForm): (alert: Option<string>) {
    if IsBlank(f.usn) || IsBlank(f.fullName) || IsBlank(f.phoneNumber) || IsBlank(f.purpose) then Some(FillAllFields)
    else None
  }

  /** The check passes exactly when each of the four fields holds a character that is not white space;
      otherwise the alert asks for all fields. */
  lemma ValidateSpec(f: GuestForm)
    ensures Validate(f).None? <==> !AllSpace(f.usn) && !AllSpace(f.fullName) && !AllSpace(f.phoneNumber) && !AllSpace(f.purpose)
    ensures Validate(f).Some? ==> Validate(f) == Some(FillAllFields)
  {
    TrimEmpty(f.usn);
    TrimEmpty(f.fullName);
    TrimEmpty(f.phoneNumber);
    TrimEmpty(f.purpose);
  }

  /** The "Check In" button of the form: enabled exactly when the handler's check would pass. */
  function SubmitEnabled(loading: bool, f: GuestForm): (b: bool)
    ensures b <==> !loading && Validate(f).None?
  {
    !(loading || Trim(f.usn) == "" || Trim(f.fullName) == "" || Trim(f.phoneNumber) == "" || Trim(f.purpose) == "")
  }

  /** The guest document the form writes: the four trimmed fields and the creation time. */
  function GuestOf(f: GuestForm, now: int): Guest {
    Guest(Trim(f.usn), Trim(f.fullName), Trim(f.phoneNumber), Trim(f.purpose), Some(now))
  }

  /**
   * A form that passes the check stores four non-empty fields that trimming leaves alone, so the
   * guests page shows them as stored instead of its "Unknown" and "-" placeholders, and the new
   * open visit as "Still here".
   */
  lemma StoredGuestShown(f: GuestForm, now: int, guestId: string)
    requires Validate(f).None?
    ensures var g := GuestOf(f, now);
      && g.usn != "" && g.fullName != "" && g.phoneNumber != "" && g.purpose != ""
      && Trim(g.usn) == g.usn && Trim(g.fullName) == g.fullName
      && Trim(g.phoneNumber) == g.phoneNumber && Trim(g.purpose) == g.purpose
      && Guests.RowOfGuest(GuestDoc(guestId, g), Some(Guests.Visit(Some(now), None)))
         == Some(Guests.GuestRow(guestId, g.usn, g.fullName, g.phoneNumber, g.purpose, Some(now),
                                  Some(now), None, Guests.StillHere))
  {
    TrimmedField(f.usn);
    TrimmedField(f.fullName);
    TrimmedField(f.phoneNumber);
    TrimmedField(f.purpose);
  }

  /** A field with text keeps some after trimming, and trimming it again changes nothing. */
  lemma TrimmedField(s: string)
    requires !IsBlank(s)
    ensures Trim(s) != "" && Trim(Trim(s)) == Trim(s)
  {
    TrimIdempotent(s);
  }

  class Kiosk {
    /** The ids of the member documents. */
    var members: set<string>
    var guests: map<string, Guest>
    var attendance: map<string, Attendance>
    /** The stored `attendance_session`. */
    var session: Option<Session>
    /** The last page the router was sent to, and the last alert shown. */
    var route: Option<string>
    var alert: Option<string>

    /**
     * The stored session, if any, belongs to an open record of its own user and kind: a member's
     * has no name, a guest's carries the registered guest's name.
     */
    ghost predicate Valid()
      reads this`session, this`attendance, this`members, this`guests
    {
      session.Some? ==>
        var s := session.value;
        && s.attendanceId in attendance
        && attendance[s.attendanceId].userId == s.userId
        && attendance[s.attendanceId].kind == s.kind
        && IsOpen(attendance[s.attendanceId])
        && (s.kind == MemberKind || s.kind == GuestKind)
        && (s.kind == MemberKind ==> s.userId in members && s.userName.None?)
        && (s.kind == GuestKind ==> s.userId in guests && s.userName == Some(guests[s.userId].fullName))
    }

    constructor (members: set<string>, guests: map<string, Guest>, attendance: map<string, Attendance>, session: Option<Session>)
      ensures this.members == members && this.guests == guests && this.attendance == attendance
      ensures this.session == session && route.None? && alert.None?
    {
      this.members, this.guests, this.attendance, this.session := members, guests, attendance, session;
      route, alert := None, None;
    }

    /** The home page's mount effect: someone already checked in is sent to the status page. */
    method HomeMount()
      modifies this`route
      ensures route == if session.Some? then Some(StatusRoute) else old(route)
    {
      if session.Some? {
        route := Some(StatusRoute);
      }
    }

    /**
     * `handleSubmit` on the home page. A blank USN does nothing. A member id gets a new open
     * record under the fresh id `newId` and a session for it, even if an earlier visit is still
     * open; an unknown id goes to the guest form; a failed lookup or write only alerts.
     */
    method SubmitCheckIn(serialNumber: string, newId: string, now: int, lookupOk: bool, writeOk: bool)
      requires newId !in attendance
      modifies this`attendance, this`session, this`route, this`alert
      ensures old(Valid()) ==> Valid()
      ensures var id := Trim(serialNumber);
        if id == "" then
          attendance == old(attendance) && session == old(session) && route == old(route) && alert == old(alert)
        else if lookupOk && id in members && writeOk then
          && attendance == old(attendance)[newId := OpenRecord(id, MemberKind, now)]
          && session == Some(MemberSession(newId, id, now))
          && route == Some(StatusRoute) && alert == old(alert) && Valid()
        else if lookupOk && id !in members then
          attendance == old(attendance) && session == old(session) && route == Some(GuestRoute) && alert == old(alert)
        else
          attendance == old(attendance) && session == old(session) && route == old(route) && alert == Some(CheckInFailed)
    {
      var id := Trim(serialNumber);
      if id == "" {
        return;
      }
      if !lookupOk {
        alert := Some(CheckInFailed);
      } else if id in members {
        if writeOk {
          attendance := attendance[newId := Attendance(id, MemberKind, Some(now), None)];
          session := Some(Session(newId, id, MemberKind, now, None));
          route := Some(StatusRoute);
        } else {
          alert := Some(CheckInFailed);
        }
      } else {
        route := Some(GuestRoute);
      }
    }

    /** The status page's mount check: without a session it goes back home. */
    method StatusMount()
      modifies this`route
      ensures route == if session.None? then Some(HomeRoute) else old(route)
    {
      if session.None? {
        route := Some(HomeRoute);
      }
    }

    /**
     * `handleCheckOut`: stamps `checkOut` on the session's record, and only that one, then clears
     * the session and goes home. It does not look at whether the record was already closed. When
     * the write fails (among other reasons because the record is missing) the session stays.
     */
    method CheckOut(now: int, writeOk: bool)
      modifies this`attendance, this`session, this`route, this`alert
      ensures old(Valid()) ==> Valid()
      ensures if old(session).None? then
          attendance == old(attendance) && session == old(session) && route == old(route) && alert == old(alert)
        else if writeOk && old(session).value.attendanceId in old(attendance) then
          var id := old(session).value.attendanceId;
          && attendance == old(attendance)[id := old(attendance)[id].(checkOut := Some(now))]
          && session.None? && route == Some(HomeRoute) && alert == old(alert) && Valid()
        else
          attendance == old(attendance) && session == old(session) && route == old(route) && alert == Some(CheckOutFailed)
    {
      if session.None? {
        return;
      }
      var id := session.value.attendanceId;
      if writeOk && id in attendance {
        attendance := attendance[id := attendance[id].(checkOut := Some(now))];
        session := None;
        route := Some(HomeRoute);
      } else {
        alert := Some(CheckOutFailed);
      }
    }

    /**
     * The guest form's `handleSubmit`: a form with a blank field only alerts; otherwise the two
     * writes of `SaveGuest` follow.
     */
    method RegisterGuest(form: GuestForm, guestId: string, attendanceId: string, now: int,
                         guestWriteOk: bool, attendanceWriteOk: bool)
      requires guestId !in guests && attendanceId !in attendance
      modifies this`guests, this`attendance, this`session, this`route, this`alert
      ensures old(Valid()) ==> Valid()
      ensures Validate(form).Some? ==>
        && guests == old(guests) && attendance == old(attendance) && session == old(session)
        && route == old(route) && alert == Validate(form)
      ensures Validate(form).None? ==> Saved(form, guestId, attendanceId, now, guestWriteOk, attendanceWriteOk)
    {
      var check := Validate(form);
      if check.Some? {
        alert := check;
      } else {
        SaveGuest(form, guestId, attendanceId, now, guestWriteOk, attendanceWriteOk);
      }
    }

    /**
     * The state after the `try` block of the guest form: the guest document is written under
     * `guestId`, then the open guest record under `attendanceId`, then the session. The writes
     * are separate, so a failed second write leaves the guest without a visit and no session.
     * The form does not look at an existing session: a new one replaces it.
     */
    twostate predicate Saved(form: GuestForm, guestId: string, attendanceId: string, now: int,
                             guestWriteOk: bool, attendanceWriteOk: bool)
      reads this
    {
      if !guestWriteOk then
        && guests == old(guests) && attendance == old(attendance) && session == old(session)
        && route == old(route) && alert == Some(CheckInFailed)
      else if !attendanceWriteOk then
        && guests == old(guests)[guestId := GuestOf(form, now)] && attendance == old(attendance)
        && session == old(session) && route == old(route) && alert == Some(CheckInFailed)
      else
        && guests == old(guests)[guestId := GuestOf(form, now)]
        && attendance == old(attendance)[attendanceId := OpenRecord(guestId, GuestKind, now)]
        && session == Some(GuestSession(attendanceId, guestId, now, Trim(form.fullName)))
        && route == Some(StatusRoute) && alert == old(alert) && Valid()
    }

    /** The `try` block of the guest form's `handleSubmit`, reached once every field has text. */
    method SaveGuest(form: GuestForm, guestId: string, attendanceId: string, now: int,
                     guestWriteOk: bool, attendanceWriteOk: bool)
      requires guestId !in guests && attendanceId !in attendance
      modifies this`guests, this`attendance, this`session, this`route, this`alert
      ensures old(Valid()) ==> Valid()
      ensures Saved(form, guestId, attendanceId, now, guestWriteOk, attendanceWriteOk)
    {
      if !guestWriteOk {
        alert := Some(CheckInFailed);
        return;
      }
      guests := guests[guestId := GuestOf(form, now)];
      if !attendanceWriteOk {
        alert := Some(CheckInFailed);
        return;
      }
      attendance := attendance[attendanceId := OpenRecord(guestId, GuestKind, now)];
      session := Some(GuestSession(attendanceId, guestId, now, Trim(form.fullName)));
      route := Some(StatusRoute);
    }
  }
}
