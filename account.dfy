/**
 * The admin account page: renaming the signed-in admin and changing the password, each an
 * ordered chain of checks before one backend call, and the mapping from the auth service's
 * error codes to the messages shown.
 */
module Account {
  import opened Common
  import opened Strings
  import opened Records

  const SameName: string := "Name is the same as before."
  const NameUpdated: string := "Name updated successfully."
  const NameFailed: string := "Failed to update name. Please try again."

  const FieldsRequired: string := "All fields are required."
  const TooShort: string := "New password must be at least 6 characters."
  const Mismatch: string := "New passwords do not match."
  const NotSignedIn: string := "You must be signed in. Please log out and log back in."
  const WrongPassword: string := "Current password is incorrect."
  const SessionExpired: string := "Session expired. Please log out and log back in first."
  const PasswordFailed: string := "Failed to update password. Please try again."
  const PasswordUpdated: string := "Password updated successfully."

  const MinPasswordLength: nat := 6

  /** A message under a form: `{ type, text }`. */
  datatype Tone = Success | Failure
  datatype Msg = Msg(tone: Tone, text: string)

  /** What `handleNameChange` decides before writing: nothing, the "same name" error, or a write of the new name. */
  datatype NameStep = Skip | Unchanged | Rename(newName: string)

  function NameCheck(admin: Option<AdminSession>, name: string): (step: NameStep)
    ensures step.Skip? <==> admin.None? || AllSpace(name)
    ensures step.Unchanged? ==> admin.Some? && Trim(name) == admin.value.name
    ensures step.Rename? ==> admin.Some? && step.newName == Trim(name) && step.newName != admin.value.name
    ensures step.Rename? ==> step.newName != ""
  {
    TrimEmpty(name);
    if admin.None? || Trim(name) == "" then Skip
    else if Trim(name) == admin.value.name then Unchanged
    else Rename(Trim(name))
  }

  /**
   * The checks `handlePasswordChange` makes before calling the auth service, in order: the
   * message of the first that fails, or `None` when all pass.
   */
  function PasswordCheck(current: string, newPassword: string, confirm: string): (m: Option<string>)
    ensures m.None? <==> current != "" && newPassword != "" && confirm != ""
                         && |newPassword| >= MinPasswordLength && newPassword == confirm
    ensures m == Some(FieldsRequired) <==> current == "" || newPassword == "" || confirm == ""
    ensures m == Some(TooShort) <==>
      current != "" && newPassword != "" && confirm != "" && |newPassword| < MinPasswordLength
    ensures m == Some(Mismatch) <==>
      current != "" && newPassword != "" && confirm != "" && |newPassword| >= MinPasswordLength
      && newPassword != confirm
  {
    if current == "" || newPassword == "" || confirm == "" then Some(FieldsRequired)
    else if |newPassword| < MinPasswordLength then Some(TooShort)
    else if newPassword != confirm then Some(Mismatch)
    else None
  }

  /** The length check comes before the comparison: a short password is reported short even when the two differ. */
  lemma ShortBeforeMismatch()
    ensures PasswordCheck("old", "abc", "abd") == Some(TooShort)
    ensures PasswordCheck("old", "abcdef", "abcdeg") == Some(Mismatch)
  {
  }

  /** The message for an error thrown by re-authentication or the password update, by its `code`. */
  function AuthErrorMessage(code: Option<string>): (text: string)
    ensures text == WrongPassword <==> code == Some("auth/wrong-password") || code == Some("auth/invalid-credential")
    ensures text == SessionExpired <==> code == Some("auth/requires-recent-login")
    ensures text == PasswordFailed <==>
      !(code == Some("auth/wrong-password") || code == Some("auth/invalid-credential")
        || code == Some("auth/requires-recent-login"))
    ensures text != PasswordUpdated
  {
    if code == Some("auth/wrong-password") || code == Some("auth/invalid-credential") then WrongPassword
    else if code == Some("auth/requires-recent-login") then SessionExpired
    else PasswordFailed
  }

  /** What the auth service does with the change: it succeeds, or one of its calls throws with an optional code. */
  datatype AuthOutcome = Changed | Thrown(code: Option<string>)

  class AccountPage {
    /** The signed-in admin, also what the stored `admin_session` holds. */
    var admin: Option<AdminSession>
    var name: string
    var nameMsg: Option<Msg>
    var currentPassword: string
    var newPassword: string
    var confirmPassword: string
    var pwMsg: Option<Msg>
    var loading: bool

    constructor ()
      ensures admin.None? && name == "" && nameMsg.None? && pwMsg.None? && loading
      ensures currentPassword == "" && newPassword == "" && confirmPassword == ""
    {
      admin, name, nameMsg := None, "", None;
      currentPassword, newPassword, confirmPassword, pwMsg := "", "", "", None;
      loading := true;
    }

    /** The mount effect: a stored admin session fills the name field. */
    method Mount(stored: Option<AdminSession>)
      modifies this`admin, this`name, this`loading
      ensures admin == if stored.Some? then stored else old(admin)
      ensures name == if stored.Some? then stored.value.name else old(name)
      ensures !loading
    {
      if stored.Some? {
        admin := stored;
        name := stored.value.name;
      }
      loading := false;
    }

    /**
     * `handleNameChange`. A successful write renames the session and touches none of its other
     * fields; a failed one leaves the session as it was.
     */
    method ChangeName(writeOk: bool)
      modifies this`admin, this`nameMsg
      ensures match NameCheck(old(admin), name)
        case Skip => admin == old(admin) && nameMsg == old(nameMsg)
        case Unchanged => admin == old(admin) && nameMsg == Some(Msg(Failure, SameName))
        case Rename(newName) =>
          if writeOk then admin == Some(old(admin).value.(name := newName)) && nameMsg == Some(Msg(Success, NameUpdated))
          else admin == old(admin) && nameMsg == Some(Msg(Failure, NameFailed))
    {
      var step := NameCheck(admin, name);
      match step
      case Skip =>
      case Unchanged =>
        nameMsg := Some(Msg(Failure, SameName));
      case Rename(newName) =>
        if writeOk {
          admin := Some(admin.value.(name := newName));
          nameMsg := Some(Msg(Success, NameUpdated));
        } else {
          nameMsg := Some(Msg(Failure, NameFailed));
        }
    }

    /**
     * `handlePasswordChange`: the local checks, then the signed-in user check, then the auth
     * service. Only a successful change clears the three fields.
     */
    method ChangePassword(signedInWithEmail: bool, outcome: AuthOutcome)
      modifies this`currentPassword, this`newPassword, this`confirmPassword, this`pwMsg
      ensures var check := PasswordCheck(old(currentPassword), old(newPassword), old(confirmPassword));
        var cleared := currentPassword == "" && newPassword == "" && confirmPassword == "";
        var kept := currentPassword == old(currentPassword) && newPassword == old(newPassword)
                    && confirmPassword == old(confirmPassword);
        if check.Some? then kept && pwMsg == Some(Msg(Failure, check.value))
        else if !signedInWithEmail then kept && pwMsg == Some(Msg(Failure, NotSignedIn))
        else if outcome.Changed? then cleared && pwMsg == Some(Msg(Success, PasswordUpdated))
        else kept && pwMsg == Some(Msg(Failure, AuthErrorMessage(outcome.code)))
    {
      var check := PasswordCheck(currentPassword, newPassword, confirmPassword);
      if check.Some? {
        pwMsg := Some(Msg(Failure, check.value));
        return;
      }
      if !signedInWithEmail {
        pwMsg := Some(Msg(Failure, NotSignedIn));
        return;
      }
      match outcome
      case Changed =>
        currentPassword, newPassword, confirmPassword := "", "", "";
        pwMsg := Some(Msg(Success, PasswordUpdated));
      case Thrown(code) =>
        pwMsg := Some(Msg(Failure, AuthErrorMessage(code)));
    }

    /** The "Save" button: enabled exactly when not saving and the name has text other than white space. */
    function NameButtonEnabled(nameLoading: bool): (b: bool)
      reads this
      ensures b <==> !nameLoading && !AllSpace(name)
      ensures b && admin.Some? ==> !NameCheck(admin, name).Skip?
    {
      TrimEmpty(name);
      !(nameLoading || Trim(name) == "")
    }

    /**
     * The "Update Password" button: enabled exactly when no field is empty; the length and match
     * checks happen only in the handler.
     */
    function PasswordButtonEnabled(pwLoading: bool): (b: bool)
      reads this
      ensures b <==> !pwLoading && PasswordCheck(currentPassword, newPassword, confirmPassword) != Some(FieldsRequired)
    {
      !(pwLoading || currentPassword == "" || newPassword == "" || confirmPassword == "")
    }
  }
}
