/**
 * The profile page's change-password form: three fields kept in one state
 * record, a change handler that replaces one of them, and a submit handler
 * whose guards run in order (strength of the new password, then the
 * confirmation) before `updatePassword(old, new)` is called. The fields are
 * cleared only when that call reports success.
 */
module ProfilePage {
  import RP = RegisterPage

  datatype Passwords = Passwords(oldPassword: string, newPassword: string, confirmPassword: string)

  const Cleared := Passwords("", "", "")

  /** The `name` attribute of the three inputs. */
  datatype FieldName = OldPassword | NewPassword | ConfirmPassword

  function Get(p: Passwords, f: FieldName): string {
    match f
    case OldPassword => p.oldPassword
    case NewPassword => p.newPassword
    case ConfirmPassword => p.confirmPassword
  }

  /** `{ ...passwords, [name]: value }`: the named field takes the value, the other two are kept. */
  function WithField(p: Passwords, f: FieldName, value: string): (r: Passwords)
    ensures Get(r, f) == value
    ensures forall g :: g != f ==> Get(r, g) == Get(p, g)
  {
    match f
    case OldPassword => p.(oldPassword := value)
    case NewPassword => p.(newPassword := value)
    case ConfirmPassword => p.(confirmPassword := value)
  }

  const WeakPasswordToast := "Password too weak! Needs 1 Uppercase, 1 Lowercase, 1 Number, 1 Symbol, Min 8 Chars."
  const MismatchToast := "New passwords do not match"

  datatype Submission = Refused(toast: string) | CallUpdatePassword(oldPassword: string, newPassword: string)

  /** What submitting the form decides, guard by guard. */
  function Decide(p: Passwords): (r: Submission)
    ensures !RP.ValidatePassword(p.newPassword) ==> r == Refused(WeakPasswordToast)
    ensures RP.ValidatePassword(p.newPassword) && p.newPassword != p.confirmPassword ==> r == Refused(MismatchToast)
    ensures r.CallUpdatePassword? <==> RP.ValidatePassword(p.newPassword) && p.newPassword == p.confirmPassword
    ensures r.CallUpdatePassword? ==> r.oldPassword == p.oldPassword && r.newPassword == p.newPassword
  {
    if !RP.ValidatePassword(p.newPassword) then Refused(WeakPasswordToast)
    else if p.newPassword != p.confirmPassword then Refused(MismatchToast)
    else CallUpdatePassword(p.oldPassword, p.newPassword)
  }

  /** A weak new password is refused for its weakness even when the confirmation differs too. */
  lemma StrengthCheckedFirst(p: Passwords)
    requires !RP.ValidatePassword(p.newPassword)
    ensures Decide(p) == Refused(WeakPasswordToast)
    ensures Decide(Passwords(p.oldPassword, p.newPassword, p.newPassword)) == Refused(WeakPasswordToast)
  {
  }

  /** The page component's form state. */
  class ProfileForm {
    var passwords: Passwords

    constructor ()
      ensures passwords == Cleared
    {
      passwords := Cleared;
    }

    /** `handleChange`. */
    method HandleChange(f: FieldName, value: string)
      modifies this
      ensures passwords == WithField(old(passwords), f, value)
    {
      passwords := WithField(passwords, f, value);
    }

    /**
     * `handleSubmit`; `succeeded` stands for the `success` flag that
     * `updatePassword` resolves to when it is called.
     */
    method HandleSubmit(succeeded: bool) returns (s: Submission)
      modifies this
      ensures s == Decide(old(passwords))
      ensures passwords == if s.CallUpdatePassword? && succeeded then Cleared else old(passwords)
    {
      if !RP.ValidatePassword(passwords.newPassword) {
        return Refused(WeakPasswordToast);
      }
      if passwords.newPassword != passwords.confirmPassword {
        return Refused(MismatchToast);
      }
      s := CallUpdatePassword(passwords.oldPassword, passwords.newPassword);
      if succeeded {
        passwords := Cleared;
      }
    }
  }
}
