/** The password form on the administrator's settings page: four checks in a
    fixed order, and the fields cleared on success. No password is compared
    with the stored one. */
module AdminSettings {

  const MinPasswordLength := 8

  datatype PasswordError = MissingCurrent | MissingNew | Mismatch | TooShort

  datatype Outcome = Changed | Refused(error: PasswordError)

  function Rank(e: PasswordError): nat {
    match e
    case MissingCurrent => 0
    case MissingNew => 1
    case Mismatch => 2
    case TooShort => 3
  }

  /** Whether the check that reports `e` fails. */
  predicate Fails(e: PasswordError, current: string, new_: string, confirm: string) {
    match e
    case MissingCurrent => current == ""
    case MissingNew => new_ == ""
    case Mismatch => new_ != confirm
    case TooShort => |new_| < MinPasswordLength
  }

  /** `handlePasswordChange`'s checks: the change goes through exactly when no
      check fails, and a refusal names the first failing check. */
  function CheckPasswords(current: string, new_: string, confirm: string): (r: Outcome)
    ensures r == Changed <==> forall e :: !Fails(e, current, new_, confirm)
    ensures r.Refused? ==> Fails(r.error, current, new_, confirm)
    ensures r.Refused? ==> forall e :: Rank(e) < Rank(r.error) ==> !Fails(e, current, new_, confirm)
  {
    if current == "" then assert Fails(MissingCurrent, current, new_, confirm); Refused(MissingCurrent)
    else if new_ == "" then assert Fails(MissingNew, current, new_, confirm); Refused(MissingNew)
    else if new_ != confirm then assert Fails(Mismatch, current, new_, confirm); Refused(Mismatch)
    else if |new_| < MinPasswordLength then assert Fails(TooShort, current, new_, confirm); Refused(TooShort)
    else assert forall e :: !Fails(e, current, new_, confirm); Changed
  }

  /** Any non-empty current password is accepted: nothing compares it with
      the real one. */
  lemma AnyCurrentPasswordWorks(current: string, new_: string)
    requires current != "" && |new_| >= MinPasswordLength
    ensures CheckPasswords(current, new_, new_) == Changed
  {
    assert forall e :: !Fails(e, current, new_, new_);
  }

  class PasswordForm {
    var currentPassword: string
    var newPassword: string
    var confirmPassword: string

    constructor ()
      ensures currentPassword == "" && newPassword == "" && confirmPassword == ""
    {
      currentPassword, newPassword, confirmPassword := "", "", "";
    }

    method Edit(current: string, new_: string, confirm: string)
      modifies this
      ensures currentPassword == current && newPassword == new_ && confirmPassword == confirm
    {
      currentPassword, newPassword, confirmPassword := current, new_, confirm;
    }

    /** A refusal keeps the fields; a change clears all three. */
    method Submit() returns (r: Outcome)
      modifies this
      ensures r == CheckPasswords(old(currentPassword), old(newPassword), old(confirmPassword))
      ensures r.Refused? ==> currentPassword == old(currentPassword) && newPassword == old(newPassword) &&
                             confirmPassword == old(confirmPassword)
      ensures r == Changed ==> currentPassword == "" && newPassword == "" && confirmPassword == ""
    {
      r := CheckPasswords(currentPassword, newPassword, confirmPassword);
      if r == Changed {
        currentPassword, newPassword, confirmPassword := "", "", "";
      }
    }
  }
}
