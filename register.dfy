/**
 * The registration form (src/pages/Register.tsx): the password-strength
 * rules and the order of the checks before the account is created.
 */
module Register {
  import opened Wrappers
  import opened AuthContext

  /** `regex.test(password)` for a single character range `[lo-hi]`. */
  function HasCharIn(s: string, lo: char, hi: char): (r: bool)
    ensures r <==> exists i :: 0 <= i < |s| && lo <= s[i] <= hi
  {
    if s == [] then false
    else if lo <= s[0] <= hi then true
    else
      var r := HasCharIn(s[1..], lo, hi);
      assert r ==> exists i :: 0 <= i < |s| && lo <= s[i] <= hi by {
        if r {
          var i :| 0 <= i < |s[1..]| && lo <= s[1..][i] <= hi;
          assert lo <= s[i + 1] <= hi;
        }
      }
      r
  }

  /** The four rows of the strength checklist. */
  datatype PasswordStrength = PasswordStrength(hasMinLength: bool, hasUpperCase: bool, hasLowerCase: bool, hasNumber: bool)

  /** `passwordStrength`: at least eight characters, and an ASCII capital, an ASCII small letter and a digit. */
  function StrengthOf(password: string): (ps: PasswordStrength)
    ensures ps.hasMinLength <==> |password| >= 8
    ensures ps.hasUpperCase <==> exists i :: 0 <= i < |password| && 'A' <= password[i] <= 'Z'
    ensures ps.hasLowerCase <==> exists i :: 0 <= i < |password| && 'a' <= password[i] <= 'z'
    ensures ps.hasNumber <==> exists i :: 0 <= i < |password| && '0' <= password[i] <= '9'
  {
    PasswordStrength(|password| >= 8, HasCharIn(password, 'A', 'Z'), HasCharIn(password, 'a', 'z'), HasCharIn(password, '0', '9'))
  }

  /** `isPasswordStrong`: every row of the checklist is met. */
  predicate IsPasswordStrong(password: string) {
    var ps := StrengthOf(password);
    ps.hasMinLength && ps.hasUpperCase && ps.hasLowerCase && ps.hasNumber
  }

  /** A password made only of characters outside ASCII meets neither letter row, so it is never strong. */
  lemma NonAsciiLettersDoNotCount(password: string)
    requires forall i :: 0 <= i < |password| ==> password[i] > '\U{7F}'
    ensures !StrengthOf(password).hasUpperCase && !StrengthOf(password).hasLowerCase
    ensures !IsPasswordStrong(password)
  {
  }

  /** Each checklist row is a property of the characters present: appending characters never unmeets a row. */
  lemma {:induction false} StrengthGrows(password: string, more: string)
    requires IsPasswordStrong(password)
    ensures IsPasswordStrong(password + more)
  {
    var s := password + more;
    assert forall i :: 0 <= i < |password| ==> s[i] == password[i];
  }

  const MismatchMessage := "As senhas não coincidem"
  const WeakMessage := "Por favor, atenda a todos os requisitos de senha"

  /** How `handleSubmit` ends. */
  datatype SubmitOutcome = PasswordMismatch | WeakPassword | Registered

  /** The guard order of `handleSubmit`: mismatch first, then strength. */
  function Decide(password: string, confirmPassword: string): (o: SubmitOutcome)
    ensures o == Registered <==> password == confirmPassword && IsPasswordStrong(password)
    ensures o == WeakPassword <==> password == confirmPassword && !IsPasswordStrong(password)
    ensures password != confirmPassword ==> o == PasswordMismatch
  {
    if password != confirmPassword then PasswordMismatch
    else if !IsPasswordStrong(password) then WeakPassword
    else Registered
  }

  /** The message shown for a rejected submission. */
  function Message(o: SubmitOutcome): Option<string> {
    match o
    case PasswordMismatch => Some(MismatchMessage)
    case WeakPassword => Some(WeakMessage)
    case Registered => None
  }

  class RegisterForm {
    var name: string
    var email: string
    var password: string
    var confirmPassword: string
    var isLoading: bool

    constructor ()
      ensures name == [] && email == [] && password == [] && confirmPassword == [] && !isLoading
    {
      name, email, password, confirmPassword := [], [], [], [];
      isLoading := false;
    }

    /**
     * `handleSubmit`: rejects a mismatch, then a weak password; otherwise
     * registers the form's name and e-mail with `isLoading` raised around the
     * call and lowered after it.
     */
    method HandleSubmit(auth: AuthSession) returns (outcome: SubmitOutcome)
      modifies this, auth
      ensures outcome == Decide(old(password), old(confirmPassword))
      ensures outcome == Registered ==> auth.user == Some(User("1", name, email)) && !isLoading
      ensures outcome != Registered ==> auth.user == old(auth.user) && isLoading == old(isLoading)
      ensures name == old(name) && email == old(email)
      ensures password == old(password) && confirmPassword == old(confirmPassword)
    {
      if password != confirmPassword {
        return PasswordMismatch;
      }
      if !IsPasswordStrong(password) {
        return WeakPassword;
      }
      isLoading := true;
      auth.Register(name, email, password);
      isLoading := false;
      outcome := Registered;
    }
  }
}
