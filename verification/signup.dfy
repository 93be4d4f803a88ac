/**
 * The sign-up form: the four password checks, the order in which the
 * submit handler reports problems, and the two derived UI conditions.
 */
module Signup {
  import opened Opt
  import opened AuthContext

  /** The character class `[!@#$%^&*(),.?":{}|<>]`. */
  const SpecialChars: string := "!@#$%^&*(),.?\":{}|<>"

  const FillAllFields: string := "Please fill in all fields"
  const RequirementsNotMet: string := "Please make sure your password meets all requirements"
  const PasswordsDiffer: string := "Passwords do not match"

  /** `regex.test(s)` for a one-character class: some character of `s` is in the class. */
  function ContainsMatch(s: string, inClass: char -> bool): (r: bool)
    ensures r <==> exists i :: 0 <= i < |s| && inClass(s[i])
  {
    if s == [] then false
    else if inClass(s[0]) then true
    else
      var r := ContainsMatch(s[1..], inClass);
      assert forall i :: 1 <= i < |s| ==> s[i] == s[1..][i - 1];
      r
  }

  predicate IsDigit(c: char) { '0' <= c <= '9' }
  predicate IsUpper(c: char) { 'A' <= c <= 'Z' }
  predicate IsSpecial(c: char) { c in SpecialChars }

  datatype PasswordChecks = PasswordChecks(length: bool, number: bool, uppercase: bool, special: bool)

  /** `validatePassword`. */
  function ValidatePassword(password: string): (v: PasswordChecks)
    ensures v.length <==> |password| >= 8
    ensures v.number <==> exists i :: 0 <= i < |password| && '0' <= password[i] <= '9'
    ensures v.uppercase <==> exists i :: 0 <= i < |password| && 'A' <= password[i] <= 'Z'
    ensures v.special <==> exists i :: 0 <= i < |password| && password[i] in SpecialChars
  {
    PasswordChecks(
      |password| >= 8,
      ContainsMatch(password, IsDigit),
      ContainsMatch(password, IsUpper),
      ContainsMatch(password, IsSpecial))
  }

  /** `Object.values(validations).every(Boolean)`. */
  predicate IsPasswordValid(password: string)
    ensures IsPasswordValid(password) <==>
      && |password| >= 8
      && (exists i :: 0 <= i < |password| && '0' <= password[i] <= '9')
      && (exists i :: 0 <= i < |password| && 'A' <= password[i] <= 'Z')
      && (exists i :: 0 <= i < |password| && password[i] in SpecialChars)
  {
    var v := ValidatePassword(password);
    v.length && v.number && v.uppercase && v.special
  }

  /** `!name || !email || !password || !confirmPassword`: only the empty string is missing. */
  predicate AnyFieldEmpty(name: string, email: string, password: string, confirm: string)
    ensures AnyFieldEmpty(name, email, password, confirm) <==> "" in [name, email, password, confirm]
  {
    name == "" || email == "" || password == "" || confirm == ""
  }

  /** The message `handleSubmit` leaves, or `None` when it goes on to call `signup`. */
  function SubmitCheck(name: string, email: string, password: string, confirm: string): (r: Option<string>)
    ensures r == Some(FillAllFields) <==> AnyFieldEmpty(name, email, password, confirm)
    ensures r == Some(RequirementsNotMet) <==>
      !AnyFieldEmpty(name, email, password, confirm) && !IsPasswordValid(password)
    ensures r == Some(PasswordsDiffer) <==>
      !AnyFieldEmpty(name, email, password, confirm) && IsPasswordValid(password) && password != confirm
    ensures r == None <==>
      !AnyFieldEmpty(name, email, password, confirm) && IsPasswordValid(password) && password == confirm
  {
    if AnyFieldEmpty(name, email, password, confirm) then Some(FillAllFields)
    else if !IsPasswordValid(password) then Some(RequirementsNotMet)
    else if password != confirm then Some(PasswordsDiffer)
    else None
  }

  /** `disabled={loading || !isPasswordValid || password !== confirmPassword}`. */
  predicate SubmitDisabled(loading: bool, password: string, confirm: string)
    ensures loading ==> SubmitDisabled(loading, password, confirm)
    ensures !SubmitDisabled(loading, password, confirm) ==> |password| >= 8 && confirm == password
    ensures !loading && IsPasswordValid(password) && password == confirm ==> !SubmitDisabled(loading, password, confirm)
  {
    loading || !IsPasswordValid(password) || password != confirm
  }

  /** The red "Passwords do not match" hint under the confirmation field. */
  predicate ShowsMismatch(password: string, confirm: string)
    ensures ShowsMismatch(password, confirm) ==> password != confirm
    ensures confirm == "" || confirm == password ==> !ShowsMismatch(password, confirm)
    ensures confirm != "" && password != confirm ==> ShowsMismatch(password, confirm)
  {
    confirm != "" && password != confirm
  }

  /**
   * When the button is enabled the password is valid and confirmed, so
   * the mismatch hint is hidden and only the name or email can still be
   * reported missing.
   */
  lemma EnabledSubmit(name: string, email: string, password: string, confirm: string)
    requires !SubmitDisabled(false, password, confirm)
    ensures !ShowsMismatch(password, confirm)
    ensures SubmitCheck(name, email, password, confirm) == None <==> name != "" && email != ""
    ensures SubmitCheck(name, email, password, confirm) != None ==>
      SubmitCheck(name, email, password, confirm) == Some(FillAllFields)
  {
    assert password != "" by {
      assert |password| >= 8;
    }
  }

  /** The form's state. */
  class SignupForm {
    var name: string
    var email: string
    var password: string
    var confirmPassword: string
    var error: string

    constructor ()
      ensures name == "" && email == "" && password == "" && confirmPassword == "" && error == ""
    {
      name, email, password, confirmPassword, error := "", "", "", "", "";
    }

    /** `handleSubmit`: clear the error, report the first problem, or sign up. */
    method HandleSubmit(auth: AuthProvider)
      modifies this`error, auth
      ensures var check := SubmitCheck(name, email, password, confirmPassword);
        && error == (if check.Some? then check.value else "")
        && (check == None ==> auth.user == Some(NewMember(email, name)) && auth.Synced() && !auth.loading)
        && (check != None ==> unchanged(auth))
    {
      error := "";
      if AnyFieldEmpty(name, email, password, confirmPassword) {
        error := FillAllFields;
        return;
      }
      if !IsPasswordValid(password) {
        error := RequirementsNotMet;
        return;
      }
      if password != confirmPassword {
        error := PasswordsDiffer;
        return;
      }
      auth.Signup(email, password, name);
    }
  }
}
