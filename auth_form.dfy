/**
 * The sign-in / sign-up form: the password rules, the submit gate and the
 * field updates. `formData` and `passwordError` are the component's state;
 * what `onSubmit` would be called with is returned instead of called.
 */
module AuthForm {
  import opened Wrappers
  import Js

  datatype Mode = SignIn | SignUp

  datatype FormData = FormData(fullName: string, email: string, password: string, confirmPassword: string)

  /** The `name` attributes of the form's inputs. */
  datatype FieldName = FullName | EmailField | PasswordField | ConfirmPasswordField

  /** `formData` without `confirmPassword`. */
  datatype SubmitData = SubmitData(fullName: string, email: string, password: string)

  const TooShortText: string := "Password must be at least 8 characters long"
  const NoUpperText: string := "Password must contain at least one uppercase letter"
  const NoLowerText: string := "Password must contain at least one lowercase letter"
  const NoNumberText: string := "Password must contain at least one number"
  const NoSpecialText: string := "Password must contain at least one special character"
  const MismatchText: string := "Passwords do not match"

  /** The class `[!@#$%^&*(),.?":{}|<>]`. */
  const SpecialCharacters: string := "!@#$%^&*(),.?\":{}|<>"

  predicate IsUpper(c: char) { 'A' <= c <= 'Z' }
  predicate IsLower(c: char) { 'a' <= c <= 'z' }
  predicate IsSpecial(c: char) { c in SpecialCharacters }

  predicate HasUpper(p: string) { exists i :: 0 <= i < |p| && IsUpper(p[i]) }
  predicate HasLower(p: string) { exists i :: 0 <= i < |p| && IsLower(p[i]) }
  predicate HasDigit(p: string) { exists i :: 0 <= i < |p| && Js.IsDigit(p[i]) }
  predicate HasSpecial(p: string) { exists i :: 0 <= i < |p| && IsSpecial(p[i]) }

  /** The password policy, as one conjunction. */
  predicate MeetsPolicy(p: string)
  {
    |p| >= 8 && HasUpper(p) && HasLower(p) && HasDigit(p) && HasSpecial(p)
  }

  /**
   * `validatePassword`: "" exactly for a password that meets the policy,
   * otherwise the message of the first rule it breaks.
   */
  function ValidatePassword(p: string): (r: string)
    ensures r == "" <==> MeetsPolicy(p)
    ensures r == TooShortText <==> |p| < 8
    ensures r == NoUpperText <==> |p| >= 8 && !HasUpper(p)
    ensures r == NoLowerText <==> |p| >= 8 && HasUpper(p) && !HasLower(p)
    ensures r == NoNumberText <==> |p| >= 8 && HasUpper(p) && HasLower(p) && !HasDigit(p)
    ensures r == NoSpecialText <==> |p| >= 8 && HasUpper(p) && HasLower(p) && HasDigit(p) && !HasSpecial(p)
  {
    if |p| < 8 then TooShortText
    else if !HasUpper(p) then NoUpperText
    else if !HasLower(p) then NoLowerText
    else if !HasDigit(p) then NoNumberText
    else if !HasSpecial(p) then NoSpecialText
    else ""
  }

  /** What a submit leaves in `passwordError`, and what it passes to `onSubmit`, if anything. */
  datatype SubmitStep = SubmitStep(passwordError: string, submitted: Option<SubmitData>)

  function Without(form: FormData): SubmitData
  {
    SubmitData(form.fullName, form.email, form.password)
  }

  /**
   * `handleSubmit`. Sign-up checks the rules, then the confirmation; a
   * failure is shown and nothing is submitted. Sign-in checks nothing.
   */
  function SubmitOutcome(mode: Mode, form: FormData): (s: SubmitStep)
    ensures s.submitted.Some? <==> s.passwordError == ""
    ensures s.submitted.Some? ==> s.submitted.value == SubmitData(form.fullName, form.email, form.password)
    ensures mode == SignIn ==> s.submitted.Some?
    ensures mode == SignUp ==> (s.submitted.Some? <==> MeetsPolicy(form.password) && form.password == form.confirmPassword)
    ensures mode == SignUp && !MeetsPolicy(form.password) ==> s.passwordError == ValidatePassword(form.password)
    ensures mode == SignUp && MeetsPolicy(form.password) && form.password != form.confirmPassword
            ==> s.passwordError == MismatchText
  {
    if mode == SignUp && ValidatePassword(form.password) != "" then
      SubmitStep(ValidatePassword(form.password), None)
    else if mode == SignUp && form.password != form.confirmPassword then
      SubmitStep(MismatchText, None)
    else
      SubmitStep("", Some(Without(form)))
  }

  /** `{ ...prev, [name]: value }`: exactly the named field changes. */
  function Updated(form: FormData, name: FieldName, value: string): (f: FormData)
    ensures name == FullName ==> f == form.(fullName := value)
    ensures name == EmailField ==> f == form.(email := value)
    ensures name == PasswordField ==> f == form.(password := value)
    ensures name == ConfirmPasswordField ==> f == form.(confirmPassword := value)
  {
    match name
    case FullName => form.(fullName := value)
    case EmailField => form.(email := value)
    case PasswordField => form.(password := value)
    case ConfirmPasswordField => form.(confirmPassword := value)
  }

  /** Editing either password field in sign-up mode clears the error; nothing else does. */
  predicate ClearsError(mode: Mode, name: FieldName)
  {
    mode == SignUp && (name == PasswordField || name == ConfirmPasswordField)
  }

  class AuthFormState {
    const mode: Mode
    var formData: FormData
    var passwordError: string

    constructor (m: Mode)
      ensures mode == m && formData == FormData("", "", "", "") && passwordError == ""
    {
      mode := m;
      formData := FormData("", "", "", "");
      passwordError := "";
    }

    method HandleSubmit() returns (submitted: Option<SubmitData>)
      modifies this`passwordError
      ensures SubmitStep(passwordError, submitted) == SubmitOutcome(mode, formData)
    {
      if mode == SignUp {
        var passwordValidationError := ValidatePassword(formData.password);
        if passwordValidationError != "" {
          passwordError := passwordValidationError;
          return None;
        }
        if formData.password != formData.confirmPassword {
          passwordError := MismatchText;
          return None;
        }
      }
      passwordError := "";
      submitted := Some(SubmitData(formData.fullName, formData.email, formData.password));
    }

    method HandleChange(name: FieldName, value: string)
      modifies this`formData, this`passwordError
      ensures formData == Updated(old(formData), name, value)
      ensures passwordError == if ClearsError(mode, name) then "" else old(passwordError)
    {
      formData := Updated(formData, name, value);
      if mode == SignUp && (name == PasswordField || name == ConfirmPasswordField) {
        passwordError := "";
      }
    }
  }

  /** Every failure message is non-empty and they are pairwise distinct, so the truthiness test blocks exactly the failing passwords. */
  lemma FailureMessagesDistinct()
    ensures forall m :: m in [TooShortText, NoUpperText, NoLowerText, NoNumberText, NoSpecialText, MismatchText] ==> m != ""
    ensures |{TooShortText, NoUpperText, NoLowerText, NoNumberText, NoSpecialText, MismatchText}| == 6
  {
  }

  /** "Zookeep3r!" meets the policy; without its capital it breaks the second rule. */
  lemma PolicyExample()
    ensures ValidatePassword("Zookeep3r!") == ""
    ensures ValidatePassword("zookeep3r!") == NoUpperText
  {
    var p := "Zookeep3r!";
    assert IsUpper(p[0]) && IsLower(p[1]) && Js.IsDigit(p[7]) && IsSpecial(p[9]);
    var q := "zookeep3r!";
    forall i | 0 <= i < |q| ensures !IsUpper(q[i]) {}
  }
}
