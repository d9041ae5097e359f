/**
 * The password rules of the sign-up form (client/src/pages/Signup.jsx):
 * the three ordered checks made on submit, the strength label and the
 * checklist shown while typing.
 */
module SignupForm {
  import opened JsValues
  import opened Strings

  const TooShort := "Password must be at least 8 characters long"
  const NoNumber := "Password must contain at least one number"
  const NoSpecial := "Password must contain at least one special character"
  const SignupFailed := "Error creating account"
  const MinLength := 8
  const MediumLength := 6

  /** `s.length`: UTF-16 code units, so a character beyond U+FFFF counts twice. */
  function Utf16Length(s: string): (n: nat)
    ensures |s| <= n <= 2 * |s|
    decreases |s|
  {
    if s == [] then 0 else Utf16Length(s[..|s| - 1]) + (if s[|s| - 1] as int > 0xFFFF then 2 else 1)
  }

  lemma {:induction false} Utf16LengthAppend(s: string, t: string)
    ensures Utf16Length(s + t) == Utf16Length(s) + Utf16Length(t)
    decreases |t|
  {
    if t != [] {
      assert (s + t)[..|s + t| - 1] == s + t[..|t| - 1];
      Utf16LengthAppend(s, t[..|t| - 1]);
    } else {
      assert s + t == s;
    }
  }

  /** `/[0-9]/.test(s)`. */
  predicate HasDigit(s: string) {
    exists i :: 0 <= i < |s| && IsDigit(s[i])
  }

  predicate IsAsciiAlphanumeric(c: char) {
    'A' <= c <= 'Z' || 'a' <= c <= 'z' || IsDigit(c)
  }

  /** `/[^A-Za-z0-9]/.test(s)`. */
  predicate HasSpecial(s: string) {
    exists i :: 0 <= i < |s| && !IsAsciiAlphanumeric(s[i])
  }

  /** The submit-time checks, in order: the message of the first rule the password breaks. */
  function PasswordError(password: string): (error: Option<string>)
    ensures error.None? <==> Utf16Length(password) >= MinLength && HasDigit(password) && HasSpecial(password)
    ensures error == Some(TooShort) <==> Utf16Length(password) < MinLength
    ensures error == Some(NoNumber) <==> Utf16Length(password) >= MinLength && !HasDigit(password)
    ensures error == Some(NoSpecial) <==> Utf16Length(password) >= MinLength && HasDigit(password) && !HasSpecial(password)
  {
    if Utf16Length(password) < MinLength then Some(TooShort)
    else if !HasDigit(password) then Some(NoNumber)
    else if !HasSpecial(password) then Some(NoSpecial)
    else None
  }

  datatype Strength = Weak | Medium | Strong
  {
    function Rank(): nat {
      match this
      case Weak => 0
      case Medium => 1
      case Strong => 2
    }
  }

  /** The meter's label; its colour and bar width follow the same conditions. */
  function StrengthOf(password: string): Strength {
    if Utf16Length(password) >= MinLength && HasDigit(password) && HasSpecial(password) then Strong
    else if Utf16Length(password) >= MediumLength then Medium
    else Weak
  }

  /** Which of the three checklist items are shown green. */
  datatype Checklist = Checklist(longEnough: bool, hasNumber: bool, hasSpecial: bool)

  function ChecklistOf(password: string): Checklist {
    Checklist(Utf16Length(password) >= MinLength, HasDigit(password), HasSpecial(password))
  }

  /** The meter block: shown only while the password field is non-empty. */
  datatype Meter = Meter(strength: Strength, checklist: Checklist)

  function MeterOf(password: string): (meter: Option<Meter>)
    ensures meter.Some? <==> password != ""
  {
    if password == "" then None else Some(Meter(StrengthOf(password), ChecklistOf(password)))
  }

  /** The label reads 'Strong' exactly when submitting would pass all three checks. */
  lemma StrongIffAccepted(password: string)
    ensures StrengthOf(password) == Strong <==> PasswordError(password).None?
    ensures StrengthOf(password) == Weak <==> Utf16Length(password) < MediumLength
  {
  }

  /** The submit error names the first checklist item that is not green, and there is none when all are. */
  lemma ErrorIsFirstUncheckedItem(password: string)
    ensures var c := ChecklistOf(password);
      && (PasswordError(password) == Some(TooShort) <==> !c.longEnough)
      && (PasswordError(password) == Some(NoNumber) <==> c.longEnough && !c.hasNumber)
      && (PasswordError(password) == Some(NoSpecial) <==> c.longEnough && c.hasNumber && !c.hasSpecial)
      && (PasswordError(password).None? <==> c.longEnough && c.hasNumber && c.hasSpecial)
  {
  }

  /** Typing more characters never lowers the strength label. */
  lemma StrengthNeverDropsWhileTyping(password: string, more: string)
    ensures StrengthOf(password).Rank() <= StrengthOf(password + more).Rank()
  {
    Utf16LengthAppend(password, more);
    var longer := password + more;
    if HasDigit(password) {
      var i :| 0 <= i < |password| && IsDigit(password[i]);
      assert longer[i] == password[i];
    }
    if HasSpecial(password) {
      var i :| 0 <= i < |password| && !IsAsciiAlphanumeric(password[i]);
      assert longer[i] == password[i];
    }
  }

  /** What the `signup` call of the auth context settles to: success, or failure with the server's message. */
  datatype SignupReply = SignupReply(success: bool, message: Option<string>)

  /** The form after a submit: the error shown, whether `signup` was called, and where it navigated. */
  datatype SubmitOutcome = SubmitOutcome(error: string, signupCalled: bool, navigatedTo: Option<string>)

  /** `handleSubmit`; `reply` is what `signup` would settle to if it were called. */
  function HandleSubmit(password: string, reply: Outcome<SignupReply>): (out: SubmitOutcome)
    ensures out.signupCalled <==> PasswordError(password).None?
    ensures !out.signupCalled ==> out.error == PasswordError(password).value && out.navigatedTo.None?
    ensures out.navigatedTo.Some? <==> out.signupCalled && reply.Ok? && reply.value.success
    ensures out.navigatedTo.Some? ==> out.navigatedTo.value == "/dashboard" && out.error == ""
    ensures out.navigatedTo.None? ==> out.error != ""
  {
    match PasswordError(password)
    case Some(error) => SubmitOutcome(error, false, None)
    case None =>
      match reply
      case Ok(r) =>
        if r.success then SubmitOutcome("", true, Some("/dashboard"))
        else SubmitOutcome(OrElse(r.message, SignupFailed), true, None)
      case Err(_) => SubmitOutcome(SignupFailed, true, None)
  }
}
