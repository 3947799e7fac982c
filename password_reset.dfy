/**
 * The password-recovery form: a step machine over
 * `Request | Confirmation | Success`, a password-strength score, an email
 * shape check, two validators that set per-field error messages, and the
 * submit handlers. The reset calls are represented by whether they succeed.
 */
module PasswordReset {
  import opened Common

  datatype Step = Request | Confirmation | Success

  /** Position of a step in the flow; the flow only moves forward. */
  function StepRank(step: Step): nat
  {
    match step
    case Request => 0
    case Confirmation => 1
    case Success => 2
  }

  /** The form opens on the confirmation step exactly when a (truthy) reset token is supplied. */
  function InitialStep(token: Option<string>): (r: Step)
    ensures r != Success
  {
    if Truthy(token) then Confirmation else Request
  }

  // ---------------------------------------------------------------------
  // Password strength
  // ---------------------------------------------------------------------

  predicate IsLowercase(c: char) { 'a' <= c <= 'z' }
  predicate IsUppercase(c: char) { 'A' <= c <= 'Z' }
  predicate IsDigit(c: char) { '0' <= c <= '9' }

  /** The symbols the strength check lists; backquote, tilde and space are not among them. */
  const Symbols: string := "!@#$%^&*()_+-=[]{};':\"\\|,.<>/?"

  /**
   * A listed symbol, by code point: all ASCII punctuation except backquote
   * and tilde (`SymbolRangesAreTheList` shows this is the list above).
   */
  predicate IsSymbol(c: char)
  {
    var n := c as int;
    (33 <= n <= 47) || (58 <= n <= 64) || (91 <= n <= 95) || (123 <= n <= 125)
  }

  lemma SymbolRangesAreTheList(c: char)
    ensures IsSymbol(c) <==> c in Symbols
  {
  }

  predicate HasLowercase(p: string) { exists i | 0 <= i < |p| :: IsLowercase(p[i]) }
  predicate HasUppercase(p: string) { exists i | 0 <= i < |p| :: IsUppercase(p[i]) }
  predicate HasDigit(p: string) { exists i | 0 <= i < |p| :: IsDigit(p[i]) }
  predicate HasSymbol(p: string) { exists i | 0 <= i < |p| :: IsSymbol(p[i]) }

  /** The five criteria, in the order the form lists them. */
  function Criteria(p: string): seq<bool>
  {
    [HasLowercase(p), HasUppercase(p), HasDigit(p), HasSymbol(p), |p| >= 8]
  }

  /** Number of `true` entries (`filter(Boolean).length`). */
  function CountTrue(bs: seq<bool>): (n: nat)
    ensures n <= |bs|
    ensures n == |bs| <==> forall k | 0 <= k < |bs| :: bs[k]
  {
    if bs == [] then 0 else (if bs[0] then 1 else 0) + CountTrue(bs[1..])
  }

  function Bit(b: bool): nat { if b then 1 else 0 }

  /** The strength score: how many criteria the password meets. */
  function Score(p: string): nat
  {
    CountTrue(Criteria(p))
  }

  /** How many of the four character classes occur in the password. */
  function ClassCount(p: string): nat
  {
    Bit(HasLowercase(p)) + Bit(HasUppercase(p)) + Bit(HasDigit(p)) + Bit(HasSymbol(p))
  }

  datatype Strength = Weak | Medium | Strong | VeryStrong

  function Classify(score: nat): Strength
  {
    if score <= 2 then Weak
    else if score == 3 then Medium
    else if score == 4 then Strong
    else VeryStrong
  }

  /** The strength effect: none for an empty password, else the class of its score. */
  function StrengthOf(p: string): Option<Strength>
  {
    if p == "" then None else Some(Classify(Score(p)))
  }

  lemma {:induction false} CountTrueOfFive(a: bool, b: bool, c: bool, d: bool, e: bool)
    ensures CountTrue([a, b, c, d, e]) == Bit(a) + Bit(b) + Bit(c) + Bit(d) + Bit(e)
  {
    assert [a, b, c, d, e][1..] == [b, c, d, e];
    assert [b, c, d, e][1..] == [c, d, e];
    assert [c, d, e][1..] == [d, e];
    assert [d, e][1..] == [e];
    assert [e][1..] == [];
    assert CountTrue([e]) == Bit(e);
    assert CountTrue([d, e]) == Bit(d) + CountTrue([e]);
    assert CountTrue([c, d, e]) == Bit(c) + CountTrue([d, e]);
    assert CountTrue([b, c, d, e]) == Bit(b) + CountTrue([c, d, e]);
    assert CountTrue([a, b, c, d, e]) == Bit(a) + CountTrue([b, c, d, e]);
  }

  /** The score is the number of character classes plus one for a length of at least eight. */
  lemma ScoreIsClassesPlusLength(p: string)
    ensures Score(p) == ClassCount(p) + Bit(|p| >= 8)
    ensures Score(p) <= 5
  {
    CountTrueOfFive(HasLowercase(p), HasUppercase(p), HasDigit(p), HasSymbol(p), |p| >= 8);
  }

  /** Classification of a non-empty password by its score. */
  lemma StrengthClasses(p: string)
    requires p != ""
    ensures StrengthOf(p) == Some(Weak) <==> Score(p) <= 2
    ensures StrengthOf(p) == Some(Medium) <==> Score(p) == 3
    ensures StrengthOf(p) == Some(Strong) <==> Score(p) == 4
    ensures StrengthOf(p) == Some(VeryStrong) <==> Score(p) == 5
  {
  }

  /** A password shorter than eight characters is never very strong. */
  lemma ShortIsNeverVeryStrong(p: string)
    requires |p| < 8
    ensures StrengthOf(p) != Some(VeryStrong)
  {
    ScoreIsClassesPlusLength(p);
  }

  /** Appending characters never lowers the score. */
  lemma ScoreMonotone(p: string, q: string)
    ensures Score(p) <= Score(p + q)
  {
    var pq := p + q;
    if HasLowercase(p) { var i :| 0 <= i < |p| && IsLowercase(p[i]); assert pq[i] == p[i]; }
    if HasUppercase(p) { var i :| 0 <= i < |p| && IsUppercase(p[i]); assert pq[i] == p[i]; }
    if HasDigit(p) { var i :| 0 <= i < |p| && IsDigit(p[i]); assert pq[i] == p[i]; }
    if HasSymbol(p) { var i :| 0 <= i < |p| && IsSymbol(p[i]); assert pq[i] == p[i]; }
    ScoreIsClassesPlusLength(p);
    ScoreIsClassesPlusLength(pq);
  }

  /** "abc" meets only the lowercase criterion: weak. */
  lemma StrengthOfAbc()
    ensures Score("abc") == 1 && StrengthOf("abc") == Some(Weak)
  {
    var p := "abc";
    ScoreIsClassesPlusLength(p);
    assert IsLowercase(p[0]);
    forall i | 0 <= i < |p| ensures IsLowercase(p[i]) { }
    NoOtherClassThanLowercase(p);
  }

  /** "password" meets the lowercase and length criteria only: weak. */
  lemma StrengthOfPassword()
    ensures Score("password") == 2 && StrengthOf("password") == Some(Weak)
  {
    var p := "password";
    ScoreIsClassesPlusLength(p);
    assert IsLowercase(p[0]);
    forall i | 0 <= i < |p| ensures IsLowercase(p[i]) { }
    NoOtherClassThanLowercase(p);
  }

  /** A password made only of lowercase letters has no other character class. */
  lemma NoOtherClassThanLowercase(p: string)
    requires forall i | 0 <= i < |p| :: IsLowercase(p[i])
    ensures !HasUppercase(p) && !HasDigit(p) && !HasSymbol(p)
  {
  }

  /** "Abcdefg1" has lowercase, uppercase, a digit and eight characters, but no symbol: strong. */
  lemma StrengthOfAbcdefg1()
    ensures Score("Abcdefg1") == 4 && StrengthOf("Abcdefg1") == Some(Strong)
  {
    var p := "Abcdefg1";
    ScoreIsClassesPlusLength(p);
    assert IsLowercase(p[1]) && IsUppercase(p[0]) && IsDigit(p[7]);
    forall i | 0 <= i < |p| ensures !IsSymbol(p[i]) { }
  }

  /** "Abcdefg1!" meets all five criteria: very strong. */
  lemma StrengthOfAbcdefg1Bang()
    ensures Score("Abcdefg1!") == 5 && StrengthOf("Abcdefg1!") == Some(VeryStrong)
  {
    var p := "Abcdefg1!";
    ScoreIsClassesPlusLength(p);
    assert IsLowercase(p[1]) && IsUppercase(p[0]) && IsDigit(p[7]) && IsSymbol(p[8]);
  }

  // ---------------------------------------------------------------------
  // Email shape
  // ---------------------------------------------------------------------

  /** The characters JavaScript's `\s` and `String.prototype.trim` treat as white space. */
  predicate IsWhitespace(c: char)
  {
    var n := c as int;
    n == 0x09 || n == 0x0A || n == 0x0B || n == 0x0C || n == 0x0D || n == 0x20 ||
    n == 0xA0 || n == 0x1680 || (0x2000 <= n <= 0x200A) || n == 0x2028 || n == 0x2029 ||
    n == 0x202F || n == 0x205F || n == 0x3000 || n == 0xFEFF
  }

  /** `s.trim()` is empty. */
  predicate IsBlank(s: string)
  {
    forall k | 0 <= k < |s| :: IsWhitespace(s[k])
  }

  /** A character of the class `[^\s@]`. */
  predicate Plain(c: char)
  {
    !IsWhitespace(c) && c != '@'
  }

  predicate PlainRange(s: string, lo: nat, hi: nat)
    requires lo <= hi <= |s|
  {
    forall k | lo <= k < hi :: Plain(s[k])
  }

  /**
   * `^[^\s@]+@[^\s@]+\.[^\s@]+$`: `s` splits at an `@` (index i) and a later
   * `.` (index j) into three non-empty runs of plain characters.
   */
  predicate EmailPattern(s: string)
  {
    exists i, j | 0 < i < |s| && i + 1 < j < |s| - 1 ::
      s[i] == '@' && s[j] == '.' &&
      PlainRange(s, 0, i) && PlainRange(s, i + 1, j) && PlainRange(s, j + 1, |s|)
  }

  /** The message `validateRequestStep` sets on the email field, if any. */
  function EmailError(email: string): Option<string>
  {
    if IsBlank(email) then Some("Email is required")
    else if !EmailPattern(email) then Some("Please enter a valid email address")
    else None
  }

  /** A matching address is never blank, so an email passes exactly when it matches the pattern. */
  lemma EmailValidIff(email: string)
    ensures EmailError(email) == None <==> EmailPattern(email)
    ensures EmailError(email) == Some("Email is required") <==> IsBlank(email)
  {
  }

  /** Three non-empty runs of plain characters joined by `@` and `.` form a matching address. */
  lemma EmailPatternCompose(local: string, domain: string, tld: string)
    requires |local| > 0 && |domain| > 0 && |tld| > 0
    requires forall k | 0 <= k < |local| :: Plain(local[k])
    requires forall k | 0 <= k < |domain| :: Plain(domain[k])
    requires forall k | 0 <= k < |tld| :: Plain(tld[k])
    ensures EmailPattern(local + "@" + domain + "." + tld)
  {
    var s := local + "@" + domain + "." + tld;
    var i := |local|;
    var j := |local| + 1 + |domain|;
    assert s[i] == '@' && s[j] == '.';
    assert PlainRange(s, 0, i) by {
      forall k | 0 <= k < i ensures Plain(s[k]) { assert s[k] == local[k]; }
    }
    assert PlainRange(s, i + 1, j) by {
      forall k | i + 1 <= k < j ensures Plain(s[k]) { assert s[k] == domain[k - i - 1]; }
    }
    assert PlainRange(s, j + 1, |s|) by {
      forall k | j + 1 <= k < |s| ensures Plain(s[k]) { assert s[k] == tld[k - j - 1]; }
    }
  }

  /** A matching address contains no white space and exactly one `@`, which is not its first character. */
  lemma EmailPatternShape(s: string)
    requires EmailPattern(s)
    ensures forall k | 0 <= k < |s| :: !IsWhitespace(s[k])
    ensures exists a | 0 < a < |s| :: s[a] == '@' && forall b | 0 <= b < |s| && s[b] == '@' :: b == a
  {
  }

  /** Empty and white-space-only addresses draw the "required" message. */
  lemma BlankEmailIsRequired()
    ensures EmailError("") == Some("Email is required")
    ensures EmailError(" \t") == Some("Email is required")
  {
  }

  /** An address without a dot after the `@` draws the "valid address" message. */
  lemma EmailWithoutDotRejected()
    ensures EmailError("user@example") == Some("Please enter a valid email address")
  {
    var s := "user@example";
    assert !IsWhitespace(s[0]);
    forall j | 0 <= j < |s| ensures s[j] != '.' { }
  }

  /** "user@example.com" passes. */
  lemma EmailAccepted()
    ensures EmailError("user@example.com") == None
  {
    EmailPatternCompose("user", "example", "com");
    assert "user" + "@" + "example" + "." + "com" == "user@example.com";
    EmailValidIff("user@example.com");
  }

  // ---------------------------------------------------------------------
  // Confirmation-step messages
  // ---------------------------------------------------------------------

  /** The password-field message, in priority order: required, too short, too weak. */
  function PasswordError(password: string, strength: Option<Strength>): Option<string>
  {
    if password == "" then Some("Password is required")
    else if |password| < 8 then Some("Password must be at least 8 characters")
    else if strength == Some(Weak) then Some("Please use a stronger password")
    else None
  }

  /** The confirm-field message: required, then mismatch. */
  function ConfirmError(confirm: string, password: string): Option<string>
  {
    if confirm == "" then Some("Please confirm your password")
    else if confirm != password then Some("Passwords do not match")
    else None
  }

  /**
   * A password passes exactly when it has at least eight characters and
   * scores three or more; it then uses at least two character classes.
   */
  lemma PasswordAcceptedIff(p: string)
    ensures PasswordError(p, StrengthOf(p)) == None <==> |p| >= 8 && Score(p) >= 3
    ensures PasswordError(p, StrengthOf(p)) == None ==> ClassCount(p) >= 2
  {
    ScoreIsClassesPlusLength(p);
  }

  /** The "stronger password" message only appears for passwords of eight or more characters that use at most one character class. */
  lemma WeakMessageMeansOneClass(p: string)
    requires PasswordError(p, StrengthOf(p)) == Some("Please use a stronger password")
    ensures |p| >= 8 && ClassCount(p) <= 1
  {
    ScoreIsClassesPlusLength(p);
  }

  /** "weakpw" is too short, so it draws the length message rather than the strength message. */
  lemma WeakpwDrawsLengthMessage()
    ensures PasswordError("weakpw", StrengthOf("weakpw")) == Some("Password must be at least 8 characters")
  {
  }

  /** The two fields are checked independently: both messages can be set by one submission. */
  lemma BothFieldMessagesAtOnce()
    ensures PasswordError("abcdefgh", StrengthOf("abcdefgh")) == Some("Please use a stronger password")
    ensures ConfirmError("abcdefgi", "abcdefgh") == Some("Passwords do not match")
  {
  }

  /** The confirmation step is valid exactly for a long enough, non-weak password repeated in the confirm field. */
  lemma ConfirmationValidIff(p: string, c: string)
    ensures PasswordError(p, StrengthOf(p)) == None && ConfirmError(c, p) == None <==>
            |p| >= 8 && Score(p) >= 3 && c == p
  {
  }

  // ---------------------------------------------------------------------
  // The form
  // ---------------------------------------------------------------------

  const ResetLinkFailed: string := "Failed to send reset link. Please try again."
  const MissingToken: string := "Missing reset token. Please try again."
  const ResetFailed: string := "Failed to reset password. The link may be expired or invalid."
  const LoginAfterReset: string := "/auth/login?resetSuccess=true"

  /** An error field after the clear-errors effect, which clears it when `clears` holds. */
  function AfterClear(err: Option<string>, clears: bool): Option<string>
  {
    if clears then None else err
  }

  class ResetForm {
    const token: Option<string>
    var step: Step
    var email: string
    var password: string
    var confirmPassword: string
    var loading: bool
    var error: Option<string>
    var emailError: Option<string>
    var passwordError: Option<string>
    var confirmPasswordError: Option<string>
    var passwordStrength: Option<Strength>

    /** Between events the strength effect has run and no call is outstanding. */
    ghost predicate Valid()
      reads this
    {
      passwordStrength == StrengthOf(password) && !loading
    }

    /**
     * The clear-errors effect, run after an edit when `ran` holds (one of the
     * three inputs changed): each field's error is cleared when that field is
     * non-empty, the form error when any of them is.
     */
    twostate predicate ErrorsAfterEdit(ran: bool)
      reads this
    {
      emailError == AfterClear(old(emailError), ran && email != "") &&
      passwordError == AfterClear(old(passwordError), ran && password != "") &&
      confirmPasswordError == AfterClear(old(confirmPasswordError), ran && confirmPassword != "") &&
      error == AfterClear(old(error), ran && (email != "" || password != "" || confirmPassword != ""))
    }

    constructor (token: Option<string>, initialEmail: Option<string>)
      ensures Valid()
      ensures this.token == token && step == InitialStep(token)
      ensures step == Confirmation <==> Truthy(token)
      ensures email == (if Truthy(initialEmail) then initialEmail.value else "")
      ensures password == "" && confirmPassword == ""
      ensures error == None && emailError == None && passwordError == None && confirmPasswordError == None
    {
      this.token := token;
      step := if Truthy(token) then Confirmation else Request;
      email := if Truthy(initialEmail) then initialEmail.value else "";
      password, confirmPassword := "", "";
      loading := false;
      error, emailError, passwordError, confirmPasswordError := None, None, None, None;
      passwordStrength := None;
    }

    method ClearErrors(ran: bool)
      modifies this`emailError, this`passwordError, this`confirmPasswordError, this`error
      ensures ErrorsAfterEdit(ran)
    {
      if ran {
        if email != "" { emailError := None; }
        if password != "" { passwordError := None; }
        if confirmPassword != "" { confirmPasswordError := None; }
        if email != "" || password != "" || confirmPassword != "" { error := None; }
      }
    }

    /** Typing in the email field. */
    method ChangeEmail(v: string)
      requires Valid()
      modifies this
      ensures Valid()
      ensures email == v && password == old(password) && confirmPassword == old(confirmPassword)
      ensures step == old(step) && passwordStrength == old(passwordStrength)
      ensures ErrorsAfterEdit(v != old(email))
    {
      var ran := v != email;
      email := v;
      ClearErrors(ran);
    }

    /** Typing in the new-password field; the strength effect follows the password. */
    method ChangePassword(v: string)
      requires Valid()
      modifies this
      ensures Valid()
      ensures password == v && email == old(email) && confirmPassword == old(confirmPassword)
      ensures step == old(step) && passwordStrength == StrengthOf(v)
      ensures ErrorsAfterEdit(v != old(password))
    {
      var ran := v != password;
      password := v;
      ClearErrors(ran);
      if ran {
        passwordStrength := StrengthOf(password);
      }
    }

    /** Typing in the confirm-password field. */
    method ChangeConfirmPassword(v: string)
      requires Valid()
      modifies this
      ensures Valid()
      ensures confirmPassword == v && email == old(email) && password == old(password)
      ensures step == old(step) && passwordStrength == old(passwordStrength)
      ensures ErrorsAfterEdit(v != old(confirmPassword))
    {
      var ran := v != confirmPassword;
      confirmPassword := v;
      ClearErrors(ran);
    }

    /** `validateRequestStep`: sets the email message when there is one; never clears it. */
    method ValidateRequestStep() returns (isValid: bool)
      modifies this`emailError
      ensures isValid <==> EmailPattern(email)
      ensures emailError == if isValid then old(emailError) else EmailError(email)
    {
      EmailValidIff(email);
      isValid := true;
      if IsBlank(email) {
        emailError := Some("Email is required");
        isValid := false;
      } else if !EmailPattern(email) {
        emailError := Some("Please enter a valid email address");
        isValid := false;
      }
    }

    /** `validateConfirmationStep`: both field checks run; each sets its message when there is one. */
    method ValidateConfirmationStep() returns (isValid: bool)
      modifies this`passwordError, this`confirmPasswordError
      ensures isValid <==> PasswordError(password, passwordStrength) == None && ConfirmError(confirmPassword, password) == None
      ensures passwordError == if PasswordError(password, passwordStrength).Some? then PasswordError(password, passwordStrength) else old(passwordError)
      ensures confirmPasswordError == if ConfirmError(confirmPassword, password).Some? then ConfirmError(confirmPassword, password) else old(confirmPasswordError)
    {
      isValid := true;
      if password == "" {
        passwordError := Some("Password is required");
        isValid := false;
      } else if |password| < 8 {
        passwordError := Some("Password must be at least 8 characters");
        isValid := false;
      } else if passwordStrength == Some(Weak) {
        passwordError := Some("Please use a stronger password");
        isValid := false;
      }
      if confirmPassword == "" {
        confirmPasswordError := Some("Please confirm your password");
        isValid := false;
      } else if confirmPassword != password {
        confirmPasswordError := Some("Passwords do not match");
        isValid := false;
      }
    }

    /**
     * Submitting the request step (its form is shown only on that step);
     * `sent` is the outcome of asking for a reset link. An invalid email makes
     * no call; any matching address whose call succeeds reaches the success
     * step.
     */
    method HandleRequestSubmit(sent: bool)
      requires Valid()
      requires step == Request
      modifies this
      ensures Valid()
      ensures email == old(email) && password == old(password) && confirmPassword == old(confirmPassword)
      ensures passwordError == old(passwordError) && confirmPasswordError == old(confirmPasswordError)
      ensures StepRank(step) >= StepRank(old(step))
      ensures !EmailPattern(email) ==>
                step == Request && error == old(error) && emailError == EmailError(email)
      ensures EmailPattern(email) && sent ==> step == Success && error == None
      ensures EmailPattern(email) && !sent ==> step == Request && error == Some(ResetLinkFailed)
      ensures EmailPattern(email) ==> emailError == old(emailError)
    {
      var valid := ValidateRequestStep();
      if !valid {
        return;
      }
      loading := true;
      error := None;
      if sent {
        loading := false;
        step := Success;
      } else {
        loading := false;
        error := Some(ResetLinkFailed);
      }
    }

    /**
     * Submitting the confirmation step (its form is shown only on that step);
     * `reset` is the outcome of the reset call. Validation runs before the
     * token check, and a missing token never enters loading. The step never
     * changes; success is a redirect to the login page, returned as
     * `redirect`.
     */
    method HandleConfirmationSubmit(reset: bool) returns (redirect: Option<string>)
      requires Valid()
      requires step == Confirmation
      modifies this
      ensures Valid()
      ensures passwordError ==
                if PasswordError(password, passwordStrength).Some? then PasswordError(password, passwordStrength) else old(passwordError)
      ensures confirmPasswordError ==
                if ConfirmError(confirmPassword, password).Some? then ConfirmError(confirmPassword, password) else old(confirmPasswordError)
      ensures step == Confirmation && email == old(email) && password == old(password) && confirmPassword == old(confirmPassword)
      ensures emailError == old(emailError)
      ensures var ok := PasswordError(password, passwordStrength) == None && ConfirmError(confirmPassword, password) == None;
              (!ok ==> redirect == None && error == old(error)) &&
              (ok && !Truthy(token) ==> redirect == None && error == Some(MissingToken)) &&
              (ok && Truthy(token) && reset ==> redirect == Some(LoginAfterReset) && error == None) &&
              (ok && Truthy(token) && !reset ==> redirect == None && error == Some(ResetFailed))
      ensures redirect.Some? ==> |password| >= 8 && Score(password) >= 3 && confirmPassword == password
    {
      redirect := None;
      var valid := ValidateConfirmationStep();
      if !valid {
        return;
      }
      if !Truthy(token) {
        error := Some(MissingToken);
        return;
      }
      loading := true;
      error := None;
      if reset {
        loading := false;
        redirect := Some(LoginAfterReset);
      } else {
        loading := false;
        error := Some(ResetFailed);
      }
      ConfirmationValidIff(password, confirmPassword);
    }
  }
}
