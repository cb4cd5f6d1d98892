/** The login / registration form: the password-strength rule, the checks a
    registration must pass before any request is sent, and the submit
    handler that runs the authentication hook. */
module TextForm {
  import opened Common
  import opened Session
  import Forms
  import opened Authentication

  // ---------------------------------------------------------------------
  // The strong-password regular expression
  //   ^(?=.*[a-z])(?=.*[A-Z])(?=.*\d)(?=.*[!@#$%^&*])[A-Za-z\d!@#$%^&*]{8,}$
  // written as character classes and the two constructs it uses: a
  // lookahead `(?=.*[k])` at the start, and a run of class `k` to the end.
  // ---------------------------------------------------------------------

  datatype CharClass = Lower | Upper | Digit | Special | Allowed

  predicate InClass(c: char, k: CharClass) {
    match k
    case Lower => 'a' <= c <= 'z'
    case Upper => 'A' <= c <= 'Z'
    case Digit => '0' <= c <= '9'
    case Special => c in "!@#$%^&*"
    case Allowed => 'a' <= c <= 'z' || 'A' <= c <= 'Z' || '0' <= c <= '9' || c in "!@#$%^&*"
  }

  /** The characters `.` does not match: JavaScript's line terminators. */
  predicate IsLineTerminator(c: char) {
    c == '\n' || c == '\r' || c == '\U{2028}' || c == '\U{2029}'
  }

  /** `(?=.*[k])` at the start of `p`: a character of class `k` is reached
      without crossing a line terminator. */
  predicate Lookahead(p: string, k: CharClass) {
    |p| > 0 && (InClass(p[0], k) || (!IsLineTerminator(p[0]) && Lookahead(p[1..], k)))
  }

  /** `[k]*$`: every remaining character is of class `k`. */
  predicate Run(p: string, k: CharClass) {
    p == [] || (InClass(p[0], k) && Run(p[1..], k))
  }

  /** `p` has a character of class `k`. */
  predicate Contains(p: string, k: CharClass) {
    exists i | 0 <= i < |p| :: InClass(p[i], k)
  }

  /** `isPasswordStrong(password)`: the regular expression above, tested
      against the whole string.  A strong password has at least eight
      characters, all from the allowed set, and one of each required class. */
  function IsPasswordStrong(p: string): (strong: bool)
    ensures strong ==> |p| >= 8 && forall i | 0 <= i < |p| :: InClass(p[i], Allowed)
    ensures strong ==> Contains(p, Lower) && Contains(p, Upper) && Contains(p, Digit) && Contains(p, Special)
  {
    RunIff(p, Allowed);
    LookaheadContains(p, Lower);
    LookaheadContains(p, Upper);
    LookaheadContains(p, Digit);
    LookaheadContains(p, Special);
    && Lookahead(p, Lower)
    && Lookahead(p, Upper)
    && Lookahead(p, Digit)
    && Lookahead(p, Special)
    && |p| >= 8 && Run(p, Allowed)
  }

  lemma {:induction false} RunIff(p: string, k: CharClass)
    ensures Run(p, k) <==> forall i | 0 <= i < |p| :: InClass(p[i], k)
  {
    if p != [] {
      RunIff(p[1..], k);
      assert forall i | 1 <= i < |p| :: p[i] == p[1..][i - 1];
    }
  }

  /** A lookahead that matches has found a character of its class. */
  lemma {:induction false} LookaheadContains(p: string, k: CharClass)
    ensures Lookahead(p, k) ==> Contains(p, k)
  {
    if p != [] && !InClass(p[0], k) && Lookahead(p, k) {
      LookaheadContains(p[1..], k);
      var i :| 0 <= i < |p[1..]| && InClass(p[1..][i], k);
      assert InClass(p[i + 1], k);
    }
  }

  lemma {:induction false} LookaheadIff(p: string, k: CharClass)
    requires forall i | 0 <= i < |p| :: !IsLineTerminator(p[i])
    ensures Lookahead(p, k) <==> Contains(p, k)
  {
    if p != [] {
      assert forall i | 0 <= i < |p[1..]| :: p[1..][i] == p[i + 1];
      LookaheadIff(p[1..], k);
      if Contains(p, k) && !InClass(p[0], k) {
        var i :| 0 <= i < |p| && InClass(p[i], k);
        assert InClass(p[1..][i - 1], k);
      }
    }
  }

  /** A password is strong exactly when it has at least eight characters,
      all from `[A-Za-z0-9!@#$%^&*]`, among them a lower-case letter, an
      upper-case letter, a digit and one of `!@#$%^&*`. */
  lemma PasswordStrongIff(p: string)
    ensures IsPasswordStrong(p) <==>
      && |p| >= 8
      && (forall i | 0 <= i < |p| :: InClass(p[i], Allowed))
      && Contains(p, Lower) && Contains(p, Upper) && Contains(p, Digit) && Contains(p, Special)
  {
    RunIff(p, Allowed);
    if forall i | 0 <= i < |p| :: InClass(p[i], Allowed) {
      LookaheadIff(p, Lower);
      LookaheadIff(p, Upper);
      LookaheadIff(p, Digit);
      LookaheadIff(p, Special);
    }
  }

  /** A password shorter than eight characters, or with a character outside
      the allowed set (a space, say), is never strong. */
  lemma ShortOrForeignIsWeak(p: string, i: nat)
    requires |p| < 8 || (i < |p| && !InClass(p[i], Allowed))
    ensures !IsPasswordStrong(p)
  {
    PasswordStrongIff(p);
  }

  /** A missing password field is tested as the text `"undefined"`, which
      has no upper-case letter and so is weak. */
  lemma MissingPasswordIsWeak()
    ensures !IsPasswordStrong(AsString(None))
  {
    var u := AsString(None);
    PasswordStrongIff(u);
    forall i | 0 <= i < |u| ensures !InClass(u[i], Upper) {
      assert 'a' <= u[i] <= 'z';
    }
  }

  /** `"Secret1!"` is strong; `"abc"` is not. */
  lemma PasswordExamples()
    ensures IsPasswordStrong("Secret1!")
    ensures !IsPasswordStrong("abc")
  {
    var p := "Secret1!";
    PasswordStrongIff(p);
    assert InClass(p[1], Lower) && InClass(p[0], Upper);
    assert InClass(p[6], Digit) && InClass(p[7], Special);
    ShortOrForeignIsWeak("abc", 0);
  }

  // ---------------------------------------------------------------------
  // Submit gating
  // ---------------------------------------------------------------------

  /** What the checks before `authenticate` decide. */
  datatype Verdict = PasswordsDiffer | PasswordWeak | Submit

  /** The checks `onSubmit` runs before calling `authenticate`: only for the
      form type `'register'`, first that the two passwords are strictly
      equal, then that the password is strong. */
  function Gate(formType: string, values: map<string, Value>): (v: Verdict)
    ensures v == PasswordsDiffer <==>
      formType == "register" && Lookup(values, "password") != Lookup(values, "confirmPassword")
    ensures v == PasswordWeak <==>
      && formType == "register" && Lookup(values, "password") == Lookup(values, "confirmPassword")
      && !IsPasswordStrong(AsString(Lookup(values, "password")))
    ensures v == Submit <==>
      formType != "register" ||
      (Lookup(values, "password") == Lookup(values, "confirmPassword") &&
       IsPasswordStrong(AsString(Lookup(values, "password"))))
  {
    if formType != "register" then Submit
    else if Lookup(values, "password") != Lookup(values, "confirmPassword") then PasswordsDiffer
    else if !IsPasswordStrong(AsString(Lookup(values, "password"))) then PasswordWeak
    else Submit
  }

  /** A registration whose password is weak is refused even when the two
      passwords agree, and the mismatch check wins over the strength check. */
  lemma RegistrationChecksInOrder(values: map<string, Value>, pw: string, confirm: string)
    requires Lookup(values, "password") == Some(Text(pw))
    requires Lookup(values, "confirmPassword") == Some(Text(confirm))
    ensures pw != confirm ==> Gate("register", values) == PasswordsDiffer
    ensures pw == confirm && (|pw| < 8 || ' ' in pw) ==> Gate("register", values) == PasswordWeak
  {
    if pw == confirm && ' ' in pw {
      var i :| 0 <= i < |pw| && pw[i] == ' ';
      ShortOrForeignIsWeak(pw, i);
    } else if pw == confirm && |pw| < 8 {
      ShortOrForeignIsWeak(pw, 0);
    }
  }

  /** A form type other than `'login'` and `'register'` skips both checks and
      yet makes the hook send a registration: the strength rule is enforced
      only when the form type is exactly `'register'`. */
  lemma OtherFormTypeRegistersUnchecked(formType: string, values: map<string, Value>)
    requires formType != "login" && formType != "register"
    ensures Gate(formType, values) == Submit
    ensures Dispatch(formType, values).RegisterPost?
  {
  }

  /** How a submission ends. */
  datatype Submission = Refused(reason: Verdict) | Succeeded(result: AuthResult) | Failed(message: string)

  /** One rendered form: its values (the form hook), its authentication
      hook, and the results it has passed to `handleResponse`. */
  class Form {
    const formType: string
    const fields: Forms.FormState
    const hook: AuthHook
    var responses: seq<AuthResult>

    constructor (formType: string, initialValues: map<string, Value>)
      ensures this.formType == formType && fresh(fields) && fresh(hook)
      ensures fields.values == initialValues && fields.initialValues == initialValues
      ensures hook.formType == formType && !hook.loading && hook.error == None
      ensures responses == []
    {
      this.formType := formType;
      fields := new Forms.FormState(initialValues);
      hook := new AuthHook(formType);
      responses := [];
    }

    /** `onSubmit`.  A refused submission sends nothing and changes nothing;
        otherwise the store settles the dispatched request, and a success is
        handed to `handleResponse` with `error` cleared. */
    method OnSubmit(store: SessionStore, outcome: Outcome) returns (s: Submission)
      requires store.Valid() && hook.formType == formType
      modifies this, hook, store
      ensures store.Valid()
      ensures Gate(formType, fields.values) != Submit ==>
        && s == Refused(Gate(formType, fields.values))
        && store.State() == old(store.State()) && responses == old(responses)
        && hook.loading == old(hook.loading) && hook.error == old(hook.error)
      ensures Gate(formType, fields.values) == Submit ==>
        && store.State() == Settled(old(store.State()), Dispatch(formType, fields.values), outcome)
        && !hook.loading
      ensures Gate(formType, fields.values) == Submit && outcome.Ok? ==>
        && s == Succeeded(StoreReply(formType, outcome))
        && responses == old(responses) + [StoreReply(formType, outcome)]
        && hook.error == None
      ensures Gate(formType, fields.values) == Submit && outcome.Err? ==>
        && s == Failed(StoreReply(formType, outcome).message)
        && responses == old(responses)
        && hook.error == Some(StoreReply(formType, outcome).message)
    {
      var values := fields.values;
      if formType == "register" {
        if Lookup(values, "password") != Lookup(values, "confirmPassword") {
          s := Refused(PasswordsDiffer);
          return;
        }
        if !IsPasswordStrong(AsString(Lookup(values, "password"))) {
          s := Refused(PasswordWeak);
          return;
        }
      }
      var c := hook.Authenticate(values, store, outcome);
      match c
      case Returned(response) =>
        if response.success {
          responses := responses + [response];
          hook.SetError(None);
        }
        s := Succeeded(response);
      case Threw(message) =>
        s := Failed(message);
    }
  }
}
