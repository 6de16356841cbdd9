/**
 * `SessionStore`: the local guards in front of the identity provider, the
 * sign-up password policy, the mapping of provider error codes, and the
 * `session` and `error` fields. Provider calls are parameters holding their
 * outcome; `authCalls` records, in order, the calls that were made.
 */
module Session {
  import opened Wrappers
  import opened MedicModel

  /** The signed-in account kept in `session`. */
  datatype User = User(uid: string, email: Option<string>)

  /** What a `createUser` or `signIn` call returns: the account, or an error with its numeric code. */
  datatype AuthOutcome = AuthSucceeded(uid: string, email: Option<string>) | AuthFailed(code: int)

  /** A call made to the identity provider. */
  datatype AuthCall = CreateUser(email: string, password: string) | SignInCall(email: string, password: string) | SignOutCall

  /** The provider's raw codes the sign-up mapping looks for (`AuthErrorCode`). */
  const EmailAlreadyInUseCode: int := 17007
  const InvalidEmailCode: int := 17008

  // ---------------------------------------------------------------------------
  // The password policy
  // ---------------------------------------------------------------------------

  /** The four kinds of character the pattern's look-aheads ask for. */
  datatype CharKind = Upper | Lower | Digit | Symbol

  /** `[A-Z]`, `[a-z]`, `\d` (here: ASCII digits) and `[!@#$%^&*(),.?":{}|<>]`. */
  predicate IsKind(k: CharKind, c: char)
  {
    match k
    case Upper => 'A' <= c <= 'Z'
    case Lower => 'a' <= c <= 'z'
    case Digit => '0' <= c <= '9'
    case Symbol =>
      c == '!' || c == '@' || c == '#' || c == '$' || c == '%' || c == '^' || c == '&' ||
      c == '*' || c == '(' || c == ')' || c == ',' || c == '.' || c == '?' || c == '"' ||
      c == ':' || c == '{' || c == '}' || c == '|' || c == '<' || c == '>'
  }

  /** The characters `[A-Za-z\d!@#$%^&*(),.?":{}|<>]` admits. */
  predicate IsPasswordChar(c: char)
  {
    IsKind(Upper, c) || IsKind(Lower, c) || IsKind(Digit, c) || IsKind(Symbol, c)
  }

  /** Some character of `p` at or after `i` is of kind `k`. */
  ghost predicate SeenFrom(p: string, i: nat, k: CharKind)
  {
    exists j :: i <= j < |p| && IsKind(k, p[j])
  }

  /** Every character of `p` at or after `i` is admitted. */
  ghost predicate AdmittedFrom(p: string, i: nat)
  {
    forall j :: i <= j < |p| ==> IsPasswordChar(p[j])
  }

  /** The policy as the pattern states it: each look-ahead finds its kind, the class covers the whole string. */
  ghost predicate PasswordPolicy(p: string)
  {
    |p| >= 10 && AdmittedFrom(p, 0) &&
    SeenFrom(p, 0, Upper) && SeenFrom(p, 0, Lower) && SeenFrom(p, 0, Digit) && SeenFrom(p, 0, Symbol)
  }

  lemma SeenFromStep(p: string, i: nat, k: CharKind)
    requires i < |p|
    ensures SeenFrom(p, i, k) <==> IsKind(k, p[i]) || SeenFrom(p, i + 1, k)
  {
    if SeenFrom(p, i, k) && !IsKind(k, p[i]) {
      var j :| i <= j < |p| && IsKind(k, p[j]);
      assert j > i;
    }
  }

  /**
   * One left-to-right pass over `p` from index `i`, remembering which kinds
   * of character have been seen: what matching the pattern computes. It
   * accepts exactly when the rest of `p` completes what was seen before `i`.
   */
  predicate MatchFrom(p: string, i: nat, upper: bool, lower: bool, digit: bool, symbol: bool)
    requires i <= |p|
    ensures MatchFrom(p, i, upper, lower, digit, symbol) <==>
      |p| >= 10 && AdmittedFrom(p, i) &&
      (upper || SeenFrom(p, i, Upper)) && (lower || SeenFrom(p, i, Lower)) &&
      (digit || SeenFrom(p, i, Digit)) && (symbol || SeenFrom(p, i, Symbol))
    decreases |p| - i
  {
    if i == |p| then |p| >= 10 && upper && lower && digit && symbol
    else
      SeenFromStep(p, i, Upper);
      SeenFromStep(p, i, Lower);
      SeenFromStep(p, i, Digit);
      SeenFromStep(p, i, Symbol);
      assert AdmittedFrom(p, i) <==> IsPasswordChar(p[i]) && AdmittedFrom(p, i + 1);
      IsPasswordChar(p[i]) &&
      MatchFrom(p, i + 1, upper || IsKind(Upper, p[i]), lower || IsKind(Lower, p[i]),
                digit || IsKind(Digit, p[i]), symbol || IsKind(Symbol, p[i]))
  }

  /** `isPasswordValid`: the whole password matches the pattern, which is the policy. */
  predicate IsPasswordValid(p: string)
    ensures IsPasswordValid(p) <==> PasswordPolicy(p)
  {
    MatchFrom(p, 0, false, false, false, false)
  }

  /** The passwords of the session tests: the sign-up ones pass, "weak" does not. */
  lemma PasswordExamples()
    ensures IsPasswordValid("Test123456!")
    ensures !IsPasswordValid("weak")
  {
    var p := "Test123456!";
    assert SeenFrom(p, 0, Upper) by { assert IsKind(Upper, p[0]); }
    assert SeenFrom(p, 0, Lower) by { assert IsKind(Lower, p[1]); }
    assert SeenFrom(p, 0, Digit) by { assert IsKind(Digit, p[4]); }
    assert SeenFrom(p, 0, Symbol) by { assert IsKind(Symbol, p[10]); }
    assert AdmittedFrom(p, 0) by {
      assert IsPasswordChar(p[0]) && IsPasswordChar(p[1]) && IsPasswordChar(p[2]) && IsPasswordChar(p[3]);
      assert IsPasswordChar(p[4]) && IsPasswordChar(p[5]) && IsPasswordChar(p[6]) && IsPasswordChar(p[7]);
      assert IsPasswordChar(p[8]) && IsPasswordChar(p[9]) && IsPasswordChar(p[10]);
    }
    assert PasswordPolicy(p);
    assert !PasswordPolicy("weak");
  }

  // ---------------------------------------------------------------------------
  // Provider errors
  // ---------------------------------------------------------------------------

  /** The `catch` of `signUp`: two codes have their own error, every other one is a generic failure. */
  function SignUpError(code: int): (e: MedicError)
    ensures e == EmailAlreadyInUse <==> code == EmailAlreadyInUseCode
    ensures e == InvalidEmail <==> code == InvalidEmailCode
    ensures e == SignUpFailed <==> code != EmailAlreadyInUseCode && code != InvalidEmailCode
  {
    if code == EmailAlreadyInUseCode then EmailAlreadyInUse
    else if code == InvalidEmailCode then InvalidEmail
    else SignUpFailed
  }

  // ---------------------------------------------------------------------------
  // The store
  // ---------------------------------------------------------------------------

  class SessionStore {
    var session: Option<User>
    var error: Option<MedicError>
    ghost var authCalls: seq<AuthCall>

    constructor()
      ensures session == None && error == None && authCalls == []
    {
      session, error := None, None;
      authCalls := [];
    }

    /** `signUp`: the email, then the policy, then `createUser`. */
    method SignUp(email: string, password: string, outcome: AuthOutcome)
      modifies this
      ensures email == [] ==>
        error == Some(InvalidEmail) && session == old(session) && authCalls == old(authCalls)
      ensures email != [] && !IsPasswordValid(password) ==>
        error == Some(WeakPassword) && session == old(session) && authCalls == old(authCalls)
      ensures email != [] && IsPasswordValid(password) ==>
        authCalls == old(authCalls) + [CreateUser(email, password)]
      ensures email != [] && IsPasswordValid(password) && outcome.AuthSucceeded? ==>
        error == None && session == Some(User(outcome.uid, outcome.email))
      ensures email != [] && IsPasswordValid(password) && outcome.AuthFailed? ==>
        error == Some(SignUpError(outcome.code)) && session == old(session)
    {
      if email == [] {
        error := Some(InvalidEmail);
        return;
      }
      if !IsPasswordValid(password) {
        error := Some(WeakPassword);
        return;
      }
      authCalls := authCalls + [CreateUser(email, password)];
      match outcome
      case AuthSucceeded(uid, userEmail) =>
        error := None;
        session := Some(User(uid, userEmail));
      case AuthFailed(code) =>
        error := Some(SignUpError(code));
    }

    /** `signIn`: the email, then a non-empty password, then the provider; no policy. */
    method SignIn(email: string, password: string, outcome: AuthOutcome)
      modifies this
      ensures email == [] ==>
        error == Some(InvalidEmail) && session == old(session) && authCalls == old(authCalls)
      ensures email != [] && password == [] ==>
        error == Some(InvalidPassword) && session == old(session) && authCalls == old(authCalls)
      ensures email != [] && password != [] ==>
        authCalls == old(authCalls) + [SignInCall(email, password)]
      ensures email != [] && password != [] && outcome.AuthSucceeded? ==>
        error == None && session == Some(User(outcome.uid, outcome.email))
      ensures email != [] && password != [] && outcome.AuthFailed? ==>
        error == Some(SignInFailed) && session == old(session)
    {
      if email == [] {
        error := Some(InvalidEmail);
        return;
      }
      if password == [] {
        error := Some(InvalidPassword);
        return;
      }
      authCalls := authCalls + [SignInCall(email, password)];
      match outcome
      case AuthSucceeded(uid, userEmail) =>
        error := None;
        session := Some(User(uid, userEmail));
      case AuthFailed(_) =>
        error := Some(SignInFailed);
    }

    /** `signOut`: success clears both fields, failure keeps the session. */
    method SignOut(ok: bool)
      modifies this
      ensures authCalls == old(authCalls) + [SignOutCall]
      ensures ok ==> session == None && error == None
      ensures !ok ==> session == old(session) && error == Some(SignOutFailed)
    {
      authCalls := authCalls + [SignOutCall];
      if ok {
        session := None;
        error := None;
      } else {
        error := Some(SignOutFailed);
      }
    }
  }
}
