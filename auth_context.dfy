/** The front end's authentication state (frontend/src/contexts/AuthContext.js):
    the reducer over its five fields, and the action sequences that the
    provider's `login`, `register`, `logout` and `clearError` dispatch once
    the HTTP call is reduced to its outcome. */
module AuthContext {
  import opened Wrappers
  import opened AuthRoutes

  datatype AuthState = AuthState(
    user: Option<PublicUser>,
    token: Option<string>,
    isAuthenticated: bool,
    loading: bool,
    error: Option<string>)

  /** The actions the reducer knows, and any other `type` as `Other`. */
  datatype Action =
    | LoginStart
    | LoginSuccess(user: PublicUser, token: string)
    | LoginFailure(message: Option<string>)
    | Logout
    | RegisterStart
    | RegisterSuccess(user: PublicUser, token: string)
    | RegisterFailure(message: Option<string>)
    | SetError(message: Option<string>)
    | Other(actionType: string)

  /** `authReducer`. */
  function Reduce(s: AuthState, a: Action): AuthState {
    match a
    case LoginStart => s.(loading := true, error := None)
    case LoginSuccess(u, t) => s.(loading := false, isAuthenticated := true, user := Some(u), token := Some(t), error := None)
    case LoginFailure(m) => s.(loading := false, isAuthenticated := false, user := None, token := None, error := m)
    case Logout => s.(loading := false, isAuthenticated := false, user := None, token := None, error := None)
    case RegisterStart => s.(loading := true, error := None)
    case RegisterSuccess(u, t) => s.(loading := false, isAuthenticated := true, user := Some(u), token := Some(t), error := None)
    case RegisterFailure(m) => s.(loading := false, error := m)
    case SetError(m) => s.(error := m)
    case Other(_) => s
  }

  /** Dispatching a sequence of actions in order. */
  function Run(s: AuthState, actions: seq<Action>): AuthState
    decreases |actions|
  {
    if actions == [] then s else Run(Reduce(s, actions[0]), actions[1..])
  }

  /** The provider's initial state; `storedToken` is what `localStorage`
      holds under `token`. */
  function Initial(storedToken: Option<string>): (s: AuthState)
    ensures !s.isAuthenticated && !s.loading && s.user.None? && s.error.None? && s.token == storedToken
  {
    AuthState(None, storedToken, false, false, None)
  }

  /** The state every logout leads to. */
  const SignedOut: AuthState := AuthState(None, None, false, false, None)

  // ---------------------------------------------------------------------
  // One action at a time
  // ---------------------------------------------------------------------

  /** Both START actions raise `loading` and clear the error, and leave
      the session alone. */
  lemma StartActions(s: AuthState, a: Action)
    requires a == LoginStart || a == RegisterStart
    ensures var r := Reduce(s, a);
      r.loading && r.error.None? &&
      r.user == s.user && r.token == s.token && r.isAuthenticated == s.isAuthenticated
  {
  }

  /** Both SUCCESS actions install the payload's session. */
  lemma SuccessActions(s: AuthState, u: PublicUser, t: string)
    ensures Reduce(s, LoginSuccess(u, t)) == Reduce(s, RegisterSuccess(u, t))
    ensures var r := Reduce(s, LoginSuccess(u, t));
      r.isAuthenticated && r.user == Some(u) && r.token == Some(t) && !r.loading && r.error.None?
  {
  }

  /** A failed login ends the session; a failed registration keeps it. */
  lemma FailureActions(s: AuthState, m: Option<string>)
    ensures var r := Reduce(s, LoginFailure(m));
      !r.isAuthenticated && r.user.None? && r.token.None? && !r.loading && r.error == m
    ensures var r := Reduce(s, RegisterFailure(m));
      r.user == s.user && r.token == s.token && r.isAuthenticated == s.isAuthenticated &&
      !r.loading && r.error == m
  {
  }

  /** LOGOUT forgets everything: its result does not depend on the state
      it starts from, so a second LOGOUT changes nothing. */
  lemma LogoutResets(s: AuthState, t: AuthState)
    ensures Reduce(s, Logout) == SignedOut == Reduce(t, Logout)
    ensures Reduce(Reduce(s, Logout), Logout) == Reduce(s, Logout)
  {
  }

  /** SET_ERROR touches only the error; an unknown action nothing. */
  lemma OtherActions(s: AuthState, m: Option<string>, name: string)
    ensures Reduce(s, SetError(m)) == s.(error := m)
    ensures Reduce(s, SetError(m)).error == m
    ensures Reduce(s, Other(name)) == s
  {
  }

  /** The state is consistent when an authenticated session has both a
      user and a token. */
  predicate Consistent(s: AuthState) {
    s.isAuthenticated ==> s.user.Some? && s.token.Some?
  }

  /** Every action keeps the state consistent, so every run from the
      initial state does. */
  lemma {:induction false} RunConsistent(s: AuthState, actions: seq<Action>)
    requires Consistent(s)
    ensures Consistent(Run(s, actions))
    decreases |actions|
  {
    if actions != [] {
      assert Consistent(Reduce(s, actions[0]));
      RunConsistent(Reduce(s, actions[0]), actions[1..]);
    }
  }

  lemma InitialRunsConsistent(storedToken: Option<string>, actions: seq<Action>)
    ensures Consistent(Run(Initial(storedToken), actions))
  {
    RunConsistent(Initial(storedToken), actions);
  }

  lemma {:induction false} RunAppend(s: AuthState, xs: seq<Action>, ys: seq<Action>)
    ensures Run(s, xs + ys) == Run(Run(s, xs), ys)
    decreases |xs|
  {
    if xs != [] {
      assert (xs + ys)[0] == xs[0] && (xs + ys)[1..] == xs[1..] + ys;
      RunAppend(Reduce(s, xs[0]), xs[1..], ys);
    } else {
      assert xs + ys == ys;
    }
  }

  lemma RunTwo(s: AuthState, a: Action, b: Action)
    ensures Run(s, [a]) == Reduce(s, a)
    ensures Run(s, [a, b]) == Reduce(Reduce(s, a), b)
  {
    assert [a][1..] == [] && [a, b][1..] == [b] && [b][1..] == [];
    assert Run(s, [a, b]) == Run(Reduce(s, a), [b]);
    assert Run(Reduce(s, a), [b]) == Run(Reduce(Reduce(s, a), b), []);
  }

  // ---------------------------------------------------------------------
  // The provider's operations
  // ---------------------------------------------------------------------

  /** What the HTTP call of `login` or `register` ends in: the reply's
      user and access token, or the error reply's `detail` if it has one. */
  datatype CallOutcome = Replied(user: PublicUser, accessToken: string) | Failed(detail: Option<string>)

  /** `error.response?.data?.detail || fallback`. */
  function ErrorMessage(detail: Option<string>, fallback: string): (m: string)
    ensures detail.Some? && detail.value != "" ==> m == detail.value
    ensures (detail.None? || detail.value == "") ==> m == fallback
  {
    if detail.Some? && detail.value != "" then detail.value else fallback
  }

  const LoginFallback: string := "Login failed"
  const RegisterFallback: string := "Registration failed"

  /** The `{ success, error }` object `login` and `register` return. */
  datatype CallReply = CallReply(success: bool, error: Option<string>)

  function LoginActions(outcome: CallOutcome): seq<Action> {
    match outcome
    case Replied(u, t) => [LoginStart, LoginSuccess(u, t)]
    case Failed(d) => [LoginStart, LoginFailure(Some(ErrorMessage(d, LoginFallback)))]
  }

  function RegisterActions(outcome: CallOutcome): seq<Action> {
    match outcome
    case Replied(u, t) => [RegisterStart, RegisterSuccess(u, t)]
    case Failed(d) => [RegisterStart, RegisterFailure(Some(ErrorMessage(d, RegisterFallback)))]
  }

  function Reply(outcome: CallOutcome, fallback: string): (r: CallReply)
    ensures r.success <==> outcome.Replied?
    ensures !r.success ==> r.error == Some(ErrorMessage(outcome.detail, fallback))
  {
    match outcome
    case Replied(_, _) => CallReply(true, None)
    case Failed(d) => CallReply(false, Some(ErrorMessage(d, fallback)))
  }

  const LogoutActions: seq<Action> := [Logout]
  const ClearErrorActions: seq<Action> := [SetError(None)]

  /** After `login` the state is not loading; a reply signs the user in
      with the reply's user and token, and a failure signs out with a
      non-empty message that matches the one returned to the caller. */
  lemma LoginFlow(s: AuthState, outcome: CallOutcome)
    ensures var r := Run(s, LoginActions(outcome));
      !r.loading &&
      (r.isAuthenticated <==> outcome.Replied?) &&
      (outcome.Replied? ==> r.user == Some(outcome.user) && r.token == Some(outcome.accessToken) && r.error.None?) &&
      (outcome.Failed? ==> r.user.None? && r.token.None? && r.error.Some? && r.error.value != "" &&
                           r.error == Reply(outcome, LoginFallback).error)
  {
    var acts := LoginActions(outcome);
    RunTwo(s, acts[0], acts[1]);
    assert acts == [acts[0], acts[1]];
  }

  /** After `register` the state is not loading; a reply signs the user in,
      and a failure keeps whatever session there was before. */
  lemma RegisterFlow(s: AuthState, outcome: CallOutcome)
    ensures var r := Run(s, RegisterActions(outcome));
      !r.loading &&
      (outcome.Replied? ==> r.isAuthenticated && r.user == Some(outcome.user) &&
                            r.token == Some(outcome.accessToken) && r.error.None?) &&
      (outcome.Failed? ==> r.user == s.user && r.token == s.token && r.isAuthenticated == s.isAuthenticated &&
                           r.error.Some? && r.error.value != "" && r.error == Reply(outcome, RegisterFallback).error)
  {
    var acts := RegisterActions(outcome);
    RunTwo(s, acts[0], acts[1]);
    assert acts == [acts[0], acts[1]];
  }

  /** `logout` and `clearError`. */
  lemma LogoutAndClear(s: AuthState)
    ensures Run(s, LogoutActions) == SignedOut
    ensures Run(s, ClearErrorActions) == s.(error := None)
  {
    RunTwo(s, Logout, Logout);
    RunTwo(s, SetError(None), Logout);
  }

  /** Signing in and then out, through either flow, ends signed out
      whatever happened in between. */
  lemma SessionEndsSignedOut(s: AuthState, outcome: CallOutcome, registering: bool)
    ensures Run(s, (if registering then RegisterActions(outcome) else LoginActions(outcome)) + LogoutActions) == SignedOut
  {
    var acts := if registering then RegisterActions(outcome) else LoginActions(outcome);
    RunAppend(s, acts, LogoutActions);
    LogoutAndClear(Run(s, acts));
  }
}
