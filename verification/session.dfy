/** The client's session state (components/AuthProvider.jsx) and the route
    guard built on it (components/ProtectedRoute.jsx). The restore effect
    reports whether it removed the stored user, and the guard returns
    whether a redirect is scheduled and what it renders; the storage
    writes of `login` and `logout` and the navigation after `logout` are
    not returned. */
module Session {
  import opened Wrappers
  import opened Text
  import Storage

  /** The provider's state: the token, the parsed user and whether the
      stored session has been looked at yet. */
  datatype AuthState = AuthState(token: Option<string>, user: Option<Storage.UserRecord>, authReady: bool)

  /** The state before the restore effect runs. */
  const Initial := AuthState(None, None, false)

  /** `isAuthenticated: !!token`: an empty token does not count. */
  predicate IsAuthenticated(s: AuthState) {
    Truthy(s.token)
  }

  /** What the restore effect did: the new state, and whether it removed
      the stored user. */
  datatype Restore = Restore(state: AuthState, removedUser: bool)

  /** The mount effect: a session is restored only when both the stored
      token and the stored user text are truthy and the text parses; a
      text that does not parse is removed from storage. The provider is
      ready afterwards whatever happened. */
  function RestoreSession(storedToken: Option<string>,
                          storedUser: Option<Storage.StoredJson<Storage.UserRecord>>): (r: Restore)
    ensures r.state.authReady
    ensures r.removedUser <==> Truthy(storedToken) && Storage.IsStored(storedUser) && storedUser.value.parsed.Unparseable?
    ensures r.state.token.Some? <==>
              Truthy(storedToken) && Storage.IsStored(storedUser) && !storedUser.value.parsed.Unparseable?
    ensures r.state.token.Some? ==> r.state.token == storedToken
    ensures r.state.user.Some? <==>
              Truthy(storedToken) && Storage.IsStored(storedUser) && storedUser.value.parsed.Value?
    ensures r.state.user.Some? ==> r.state.user.value == storedUser.value.parsed.v
  {
    if Truthy(storedToken) && Storage.IsStored(storedUser) then
      match storedUser.value.parsed
      case Unparseable => Restore(AuthState(None, None, true), true)
      case JsonNull => Restore(AuthState(storedToken, None, true), false)
      case Value(u) => Restore(AuthState(storedToken, Some(u), true), false)
    else Restore(AuthState(None, None, true), false)
  }

  /** `login(token, user)`: both are set to exactly the given values. */
  function Login(s: AuthState, token: string, user: Storage.UserRecord): (t: AuthState)
    ensures t.token == Some(token) && t.user == Some(user) && t.authReady == s.authReady
    ensures IsAuthenticated(t) <==> token != ""
  {
    AuthState(Some(token), Some(user), s.authReady)
  }

  /** `logout()`: both the token and the user are cleared. */
  function Logout(s: AuthState): (t: AuthState)
    ensures t.token.None? && t.user.None? && t.authReady == s.authReady
    ensures !IsAuthenticated(t)
  {
    AuthState(None, None, s.authReady)
  }

  /** Logging out undoes logging in, whoever logged in. */
  lemma LogoutUndoesLogin(s: AuthState, token: string, user: Storage.UserRecord)
    ensures Logout(Login(s, token, user)) == Logout(s)
  {
  }

  /** What `login` writes survives a reload: restoring from the stored
      token and the stored user (any non-empty JSON text that parses back
      to the user) gives the state the login produced. */
  lemma ReloadRestoresLogin(token: string, user: Storage.UserRecord, text: string)
    requires token != "" && text != ""
    ensures var restored := RestoreSession(Some(token), Some(Storage.StoredJson(text, Storage.Value(user))));
            && restored.state == Login(Initial, token, user).(authReady := true)
            && !restored.removedUser
            && IsAuthenticated(restored.state)
  {
  }

  // ---------------------------------------------------------------------
  // Route guard
  // ---------------------------------------------------------------------

  /** The guard's own state: still checking, and whether a redirect to the
      landing page is scheduled. */
  datatype Guard = Guard(checking: bool, redirectScheduled: bool)

  const GuardStart := Guard(true, false)

  /** What the guard renders. */
  datatype View = CheckingSession | Children | Nothing

  /** The guard's render: the checking view while the provider is not
      ready or the guard still checks, then the children only for an
      authenticated session. */
  function Render(g: Guard, s: AuthState): (v: View)
    ensures v == CheckingSession <==> g.checking || !s.authReady
    ensures v == Children <==> !g.checking && s.authReady && IsAuthenticated(s)
  {
    if g.checking || !s.authReady then CheckingSession
    else if IsAuthenticated(s) then Children
    else Nothing
  }

  /** The guard's effect, run after the provider's state changed. The
      previous run's cleanup first cancels any pending redirect; then
      nothing happens before the provider is ready, an unauthenticated
      session schedules the redirect and an authenticated one ends the
      check. */
  function GuardEffect(g: Guard, s: AuthState): (h: Guard)
    ensures h.redirectScheduled <==> s.authReady && !IsAuthenticated(s)
    ensures !(s.authReady && IsAuthenticated(s)) ==> h.checking == g.checking
    ensures s.authReady && IsAuthenticated(s) ==> !h.checking
    ensures !h.checking ==> !g.checking || (s.authReady && IsAuthenticated(s))
  {
    if !s.authReady then g.(redirectScheduled := false)
    else if !IsAuthenticated(s) then g.(redirectScheduled := true)
    else Guard(false, false)
  }

  /** The guard's state after its effect has run for each state of the
      provider in turn. */
  function RunGuard(g: Guard, states: seq<AuthState>): Guard
    decreases |states|
  {
    if |states| == 0 then g else RunGuard(GuardEffect(g, states[0]), states[1..])
  }

  /** A visitor who is never authenticated never gets past the checking
      view, however the provider's state evolves. */
  lemma {:induction false} UnauthenticatedKeepsChecking(g: Guard, states: seq<AuthState>)
    requires g.checking
    requires forall i :: 0 <= i < |states| ==> !IsAuthenticated(states[i])
    ensures RunGuard(g, states).checking
    ensures forall s :: Render(RunGuard(g, states), s) == CheckingSession
    decreases |states|
  {
    if |states| > 0 {
      UnauthenticatedKeepsChecking(GuardEffect(g, states[0]), states[1..]);
    }
  }

  /** A visitor who signs in while the redirect to the landing page is
      pending stays: the pending redirect is cancelled and the children
      are shown. */
  lemma {:induction false} SignInCancelsPendingRedirect(g: Guard, states: seq<AuthState>, token: string, user: Storage.UserRecord)
    requires token != ""
    ensures var h := RunGuard(g, states + [Login(AuthState(None, None, true), token, user)]);
            !h.redirectScheduled && !h.checking
            && Render(h, Login(AuthState(None, None, true), token, user)) == Children
    decreases |states|
  {
    var last := Login(AuthState(None, None, true), token, user);
    if |states| == 0 {
      assert states + [last] == [last];
    } else {
      assert (states + [last])[1..] == states[1..] + [last];
      SignInCancelsPendingRedirect(GuardEffect(g, states[0]), states[1..], token, user);
    }
  }

  /** A visitor whose session was restored sees the children once the
      guard's effect has run. */
  lemma RestoredSessionSeesChildren(token: string, user: Storage.UserRecord, text: string)
    requires token != "" && text != ""
    ensures var s := RestoreSession(Some(token), Some(Storage.StoredJson(text, Storage.Value(user)))).state;
            Render(GuardEffect(GuardStart, s), s) == Children
  {
  }
}
