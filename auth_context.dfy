/** The session state machine of `src/context/auth-context.tsx`: the
    reducer, its initial state, and the store that applies it. */
module AuthContext {
  import opened Common
  import opened Auth

  /** `AuthState`. */
  datatype AuthState = AuthState(user: Option<User>, token: Option<string>, isAuthenticated: bool, isLoading: bool)

  /** `AuthAction`, plus any action of another type. */
  datatype Action =
    | Login(user: User, token: string)
    | RestoreSession(user: User, token: string)
    | Logout
    | SetLoading(loading: bool)
    | Unknown

  /** `initialState`: nobody signed in, session still loading. */
  const INITIAL: AuthState := AuthState(None, None, false, true)

  /** Signed in only with both a user and a token. */
  predicate Consistent(s: AuthState) {
    s.isAuthenticated ==> s.user.Some? && s.token.Some?
  }

  /** `authReducer`. */
  function Reduce(s: AuthState, a: Action): (r: AuthState)
    ensures r.isAuthenticated <==> a.Login? || a.RestoreSession? || (!a.Logout? && s.isAuthenticated)
    ensures Consistent(s) ==> Consistent(r)
  {
    match a
    case Login(u, t) => s.(user := Some(u), token := Some(t), isAuthenticated := true, isLoading := false)
    case RestoreSession(u, t) => s.(user := Some(u), token := Some(t), isAuthenticated := true, isLoading := false)
    case Logout => AuthState(None, None, false, false)
    case SetLoading(b) => s.(isLoading := b)
    case Unknown => s
  }

  /** Logging in and restoring a session have the same effect: the
      payload's user and token, signed in, no longer loading. */
  lemma LoginIsRestore(s: AuthState, u: User, t: string)
    ensures Reduce(s, Login(u, t)) == Reduce(s, RestoreSession(u, t))
    ensures Reduce(s, Login(u, t)) == AuthState(Some(u), Some(t), true, false)
  {
  }

  /** Logging out gives one and the same state from any state, so a second
      logout changes nothing. */
  lemma LogoutIdempotent(s: AuthState, s': AuthState)
    ensures Reduce(s, Logout) == Reduce(s', Logout)
    ensures Reduce(Reduce(s, Logout), Logout) == Reduce(s, Logout)
    ensures !Reduce(s, Logout).isAuthenticated && Reduce(s, Logout).user.None?
  {
  }

  /** SET_LOADING changes only the loading flag; an unknown action changes
      nothing. */
  lemma SetLoadingOnlyLoading(s: AuthState, b: bool)
    ensures var r := Reduce(s, SetLoading(b));
            r.isLoading == b && r.user == s.user && r.token == s.token && r.isAuthenticated == s.isAuthenticated
    ensures Reduce(s, Unknown) == s
  {
  }

  /** The state after a sequence of actions. */
  function Run(s: AuthState, actions: seq<Action>): AuthState
    decreases |actions|
  {
    if actions == [] then s else Run(Reduce(s, actions[0]), actions[1..])
  }

  /** From the initial state, every sequence of actions keeps the session
      consistent. */
  lemma {:induction false} RunConsistent(s: AuthState, actions: seq<Action>)
    requires Consistent(s)
    ensures Consistent(Run(s, actions))
    decreases |actions|
  {
    if actions != [] {
      RunConsistent(Reduce(s, actions[0]), actions[1..]);
    }
  }

  lemma InitialConsistent()
    ensures Consistent(INITIAL) && INITIAL.isLoading && !INITIAL.isAuthenticated
    ensures forall actions :: Consistent(Run(INITIAL, actions))
  {
    forall actions ensures Consistent(Run(INITIAL, actions)) {
      RunConsistent(INITIAL, actions);
    }
  }

  /** The `useReducer` store: its fields are the current state and
      `Dispatch` replaces them with the reducer's result. */
  class AuthStore {
    var user: Option<User>
    var token: Option<string>
    var isAuthenticated: bool
    var isLoading: bool

    function State(): AuthState
      reads this
    {
      AuthState(user, token, isAuthenticated, isLoading)
    }

    constructor ()
      ensures State() == INITIAL
    {
      user, token, isAuthenticated, isLoading := None, None, false, true;
    }

    method Dispatch(a: Action)
      modifies this
      ensures State() == Reduce(old(State()), a)
    {
      match a
      case Login(u, t) =>
        user, token, isAuthenticated, isLoading := Some(u), Some(t), true, false;
      case RestoreSession(u, t) =>
        user, token, isAuthenticated, isLoading := Some(u), Some(t), true, false;
      case Logout =>
        user, token, isAuthenticated, isLoading := None, None, false, false;
      case SetLoading(b) =>
        isLoading := b;
      case Unknown =>
    }
  }
}
