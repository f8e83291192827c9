/** The identity gate (`AuthContext.tsx`): a provider holding the current user
    and a loading flag. The identity service's credential checks are not part
    of this model; it is reduced to the callback it delivers and the sign-out
    request it receives. */
module Auth {
  import opened Store

  /** A signed-in account, as the identity service reports it. */
  type User = string

  datatype AuthState = AuthState(user: Option<User>, loading: bool)

  /** The provider's initial state, and also the context's default value. */
  const InitialAuth: AuthState := AuthState(None, true)

  /** `onAuthStateChanged` callback: the reported user, and loading is over. */
  function OnAuthChange(s: AuthState, reported: Option<User>): AuthState
  {
    AuthState(reported, false)
  }

  /** The state after a sequence of callbacks. */
  function Replay(s: AuthState, reports: seq<Option<User>>): AuthState
    decreases |reports|
  {
    if reports == [] then s else Replay(OnAuthChange(s, reports[0]), reports[1..])
  }

  /** `{!loading && children}`. */
  predicate RendersChildren(s: AuthState)
  {
    !s.loading
  }

  /** The page derives edit mode as `!!user`. */
  predicate EditMode(s: AuthState)
  {
    s.user.Some?
  }

  /** After at least one callback the provider has settled on the last
      reported user. */
  lemma {:induction false} ReplaySettles(s: AuthState, reports: seq<Option<User>>)
    requires |reports| > 0
    ensures Replay(s, reports) == AuthState(reports[|reports| - 1], false)
    decreases |reports|
  {
    if |reports| > 1 {
      ReplaySettles(OnAuthChange(s, reports[0]), reports[1..]);
    }
  }

  /** Once loading is over it never comes back. */
  lemma {:induction false} LoadingNeverReturns(s: AuthState, reports: seq<Option<User>>)
    requires !s.loading
    ensures !Replay(s, reports).loading
    decreases |reports|
  {
    if reports != [] {
      LoadingNeverReturns(OnAuthChange(s, reports[0]), reports[1..]);
    }
  }

  /** From the initial state, the provider is still loading exactly when no
      callback has arrived, and then it has no user: nothing owner-only can
      be shown before the first identity check resolves. */
  lemma {:induction false} LoadingMeansNoCallbackYet(reports: seq<Option<User>>)
    ensures Replay(InitialAuth, reports).loading <==> reports == []
    ensures Replay(InitialAuth, reports).loading ==> !EditMode(Replay(InitialAuth, reports)) && !RendersChildren(Replay(InitialAuth, reports))
  {
    if reports != [] {
      ReplaySettles(InitialAuth, reports);
    }
  }

  /** The identity service, as far as the provider touches it. */
  class IdentityService {
    var current: Option<User>

    constructor (current: Option<User>)
      ensures this.current == current
    {
      this.current := current;
    }

    /** `signOut(auth)`. */
    method SignOut()
      modifies this
      ensures current == None
    {
      current := None;
    }
  }

  class AuthProvider {
    const auth: IdentityService
    var user: Option<User>
    var loading: bool
    /** Whether the `onAuthStateChanged` subscription is live. */
    var subscribed: bool

    function State(): AuthState
      reads this
    {
      AuthState(user, loading)
    }

    /** Mount: no user, loading, subscribed to identity changes. */
    constructor (auth: IdentityService)
      ensures State() == InitialAuth && subscribed && this.auth == auth
    {
      this.auth := auth;
      user := None;
      loading := true;
      subscribed := true;
    }

    /** The identity service reports `reported`; a report after unmounting
        reaches no subscriber. */
    method OnAuthStateChanged(reported: Option<User>)
      modifies this
      ensures State() == if old(subscribed) then OnAuthChange(old(State()), reported) else old(State())
      ensures subscribed == old(subscribed)
    {
      if subscribed {
        user := reported;
        loading := false;
      }
    }

    /** `logout` only asks the identity service to sign out; the provider's
        own user changes only when the service calls back. */
    method Logout()
      modifies auth
      ensures auth.current == None
      ensures State() == old(State())
    {
      auth.SignOut();
    }

    /** Unmount releases the subscription. */
    method Unmount()
      modifies this
      ensures !subscribed && State() == old(State())
    {
      subscribed := false;
    }

    function ShowsChildren(): (shown: bool)
      reads this
      ensures shown <==> !loading
    {
      RendersChildren(State())
    }
  }
}
