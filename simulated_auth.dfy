/**
 * The client-side login flag: two pieces of state, `isLoggedIn` and
 * `isLoadingAuth`, mirrored to one key of the browser's key-value storage.
 * The redirect to the login page after logout is left to the router.
 */
module SimulatedAuth {
  import opened Wrappers

  const AuthKey := "pillpal_simulated_isLoggedIn"

  /** The stored flag reads as logged in only when it is exactly the text "true". */
  predicate StoredLoggedIn(storage: map<string, string>) {
    AuthKey in storage && storage[AuthKey] == "true"
  }

  /** A snapshot of the hook: its two flags and the storage it mirrors to. */
  datatype AuthState = AuthState(isLoggedIn: bool, isLoadingAuth: bool, storage: map<string, string>)

  /** The flags agree with storage. */
  predicate Synced(s: AuthState) {
    s.isLoggedIn == StoredLoggedIn(s.storage)
  }

  /** The first render, before the effect has read storage. */
  function Initial(storage: map<string, string>): (s: AuthState)
    ensures s.isLoadingAuth && !s.isLoggedIn && s.storage == storage
  {
    AuthState(false, true, storage)
  }

  /** The mount effect: read the key, then clear the loading flag. */
  function AfterInit(s: AuthState): (t: AuthState)
    ensures !t.isLoadingAuth && Synced(t) && t.storage == s.storage
  {
    AuthState(StoredLoggedIn(s.storage), false, s.storage)
  }

  /** `loginAction`: store "true" under the key and set the flag. */
  function AfterLogin(s: AuthState): (t: AuthState)
    ensures t.isLoggedIn && Synced(t) && t.isLoadingAuth == s.isLoadingAuth
    ensures t.storage == s.storage[AuthKey := "true"]
  {
    AuthState(true, s.isLoadingAuth, s.storage[AuthKey := "true"])
  }

  /** `logoutAction`: remove the key and clear the flag. */
  function AfterLogout(s: AuthState): (t: AuthState)
    ensures !t.isLoggedIn && Synced(t) && t.isLoadingAuth == s.isLoadingAuth
    ensures AuthKey !in t.storage
    ensures forall k :: k in s.storage && k != AuthKey ==> k in t.storage && t.storage[k] == s.storage[k]
    ensures forall k :: k in t.storage ==> k in s.storage
  {
    AuthState(false, s.isLoadingAuth, s.storage - {AuthKey})
  }

  lemma LoginIdempotent(s: AuthState)
    ensures AfterLogin(AfterLogin(s)) == AfterLogin(s)
  {
  }

  datatype Event = Init | Login | Logout

  function Apply(s: AuthState, e: Event): AuthState {
    match e
    case Init => AfterInit(s)
    case Login => AfterLogin(s)
    case Logout => AfterLogout(s)
  }

  /** The state after a sequence of events, in order. */
  function Run(s: AuthState, events: seq<Event>): AuthState
    decreases |events|
  {
    if events == [] then s else Run(Apply(s, events[0]), events[1..])
  }

  /** Once cleared, the loading flag never comes back, whatever happens next. */
  lemma {:induction false} LoadingNeverReturns(s: AuthState, events: seq<Event>)
    requires !s.isLoadingAuth
    ensures !Run(s, events).isLoadingAuth
    decreases |events|
  {
    if events != [] {
      LoadingNeverReturns(Apply(s, events[0]), events[1..]);
    }
  }

  /** After any event the flag agrees with storage. */
  lemma {:induction false} RunEndsSynced(s: AuthState, events: seq<Event>)
    requires events != [] || Synced(s)
    ensures Synced(Run(s, events))
    decreases |events|
  {
    if events != [] {
      RunEndsSynced(Apply(s, events[0]), events[1..]);
    }
  }

  /** Starting from the first render, the loading flag is set until the first `Init` and clear from it on. */
  lemma {:induction false} LoadingUntilInit(storage: map<string, string>, events: seq<Event>)
    ensures Run(Initial(storage), events).isLoadingAuth <==> Init !in events
  {
    LoadingUntilInitFrom(Initial(storage), events);
  }

  lemma {:induction false} LoadingUntilInitFrom(s: AuthState, events: seq<Event>)
    requires s.isLoadingAuth
    ensures Run(s, events).isLoadingAuth <==> Init !in events
    decreases |events|
  {
    if events != [] {
      if events[0] == Init {
        LoadingNeverReturns(Apply(s, events[0]), events[1..]);
      } else {
        LoadingUntilInitFrom(Apply(s, events[0]), events[1..]);
        assert Init in events <==> Init in events[1..] by {
          assert events == [events[0]] + events[1..];
        }
      }
    }
  }

  /** `useSimulatedAuth` as a stateful object: the two flags and the storage they mirror. */
  class AuthHook {
    var isLoggedIn: bool
    var isLoadingAuth: bool
    var storage: map<string, string>

    function State(): AuthState
      reads this
    {
      AuthState(isLoggedIn, isLoadingAuth, storage)
    }

    /** The first render. */
    constructor (storage: map<string, string>)
      ensures State() == Initial(storage)
    {
      isLoggedIn := false;
      isLoadingAuth := true;
      this.storage := storage;
    }

    /** The mount effect. */
    method Init()
      modifies this
      ensures State() == AfterInit(old(State()))
    {
      var storedAuthStatus := if AuthKey in storage then Some(storage[AuthKey]) else None;
      isLoggedIn := storedAuthStatus == Some("true");
      isLoadingAuth := false;
    }

    method LoginAction()
      modifies this
      ensures State() == AfterLogin(old(State()))
    {
      storage := storage[AuthKey := "true"];
      isLoggedIn := true;
    }

    method LogoutAction()
      modifies this
      ensures State() == AfterLogout(old(State()))
    {
      storage := storage - {AuthKey};
      isLoggedIn := false;
    }
  }
}
