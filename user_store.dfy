/**
 * The persisted session store (src/stores/userStore.ts): four fields that
 * change only through `setUser`, `setToken`, `login`, `logout` and
 * `setLoading`, a projection `partialize` of what is saved, and start-up:
 * the `persist` middleware restores the saved fields when the store is
 * created, and then the module's own block (lines 63-85) reads the same
 * storage key once more.
 *
 * Each action is specified by a function on `SessionState`; the class's
 * methods are proved to perform exactly that transition.
 */
module UserStore {
  import opened Wrappers

  /** The frontend user role, `'admin' | 'user'`. */
  datatype Role = Admin | Member

  /** The frontend `User` record. */
  datatype User = User(id: string, name: string, email: string, role: Role)

  /** The store's four data fields, as a value. */
  datatype SessionState = SessionState(
    user: Option<User>,
    token: Option<string>,
    isAuthenticated: bool,
    isLoading: bool)

  /** What `partialize` selects for durable storage. */
  datatype Snapshot = Snapshot(user: Option<User>, token: Option<string>, isAuthenticated: bool)

  /**
   * The start-up read of the storage key: nothing stored (or the empty
   * string), a stored text that `JSON.parse` rejects, or a parsed snapshot.
   */
  datatype StoredEntry = Absent | Unparseable | Parsed(snapshot: Snapshot)

  /** JavaScript truthiness of an optional string: present and not "". */
  predicate Truthy(s: Option<string>) {
    s.Some? && s.value != ""
  }

  /** The store's state before any action: logged out and loading. */
  const Initial := SessionState(None, None, false, true)

  /** The invariant `login` and `logout` establish (lines 35-47): authenticated iff both user and token are present. */
  predicate Consistent(s: SessionState) {
    s.isAuthenticated <==> (s.user.Some? && s.token.Some?)
  }

  // ---------------------------------------------------------------------
  // The actions, as transitions on values

  function SetUserOf(s: SessionState, u: Option<User>): SessionState {
    s.(user := u)
  }

  function SetTokenOf(s: SessionState, t: Option<string>): SessionState {
    s.(token := t)
  }

  function LoginOf(s: SessionState, u: User, t: string): SessionState {
    SessionState(Some(u), Some(t), true, false)
  }

  function LogoutOf(s: SessionState): SessionState {
    SessionState(None, None, false, false)
  }

  function SetLoadingOf(s: SessionState, b: bool): SessionState {
    s.(isLoading := b)
  }

  /** `partialize`: the persisted projection. */
  function Persist(s: SessionState): Snapshot {
    Snapshot(s.user, s.token, s.isAuthenticated)
  }

  /**
   * The `persist` middleware's hydration when the store is created: the
   * three saved fields of a parsed entry are copied verbatim over the initial
   * state; an absent or unparseable entry leaves the state alone.
   */
  function MiddlewareHydrated(prior: SessionState, e: StoredEntry): SessionState {
    match e
    case Parsed(snap) => prior.(user := snap.user, token := snap.token, isAuthenticated := snap.isAuthenticated)
    case Unparseable => prior
    case Absent => prior
  }

  /**
   * The start-up block of lines 63-85 on its own: a parsed snapshot whose
   * `state.user` and `state.token` are both truthy restores user, token and
   * (verbatim) isAuthenticated; every other case only clears the loading flag.
   */
  function Rehydrated(prior: SessionState, e: StoredEntry): SessionState {
    match e
    case Parsed(snap) =>
      if snap.user.Some? && Truthy(snap.token) then
        SessionState(snap.user, snap.token, snap.isAuthenticated, false)
      else
        prior.(isLoading := false)
    case Unparseable => prior.(isLoading := false)
    case Absent => prior.(isLoading := false)
  }

  /** One store action, for reasoning about sequences of them. */
  datatype Action =
    | SetUser(u: Option<User>)
    | SetToken(t: Option<string>)
    | Login(lu: User, lt: string)
    | Logout
    | SetLoading(b: bool)

  function Step(s: SessionState, a: Action): SessionState {
    match a
    case SetUser(u) => SetUserOf(s, u)
    case SetToken(t) => SetTokenOf(s, t)
    case Login(u, t) => LoginOf(s, u, t)
    case Logout => LogoutOf(s)
    case SetLoading(b) => SetLoadingOf(s, b)
  }

  function Run(s: SessionState, actions: seq<Action>): SessionState
    decreases |actions|
  {
    if actions == [] then s else Run(Step(s, actions[0]), actions[1..])
  }

  /** The actions for which the invariant is promised. */
  predicate Guarded(a: Action) {
    a.Login? || a.Logout? || a.SetLoading?
  }

  // ---------------------------------------------------------------------
  // Properties of the actions

  /** `login`, `logout` and `setLoading` each preserve the invariant. */
  lemma GuardedStepPreservesConsistent(s: SessionState, a: Action)
    requires Consistent(s) && Guarded(a)
    ensures Consistent(Step(s, a))
  {
  }

  /** Any sequence of `login`/`logout`/`setLoading` calls keeps the invariant after every call. */
  lemma {:induction false} GuardedRunPreservesConsistent(s: SessionState, actions: seq<Action>)
    requires Consistent(s)
    requires forall i :: 0 <= i < |actions| ==> Guarded(actions[i])
    ensures Consistent(Run(s, actions))
    decreases |actions|
  {
    if actions != [] {
      GuardedStepPreservesConsistent(s, actions[0]);
      GuardedRunPreservesConsistent(Step(s, actions[0]), actions[1..]);
    }
  }

  /** `setUser` alone can break the invariant: clearing the user of a logged-in session. */
  lemma SetUserCanBreakConsistent(u: User, t: string)
    ensures Consistent(LoginOf(Initial, u, t))
    ensures !Consistent(SetUserOf(LoginOf(Initial, u, t), None))
  {
  }

  /** `setToken` alone can break the invariant: clearing the token of a logged-in session. */
  lemma SetTokenCanBreakConsistent(u: User, t: string)
    ensures Consistent(LoginOf(Initial, u, t))
    ensures !Consistent(SetTokenOf(LoginOf(Initial, u, t), None))
  {
  }

  /** `logout` is idempotent and its result does not depend on the prior state. */
  lemma LogoutIdempotent(s: SessionState, s': SessionState)
    ensures LogoutOf(LogoutOf(s)) == LogoutOf(s) == LogoutOf(s')
  {
  }

  /** The snapshot never records the loading flag, and records the other three fields exactly. */
  lemma PersistIgnoresLoading(s: SessionState, s': SessionState)
    ensures Persist(s) == Persist(s') <==>
      (s.user == s'.user && s.token == s'.token && s.isAuthenticated == s'.isAuthenticated)
  {
  }

  /** Every rehydration branch ends with the loading flag cleared. */
  lemma RehydrationEndsLoading(prior: SessionState, e: StoredEntry)
    ensures !Rehydrated(prior, e).isLoading
  {
  }

  /**
   * Round trip: saving a session that has a user and a non-empty token and
   * rehydrating from that snapshot restores the three saved fields.
   */
  lemma PersistRehydrateRoundTrip(prior: SessionState, s: SessionState)
    requires s.user.Some? && Truthy(s.token)
    ensures Rehydrated(prior, Parsed(Persist(s))) == s.(isLoading := false)
  {
  }

  /**
   * The start-up block alone, applied to the initial state: a snapshot
   * without a user, or without a truthy token, restores nothing through it.
   */
  lemma IncompleteSnapshotStaysLoggedOut(snap: Snapshot)
    requires snap.user.None? || !Truthy(snap.token)
    ensures Rehydrated(Initial, Parsed(snap)) == SessionState(None, None, false, false)
  {
  }

  /**
   * A session logged in with the empty token (what `AuthProvider.login`
   * commits when the response has no token) is authenticated, but the
   * start-up block alone would not restore it: the empty token is falsy.
   */
  lemma EmptyTokenSessionNotRestored(u: User)
    ensures LoginOf(Initial, u, "").isAuthenticated
    ensures Rehydrated(Initial, Parsed(Persist(LoginOf(Initial, u, "")))) == LogoutOf(Initial)
  {
  }

  /** Rehydrating from a consistent session's own snapshot gives a consistent state. */
  lemma RehydrateFromConsistentSnapshot(prior: SessionState, s: SessionState)
    requires Consistent(prior) && Consistent(s)
    ensures Consistent(Rehydrated(prior, Parsed(Persist(s))))
  {
  }

  /**
   * `isAuthenticated` is copied verbatim, so a stored snapshot with a user
   * and a token but `isAuthenticated: false` rehydrates to an inconsistent state.
   */
  lemma RehydrateCopiesAuthenticatedVerbatim(u: User)
    ensures !Consistent(Rehydrated(Initial, Parsed(Snapshot(Some(u), Some("t"), false))))
  {
  }

  /**
   * The whole start-up, middleware first: every parsed snapshot comes back
   * verbatim, whatever its token and however its `isAuthenticated` relates to
   * user and token; the block's truthiness test decides only the loading flag.
   */
  lemma StartupRestoresSnapshotVerbatim(snap: Snapshot)
    ensures Rehydrated(MiddlewareHydrated(Initial, Parsed(snap)), Parsed(snap))
         == SessionState(snap.user, snap.token, snap.isAuthenticated, false)
  {
  }

  /** With nothing usable stored, the whole start-up ends logged out and not loading. */
  lemma StartupWithoutSnapshotLoggedOut(e: StoredEntry)
    requires !e.Parsed?
    ensures Rehydrated(MiddlewareHydrated(Initial, e), e) == SessionState(None, None, false, false)
  {
  }

  /**
   * So the session of `EmptyTokenSessionNotRestored`, and an inconsistent
   * saved session, do survive the whole start-up.
   */
  lemma StartupKeepsEmptyTokenAndInconsistentSessions(u: User)
    ensures var s := LoginOf(Initial, u, "");
      Rehydrated(MiddlewareHydrated(Initial, Parsed(Persist(s))), Parsed(Persist(s))) == s
    ensures var snap := Snapshot(None, Some("x"), true);
      !Consistent(Rehydrated(MiddlewareHydrated(Initial, Parsed(snap)), Parsed(snap)))
  {
    StartupRestoresSnapshotVerbatim(Persist(LoginOf(Initial, u, "")));
    StartupRestoresSnapshotVerbatim(Snapshot(None, Some("x"), true));
  }

  // ---------------------------------------------------------------------
  // The store object

  class SessionStore {
    var user: Option<User>
    var token: Option<string>
    var isAuthenticated: bool
    var isLoading: bool

    /** The four fields as a value. */
    function State(): SessionState
      reads this
    {
      SessionState(user, token, isAuthenticated, isLoading)
    }

    /** The store's initial state (userStore.ts lines 26-29). */
    constructor ()
      ensures State() == Initial
    {
      user, token, isAuthenticated, isLoading := None, None, false, true;
    }

    method SetUser(u: Option<User>)
      modifies this
      ensures State() == SetUserOf(old(State()), u)
    {
      user := u;
    }

    method SetToken(t: Option<string>)
      modifies this
      ensures State() == SetTokenOf(old(State()), t)
    {
      token := t;
    }

    method Login(u: User, t: string)
      modifies this
      ensures State() == LoginOf(old(State()), u, t)
      ensures Consistent(State())
    {
      user, token, isAuthenticated, isLoading := Some(u), Some(t), true, false;
    }

    method Logout()
      modifies this
      ensures State() == LogoutOf(old(State()))
      ensures Consistent(State())
    {
      user, token, isAuthenticated, isLoading := None, None, false, false;
    }

    method SetLoading(b: bool)
      modifies this
      ensures State() == SetLoadingOf(old(State()), b)
      ensures old(Consistent(State())) ==> Consistent(State())
    {
      isLoading := b;
    }

    /** `partialize`: exactly user, token and isAuthenticated, never isLoading. */
    function Partialize(): (snap: Snapshot)
      reads this
      ensures snap == Persist(State())
    {
      Snapshot(user, token, isAuthenticated)
    }

    /** The `persist` middleware's hydration from the stored entry. */
    method HydrateFromStorage(e: StoredEntry)
      modifies this
      ensures State() == MiddlewareHydrated(old(State()), e)
    {
      if e.Parsed? {
        user, token, isAuthenticated := e.snapshot.user, e.snapshot.token, e.snapshot.isAuthenticated;
      }
    }

    /** One branch of the start-up block, applied to this store through `setState`. */
    method Rehydrate(e: StoredEntry)
      modifies this
      ensures State() == Rehydrated(old(State()), e)
      ensures !isLoading
    {
      match e {
        case Parsed(snap) =>
          if snap.user.Some? && Truthy(snap.token) {
            user, token, isAuthenticated, isLoading := snap.user, snap.token, snap.isAuthenticated, false;
          } else {
            isLoading := false;
          }
        case Unparseable =>
          isLoading := false;
        case Absent =>
          isLoading := false;
      }
    }
  }

  /**
   * Module start-up: the store is created and hydrated by the middleware,
   * then the start-up block reads the same entry once.  A parsed snapshot is
   * restored verbatim; otherwise the store ends logged out; never loading.
   */
  method Startup(e: StoredEntry) returns (store: SessionStore)
    ensures fresh(store)
    ensures store.State() == Rehydrated(MiddlewareHydrated(Initial, e), e)
    ensures e.Parsed? ==> store.State() == SessionState(e.snapshot.user, e.snapshot.token, e.snapshot.isAuthenticated, false)
    ensures !e.Parsed? ==> store.State() == SessionState(None, None, false, false)
  {
    store := new SessionStore();
    store.HydrateFromStorage(e);
    store.Rehydrate(e);
  }
}
