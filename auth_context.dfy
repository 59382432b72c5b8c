/**
 * The authentication provider of context/AuthContext.tsx.
 *
 * The provider owns three state cells (isAuthenticated, isLoading, user)
 * and reads and writes one persistent slot, the AsyncStorage key 'user'.
 * The slot is modelled as an Option<User>; JSON encoding and decoding of the
 * record are taken to be inverse, so the slot holds the record itself.
 * Whether an AsyncStorage call fails is a parameter of each operation.
 *
 * Every operation is specified as the sequence of writes it performs, in
 * program order (LoginEffects, ...), and Apply gives the state those writes
 * produce.  The class AuthProvider performs the writes one by one and records
 * them in a ghost trace.
 */
module AuthContext {
  import opened Wrappers

  datatype User = User(id: string, name: string, username: string, email: string)

  /** The provider's state cells together with the persisted 'user' slot. */
  datatype AuthState = AuthState(
    isAuthenticated: bool,
    isLoading: bool,
    user: Option<User>,
    stored: Option<User>)

  /** One write, as the provider performs it. */
  datatype Effect =
    | SetLoading(loading: bool)          // setIsLoading
    | SetUser(newUser: Option<User>)     // setUser
    | SetAuthenticated(auth: bool)       // setIsAuthenticated
    | WriteStore(slot: Option<User>)     // a setItem / removeItem of 'user' that succeeded

  /** How an awaited operation settles for its caller: resolved, or rejected with the storage error. */
  datatype Completion = Resolved | Rejected

  /** The storage key the provider uses. */
  const StorageKey: string := "user"

  /** The identifier every mock login and registration assigns. */
  const MockId: string := "1"

  /** A single setter: it changes its own cell and no other. */
  function Step(s: AuthState, e: Effect): (r: AuthState)
    ensures e.SetLoading? ==> r.isLoading == e.loading
    ensures e.SetUser? ==> r.user == e.newUser
    ensures e.SetAuthenticated? ==> r.isAuthenticated == e.auth
    ensures e.WriteStore? ==> r.stored == e.slot
    ensures !e.SetLoading? ==> r.isLoading == s.isLoading
    ensures !e.SetUser? ==> r.user == s.user
    ensures !e.SetAuthenticated? ==> r.isAuthenticated == s.isAuthenticated
    ensures !e.WriteStore? ==> r.stored == s.stored
  {
    match e
    case SetLoading(b) => s.(isLoading := b)
    case SetUser(u) => s.(user := u)
    case SetAuthenticated(b) => s.(isAuthenticated := b)
    case WriteStore(slot) => s.(stored := slot)
  }

  /** The state reached by performing the writes `es` in order from `s`. */
  function Apply(s: AuthState, es: seq<Effect>): (r: AuthState)
    ensures (forall i :: 0 <= i < |es| ==> !es[i].WriteStore?) ==> r.stored == s.stored
    ensures (forall i :: 0 <= i < |es| ==> !es[i].SetUser?) ==> r.user == s.user
    ensures (forall i :: 0 <= i < |es| ==> !es[i].SetAuthenticated?) ==> r.isAuthenticated == s.isAuthenticated
    ensures (forall i :: 0 <= i < |es| ==> !es[i].SetLoading?) ==> r.isLoading == s.isLoading
    ensures |es| > 0 && es[|es| - 1].SetLoading? ==> r.isLoading == es[|es| - 1].loading
    decreases |es|
  {
    if es == [] then s else Apply(Step(s, es[0]), es[1..])
  }

  // Unfolding Apply on the short write sequences of the operations.

  lemma ApplyCons1(s: AuthState, e1: Effect)
    ensures Apply(s, [e1]) == Step(s, e1)
  {
  }

  lemma ApplyCons2(s: AuthState, e1: Effect, e2: Effect)
    ensures Apply(s, [e1, e2]) == Step(Step(s, e1), e2)
  {
    assert [e1, e2][1..] == [e2];
    ApplyCons1(Step(s, e1), e2);
  }

  lemma ApplyCons3(s: AuthState, e1: Effect, e2: Effect, e3: Effect)
    ensures Apply(s, [e1, e2, e3]) == Step(Step(Step(s, e1), e2), e3)
  {
    assert [e1, e2, e3][1..] == [e2, e3];
    ApplyCons2(Step(s, e1), e2, e3);
  }

  lemma ApplyCons5(s: AuthState, e1: Effect, e2: Effect, e3: Effect, e4: Effect, e5: Effect)
    ensures Apply(s, [e1, e2, e3, e4, e5]) == Step(Step(Step(Step(Step(s, e1), e2), e3), e4), e5)
  {
    assert [e1, e2, e3, e4, e5][1..] == [e2, e3, e4, e5];
    assert [e2, e3, e4, e5][1..] == [e3, e4, e5];
    ApplyCons3(Step(Step(s, e1), e2), e3, e4, e5);
  }

  // ----- the provider's invariants -----

  /** A user is present exactly when the provider reports itself authenticated. */
  ghost predicate SessionConsistent(s: AuthState)
  {
    s.user.Some? <==> s.isAuthenticated
  }

  /** A signed-in user is always the record held in the persistent slot. */
  ghost predicate Persisted(s: AuthState)
  {
    s.user.Some? ==> s.stored == s.user
  }

  ghost predicate Valid(s: AuthState)
  {
    SessionConsistent(s) && Persisted(s)
  }

  /** The state right after the provider mounts, with `stored` in the slot. */
  function InitialState(stored: Option<User>): (s: AuthState)
    ensures !s.isAuthenticated && s.isLoading && s.user == None
    ensures s.stored == stored
    ensures Valid(s)
  {
    AuthState(false, true, None, stored)
  }

  // ----- the four transitions, as write sequences -----

  /**
   * checkAuthStatus: read the slot; a record found there becomes the user.
   * A failed read (getItem or JSON.parse throwing) is logged and swallowed.
   * isLoading is cleared in `finally`.
   */
  function BootstrapEffects(stored: Option<User>, readFails: bool): (es: seq<Effect>)
    ensures EndsNotLoading(es)
    ensures forall i :: 0 <= i < |es| ==> !es[i].WriteStore?
    ensures (exists i :: 0 <= i < |es| && es[i].SetUser?) <==> !readFails && stored.Some?
    ensures forall i :: 0 <= i < |es| && es[i].SetUser? ==> es[i].newUser == stored
  {
    if !readFails && stored.Some? then
      var es := [SetUser(stored), SetAuthenticated(true), SetLoading(false)];
      assert es[0].SetUser?;
      es
    else
      [SetLoading(false)]
  }

  /** The record a mock login produces: only the username comes from the caller. */
  function LoginUser(username: string): (u: User)
    ensures u.username == username
    ensures u.id == MockId && u.name == "John Doe" && u.email == "john.doe@example.com"
  {
    User(MockId, "John Doe", username, "john.doe@example.com")
  }

  /** The record a mock registration produces: every field but the id comes from the caller. */
  function RegisteredUser(name: string, username: string, email: string): (u: User)
    ensures u.id == MockId && u.name == name && u.username == username && u.email == email
  {
    User(MockId, name, username, email)
  }

  /**
   * The writes of an operation that persists `u` and then signs it in: the
   * slot is written before the state cells; a failed setItem skips both
   * state writes and goes straight to `finally`.
   */
  function SignInEffects(u: User, writeFails: bool): (es: seq<Effect>)
    ensures |es| > 0 && es[0] == SetLoading(true)
    ensures EndsNotLoading(es)
    ensures forall i :: 0 <= i < |es| && es[i].SetUser? ==> es[i].newUser == Some(u)
    ensures forall i :: 0 <= i < |es| && es[i].WriteStore? ==> es[i].slot == Some(u)
    ensures (exists i :: 0 <= i < |es| && es[i].SetUser?) <==> !writeFails
  {
    if writeFails then
      [SetLoading(true), SetLoading(false)]
    else
      var es := [SetLoading(true), WriteStore(Some(u)), SetUser(Some(u)), SetAuthenticated(true), SetLoading(false)];
      assert es[2].SetUser?;
      es
  }

  /** login(username, password); the password is never looked at. */
  function LoginEffects(username: string, password: string, writeFails: bool): (es: seq<Effect>)
    ensures forall i :: 0 <= i < |es| && es[i].SetUser? ==>
      es[i].newUser == Some(User(MockId, "John Doe", username, "john.doe@example.com"))
    ensures (exists i :: 0 <= i < |es| && es[i].SetUser?) <==> !writeFails
  {
    SignInEffects(LoginUser(username), writeFails)
  }

  /** register(name, username, email, password); the password is never looked at. */
  function RegisterEffects(name: string, username: string, email: string, password: string,
                           writeFails: bool): (es: seq<Effect>)
    ensures forall i :: 0 <= i < |es| && es[i].SetUser? ==>
      es[i].newUser == Some(User(MockId, name, username, email))
    ensures (exists i :: 0 <= i < |es| && es[i].SetUser?) <==> !writeFails
  {
    SignInEffects(RegisteredUser(name, username, email), writeFails)
  }

  /** logout(): remove the slot, then clear the state cells; a failed removeItem is swallowed. */
  function LogoutEffects(removeFails: bool): (es: seq<Effect>)
    ensures |es| > 0 && es[0] == SetLoading(true)
    ensures EndsNotLoading(es)
    ensures forall i :: 0 <= i < |es| && es[i].SetUser? ==> es[i].newUser == None
    ensures forall i :: 0 <= i < |es| && es[i].WriteStore? ==> es[i].slot == None
    ensures (exists i :: 0 <= i < |es| && es[i].SetUser?) <==> !removeFails
  {
    if removeFails then
      [SetLoading(true), SetLoading(false)]
    else
      var es := [SetLoading(true), WriteStore(None), SetUser(None), SetAuthenticated(false), SetLoading(false)];
      assert es[2].SetUser?;
      es
  }

  /** login and register rethrow the storage error (`catch { throw error }`). */
  function SignInCompletion(writeFails: bool): (c: Completion)
    ensures c == Rejected <==> writeFails
  {
    if writeFails then Rejected else Resolved
  }

  /** logout swallows the storage error: its promise always resolves. */
  function LogoutCompletion(removeFails: bool): (c: Completion)
    ensures c == Resolved
  {
    Resolved
  }

  // ----- what each transition does -----

  lemma {:induction false} BootstrapOutcome(s: AuthState, readFails: bool)
    ensures var t := Apply(s, BootstrapEffects(s.stored, readFails));
      !t.isLoading && t.stored == s.stored &&
      (if !readFails && s.stored.Some? then t.user == s.stored && t.isAuthenticated
       else t.user == s.user && t.isAuthenticated == s.isAuthenticated)
  {
    var es := BootstrapEffects(s.stored, readFails);
    if !readFails && s.stored.Some? {
      ApplyCons3(s, SetUser(s.stored), SetAuthenticated(true), SetLoading(false));
    } else {
      ApplyCons1(s, SetLoading(false));
    }
  }

  lemma {:induction false} SignInOutcome(s: AuthState, u: User, writeFails: bool)
    ensures var t := Apply(s, SignInEffects(u, writeFails));
      !t.isLoading &&
      (if writeFails then t == s.(isLoading := false)
       else t.user == Some(u) && t.isAuthenticated && t.stored == Some(u))
  {
    if writeFails {
      ApplyCons2(s, SetLoading(true), SetLoading(false));
    } else {
      ApplyCons5(s, SetLoading(true), WriteStore(Some(u)), SetUser(Some(u)), SetAuthenticated(true),
                 SetLoading(false));
    }
  }

  /** A successful login signs in the mock user carrying the given username; a failed one changes nothing but isLoading. */
  lemma LoginOutcome(s: AuthState, username: string, password: string, writeFails: bool)
    ensures var t := Apply(s, LoginEffects(username, password, writeFails));
      !t.isLoading &&
      (if writeFails then t == s.(isLoading := false)
       else t.isAuthenticated && t.user == Some(User("1", "John Doe", username, "john.doe@example.com"))
            && t.stored == t.user)
  {
    SignInOutcome(s, LoginUser(username), writeFails);
  }

  /** The password has no influence on what login does. */
  lemma LoginIgnoresPassword(username: string, p1: string, p2: string, writeFails: bool)
    ensures LoginEffects(username, p1, writeFails) == LoginEffects(username, p2, writeFails)
  {
  }

  /** A successful registration signs in a record built exactly from the arguments. */
  lemma RegisterOutcome(s: AuthState, name: string, username: string, email: string, password: string,
                        writeFails: bool)
    ensures var t := Apply(s, RegisterEffects(name, username, email, password, writeFails));
      !t.isLoading &&
      (if writeFails then t == s.(isLoading := false)
       else t.isAuthenticated && t.user == Some(User("1", name, username, email)) && t.stored == t.user)
  {
    SignInOutcome(s, RegisteredUser(name, username, email), writeFails);
  }

  /** A successful logout clears slot and session; a failed one keeps both as they were. */
  lemma {:induction false} LogoutOutcome(s: AuthState, removeFails: bool)
    ensures var t := Apply(s, LogoutEffects(removeFails));
      !t.isLoading &&
      (if removeFails then t == s.(isLoading := false)
       else t.user == None && !t.isAuthenticated && t.stored == None)
  {
    if removeFails {
      ApplyCons2(s, SetLoading(true), SetLoading(false));
    } else {
      ApplyCons5(s, SetLoading(true), WriteStore(None), SetUser(None), SetAuthenticated(false),
                 SetLoading(false));
    }
  }

  // ----- invariants preserved -----

  lemma BootstrapPreservesValid(s: AuthState, readFails: bool)
    requires Valid(s)
    ensures Valid(Apply(s, BootstrapEffects(s.stored, readFails)))
  {
    BootstrapOutcome(s, readFails);
  }

  lemma LoginPreservesValid(s: AuthState, username: string, password: string, writeFails: bool)
    requires Valid(s)
    ensures Valid(Apply(s, LoginEffects(username, password, writeFails)))
  {
    LoginOutcome(s, username, password, writeFails);
  }

  lemma RegisterPreservesValid(s: AuthState, name: string, username: string, email: string,
                               password: string, writeFails: bool)
    requires Valid(s)
    ensures Valid(Apply(s, RegisterEffects(name, username, email, password, writeFails)))
  {
    RegisterOutcome(s, name, username, email, password, writeFails);
  }

  lemma LogoutPreservesValid(s: AuthState, removeFails: bool)
    requires Valid(s)
    ensures Valid(Apply(s, LogoutEffects(removeFails)))
  {
    LogoutOutcome(s, removeFails);
  }

  // ----- ordering of the writes -----

  /**
   * The persistent slot is written before either session cell: every write
   * of the user cell is preceded, in the same operation, by a write of the
   * same value to the slot, and every write of isAuthenticated by some
   * write to the slot.
   */
  ghost predicate StoreBeforeState(es: seq<Effect>)
  {
    (forall j :: 0 <= j < |es| && es[j].SetUser? ==>
       exists i :: 0 <= i < j && es[i] == WriteStore(es[j].newUser)) &&
    (forall j :: 0 <= j < |es| && es[j].SetAuthenticated? ==>
       exists i :: 0 <= i < j && es[i].WriteStore?)
  }

  /** Only isLoading is written: what an operation whose storage call failed does. */
  ghost predicate OnlyLoadingWrites(es: seq<Effect>)
  {
    forall i :: 0 <= i < |es| ==> es[i].SetLoading?
  }

  /** The last write of every operation clears isLoading (the `finally` blocks). */
  ghost predicate EndsNotLoading(es: seq<Effect>)
  {
    |es| > 0 && es[|es| - 1] == SetLoading(false)
  }

  lemma SignInWritesStoreFirst(u: User, writeFails: bool)
    ensures StoreBeforeState(SignInEffects(u, writeFails))
    ensures EndsNotLoading(SignInEffects(u, writeFails))
    ensures writeFails ==> OnlyLoadingWrites(SignInEffects(u, writeFails))
  {
    var es := SignInEffects(u, writeFails);
    if !writeFails {
      forall j | 0 <= j < |es| && es[j].SetUser?
        ensures exists i :: 0 <= i < j && es[i] == WriteStore(es[j].newUser)
      {
        assert j == 2 && es[1] == WriteStore(es[j].newUser);
      }
      forall j | 0 <= j < |es| && es[j].SetAuthenticated?
        ensures exists i :: 0 <= i < j && es[i].WriteStore?
      {
        assert j == 3 && es[1].WriteStore?;
      }
    }
  }

  lemma LoginWritesStoreFirst(username: string, password: string, writeFails: bool)
    ensures StoreBeforeState(LoginEffects(username, password, writeFails))
    ensures EndsNotLoading(LoginEffects(username, password, writeFails))
    ensures writeFails ==> OnlyLoadingWrites(LoginEffects(username, password, writeFails))
  {
    SignInWritesStoreFirst(LoginUser(username), writeFails);
  }

  lemma RegisterWritesStoreFirst(name: string, username: string, email: string, password: string,
                                 writeFails: bool)
    ensures StoreBeforeState(RegisterEffects(name, username, email, password, writeFails))
    ensures EndsNotLoading(RegisterEffects(name, username, email, password, writeFails))
    ensures writeFails ==> OnlyLoadingWrites(RegisterEffects(name, username, email, password, writeFails))
  {
    SignInWritesStoreFirst(RegisteredUser(name, username, email), writeFails);
  }

  lemma LogoutWritesStoreFirst(removeFails: bool)
    ensures StoreBeforeState(LogoutEffects(removeFails))
    ensures EndsNotLoading(LogoutEffects(removeFails))
    ensures removeFails ==> OnlyLoadingWrites(LogoutEffects(removeFails))
  {
    var es := LogoutEffects(removeFails);
    if !removeFails {
      forall j | 0 <= j < |es| && es[j].SetUser?
        ensures exists i :: 0 <= i < j && es[i] == WriteStore(es[j].newUser)
      {
        assert j == 2 && es[1] == WriteStore(es[j].newUser);
      }
      forall j | 0 <= j < |es| && es[j].SetAuthenticated?
        ensures exists i :: 0 <= i < j && es[i].WriteStore?
      {
        assert j == 3 && es[1].WriteStore?;
      }
    }
  }

  // ----- round trip through the persistent slot -----

  /**
   * Whoever is signed in when the application stops is signed in again,
   * with the same record, after it restarts and the bootstrap read succeeds.
   */
  lemma RestartRestoresUser(s: AuthState)
    requires Valid(s) && s.user.Some?
    ensures var t := Apply(InitialState(s.stored), BootstrapEffects(s.stored, false));
      t.user == s.user && t.isAuthenticated && !t.isLoading
  {
    BootstrapOutcome(InitialState(s.stored), false);
  }

  /** Bootstrap after a successful login restores the logged-in record. */
  lemma LoginSurvivesRestart(s: AuthState, username: string, password: string)
    ensures var t := Apply(s, LoginEffects(username, password, false));
      var r := Apply(InitialState(t.stored), BootstrapEffects(t.stored, false));
      r.user == Some(LoginUser(username)) && r.isAuthenticated
  {
    var t := Apply(s, LoginEffects(username, password, false));
    LoginOutcome(s, username, password, false);
    RestartRestoresUser(t);
  }

  /** Bootstrap after a successful registration restores the registered record. */
  lemma RegisterSurvivesRestart(s: AuthState, name: string, username: string, email: string,
                                password: string)
    ensures var t := Apply(s, RegisterEffects(name, username, email, password, false));
      var r := Apply(InitialState(t.stored), BootstrapEffects(t.stored, false));
      r.user == Some(RegisteredUser(name, username, email)) && r.isAuthenticated
  {
    var t := Apply(s, RegisterEffects(name, username, email, password, false));
    RegisterOutcome(s, name, username, email, password, false);
    RestartRestoresUser(t);
  }

  /** After a successful logout, a restart comes up signed out. */
  lemma LogoutSurvivesRestart(s: AuthState)
    ensures var t := Apply(s, LogoutEffects(false));
      var r := Apply(InitialState(t.stored), BootstrapEffects(t.stored, false));
      r.user == None && !r.isAuthenticated && !r.isLoading
  {
  }

  // ----- any sequence of operations -----

  /** One call into the provider, with the outcome of its storage access. */
  datatype Operation =
    | Bootstrap(readFails: bool)
    | LoginCall(username: string, password: string, writeFails: bool)
    | RegisterCall(name: string, username: string, email: string, password: string, writeFails: bool)
    | LogoutCall(removeFails: bool)

  function OperationEffects(s: AuthState, op: Operation): seq<Effect>
  {
    match op
    case Bootstrap(f) => BootstrapEffects(s.stored, f)
    case LoginCall(u, p, f) => LoginEffects(u, p, f)
    case RegisterCall(n, u, m, p, f) => RegisterEffects(n, u, m, p, f)
    case LogoutCall(f) => LogoutEffects(f)
  }

  /** The state after performing `ops` one after the other, each as one atomic sequence of writes. */
  function Run(s: AuthState, ops: seq<Operation>): AuthState
    decreases |ops|
  {
    if ops == [] then s else Run(Apply(s, OperationEffects(s, ops[0])), ops[1..])
  }

  lemma OperationPreservesValid(s: AuthState, op: Operation)
    requires Valid(s)
    ensures Valid(Apply(s, OperationEffects(s, op)))
    ensures !Apply(s, OperationEffects(s, op)).isLoading
  {
    match op
    case Bootstrap(f) => BootstrapOutcome(s, f);
    case LoginCall(u, p, f) => LoginOutcome(s, u, p, f);
    case RegisterCall(n, u, m, p, f) => RegisterOutcome(s, n, u, m, p, f);
    case LogoutCall(f) => LogoutOutcome(s, f);
  }

  /**
   * From mount on, whatever calls are made and however storage behaves, a
   * user is present exactly when the provider is authenticated, that user is
   * the persisted one, and once any call has settled isLoading is false.
   */
  lemma {:induction false} RunPreservesValid(s: AuthState, ops: seq<Operation>)
    requires Valid(s)
    ensures Valid(Run(s, ops))
    ensures ops != [] ==> !Run(s, ops).isLoading
    decreases |ops|
  {
    if ops != [] {
      var t := Apply(s, OperationEffects(s, ops[0]));
      OperationPreservesValid(s, ops[0]);
      RunPreservesValid(t, ops[1..]);
    }
  }

  lemma FromMountValid(stored: Option<User>, ops: seq<Operation>)
    ensures Valid(Run(InitialState(stored), ops))
    ensures ops != [] ==> !Run(InitialState(stored), ops).isLoading
  {
    RunPreservesValid(InitialState(stored), ops);
  }

  // ----- the provider object -----

  class AuthProvider {
    var isAuthenticated: bool
    var isLoading: bool
    var user: Option<User>
    /** The AsyncStorage slot under StorageKey. */
    var stored: Option<User>
    /** Every write performed since the provider mounted, in order. */
    ghost var trace: seq<Effect>

    function State(): AuthState
      reads this
    {
      AuthState(isAuthenticated, isLoading, user, stored)
    }

    /** Mounting the provider, with `persisted` already in the slot. */
    constructor (persisted: Option<User>)
      ensures State() == InitialState(persisted)
      ensures trace == []
    {
      isAuthenticated := false;
      isLoading := true;
      user := None;
      stored := persisted;
      trace := [];
    }

    method CheckAuthStatus(readFails: bool)
      modifies this
      ensures trace == old(trace) + BootstrapEffects(old(stored), readFails)
      ensures State() == Apply(old(State()), BootstrapEffects(old(stored), readFails))
    {
      ghost var s0 := State();
      var userData := if readFails then None else stored;
      if userData.Some? {
        user := userData;
        trace := trace + [SetUser(userData)];
        isAuthenticated := true;
        trace := trace + [SetAuthenticated(true)];
      }
      isLoading := false;
      trace := trace + [SetLoading(false)];
      BootstrapOutcome(s0, readFails);
    }

    /** Persist `u`, then sign it in; the storage error is rethrown to the caller. */
    method SignIn(u: User, writeFails: bool) returns (c: Completion)
      modifies this
      ensures c == SignInCompletion(writeFails)
      ensures trace == old(trace) + SignInEffects(u, writeFails)
      ensures State() == Apply(old(State()), SignInEffects(u, writeFails))
    {
      ghost var s0 := State();
      isLoading := true;
      trace := trace + [SetLoading(true)];
      if writeFails {
        c := Rejected;
      } else {
        stored := Some(u);
        trace := trace + [WriteStore(Some(u))];
        user := Some(u);
        trace := trace + [SetUser(Some(u))];
        isAuthenticated := true;
        trace := trace + [SetAuthenticated(true)];
        c := Resolved;
      }
      isLoading := false;
      trace := trace + [SetLoading(false)];
      SignInOutcome(s0, u, writeFails);
    }

    method Login(username: string, password: string, writeFails: bool) returns (c: Completion)
      modifies this
      ensures c == SignInCompletion(writeFails)
      ensures trace == old(trace) + LoginEffects(username, password, writeFails)
      ensures State() == Apply(old(State()), LoginEffects(username, password, writeFails))
    {
      var userData := LoginUser(username);
      c := SignIn(userData, writeFails);
    }

    method Register(name: string, username: string, email: string, password: string, writeFails: bool)
      returns (c: Completion)
      modifies this
      ensures c == SignInCompletion(writeFails)
      ensures trace == old(trace) + RegisterEffects(name, username, email, password, writeFails)
      ensures State() == Apply(old(State()), RegisterEffects(name, username, email, password, writeFails))
    {
      var userData := RegisteredUser(name, username, email);
      c := SignIn(userData, writeFails);
    }

    method Logout(removeFails: bool) returns (c: Completion)
      modifies this
      ensures c == LogoutCompletion(removeFails)
      ensures trace == old(trace) + LogoutEffects(removeFails)
      ensures State() == Apply(old(State()), LogoutEffects(removeFails))
    {
      ghost var s0 := State();
      isLoading := true;
      trace := trace + [SetLoading(true)];
      if !removeFails {
        stored := None;
        trace := trace + [WriteStore(None)];
        user := None;
        trace := trace + [SetUser(None)];
        isAuthenticated := false;
        trace := trace + [SetAuthenticated(false)];
      }
      isLoading := false;
      trace := trace + [SetLoading(false)];
      c := Resolved;
      LogoutOutcome(s0, removeFails);
    }
  }
}
