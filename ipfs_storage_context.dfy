/** The organisation data store client: the connection state reducer, the connection
    procedure with its re-entry guard, and the four get/set helpers that write content
    first and register its pointer second. */
module IpfsStorageContext {
  import opened Js
  import opened ContentStore

  /** The provider object the connection procedure stores, opaque to this module except
      for `hasFileApi`: whether it has the `add` and `cat` methods the file helpers call.
      The object `Quasar.createIpfsProvider` builds (`Quasar.IpfsApi`) has `dag.get` and
      `dag.put` only, so on it `hasFileApi` is false. */
  datatype Endpoints = Endpoints(handle: nat, hasFileApi: bool)

  /** A value thrown by a collaborator and caught by the connection procedure. */
  datatype Error = Error(message: string)

  /** The reducer's record. `isStorageAppInstalled` is tri-state: null, false or true. */
  datatype StorageState = StorageState(
    isStorageAppInstalled: Option<bool>,
    ipfsEndpoints: Option<Endpoints>,
    connecting: bool,
    success: bool,
    failure: bool,
    error: Option<Error>)

  const Initial := StorageState(None, None, false, false, false, None)

  datatype Action =
    | NoStorageAppInstalled
    | ConnectionSuccess(ipfsEndpoints: Endpoints)
    | ConnectionFailure(error: Error)
    | Connecting
    | Unrecognised(tag: string)

  /** The reducer: each known action overrides a fixed set of fields. */
  function Reduce(s: StorageState, a: Action): (r: StorageState)
    ensures a.NoStorageAppInstalled? ==>
      r == Initial.(isStorageAppInstalled := Some(false))
    ensures a.ConnectionSuccess? ==>
      && r.ipfsEndpoints == Some(a.ipfsEndpoints) && r.success && !r.connecting && !r.failure
      && r.isStorageAppInstalled == Some(true) && r.error == s.error
    ensures a.ConnectionFailure? ==>
      && r.ipfsEndpoints.None? && r.failure && !r.connecting && !r.success
      && r.isStorageAppInstalled == Some(true) && r.error == Some(a.error)
    ensures a.Connecting? ==>
      && r.ipfsEndpoints.None? && r.connecting && !r.success && !r.failure
      && r.isStorageAppInstalled == s.isStorageAppInstalled && r.error == s.error
    ensures a.Unrecognised? ==> r == s
  {
    match a
    case NoStorageAppInstalled =>
      Initial.(isStorageAppInstalled := Some(false))
    case ConnectionSuccess(endpoints) =>
      s.(ipfsEndpoints := Some(endpoints), connecting := false, success := true,
         failure := false, isStorageAppInstalled := Some(true))
    case ConnectionFailure(e) =>
      s.(ipfsEndpoints := None, connecting := false, success := false,
         failure := true, error := Some(e), isStorageAppInstalled := Some(true))
    case Connecting =>
      s.(ipfsEndpoints := None, connecting := true, success := false, failure := false)
    case Unrecognised(_) =>
      s
  }

  /** The state after dispatching `actions` in order, starting from `s`. */
  function ReduceAll(s: StorageState, actions: seq<Action>): StorageState
    decreases |actions|
  {
    if actions == [] then s
    else Reduce(ReduceAll(s, actions[..|actions| - 1]), actions[|actions| - 1])
  }

  lemma ReduceAllSnoc(s: StorageState, actions: seq<Action>, a: Action)
    ensures ReduceAll(s, actions + [a]) == Reduce(ReduceAll(s, actions), a)
  {
    assert (actions + [a])[..|actions|] == actions;
  }

  predicate AtMostOneFlag(s: StorageState) {
    && !(s.connecting && s.success)
    && !(s.connecting && s.failure)
    && !(s.success && s.failure)
  }

  /** What holds of every state reachable from `Initial`. */
  predicate Consistent(s: StorageState) {
    && AtMostOneFlag(s)
    && (s.ipfsEndpoints.Some? <==> s.success)
    && (s.success || s.failure ==> s.isStorageAppInstalled == Some(true))
    && (s.failure ==> s.error.Some?)
    && (!s.connecting && !s.success && !s.failure ==>
          s.error.None? && s.isStorageAppInstalled != Some(true))
  }

  lemma ReducePreservesConsistent(s: StorageState, a: Action)
    requires Consistent(s)
    ensures Consistent(Reduce(s, a))
  {
  }

  /** From the initial state, any sequence of actions leaves at most one of
      connecting/success/failure set (and the rest of `Consistent`). */
  lemma {:induction false} ReachableConsistent(actions: seq<Action>)
    ensures Consistent(ReduceAll(Initial, actions))
    ensures AtMostOneFlag(ReduceAll(Initial, actions))
    decreases |actions|
  {
    if actions != [] {
      ReachableConsistent(actions[..|actions| - 1]);
      ReducePreservesConsistent(ReduceAll(Initial, actions[..|actions| - 1]), actions[|actions| - 1]);
    }
  }

  /** The connection state machine the flags encode. */
  datatype Phase =
    | Unstarted
    | InProgress
    | Ready(endpoints: Endpoints)
    | NotInstalled
    | ConnectFailed(error: Error)

  function PhaseOf(s: StorageState): Phase
    requires Consistent(s)
  {
    if s.connecting then InProgress
    else if s.success then Ready(s.ipfsEndpoints.value)
    else if s.failure then ConnectFailed(s.error.value)
    else if s.isStorageAppInstalled == Some(false) then NotInstalled
    else Unstarted
  }

  /** The machine's transitions, stated on phases alone. */
  function Transition(p: Phase, a: Action): Phase {
    match a
    case NoStorageAppInstalled => NotInstalled
    case ConnectionSuccess(e) => Ready(e)
    case ConnectionFailure(e) => ConnectFailed(e)
    case Connecting => InProgress
    case Unrecognised(_) => p
  }

  /** The reducer implements the phase machine: reducing a consistent record and then
      reading its phase is the same as stepping the phase. */
  lemma ReduceRefinesTransition(s: StorageState, a: Action)
    requires Consistent(s)
    ensures Consistent(Reduce(s, a))
    ensures PhaseOf(Reduce(s, a)) == Transition(PhaseOf(s), a)
  {
  }

  /** The effect's guard: an attempt starts only when neither success nor connecting is set. */
  predicate ShouldConnect(s: StorageState) {
    !s.success && !s.connecting
  }

  /** Once started, a second trigger is refused until the attempt resolves; a success
      shuts the guard for good, while the other two outcomes reopen it. */
  lemma GuardAfterActions(s: StorageState, e: Endpoints, err: Error)
    ensures !ShouldConnect(Reduce(s, Connecting))
    ensures !ShouldConnect(Reduce(s, ConnectionSuccess(e)))
    ensures ShouldConnect(Reduce(s, NoStorageAppInstalled))
    ensures ShouldConnect(Reduce(s, ConnectionFailure(err)))
  {
  }

  /** The effect depends on the success and connecting flags (besides `apps` and
      `wrapper`): it runs again whenever one of them changes between two states. */
  predicate EffectReruns(before: StorageState, after: StorageState) {
    before.success != after.success || before.connecting != after.connecting
  }

  /** As written, an attempt that ends in *no storage app* or in a failure restarts
      itself: dispatching *connecting* re-runs the effect (refused), the outcome clears
      `connecting` and re-runs it again (admitted), and a second attempt with the same
      outcome returns to the very same state. */
  lemma EndlessRetry(s: StorageState, err: Error)
    requires ShouldConnect(s)
    ensures var c := Reduce(s, Connecting); var t := Reduce(c, NoStorageAppInstalled);
      && EffectReruns(s, c) && !ShouldConnect(c)
      && EffectReruns(c, t) && ShouldConnect(t)
      && Reduce(Reduce(t, Connecting), NoStorageAppInstalled) == t
    ensures var c := Reduce(s, Connecting); var t := Reduce(c, ConnectionFailure(err));
      && EffectReruns(c, t) && ShouldConnect(t)
      && Reduce(Reduce(t, Connecting), ConnectionFailure(err)) == t
  {
  }

  /** `n` attempts that each end with `end`. */
  function Attempts(end: Action, n: nat): (actions: seq<Action>)
    ensures |actions| == 2 * n
  {
    if n == 0 then [] else Attempts(end, n - 1) + [Connecting, end]
  }

  /** From a state an attempt ending in `end` leads back to, any number of further
      attempts leads back to it again, and the guard admits yet another: nothing stops
      the retries. */
  lemma {:induction false} RetriesForever(t: StorageState, end: Action, n: nat)
    requires ShouldConnect(t) && Reduce(Reduce(t, Connecting), end) == t
    ensures ReduceAll(t, Attempts(end, n)) == t && ShouldConnect(ReduceAll(t, Attempts(end, n)))
  {
    if n > 0 {
      var prev := Attempts(end, n - 1);
      RetriesForever(t, end, n - 1);
      ReduceAllSnoc(t, prev, Connecting);
      assert prev + [Connecting, end] == (prev + [Connecting]) + [end];
      ReduceAllSnoc(t, prev + [Connecting], end);
    }
  }

  /** The evidently intended guard: start an attempt on the first run, or when `apps`
      or `wrapper` changed (`depsChanged`), but never merely because the previous
      attempt ended without success. */
  predicate ShouldConnectIntended(s: StorageState, depsChanged: bool) {
    && !s.success && !s.connecting
    && (depsChanged || (!s.failure && s.isStorageAppInstalled != Some(false)))
  }

  /** The intended guard still starts the first attempt and refuses during an attempt
      and after success; after *no storage app* or a failure it waits for a change of
      `apps` or `wrapper`, and then it admits exactly what the code's guard admits. */
  lemma IntendedGuardProperties(s: StorageState, e: Endpoints, err: Error, depsChanged: bool)
    ensures ShouldConnectIntended(Initial, false)
    ensures !ShouldConnectIntended(Reduce(s, Connecting), depsChanged)
    ensures !ShouldConnectIntended(Reduce(s, ConnectionSuccess(e)), depsChanged)
    ensures !ShouldConnectIntended(Reduce(s, NoStorageAppInstalled), false)
    ensures !ShouldConnectIntended(Reduce(s, ConnectionFailure(err)), false)
    ensures ShouldConnectIntended(s, true) == ShouldConnect(s)
    ensures ShouldConnectIntended(s, false) ==> ShouldConnect(s)
  {
  }

  /** An installed application as the connection procedure sees it. */
  datatype InstalledApp = InstalledApp(proxyAddress: string, abi: string)

  /** The settled value of an awaited collaborator call. */
  datatype Reply<T> = Resolved(value: T) | Rejected(error: Error)

  /** `apps.find`: the first app whose proxy address equals `address` ignoring case. */
  function FindStorageApp(apps: seq<InstalledApp>, address: string): (i: Option<nat>)
    ensures i.Some? ==> i.value < |apps| && EqualsIgnoreCase(apps[i.value].proxyAddress, address)
    ensures i.Some? ==> forall j :: 0 <= j < i.value ==> !EqualsIgnoreCase(apps[j].proxyAddress, address)
    ensures i.None? ==> forall j :: 0 <= j < |apps| ==> !EqualsIgnoreCase(apps[j].proxyAddress, address)
    decreases |apps|
  {
    if apps == [] then None
    else if EqualsIgnoreCase(apps[0].proxyAddress, address) then Some(0)
    else match FindStorageApp(apps[1..], address) {
      case None => None
      case Some(k) => Some(k + 1)
    }
  }

  /** The action an attempt ends with, given what each awaited step settled to. */
  function AttemptOutcome(
    apps: seq<InstalledApp>, namespace: Reply<string>, appAddress: Reply<string>,
    listen: Reply<bool>, provider: Reply<Endpoints>): (a: Action)
    ensures a.NoStorageAppInstalled? <==>
      namespace.Resolved? && appAddress.Resolved? && FindStorageApp(apps, appAddress.value).None?
    ensures a.ConnectionSuccess? <==>
      && namespace.Resolved? && appAddress.Resolved? && FindStorageApp(apps, appAddress.value).Some?
      && listen.Resolved? && provider.Resolved?
    ensures a.ConnectionSuccess? ==> a.ipfsEndpoints == provider.value
    ensures namespace.Rejected? ==> a == ConnectionFailure(namespace.error)
    ensures namespace.Resolved? && appAddress.Rejected? ==> a == ConnectionFailure(appAddress.error)
    ensures a.ConnectionFailure? ==>
      || (namespace.Rejected? && a.error == namespace.error)
      || (appAddress.Rejected? && a.error == appAddress.error)
      || (listen.Rejected? && a.error == listen.error)
      || (provider.Rejected? && a.error == provider.error)
    ensures !a.Connecting? && !a.Unrecognised?
  {
    if namespace.Rejected? then ConnectionFailure(namespace.error)
    else if appAddress.Rejected? then ConnectionFailure(appAddress.error)
    else if FindStorageApp(apps, appAddress.value).None? then NoStorageAppInstalled
    else if listen.Rejected? then ConnectionFailure(listen.error)
    else if provider.Rejected? then ConnectionFailure(provider.error)
    else ConnectionSuccess(provider.value)
  }

  /** The boolean `listenToStorageContract` resolves to is awaited and discarded. */
  lemma {:induction false} ListenResultIgnored(
    apps: seq<InstalledApp>, namespace: Reply<string>, appAddress: Reply<string>,
    b1: bool, b2: bool, provider: Reply<Endpoints>)
    ensures AttemptOutcome(apps, namespace, appAddress, Resolved(b1), provider)
         == AttemptOutcome(apps, namespace, appAddress, Resolved(b2), provider)
  {
  }

  /** Failures the facade surfaces. */
  datatype StoreError =
    | NoStorageApp      // 'No storage app installed'
    | NotAnObject       // 'type of value param must be object'
    | EndpointsMissing  // TypeError: `ipfsEndpoints` is null
    | NotAFunction      // TypeError: `ipfsEndpoints.add` or `ipfsEndpoints.cat` is not a function
    | ContractMissing   // TypeError: the storage contract is still the initial `{}`
    | GatewayRejected   // the put/add promise rejected
    | RegistryRejected  // the `registerData` transaction rejected
    | Unresolvable      // `dag.get`/`cat` could not resolve the pointer

  datatype Result<T> = Ok(value: T) | Err(error: StoreError)

  datatype Outcome = Pass | Fail(error: StoreError)

  /** An external call issued by the provider, in the order it is issued. */
  datatype Call =
    | KernelNamespace                            // `kernelProxy.call('APP_ADDR_NAMESPACE')`
    | KernelGetApp(namespace: string, appId: string)  // `kernelProxy.call('getApp', namespace, appId)`
    | ListenToStorageContract(address: string)
    | CreateIpfsProvider
    | DagPut(value: Value)
    | AddFile(blob: Blob)
    | DagGet(cid: Cid)
    | Cat(cid: Cid)
    | RegisterData(key: string, cid: Cid)
    | GetRegisteredData(key: string)

  predicate Installed(s: StorageState) {
    s.isStorageAppInstalled == Some(true)
  }

  /** The stored provider object has `add` and `cat`. */
  predicate HasFileApi(s: StorageState) {
    s.ipfsEndpoints.Some? && s.ipfsEndpoints.value.hasFileApi
  }

  /** The calls an attempt issues after it has dispatched `connecting`. */
  function AttemptCalls(
    apps: seq<InstalledApp>, storageAppId: string, namespace: Reply<string>, appAddress: Reply<string>,
    listen: Reply<bool>): (cs: seq<Call>)
    ensures |cs| >= 1 && cs[0] == KernelNamespace
    ensures namespace.Rejected? <==> |cs| == 1
    ensures namespace.Resolved? ==> cs[1] == KernelGetApp(namespace.value, storageAppId)
    ensures namespace.Resolved? && appAddress.Resolved? && FindStorageApp(apps, appAddress.value).Some? ==>
      |cs| >= 3 && cs[2] == ListenToStorageContract(apps[FindStorageApp(apps, appAddress.value).value].proxyAddress)
    ensures (forall c :: c in cs ==> !c.ListenToStorageContract?) <==>
      !(namespace.Resolved? && appAddress.Resolved? && FindStorageApp(apps, appAddress.value).Some?)
    ensures CreateIpfsProvider in cs <==>
      && namespace.Resolved? && appAddress.Resolved? && FindStorageApp(apps, appAddress.value).Some?
      && listen.Resolved?
    ensures CreateIpfsProvider in cs ==> cs[|cs| - 1] == CreateIpfsProvider
  {
    if namespace.Rejected? then [KernelNamespace]
    else if appAddress.Rejected? then [KernelNamespace, KernelGetApp(namespace.value, storageAppId)]
    else match FindStorageApp(apps, appAddress.value) {
      case None => [KernelNamespace, KernelGetApp(namespace.value, storageAppId)]
      case Some(i) =>
        var cs := [KernelNamespace, KernelGetApp(namespace.value, storageAppId),
                   ListenToStorageContract(apps[i].proxyAddress)]
          + (if listen.Resolved? then [CreateIpfsProvider] else []);
        assert cs[2] in cs;
        cs
    }
  }

  /** The provider component: its reducer state, the storage contract handle kept in
      component state, the remote store and registry it writes to, and logs of the
      actions it dispatched and the external calls it issued. */
  class IpfsStorageProvider {
    /** `wrapper.web3.utils.fromAscii`, the encoding of setting names into registry keys. */
    const fromAscii: string -> string
    /** `appIds.Storage`, the app id the kernel is asked for. */
    const storageAppId: string
    var store: StorageState
    /** `storageContract`: None while it is still the initial `{}`, else the app's address. */
    var contract: Option<string>
    /** The apps the in-flight attempt was started with, if an attempt is in flight. */
    var attempt: Option<seq<InstalledApp>>
    var remote: Remote
    var dispatched: seq<Action>
    var calls: seq<Call>

    ghost predicate Valid()
      reads this
    {
      && ContentStore.Valid(remote)
      && store == ReduceAll(Initial, dispatched)
      && Consistent(store)
      && (attempt.Some? <==> store.connecting)
      && (store.ipfsEndpoints.Some? ==> contract.Some?)
    }

    constructor (fromAscii: string -> string, storageAppId: string, remote: Remote)
      requires ContentStore.Valid(remote)
      ensures Valid()
      ensures this.fromAscii == fromAscii && this.storageAppId == storageAppId && this.remote == remote
      ensures store == Initial && contract.None? && attempt.None?
      ensures dispatched == [] && calls == []
    {
      this.fromAscii := fromAscii;
      this.storageAppId := storageAppId;
      this.remote := remote;
      store := Initial;
      contract := None;
      attempt := None;
      dispatched := [];
      calls := [];
    }

    method Dispatch(a: Action)
      requires ContentStore.Valid(remote) && store == ReduceAll(Initial, dispatched) && Consistent(store)
      modifies this`store, this`dispatched
      ensures store == Reduce(old(store), a) && dispatched == old(dispatched) + [a]
      ensures store == ReduceAll(Initial, dispatched) && Consistent(store)
    {
      ReduceAllSnoc(Initial, dispatched, a);
      ReducePreservesConsistent(store, a);
      store := Reduce(store, a);
      dispatched := dispatched + [a];
    }

    /** The effect body: start an attempt (dispatching `connecting` first) unless one is
        in flight or a previous one succeeded. */
    method Trigger(apps: seq<InstalledApp>)
      requires Valid()
      modifies this`store, this`dispatched, this`attempt
      ensures Valid()
      ensures ShouldConnect(old(store)) ==>
        && dispatched == old(dispatched) + [Connecting]
        && attempt == Some(apps)
        && PhaseOf(store) == InProgress
      ensures !ShouldConnect(old(store)) ==>
        store == old(store) && dispatched == old(dispatched) && attempt == old(attempt)
    {
      if !store.success && !store.connecting {
        Dispatch(Connecting);
        attempt := Some(apps);
      }
    }

    /** The awaited remainder of an attempt: look the storage app up through the kernel,
        match it case-insensitively among the installed apps, announce it to the
        gateway, keep its contract handle and ask for a provider. */
    method Complete(namespace: Reply<string>, appAddress: Reply<string>,
                    listen: Reply<bool>, provider: Reply<Endpoints>)
      requires Valid() && attempt.Some?
      modifies this`store, this`dispatched, this`attempt, this`contract, this`calls
      ensures Valid() && attempt.None?
      ensures dispatched ==
        old(dispatched) + [AttemptOutcome(old(attempt).value, namespace, appAddress, listen, provider)]
      ensures calls == old(calls) + AttemptCalls(old(attempt).value, storageAppId, namespace, appAddress, listen)
      ensures contract ==
        if && namespace.Resolved? && appAddress.Resolved? && listen.Resolved?
           && FindStorageApp(old(attempt).value, appAddress.value).Some?
        then Some(old(attempt).value[FindStorageApp(old(attempt).value, appAddress.value).value].proxyAddress)
        else old(contract)
    {
      var apps := attempt.value;
      ghost var outcome := AttemptOutcome(apps, namespace, appAddress, listen, provider);
      ghost var issued := AttemptCalls(apps, storageAppId, namespace, appAddress, listen);
      attempt := None;
      calls := calls + [KernelNamespace];
      if namespace.Rejected? {
        assert outcome == ConnectionFailure(namespace.error) && calls == old(calls) + issued;
        Dispatch(ConnectionFailure(namespace.error));
        return;
      }
      calls := calls + [KernelGetApp(namespace.value, storageAppId)];
      if appAddress.Rejected? {
        assert outcome == ConnectionFailure(appAddress.error) && calls == old(calls) + issued;
        Dispatch(ConnectionFailure(appAddress.error));
        return;
      }
      var found := FindStorageApp(apps, appAddress.value);
      if found.None? {
        assert outcome == NoStorageAppInstalled && calls == old(calls) + issued;
        Dispatch(NoStorageAppInstalled);
        return;
      }
      var app := apps[found.value];
      calls := calls + [ListenToStorageContract(app.proxyAddress)];
      if listen.Rejected? {
        assert outcome == ConnectionFailure(listen.error) && calls == old(calls) + issued;
        Dispatch(ConnectionFailure(listen.error));
        return;
      }
      contract := Some(app.proxyAddress);
      calls := calls + [CreateIpfsProvider];
      assert calls == old(calls) + issued;
      if provider.Rejected? {
        assert outcome == ConnectionFailure(provider.error);
        Dispatch(ConnectionFailure(provider.error));
        return;
      }
      assert outcome == ConnectionSuccess(provider.value);
      Dispatch(ConnectionSuccess(provider.value));
    }

    /** `ipfsEndpoints.dag.put(value)`, against the remote store. */
    method PutDag(value: Value, accepted: bool) returns (r: Result<Cid>)
      requires Valid()
      modifies this`remote, this`calls
      ensures Valid()
      ensures store.ipfsEndpoints.None? ==>
        r == Err(EndpointsMissing) && remote == old(remote) && calls == old(calls)
      ensures store.ipfsEndpoints.Some? ==> calls == old(calls) + [DagPut(value)]
      ensures store.ipfsEndpoints.Some? && !accepted ==> r == Err(GatewayRejected) && remote == old(remote)
      ensures store.ipfsEndpoints.Some? && accepted ==>
        var (r1, cid) := ContentStore.Put(old(remote), DagNode(value));
        r == Ok(cid) && remote == r1
    {
      if store.ipfsEndpoints.None? {
        return Err(EndpointsMissing);
      }
      calls := calls + [DagPut(value)];
      if !accepted {
        return Err(GatewayRejected);
      }
      var (r1, cid) := ContentStore.Put(remote, DagNode(value));
      remote := r1;
      r := Ok(cid);
    }

    /** `ipfsEndpoints.add(file)`, against the remote store. On an object without `add`
        the call throws before anything is sent. */
    method PutFile(blob: Blob, accepted: bool) returns (r: Result<Cid>)
      requires Valid()
      modifies this`remote, this`calls
      ensures Valid()
      ensures store.ipfsEndpoints.None? ==>
        r == Err(EndpointsMissing) && remote == old(remote) && calls == old(calls)
      ensures store.ipfsEndpoints.Some? && !HasFileApi(store) ==>
        r == Err(NotAFunction) && remote == old(remote) && calls == old(calls)
      ensures HasFileApi(store) ==> calls == old(calls) + [AddFile(blob)]
      ensures HasFileApi(store) && !accepted ==> r == Err(GatewayRejected) && remote == old(remote)
      ensures HasFileApi(store) && accepted ==>
        var (r1, cid) := ContentStore.Put(old(remote), FileNode(blob));
        r == Ok(cid) && remote == r1
    {
      if store.ipfsEndpoints.None? {
        return Err(EndpointsMissing);
      }
      if !store.ipfsEndpoints.value.hasFileApi {
        return Err(NotAFunction);
      }
      calls := calls + [AddFile(blob)];
      if !accepted {
        return Err(GatewayRejected);
      }
      var (r1, cid) := ContentStore.Put(remote, FileNode(blob));
      remote := r1;
      r := Ok(cid);
    }

    /** Register `key -> cid` after the put that minted `cid` has succeeded. */
    method RegisterPut(key: string, put: Result<Cid>, accepted: bool) returns (r: Outcome)
      requires Valid() && store.ipfsEndpoints.Some?
      requires put.Ok? ==> put.value in remote.content
      modifies this`remote, this`calls
      ensures Valid()
      ensures put.Err? ==> r == Fail(put.error) && remote == old(remote) && calls == old(calls)
      ensures put.Ok? ==> calls == old(calls) + [RegisterData(fromAscii(key), put.value)]
      ensures put.Ok? && !accepted ==> r == Fail(RegistryRejected) && remote == old(remote)
      ensures put.Ok? && accepted ==>
        r == Pass && remote == ContentStore.Register(old(remote), fromAscii(key), put.value)
    {
      if put.Err? {
        return Fail(put.error);
      }
      calls := calls + [RegisterData(fromAscii(key), put.value)];
      if !accepted {
        return Fail(RegistryRejected);
      }
      remote := ContentStore.Register(remote, fromAscii(key), put.value);
      r := Pass;
    }

    /** `setDagInOrgDataStore(key, dag)`: fails before any store call unless the storage
        app is installed and the value is of type object; otherwise puts the value and
        registers its pointer only once the put has returned it. */
    method SetDag(key: string, dag: Value, putAccepted: bool, registerAccepted: bool) returns (r: Outcome)
      requires Valid()
      modifies this`remote, this`calls
      ensures Valid()
      ensures !Installed(store) ==>
        r == Fail(NoStorageApp) && remote == old(remote) && calls == old(calls)
      ensures Installed(store) && TypeOf(dag) != "object" ==>
        r == Fail(NotAnObject) && remote == old(remote) && calls == old(calls)
      ensures Installed(store) && TypeOf(dag) == "object" && store.ipfsEndpoints.None? ==>
        r == Fail(EndpointsMissing) && remote == old(remote) && calls == old(calls)
      ensures Installed(store) && TypeOf(dag) == "object" && store.ipfsEndpoints.Some? ==>
        var (r1, cid) := ContentStore.Put(old(remote), DagNode(dag));
        && (!putAccepted ==> r == Fail(GatewayRejected) && remote == old(remote)
                             && calls == old(calls) + [DagPut(dag)])
        && (putAccepted ==> calls == old(calls) + [DagPut(dag), RegisterData(fromAscii(key), cid)])
        && (putAccepted && !registerAccepted ==> r == Fail(RegistryRejected) && remote == r1)
        && (putAccepted && registerAccepted ==>
              r == Pass && remote == ContentStore.Register(r1, fromAscii(key), cid))
      ensures r == Pass ==>
        exists cid :: Resolve(remote, fromAscii(key)) == Some(cid) && FetchDag(remote, cid) == Some(dag)
    {
      if !Installed(store) {
        return Fail(NoStorageApp);
      }
      if TypeOf(dag) != "object" {
        return Fail(NotAnObject);
      }
      if store.ipfsEndpoints.None? {
        return Fail(EndpointsMissing);
      }
      var put := PutDag(dag, putAccepted);
      r := RegisterPut(key, put, registerAccepted);
      if r == Pass {
        PutRegisterRoundTrip(old(remote), fromAscii(key), dag);
      }
    }

    /** `setFileInOrgDataStore(key, file)`: as `SetDag`, without the type check, and
        failing before any store call on an object without `add`. */
    method SetFile(key: string, file: Blob, putAccepted: bool, registerAccepted: bool) returns (r: Outcome)
      requires Valid()
      modifies this`remote, this`calls
      ensures Valid()
      ensures !Installed(store) ==>
        r == Fail(NoStorageApp) && remote == old(remote) && calls == old(calls)
      ensures Installed(store) && store.ipfsEndpoints.None? ==>
        r == Fail(EndpointsMissing) && remote == old(remote) && calls == old(calls)
      ensures Installed(store) && store.ipfsEndpoints.Some? && !HasFileApi(store) ==>
        r == Fail(NotAFunction) && remote == old(remote) && calls == old(calls)
      ensures Installed(store) && HasFileApi(store) ==>
        var (r1, cid) := ContentStore.Put(old(remote), FileNode(file));
        && (!putAccepted ==> r == Fail(GatewayRejected) && remote == old(remote)
                             && calls == old(calls) + [AddFile(file)])
        && (putAccepted ==> calls == old(calls) + [AddFile(file), RegisterData(fromAscii(key), cid)])
        && (putAccepted && !registerAccepted ==> r == Fail(RegistryRejected) && remote == r1)
        && (putAccepted && registerAccepted ==>
              r == Pass && remote == ContentStore.Register(r1, fromAscii(key), cid))
      ensures r == Pass ==>
        exists cid :: Resolve(remote, fromAscii(key)) == Some(cid) && FetchFile(remote, cid) == Some(file)
    {
      if !Installed(store) {
        return Fail(NoStorageApp);
      }
      if store.ipfsEndpoints.None? {
        return Fail(EndpointsMissing);
      }
      var put := PutFile(file, putAccepted);
      r := RegisterPut(key, put, registerAccepted);
      if r == Pass {
        var cid := put.value;
        assert Resolve(remote, fromAscii(key)) == Some(cid);
      }
    }

    /** `getDagFromOrgDataStore(key)`: null when no pointer is registered, otherwise the
        node the store holds under it. */
    method GetDag(key: string) returns (r: Result<Option<Value>>)
      requires Valid()
      modifies this`calls
      ensures Valid()
      ensures !Installed(store) ==> r == Err(NoStorageApp) && calls == old(calls)
      ensures Installed(store) && contract.None? ==> r == Err(ContractMissing) && calls == old(calls)
      ensures Installed(store) && contract.Some? ==>
        var p := Resolve(remote, fromAscii(key));
        && (p.None? ==> r == Ok(None) && calls == old(calls) + [GetRegisteredData(fromAscii(key))])
        && (p.Some? && store.ipfsEndpoints.None? ==>
              r == Err(EndpointsMissing) && calls == old(calls) + [GetRegisteredData(fromAscii(key))])
        && (p.Some? && store.ipfsEndpoints.Some? ==>
              && calls == old(calls) + [GetRegisteredData(fromAscii(key)), DagGet(p.value)]
              && r == match FetchDag(remote, p.value) {
                        case Some(v) => Ok(Some(v))
                        case None => Err(Unresolvable) })
    {
      if !Installed(store) {
        return Err(NoStorageApp);
      }
      if contract.None? {
        return Err(ContractMissing);
      }
      var k := fromAscii(key);
      calls := calls + [GetRegisteredData(k)];
      var p := Resolve(remote, k);
      if p.None? {
        return Ok(None);
      }
      if store.ipfsEndpoints.None? {
        return Err(EndpointsMissing);
      }
      calls := calls + [DagGet(p.value)];
      var v := FetchDag(remote, p.value);
      r := if v.Some? then Ok(Some(v.value)) else Err(Unresolvable);
    }

    /** `getFileFromOrgDataStore(key)`: as `GetDag`, reading a file with `cat`; a
        registered key on an object without `cat` throws instead. */
    method GetFile(key: string) returns (r: Result<Option<Blob>>)
      requires Valid()
      modifies this`calls
      ensures Valid()
      ensures !Installed(store) ==> r == Err(NoStorageApp) && calls == old(calls)
      ensures Installed(store) && contract.None? ==> r == Err(ContractMissing) && calls == old(calls)
      ensures Installed(store) && contract.Some? ==>
        var p := Resolve(remote, fromAscii(key));
        && (p.None? ==> r == Ok(None) && calls == old(calls) + [GetRegisteredData(fromAscii(key))])
        && (p.Some? && store.ipfsEndpoints.None? ==>
              r == Err(EndpointsMissing) && calls == old(calls) + [GetRegisteredData(fromAscii(key))])
        && (p.Some? && store.ipfsEndpoints.Some? && !HasFileApi(store) ==>
              r == Err(NotAFunction) && calls == old(calls) + [GetRegisteredData(fromAscii(key))])
        && (p.Some? && HasFileApi(store) ==>
              && calls == old(calls) + [GetRegisteredData(fromAscii(key)), Cat(p.value)]
              && r == match FetchFile(remote, p.value) {
                        case Some(b) => Ok(Some(b))
                        case None => Err(Unresolvable) })
    {
      if !Installed(store) {
        return Err(NoStorageApp);
      }
      if contract.None? {
        return Err(ContractMissing);
      }
      var k := fromAscii(key);
      calls := calls + [GetRegisteredData(k)];
      var p := Resolve(remote, k);
      if p.None? {
        return Ok(None);
      }
      if store.ipfsEndpoints.None? {
        return Err(EndpointsMissing);
      }
      if !store.ipfsEndpoints.value.hasFileApi {
        return Err(NotAFunction);
      }
      calls := calls + [Cat(p.value)];
      var b := FetchFile(remote, p.value);
      r := if b.Some? then Ok(Some(b.value)) else Err(Unresolvable);
    }
  }

  /** A caller's view of the round trip: once connected, a successful set followed by a
      get of the same key returns the value that was set. */
  method SetThenGet(p: IpfsStorageProvider, key: string, dag: Value) returns (saved: Outcome, got: Result<Option<Value>>)
    requires p.Valid()
    modifies p`remote, p`calls
    ensures p.Valid()
    ensures saved == Pass ==> got == Ok(Some(dag))
  {
    saved := p.SetDag(key, dag, true, true);
    got := p.GetDag(key);
  }

  /** The file helpers on the provider object the code actually stores, one without
      `add` and `cat`: a set never passes and leaves the remote store as it was, and a
      get never returns a file. */
  method FileHelpersFailWithoutFileApi(p: IpfsStorageProvider, key: string, file: Blob,
                                       putAccepted: bool, registerAccepted: bool)
    returns (saved: Outcome, got: Result<Option<Blob>>)
    requires p.Valid() && !HasFileApi(p.store)
    modifies p`remote, p`calls
    ensures p.Valid()
    ensures saved.Fail? && p.remote == old(p.remote)
    ensures Installed(p.store) && p.store.ipfsEndpoints.Some? ==> saved == Fail(NotAFunction)
    ensures got.Ok? ==> got.value.None?
  {
    saved := p.SetFile(key, file, putAccepted, registerAccepted);
    got := p.GetFile(key);
  }

  /** The file helpers on an object that has `add` and `cat`: a get after a passing set
      of the same key returns the file that was set. */
  method SetFileThenGetFile(p: IpfsStorageProvider, key: string, file: Blob) returns (saved: Outcome, got: Result<Option<Blob>>)
    requires p.Valid()
    modifies p`remote, p`calls
    ensures p.Valid()
    ensures saved == Pass ==> HasFileApi(p.store) && got == Ok(Some(file))
  {
    saved := p.SetFile(key, file, true, true);
    got := p.GetFile(key);
  }
}
