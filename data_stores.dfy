/**
 * DataStoreService: the handle registry (`dataStores`, `orderedDataStores`
 * and the `legacyDataStore` slot), API-version negotiation, the public
 * handle getters and the asynchronous listing and empty-scope read.
 *
 * The registry is specified by a step function on Registry values
 * (Internal) and sequences of calls to it (Run); the DataStoreService class
 * holds the same state in fields and its methods are proved against those
 * functions. The service's static members are the members of one object.
 *
 * Handle memoisation: the source tests for an entry with `Map.has` but
 * stores and reads entries by bracket property access, which `has` never
 * sees, so as written every call builds a new handle. Internal models the
 * behaviour the doc comments promise (the test and the insertion see one
 * map); InternalAsWritten models the code as written, and
 * AsWrittenRebuildsHandle shows the difference.
 */
module DataStores {
  import opened JsValue
  import FastLog

  /** Which constructor built a handle. */
  datatype Kind = Legacy | Standard | Ordered

  /**
   * An opaque store handle: the arguments its constructor received. `id`
   * stands for object identity (two constructions give two ids); `v2`
   * records whether DataStore2 rather than DataStore was built.
   */
  datatype Handle = Handle(id: nat, kind: Kind, name: string, scope: string, v2: bool, allScopes: bool)

  /** The `options` argument of GetDataStore. */
  datatype OptionsArg =
    | Omitted                                                   // undefined
    | NullOptions                                               // null
    | StoreOptions(className: string, v2: Value, allScopes: bool)  // instanceof DataStoreOptions; v2 is the experimental 'v2' entry
    | OtherValue(truthy: bool, allScopes: bool)                 // any other value; allScopes is its AllScopes property

  /** Errors thrown synchronously. */
  datatype Failure =
    | PlaceNotOpened              // Error: the place id guard
    | InvalidNameOrScope          // thrown by the name and scope validator
    | OptionsNotDataStoreOptions  // TypeError from useNewApi
    | V2NotRequested(className: string)  // ReferenceError from useNewApi

  /** The end of a synchronous call: a handle, a thrown error, or process.exit. */
  datatype Outcome = Returned(handle: Handle) | Threw(failure: Failure) | Exited(code: int)

  /**
   * What a call reads from outside the service. Each flag is the truthiness
   * of the DFFlag call the source makes; `lostDataFixProperty` is the
   * property `DFFlag['DataStoreLostDataFixEnable']` read off the function
   * object; `acceptsNameAndScope` is the verdict of the input validator.
   */
  datatype Env = Env(
    placeId: int,
    universeId: int,
    pcallFix: bool,
    v2Enabled: bool,
    lostDataFixProperty: Value,
    keyLengthLimit: int,
    acceptsNameAndScope: (string, string) -> bool)

  /** The arguments of getDataStoreInternal. */
  datatype Request = Request(name: string, scope: string, legacy: bool, ordered: bool, useNewApi: bool, allScopes: bool)

  /** The registry state; nextId is the identity the next constructed handle gets. */
  datatype Registry = Registry(
    dataStores: map<string, Handle>,
    orderedDataStores: map<string, Handle>,
    legacyDataStore: Option<Handle>,
    nextId: nat)

  const EmptyRegistry := Registry(map[], map[], None, 0)

  datatype Step = Step(registry: Registry, outcome: Outcome)

  /** `${name}-${scope}`. */
  function ComposedKey(name: string, scope: string): string {
    name + "-" + scope
  }

  /** A place in the registry a request reads and fills. */
  datatype Slot = LegacySlot | StandardSlot(key: string) | OrderedSlot(key: string)

  function SlotOf(req: Request): Slot {
    if req.legacy then LegacySlot
    else if req.ordered then OrderedSlot(ComposedKey(req.name, req.scope))
    else StandardSlot(ComposedKey(req.name, req.scope))
  }

  function Lookup(s: Registry, slot: Slot): Option<Handle> {
    match slot
    case LegacySlot => s.legacyDataStore
    case StandardSlot(k) => if k in s.dataStores then Some(s.dataStores[k]) else None
    case OrderedSlot(k) => if k in s.orderedDataStores then Some(s.orderedDataStores[k]) else None
  }

  /** t keeps every handle s holds: the registry only grows. */
  ghost predicate Extends(s: Registry, t: Registry) {
    && s.nextId <= t.nextId
    && forall slot :: Lookup(s, slot).Some? ==> Lookup(t, slot) == Lookup(s, slot)
  }

  lemma ExtendsTransitive(a: Registry, b: Registry, c: Registry)
    requires Extends(a, b) && Extends(b, c)
    ensures Extends(a, c)
  {
    forall slot | Lookup(a, slot).Some?
      ensures Lookup(c, slot) == Lookup(a, slot)
    {
      assert Lookup(b, slot) == Lookup(a, slot);
    }
  }

  /** The handle a slot holds was built for that slot. */
  ghost predicate BuiltFor(h: Handle, slot: Slot) {
    match slot
    case LegacySlot => h.kind == Legacy
    case StandardSlot(k) => h.kind == Standard && ComposedKey(h.name, h.scope) == k
    case OrderedSlot(k) => h.kind == Ordered && ComposedKey(h.name, h.scope) == k && !h.v2 && !h.allScopes
  }

  /**
   * The registry invariant: every held handle was built for its slot and
   * allocated before nextId, and no two slots hold the same object.
   */
  ghost predicate WellFormed(s: Registry) {
    && (forall slot :: Lookup(s, slot).Some? ==> BuiltFor(Lookup(s, slot).value, slot) && Lookup(s, slot).value.id < s.nextId)
    && (forall a, b :: a != b && Lookup(s, a).Some? && Lookup(s, b).Some? ==> Lookup(s, a).value.id != Lookup(s, b).value.id)
  }

  function Fatal(env: Env): Outcome {
    if env.pcallFix then Threw(PlaceNotOpened) else Exited(1)
  }

  /**
   * getDataStoreInternal, with the check and the insertion seeing one map.
   * Below place id 1 nothing is read or written; otherwise the request's
   * slot answers with the handle it holds, or is filled with a new one.
   */
  function Internal(s: Registry, env: Env, req: Request): (r: Step)
    ensures env.placeId < 1 ==> r == Step(s, Fatal(env))
    ensures env.placeId >= 1 ==> r.outcome.Returned? && Lookup(r.registry, SlotOf(req)) == Some(r.outcome.handle)
    ensures Lookup(s, SlotOf(req)).Some? ==> r.registry == s
    ensures forall slot :: slot != SlotOf(req) ==> Lookup(r.registry, slot) == Lookup(s, slot)
    ensures Extends(s, r.registry)
    ensures WellFormed(s) ==> WellFormed(r.registry)
    ensures WellFormed(s) && r.outcome.Returned? ==> BuiltFor(r.outcome.handle, SlotOf(req))
    ensures env.placeId >= 1 && Lookup(s, SlotOf(req)).None? ==>
      var h := r.outcome.handle;
      && h.id == s.nextId && r.registry.nextId == s.nextId + 1
      && h.name == req.name && h.scope == req.scope
      && h.kind == (if req.legacy then Legacy else if req.ordered then Ordered else Standard)
      && h.v2 == (!req.legacy && !req.ordered && req.useNewApi)
      && h.allScopes == (if !req.legacy && req.ordered then false else req.allScopes)
  {
    if env.placeId < 1 then Step(s, Fatal(env))
    else if req.legacy then
      match s.legacyDataStore
      case Some(h) => Step(s, Returned(h))
      case None =>
        var h := Handle(s.nextId, Legacy, req.name, req.scope, false, req.allScopes);
        Step(s.(legacyDataStore := Some(h), nextId := s.nextId + 1), Returned(h))
    else if req.ordered then
      var key := ComposedKey(req.name, req.scope);
      if key in s.orderedDataStores then Step(s, Returned(s.orderedDataStores[key]))
      else
        var h := Handle(s.nextId, Ordered, req.name, req.scope, false, false);
        Step(s.(orderedDataStores := s.orderedDataStores[key := h], nextId := s.nextId + 1), Returned(h))
    else
      var key := ComposedKey(req.name, req.scope);
      if key in s.dataStores then Step(s, Returned(s.dataStores[key]))
      else
        var h := Handle(s.nextId, Standard, req.name, req.scope, req.useNewApi, req.allScopes);
        Step(s.(dataStores := s.dataStores[key := h], nextId := s.nextId + 1), Returned(h))
  }

  /**
   * A first request for a slot builds the handle there and then: DataStore2
   * exactly when useNewApi was requested, with a fresh identity. A later
   * request for the slot gets that handle whatever its useNewApi and
   * allScopes, so a handle's generation is fixed at creation.
   */
  lemma CreationFixesGeneration(s: Registry, env: Env, req: Request, later: Request)
    requires env.placeId >= 1 && !req.legacy && !req.ordered
    requires Lookup(s, SlotOf(req)).None?
    requires SlotOf(later) == SlotOf(req)
    ensures var first := Internal(s, env, req);
      && first.outcome.handle.v2 == req.useNewApi
      && first.outcome.handle.allScopes == req.allScopes
      && first.outcome.handle.id == s.nextId
      && Internal(first.registry, env, later) == Step(first.registry, first.outcome)
  {
  }

  /** The legacy slot ignores name, scope and allScopes once it is filled. */
  lemma LegacyIgnoresArguments(s: Registry, env: Env, a: Request, b: Request)
    requires env.placeId >= 1 && a.legacy && b.legacy
    ensures var first := Internal(s, env, a);
      Internal(first.registry, env, b) == Step(first.registry, first.outcome)
  {
  }

  /**
   * Ordered and standard handles live in separate maps; because the key is
   * name + "-" + scope, ("a-b", "c") and ("a", "b-c") share one handle.
   */
  lemma ComposedKeyCollision(env: Env)
    requires env.placeId >= 1
    ensures var first := Internal(EmptyRegistry, env, Request("a-b", "c", false, false, false, false));
      var second := Internal(first.registry, env, Request("a", "b-c", false, false, true, false));
      && second.outcome == first.outcome
      && second.outcome.handle.name == "a-b"
      && !second.outcome.handle.v2
  {
    assert ComposedKey("a-b", "c") == ComposedKey("a", "b-c");
  }

  /** A request of one kind leaves the other kinds' slots alone. */
  lemma KindsAreSeparate(s: Registry, env: Env, req: Request)
    ensures req.ordered || req.legacy ==> Internal(s, env, req).registry.dataStores == s.dataStores
    ensures !req.ordered || req.legacy ==> Internal(s, env, req).registry.orderedDataStores == s.orderedDataStores
    ensures !req.legacy ==> Internal(s, env, req).registry.legacyDataStore == s.legacyDataStore
  {
  }

  /**
   * A call into the registry with what it read from outside: the internal
   * step itself, or one of the public getters that lead to it.
   */
  datatype Call =
    | InternalCall(env: Env, request: Request)
    | GlobalCall(env: Env)
    | NamedCall(env: Env, name: string, scope: Option<string>, options: OptionsArg)
    | OrderedCall(env: Env, name: string, scope: Option<string>)

  /** The slot a call reads and fills. */
  function CallSlot(c: Call): Slot {
    match c
    case InternalCall(_, req) => SlotOf(req)
    case GlobalCall(_) => LegacySlot
    case NamedCall(_, name, scope, _) => StandardSlot(ComposedKey(name, scope.GetOr("global")))
    case OrderedCall(_, name, scope) => OrderedSlot(ComposedKey(name, scope.GetOr("global")))
  }

  /**
   * One call. A call that returns a handle leaves it in the call's slot, and
   * returns the handle the slot already held if there was one; a call that
   * throws or exits leaves the registry as it was.
   */
  function Apply(s: Registry, c: Call): (r: Step)
    ensures Extends(s, r.registry)
    ensures WellFormed(s) ==> WellFormed(r.registry)
    ensures r.outcome.Returned? ==> Lookup(r.registry, CallSlot(c)) == Some(r.outcome.handle)
    ensures r.outcome.Returned? && Lookup(s, CallSlot(c)).Some? ==> r.outcome.handle == Lookup(s, CallSlot(c)).value
    ensures !r.outcome.Returned? ==> r.registry == s
  {
    match c
    case InternalCall(env, req) => Internal(s, env, req)
    case GlobalCall(env) => GlobalStore(s, env)
    case NamedCall(env, name, scope, options) => NamedStore(s, env, name, scope, options)
    case OrderedCall(env, name, scope) => OrderedStore(s, env, name, scope)
  }

  /** A sequence of calls, each on the registry the previous one left. */
  function Run(s: Registry, calls: seq<Call>): (r: (Registry, seq<Outcome>))
    ensures |r.1| == |calls|
    decreases |calls|
  {
    if calls == [] then (s, [])
    else
      var st := Apply(s, calls[0]);
      var rest := Run(st.registry, calls[1..]);
      (rest.0, [st.outcome] + rest.1)
  }

  /** A run keeps every handle it starts with, and the invariant. */
  lemma {:induction false} RunExtends(s: Registry, calls: seq<Call>)
    ensures Extends(s, Run(s, calls).0)
    ensures WellFormed(s) ==> WellFormed(Run(s, calls).0)
    decreases |calls|
  {
    if calls != [] {
      var st := Apply(s, calls[0]);
      RunExtends(st.registry, calls[1..]);
      ExtendsTransitive(s, st.registry, Run(st.registry, calls[1..]).0);
    }
  }

  /** Once a slot holds h, every later call for that slot that returns a handle returns h. */
  lemma {:induction false} RunReturnsHeld(s: Registry, calls: seq<Call>, j: nat, h: Handle)
    requires j < |calls|
    requires Lookup(s, CallSlot(calls[j])) == Some(h)
    requires Run(s, calls).1[j].Returned?
    ensures Run(s, calls).1[j] == Returned(h)
    decreases j
  {
    var st := Apply(s, calls[0]);
    assert Run(s, calls).1[1..] == Run(st.registry, calls[1..]).1;
    if j > 0 {
      assert Lookup(st.registry, CallSlot(calls[j])) == Some(h);
      RunReturnsHeld(st.registry, calls[1..], j - 1, h);
    }
  }

  /**
   * "Subsequent calls with the same name/scope return the same object", over
   * any sequence of GetGlobalDataStore, GetDataStore, GetOrderedDataStore and
   * internal calls: two calls for the same slot that both return a handle
   * return the same one. The legacy slot is one slot whatever the name,
   * scope or allScopes; an omitted scope is 'global'.
   */
  lemma {:induction false} RunSingleton(s: Registry, calls: seq<Call>, i: nat, j: nat)
    requires i < j < |calls|
    requires CallSlot(calls[i]) == CallSlot(calls[j])
    requires Run(s, calls).1[i].Returned? && Run(s, calls).1[j].Returned?
    ensures Run(s, calls).1[i] == Run(s, calls).1[j]
    decreases i
  {
    var st := Apply(s, calls[0]);
    assert Run(s, calls).1[1..] == Run(st.registry, calls[1..]).1;
    if i > 0 {
      RunSingleton(st.registry, calls[1..], i - 1, j - 1);
    } else {
      assert st.outcome.Returned?;
      RunReturnsHeld(st.registry, calls[1..], j - 1, st.outcome.handle);
    }
  }

  /** GetDataStore(name) and GetDataStore(name, 'global') name the same store. */
  lemma OmittedScopeSharesHandle(env: Env, name: string, options: OptionsArg)
    requires env.placeId >= 1 && env.acceptsNameAndScope(name, "global")
    requires UseNewApi(env.v2Enabled, options).Ok?
    ensures var calls := [NamedCall(env, name, None, options), NamedCall(env, name, Some("global"), Omitted)];
      Run(EmptyRegistry, calls).1[0] == Run(EmptyRegistry, calls).1[1]
  {
    var calls := [NamedCall(env, name, None, options), NamedCall(env, name, Some("global"), Omitted)];
    assert UseNewApi(env.v2Enabled, Omitted).Ok?;
    RunSingleton(EmptyRegistry, calls, 0, 1);
  }

  // ---- The source as written ----

  /**
   * getDataStoreInternal as written: `has` looks at the Map's entries, which
   * the bracket assignments never fill, so a standard or ordered request
   * always builds a new handle and overwrites the property under its key.
   */
  function InternalAsWritten(s: Registry, env: Env, req: Request): (r: Step)
    ensures env.placeId >= 1 && !req.legacy ==> r.outcome.Returned? && r.outcome.handle.id == s.nextId
  {
    if env.placeId < 1 || req.legacy then Internal(s, env, req)
    else
      var key := ComposedKey(req.name, req.scope);
      if req.ordered then
        var h := Handle(s.nextId, Ordered, req.name, req.scope, false, false);
        Step(s.(orderedDataStores := s.orderedDataStores[key := h], nextId := s.nextId + 1), Returned(h))
      else
        var h := Handle(s.nextId, Standard, req.name, req.scope, req.useNewApi, req.allScopes);
        Step(s.(dataStores := s.dataStores[key := h], nextId := s.nextId + 1), Returned(h))
  }

  /** As written, asking twice for the same name and scope gives two different objects. */
  lemma AsWrittenRebuildsHandle(s: Registry, env: Env, req: Request)
    requires env.placeId >= 1 && !req.legacy
    ensures var first := InternalAsWritten(s, env, req);
      var second := InternalAsWritten(first.registry, env, req);
      first.outcome.handle != second.outcome.handle
  {
  }

  // ---- Version negotiation and the public getters ----

  /**
   * useNewApi: with the V2 flag on, only DataStoreOptions whose 'v2' entry is
   * boolean true get the new API, other DataStoreOptions are refused with a
   * ReferenceError naming their class, and anything else gets the old API;
   * with the flag off, any options other than undefined or null are refused
   * with a TypeError.
   */
  function UseNewApi(v2Enabled: bool, options: OptionsArg): (r: Result<bool, Failure>)
    ensures r == Ok(true) <==> v2Enabled && options.StoreOptions? && options.v2 == Bool(true)
    ensures r == Err(OptionsNotDataStoreOptions) <==> !v2Enabled && !options.Omitted? && !options.NullOptions?
    ensures (r.Err? && r.error.V2NotRequested?) <==> v2Enabled && options.StoreOptions? && options.v2 != Bool(true)
    ensures r.Err? && r.error.V2NotRequested? ==> r.error.className == options.className
    ensures v2Enabled && !options.StoreOptions? ==> r == Ok(false)
    ensures !v2Enabled && (options.Omitted? || options.NullOptions?) ==> r == Ok(false)
  {
    if v2Enabled then
      match options
      case StoreOptions(className, v2, _) =>
        if v2.Bool? && v2.b then Ok(true) else Err(V2NotRequested(className))
      case _ => Ok(false)
    else if !options.Omitted? && !options.NullOptions? then Err(OptionsNotDataStoreOptions)
    else Ok(false)
  }

  /** `options ? options.AllScopes : false`. */
  function AllScopesOf(options: OptionsArg): bool {
    match options
    case Omitted => false
    case NullOptions => false
    case StoreOptions(_, _, allScopes) => allScopes
    case OtherValue(truthy, allScopes) => truthy && allScopes
  }

  /** GetGlobalDataStore: the legacy handle, requested as ('', 'u'). */
  function GlobalStore(s: Registry, env: Env): (r: Step)
    ensures env.placeId < 1 ==> r == Step(s, Fatal(env))
    ensures env.placeId >= 1 && s.legacyDataStore.Some? ==> r == Step(s, Returned(s.legacyDataStore.value))
    ensures env.placeId >= 1 && s.legacyDataStore.None? ==>
      && r.outcome == Returned(Handle(s.nextId, Legacy, "", "u", false, false))
      && r.registry == s.(legacyDataStore := Some(r.outcome.handle), nextId := s.nextId + 1)
  {
    Internal(s, env, Request("", "u", true, false, false, false))
  }

  /**
   * GetDataStore: the validator runs first, then useNewApi (an argument of
   * the inner call), then the inner call's place id guard. Scope defaults
   * to 'global'.
   */
  function NamedStore(s: Registry, env: Env, name: string, scope: Option<string>, options: OptionsArg): (r: Step)
    ensures var sc := scope.GetOr("global");
      && (!env.acceptsNameAndScope(name, sc) ==> r == Step(s, Threw(InvalidNameOrScope)))
      && (env.acceptsNameAndScope(name, sc) && UseNewApi(env.v2Enabled, options).Err? ==>
            r == Step(s, Threw(UseNewApi(env.v2Enabled, options).error)))
      && (env.acceptsNameAndScope(name, sc) && UseNewApi(env.v2Enabled, options).Ok? ==>
            r == Internal(s, env, Request(name, sc, false, false, UseNewApi(env.v2Enabled, options).value, AllScopesOf(options))))
    ensures r.registry.orderedDataStores == s.orderedDataStores && r.registry.legacyDataStore == s.legacyDataStore
  {
    var sc := scope.GetOr("global");
    if !env.acceptsNameAndScope(name, sc) then Step(s, Threw(InvalidNameOrScope))
    else match UseNewApi(env.v2Enabled, options)
      case Err(f) => Step(s, Threw(f))
      case Ok(v2) => Internal(s, env, Request(name, sc, false, false, v2, AllScopesOf(options)))
  }

  /** GetOrderedDataStore: validated like GetDataStore but never negotiates a version. */
  function OrderedStore(s: Registry, env: Env, name: string, scope: Option<string>): (r: Step)
    ensures !env.acceptsNameAndScope(name, scope.GetOr("global")) ==> r == Step(s, Threw(InvalidNameOrScope))
    ensures env.acceptsNameAndScope(name, scope.GetOr("global")) ==>
      r == Internal(s, env, Request(name, scope.GetOr("global"), false, true, false, false))
    ensures WellFormed(s) && r.outcome.Returned? ==> r.outcome.handle.kind == Ordered && !r.outcome.handle.v2
    ensures r.registry.dataStores == s.dataStores && r.registry.legacyDataStore == s.legacyDataStore
  {
    var sc := scope.GetOr("global");
    if !env.acceptsNameAndScope(name, sc) then Step(s, Threw(InvalidNameOrScope))
    else Internal(s, env, Request(name, sc, false, true, false, false))
  }

  /** An omitted scope is the scope 'global'. */
  lemma ScopeDefaultsToGlobal(s: Registry, env: Env, name: string, options: OptionsArg)
    ensures NamedStore(s, env, name, None, options) == NamedStore(s, env, name, Some("global"), options)
    ensures OrderedStore(s, env, name, None) == OrderedStore(s, env, name, Some("global"))
  {
  }

  /** The V2 flag has no say in GetOrderedDataStore. */
  lemma OrderedIgnoresV2Flag(s: Registry, env: Env, name: string, scope: Option<string>, flag: bool)
    ensures OrderedStore(s, env, name, scope) == OrderedStore(s, env.(v2Enabled := flag), name, scope)
  {
  }

  /**
   * With the V2 flag on and DataStoreOptions that ask for v2, a new key gets
   * a DataStore2; with the flag off and no options, a DataStore.
   */
  lemma NegotiatedGeneration(s: Registry, env: Env, name: string, className: string, allScopes: bool)
    requires env.placeId >= 1 && env.acceptsNameAndScope(name, "global")
    requires ComposedKey(name, "global") !in s.dataStores
    ensures env.v2Enabled ==>
      var r := NamedStore(s, env, name, None, StoreOptions(className, Bool(true), allScopes));
      r.outcome.Returned? && r.outcome.handle.v2 && r.outcome.handle.allScopes == allScopes
    ensures !env.v2Enabled ==>
      var r := NamedStore(s, env, name, None, Omitted);
      r.outcome.Returned? && !r.outcome.handle.v2 && !r.outcome.handle.allScopes
  {
  }

  // ---- Asynchronous operations ----

  /**
   * How a promise ends: resolved, rejected through the error callback, never
   * settled because the async executor threw (the error becomes an unhandled
   * rejection), or ended by process.exit inside the executor.
   */
  datatype Settled<T> = Resolved(value: T) | Rejected(reason: string) | Unsettled(thrown: Failure) | Terminated(code: int)

  const StudioAccessMessage := "Cannot write to DataStore from studio if API access is not enabled. Enable it by going to the Game Settings page."
  const ApiNotSupportedMessage := "400: API not supported"

  /**
   * checkStudioApiAccess: asks the access probe once (`probe` is its answer);
   * on a refusal it reports the fixed message through the callback, when
   * there is one, and answers false.
   */
  method CheckStudioApiAccess(probe: bool, hasErrorFunction: bool) returns (allowed: bool, report: Option<string>, ghost probeCalls: nat)
    ensures probeCalls == 1
    ensures allowed == probe
    ensures report == if !probe && hasErrorFunction then Some(StudioAccessMessage) else None
  {
    probeCalls := 1;
    allowed := true;
    report := None;
    if !probe {
      if hasErrorFunction {
        report := Some(StudioAccessMessage);
      }
      allowed := false;
    }
  }

  /** The request target built from the universe id, prefix and page size. */
  datatype ListTarget = ListTarget(universeId: int, prefix: string, pageSize: int)

  /** A DataStoreListingPages bound to a target, and how often it was advanced. */
  datatype ListingPage = ListingPage(target: ListTarget, advances: nat)

  /**
   * ListDataStoresAsync: the V2 flag first, then the access probe; only then
   * one page is built and advanced once before it is handed back.
   */
  method ListDataStoresAsync(env: Env, probe: bool, prefix: Option<string>, pageSize: Option<int>)
    returns (r: Settled<ListingPage>, ghost probeCalls: nat)
    ensures !env.v2Enabled ==> r == Rejected(ApiNotSupportedMessage) && probeCalls == 0
    ensures env.v2Enabled ==> probeCalls == 1
    ensures env.v2Enabled && !probe ==> r == Rejected(StudioAccessMessage)
    ensures env.v2Enabled && probe ==>
      r == Resolved(ListingPage(ListTarget(env.universeId, prefix.GetOr(""), pageSize.GetOr(0)), 1))
  {
    probeCalls := 0;
    if !env.v2Enabled {
      return Rejected(ApiNotSupportedMessage), probeCalls;
    }
    var allowed, report;
    allowed, report, probeCalls := CheckStudioApiAccess(probe, true);
    if !allowed {
      return Rejected(report.value), probeCalls;
    }
    var target := ListTarget(env.universeId, prefix.GetOr(""), pageSize.GetOr(0));
    var page := ListingPage(target, 0);
    page := page.(advances := page.advances + 1);
    r := Resolved(page);
  }

  const NotEnabledMessage := "GetDataFromEmptyScopeDataStoreAsyncTemporary is not enabled"
  const EmptyNameMessage := "DataStore name can't be empty string"
  const NameTooLongMessage := "DataStore name is too long"

  /**
   * GetDataFromEmptyScopeDataStoreAsyncTemporary: the feature flag (a
   * property of the DFFlag function object), then an empty name, then a
   * name longer than the key length limit; only then a standard, non-v2
   * handle with scope '' is fetched and `read` (what its GetAsync resolves
   * to) answers.
   */
  function EmptyScopeRead(s: Registry, env: Env, name: string, key: string, read: (Handle, string) -> Value): (r: (Registry, Settled<Value>))
    ensures !Truthy(env.lostDataFixProperty) ==> r == (s, Rejected(NotEnabledMessage))
    ensures Truthy(env.lostDataFixProperty) && |name| == 0 ==> r == (s, Rejected(EmptyNameMessage))
    ensures Truthy(env.lostDataFixProperty) && 0 < |name| && |name| > env.keyLengthLimit ==> r == (s, Rejected(NameTooLongMessage))
    ensures Truthy(env.lostDataFixProperty) && 0 < |name| <= env.keyLengthLimit ==>
      var st := Internal(s, env, Request(name, "", false, false, false, false));
      && r.0 == st.registry
      && (env.placeId >= 1 ==> r.1 == Resolved(read(st.outcome.handle, key)))
      && (env.placeId < 1 ==> r.1 == if env.pcallFix then Unsettled(PlaceNotOpened) else Terminated(1))
  {
    if !Truthy(env.lostDataFixProperty) then (s, Rejected(NotEnabledMessage))
    else if |name| == 0 then (s, Rejected(EmptyNameMessage))
    else if |name| > env.keyLengthLimit then (s, Rejected(NameTooLongMessage))
    else
      var st := Internal(s, env, Request(name, "", false, false, false, false));
      match st.outcome
      case Returned(h) => (st.registry, Resolved(read(h, key)))
      case Threw(f) => (st.registry, Unsettled(f))
      case Exited(code) => (st.registry, Terminated(code))
  }

  // ---- The service object ----

  class DataStoreService {
    var dataStores: map<string, Handle>
    var orderedDataStores: map<string, Handle>
    var legacyDataStore: Option<Handle>
    /** Handles constructed so far; the next one gets this identity. */
    var nextId: nat

    function State(): Registry
      reads this
    {
      Registry(dataStores, orderedDataStores, legacyDataStore, nextId)
    }

    ghost predicate Valid()
      reads this
    {
      WellFormed(State())
    }

    /** The static state when the class is loaded: both maps empty, no legacy handle. */
    constructor ()
      ensures Valid() && State() == EmptyRegistry
    {
      dataStores := map[];
      orderedDataStores := map[];
      legacyDataStore := None;
      nextId := 0;
    }

    /** Build a handle: a new object with the next identity. */
    method Construct(kind: Kind, name: string, scope: string, v2: bool, allScopes: bool) returns (h: Handle)
      modifies this`nextId
      ensures h == Handle(old(nextId), kind, name, scope, v2, allScopes)
      ensures nextId == old(nextId) + 1
    {
      h := Handle(nextId, kind, name, scope, v2, allScopes);
      nextId := nextId + 1;
    }

    method GetDataStoreInternal(env: Env, name: string, scope: string, legacy: bool, ordered: bool, useNewApi: bool, allScopes: bool)
      returns (r: Outcome)
      requires Valid()
      modifies this
      ensures Valid()
      ensures Step(State(), r) == Internal(old(State()), env, Request(name, scope, legacy, ordered, useNewApi, allScopes))
    {
      ghost var spec := Internal(State(), env, Request(name, scope, legacy, ordered, useNewApi, allScopes));
      if env.placeId < 1 {
        if env.pcallFix {
          return Threw(PlaceNotOpened);
        }
        return Exited(1);
      }
      if legacy {
        if legacyDataStore.None? {
          var h := Construct(Legacy, name, scope, false, allScopes);
          legacyDataStore := Some(h);
        }
        return Returned(legacyDataStore.value);
      } else if ordered {
        var key := ComposedKey(name, scope);
        if key !in orderedDataStores {
          var ds := Construct(Ordered, name, scope, false, false);
          orderedDataStores := orderedDataStores[key := ds];
          return Returned(ds);
        }
        return Returned(orderedDataStores[key]);
      } else {
        var key := ComposedKey(name, scope);
        if key !in dataStores {
          var ds: Handle;
          if !useNewApi {
            ds := Construct(Standard, name, scope, false, allScopes);
          } else {
            ds := Construct(Standard, name, scope, true, allScopes);
          }
          dataStores := dataStores[key := ds];
          return Returned(ds);
        }
        return Returned(dataStores[key]);
      }
    }

    method GetGlobalDataStore(env: Env) returns (r: Outcome)
      requires Valid()
      modifies this
      ensures Valid()
      ensures Step(State(), r) == GlobalStore(old(State()), env)
    {
      r := GetDataStoreInternal(env, "", "u", true, false, false, false);
    }

    method GetDataStore(env: Env, name: string, scope: Option<string>, options: OptionsArg) returns (r: Outcome)
      requires Valid()
      modifies this
      ensures Valid()
      ensures Step(State(), r) == NamedStore(old(State()), env, name, scope, options)
    {
      var sc := scope.GetOr("global");
      if !env.acceptsNameAndScope(name, sc) {
        return Threw(InvalidNameOrScope);
      }
      var v2 := UseNewApi(env.v2Enabled, options);
      if v2.Err? {
        return Threw(v2.error);
      }
      r := GetDataStoreInternal(env, name, sc, false, false, v2.value, AllScopesOf(options));
    }

    method GetOrderedDataStore(env: Env, name: string, scope: Option<string>) returns (r: Outcome)
      requires Valid()
      modifies this
      ensures Valid()
      ensures Step(State(), r) == OrderedStore(old(State()), env, name, scope)
    {
      var sc := scope.GetOr("global");
      if !env.acceptsNameAndScope(name, sc) {
        return Threw(InvalidNameOrScope);
      }
      r := GetDataStoreInternal(env, name, sc, false, true, false, false);
    }

    method GetDataFromEmptyScopeDataStoreAsyncTemporary(env: Env, name: string, key: string, read: (Handle, string) -> Value)
      returns (r: Settled<Value>)
      requires Valid()
      modifies this
      ensures Valid()
      ensures (State(), r) == EmptyScopeRead(old(State()), env, name, key, read)
    {
      if !Truthy(env.lostDataFixProperty) {
        return Rejected(NotEnabledMessage);
      }
      if |name| == 0 {
        return Rejected(EmptyNameMessage);
      }
      if |name| > env.keyLengthLimit {
        return Rejected(NameTooLongMessage);
      }
      var ds := GetDataStoreInternal(env, name, "", false, false, false, false);
      match ds
      case Returned(h) => r := Resolved(read(h, key));
      case Threw(f) => r := Unsettled(f);
      case Exited(code) => r := Terminated(code);
    }
  }

  /** Table x after the service's registrations, given its contents once setUpFLog has run. */
  function Registered(x: FastLog.Table, imported: map<string, Value>): map<string, Value> {
    if x == FastLog.Record(FastLog.Fast, FastLog.Log) then FastLog.SetDefault(imported, "DataStore", Num(0))
    else if x == FastLog.Cache(FastLog.Flag) then
      FastLog.KeepTruthy(FastLog.KeepTruthy(FastLog.KeepTruthy(imported,
        "GetGlobalDataStorePcallFix", Bool(false)),
        "DataStoreLostDataFixEnable", Bool(false)),
        "DataStoresV2Enabled", Bool(false))
    else if x == FastLog.Cache(FastLog.Int) then FastLog.SetDefault(imported, "DataStoreKeyLengthLimit", Num(0))
    else imported
  }

  /**
   * After the registrations the log group, the three flags and the key
   * length limit are all defined (`!== undefined`), and each flag is on
   * exactly when its imported value was truthy: the false defaults never
   * switch a flag on or off.
   */
  lemma RegisteredDefinesServiceVariables(x: FastLog.Table, imported: map<string, Value>)
    ensures x == FastLog.Record(FastLog.Fast, FastLog.Log) ==> Prop(Registered(x, imported), "DataStore") != Undefined
    ensures x == FastLog.Cache(FastLog.Int) ==> Prop(Registered(x, imported), "DataStoreKeyLengthLimit") != Undefined
    ensures x == FastLog.Cache(FastLog.Flag) ==>
      forall n :: n in ServiceFlags ==>
        && Prop(Registered(x, imported), n) != Undefined
        && (Truthy(Prop(Registered(x, imported), n)) <==> Truthy(Prop(imported, n)))
  {
    if x == FastLog.Cache(FastLog.Flag) {
      var m1 := FastLog.KeepTruthy(imported, "GetGlobalDataStorePcallFix", Bool(false));
      var m2 := FastLog.KeepTruthy(m1, "DataStoreLostDataFixEnable", Bool(false));
      var m3 := FastLog.KeepTruthy(m2, "DataStoresV2Enabled", Bool(false));
      assert Registered(x, imported) == m3;
      forall n | n in ServiceFlags
        ensures Prop(m3, n) != Undefined && (Truthy(Prop(m3, n)) <==> Truthy(Prop(imported, n)))
      {
      }
    }
  }

  /**
   * The module-level registrations of DataStoreService: LOGGROUP('DataStore'),
   * three DYNAMIC_FASTFLAGVARIABLE flags defaulting to false, and
   * DYNAMIC_FASTINT('DataStoreKeyLengthLimit'). setUpFLog runs first unless
   * it already has; then the log group keeps a defined level or gets 0, each
   * flag in the flag cache becomes `existing || false`, the key length limit
   * keeps a defined value or gets 0, and every other table is as imported.
   */
  method RegisterServiceVariables(tool: FastLog.FastLogTool, cs: FastLog.ClientSettings)
    requires tool.Valid()
    modifies tool
    ensures tool.Valid() && tool.setup
    ensures tool.fSettings == if old(tool.setup) then old(tool.fSettings) else old(tool.fSettings) + FastLog.Packs(cs.fSettings)
    ensures forall x :: tool.Get(x) == Registered(x, FastLog.Prepared(old(tool.tables), old(tool.setup), cs, x))
  {
    var logs, flags, ints := FastLog.Record(FastLog.Fast, FastLog.Log), FastLog.Cache(FastLog.Flag), FastLog.Cache(FastLog.Int);
    tool.Reference(FastLog.Fast, FastLog.Log, "DataStore", cs);
    ghost var t1 := tool.tables;
    tool.Variable(FastLog.Dynamic, FastLog.Flag, "GetGlobalDataStorePcallFix", Bool(false), cs);
    ghost var t2 := tool.tables;
    forall x: FastLog.Table
      ensures FastLog.TableOf(t2, x) == if x == flags then FastLog.KeepTruthy(FastLog.TableOf(t1, x), "GetGlobalDataStorePcallFix", Bool(false)) else FastLog.TableOf(t1, x)
    {
      assert tool.Get(x) == FastLog.TableOf(t2, x);
    }
    tool.Variable(FastLog.Dynamic, FastLog.Flag, "DataStoreLostDataFixEnable", Bool(false), cs);
    ghost var t3 := tool.tables;
    forall x: FastLog.Table
      ensures FastLog.TableOf(t3, x) == if x == flags then FastLog.KeepTruthy(FastLog.TableOf(t2, x), "DataStoreLostDataFixEnable", Bool(false)) else FastLog.TableOf(t2, x)
    {
      assert tool.Get(x) == FastLog.TableOf(t3, x);
    }
    tool.Variable(FastLog.Dynamic, FastLog.Flag, "DataStoresV2Enabled", Bool(false), cs);
    ghost var t4 := tool.tables;
    forall x: FastLog.Table
      ensures FastLog.TableOf(t4, x) == if x == flags then FastLog.KeepTruthy(FastLog.TableOf(t3, x), "DataStoresV2Enabled", Bool(false)) else FastLog.TableOf(t3, x)
    {
      assert tool.Get(x) == FastLog.TableOf(t4, x);
    }
    tool.Reference(FastLog.Dynamic, FastLog.Int, "DataStoreKeyLengthLimit", cs);
    forall x: FastLog.Table
      ensures tool.Get(x) == if x == ints then FastLog.SetDefault(FastLog.TableOf(t4, x), "DataStoreKeyLengthLimit", Num(0)) else FastLog.TableOf(t4, x)
    {
    }
  }

  const ServiceFlags: set<string> := {"GetGlobalDataStorePcallFix", "DataStoreLostDataFixEnable", "DataStoresV2Enabled"}

  /**
   * Without a live dynamic-flag table, DFFlag reads the `cache` object itself,
   * so the defaults registered above are never consulted and every service
   * flag reads false.
   */
  lemma ServiceFlagsOffWithoutLiveTable(cs: FastLog.ClientSettings, cached: map<string, Value>, name: string)
    requires (FastLog.Dynamic, FastLog.Flag) !in cs.groups
    requires name in ServiceFlags
    ensures FastLog.DynamicValue(FastLog.Flag, name, cs, cached) == Bool(false)
  {
    FastLog.NoLiveTableIgnoresCache(FastLog.Flag, name, cs, cached);
  }
}
