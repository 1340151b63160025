/** The parts of the Move VM that the witness builder and the key generator touch: compiled
    modules and their positional tables, the in-memory state store, and the VM library calls,
    which are given as an oracle record `Vm` of total functions. */
module MoveVm {
  import opened Common

  datatype Address = Address(bytes: Bytes)
  datatype Identifier = Identifier(text: string)
  datatype ModuleId = ModuleId(address: Address, name: Identifier)

  /** A function definition points at a function handle by position. */
  datatype FunctionDefinition = FunctionDefinition(handle: nat)
  /** A function handle names its function by position in the identifier pool. */
  datatype FunctionHandle = FunctionHandle(name: nat)

  datatype RawModule = RawModule(
    selfId: ModuleId,
    functionHandles: seq<FunctionHandle>,
    functionDefs: seq<FunctionDefinition>,
    identifiers: seq<Identifier>)

  /** The index bounds that deserialisation checks before it yields a module. */
  ghost predicate BoundsChecked(m: RawModule) {
    && (forall d :: d in m.functionDefs ==> d.handle < |m.functionHandles|)
    && (forall h :: h in m.functionHandles ==> h.name < |m.identifiers|)
  }

  /** A module as `CompiledModule::deserialize` returns it. */
  type CompiledModule = m: RawModule | BoundsChecked(m)
    witness RawModule(ModuleId(Address([]), Identifier("")), [], [], [])

  /** The name of the function defined at position `index`: its definition gives a handle
      position, the handle gives an identifier position. The source indexes without checks,
      so an index outside the definition table is the caller's fault. */
  function FunctionNameAt(m: CompiledModule, index: nat): (name: Identifier)
    requires index < |m.functionDefs|
    ensures name in m.identifiers
    ensures exists h :: 0 <= h < |m.functionHandles| && m.functionDefs[index].handle == h
                        && m.identifiers[m.functionHandles[h].name] == name
  {
    var def := m.functionDefs[index];
    assert def in m.functionDefs;
    var handle := m.functionHandles[def.handle];
    assert handle in m.functionHandles;
    m.identifiers[handle.name]
  }

  /** Foreign VM values, kept opaque. */
  datatype TypeTag = TypeTag(repr: string)
  datatype TransactionArgument = TransactionArgument(repr: string)
  datatype ExecutionTrace = ExecutionTrace(steps: seq<Bytes>)
  datatype Witness = Witness(content: Bytes)

  /** Global resources held by a state store. */
  datatype Globals = Globals(resources: map<Bytes, Bytes>)

  /** What a VM run can see of a state store. */
  datatype StoreView = StoreView(modules: map<ModuleId, CompiledModule>, globals: Globals)

  /** The circuit configuration of the witness library, as seen through its builder: five
      optional bounds set directly and three bounds with library defaults. */
  datatype WitnessConfig = WitnessConfig(
    maxStepRow: Option<nat>,
    stackOpsNum: Option<nat>,
    localsOpsNum: Option<nat>,
    globalOpsNum: Option<nat>,
    wordSize: Option<nat>,
    maxFrameIndex: nat,
    maxLocalsSize: nat,
    maxStackSize: nat)

  datatype Error =
    | Deserialize(detail: string)
    | InvalidUtf8(detail: string)
    | ParseTypeTags(detail: string)
    | NoTypeTag                        // "parse type arg failure"
    | ParseArgument(detail: string)
    | InvalidAddress(detail: string)
    | InvalidIdentifier(detail: string)
    | ModuleNotFound(id: ModuleId)     // "cannot find module {id}"
    | ConfigDecode(detail: string)
    | TraceProcessing(detail: string)
    | CircuitSizing(detail: string)
    | KeySetup(detail: string)

  /** The VM library as an oracle: deserialisation, the text parsers, execution and
      trace processing. `defaultWitnessConfig` is the witness library's `Default`. */
  datatype Vm = Vm(
    deserialize: Bytes -> Result<CompiledModule, Error>,
    fromUtf8: Bytes -> Result<string, Error>,
    parseTypeTags: string -> Result<seq<TypeTag>, Error>,
    parseTransactionArgument: string -> Result<TransactionArgument, Error>,
    addressFromBytes: Bytes -> Result<Address, Error>,
    identifierFromUtf8: Bytes -> Result<Identifier, Error>,
    executeEntryFunction: (ModuleId, Identifier, seq<TypeTag>, Option<seq<TransactionArgument>>, StoreView)
                          -> Result<ExecutionTrace, string>,
    executeScript: (seq<CompiledModule>, seq<TypeTag>, Option<seq<TransactionArgument>>, StoreView, WitnessConfig)
                   -> Result<(Witness, Globals), string>,
    processExecutionTrace: (seq<TypeTag>, ModuleId, Identifier, seq<CompiledModule>, ExecutionTrace, WitnessConfig)
                           -> Result<Witness, Error>,
    decodeConfig: Bytes -> Result<WitnessConfig, Error>,
    defaultWitnessConfig: WitnessConfig)

  /** The module table after `add_module` of each of `ms` in order onto `base`: each module
      is stored under its own id, a later one replacing an earlier one. */
  function Registered(base: map<ModuleId, CompiledModule>, ms: seq<CompiledModule>): (r: map<ModuleId, CompiledModule>)
    ensures base.Keys <= r.Keys
    ensures forall i :: 0 <= i < |ms| ==> ms[i].selfId in r
    ensures ms != [] ==> r[Last(ms).selfId] == Last(ms)
  {
    if ms == [] then base
    else Registered(base, ms[..|ms| - 1])[Last(ms).selfId := Last(ms)]
  }

  /** Registering adds exactly the ids of the registered modules. */
  lemma {:induction false} RegisteredKeys(base: map<ModuleId, CompiledModule>, ms: seq<CompiledModule>)
    ensures Registered(base, ms).Keys == base.Keys + set m | m in ms :: m.selfId
  {
    if ms != [] {
      var init := ms[..|ms| - 1];
      RegisteredKeys(base, init);
      assert ms == init + [Last(ms)];
      assert (set m | m in ms :: m.selfId) == (set m | m in init :: m.selfId) + {Last(ms).selfId};
    }
  }

  /** Every entry of the table is either untouched from `base` or one of the registered
      modules, stored under its own id. */
  lemma {:induction false} RegisteredValues(base: map<ModuleId, CompiledModule>, ms: seq<CompiledModule>, id: ModuleId)
    requires id in Registered(base, ms)
    ensures || (Registered(base, ms)[id] in ms && Registered(base, ms)[id].selfId == id)
            || (id in base && Registered(base, ms)[id] == base[id])
  {
    if ms != [] && id != Last(ms).selfId {
      var init := ms[..|ms| - 1];
      RegisteredValues(base, init, id);
      assert ms == init + [Last(ms)];
    }
  }

  /** An in-memory state store: the registered modules and the global resources. */
  class StateStore {
    var modules: map<ModuleId, CompiledModule>
    var globals: Globals

    /** `StateStore::new()` */
    constructor()
      ensures modules == map[] && globals == Globals(map[])
    {
      modules := map[];
      globals := Globals(map[]);
    }

    function View(): StoreView
      reads this
    {
      StoreView(modules, globals)
    }

    /** `get_module`: the module registered under `id`, if any. */
    function GetModule(id: ModuleId): (r: Option<CompiledModule>)
      reads this
      ensures r.Some? <==> id in modules
      ensures r.Some? ==> r.value == modules[id]
    {
      if id in modules then Some(modules[id]) else None
    }

    /** `add_module` */
    method AddModule(m: CompiledModule)
      modifies this
      ensures modules == old(modules)[m.selfId := m]
      ensures globals == old(globals)
    {
      modules := modules[m.selfId := m];
    }

    /** Keeps the resources a VM run left behind. */
    method Commit(g: Globals)
      modifies this
      ensures globals == g
      ensures modules == old(modules)
    {
      globals := g;
    }
  }

  /** The module-loading loop of both the key generator and the witness builder: deserialise
      the blobs in order, registering each in `state` as it comes; the first blob that fails to
      deserialise ends the loop with its error. */
  method LoadModules(vm: Vm, state: StateStore, blobs: seq<Bytes>) returns (r: Result<seq<CompiledModule>, Error>)
    modifies state
    ensures r == Traverse(vm.deserialize, blobs)
    ensures r.Ok? ==> state.modules == Registered(old(state.modules), r.value)
    ensures state.globals == old(state.globals)
  {
    var compiled: seq<CompiledModule> := [];
    for i := 0 to |blobs|
      invariant Traverse(vm.deserialize, blobs[..i]) == Ok(compiled)
      invariant state.modules == Registered(old(state.modules), compiled)
      invariant state.globals == old(state.globals)
    {
      assert blobs[..i + 1][..i] == blobs[..i];
      var m := vm.deserialize(blobs[i]);
      if m.Err? {
        TraverseStopsAtError(vm.deserialize, blobs, i + 1);
        return Err(m.error);
      }
      assert Traverse(vm.deserialize, blobs[..i + 1]) == Ok(compiled + [m.value]);
      assert (compiled + [m.value])[..|compiled|] == compiled;
      compiled := compiled + [m.value];
      state.AddModule(m.value);
    }
    assert blobs[..|blobs|] == blobs;
    r := Ok(compiled);
  }

  /** Once a prefix of the input fails to convert, the whole collection fails the same way. */
  lemma {:induction false} TraverseStopsAtError<A, B, E>(f: A -> Result<B, E>, xs: seq<A>, n: nat)
    requires 0 < n <= |xs|
    requires Traverse(f, xs[..n]).Err?
    ensures Traverse(f, xs) == Traverse(f, xs[..n])
    decreases |xs| - n
  {
    if n < |xs| {
      assert xs[..n + 1][..n] == xs[..n];
      TraverseStopsAtError(f, xs, n + 1);
    } else {
      assert xs[..n] == xs;
    }
  }
}
