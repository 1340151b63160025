/** The execution-witness builder: load the modules into a fresh store, decode the query's
    arguments, resolve the entry function positionally, execute it and turn the trace into a
    witness. Everything foreign goes through the `Vm` oracle record. */
module QueryRunner {
  import opened Common
  import opened AggerTypes
  import opened MoveVm

  /** The `(config, vk, param)` blobs published for a function. */
  datatype VerificationParameters = VerificationParameters(config: Bytes, vk: Bytes, param: Bytes)

  /** One type argument: UTF-8 text that parses to a non-empty list of type tags, of which
      the last is taken. */
  function DecodeTyArg(vm: Vm, t: Bytes): (r: Result<TypeTag, Error>)
    ensures r.Ok? <==>
      && vm.fromUtf8(t).Ok?
      && vm.parseTypeTags(vm.fromUtf8(t).value).Ok?
      && vm.parseTypeTags(vm.fromUtf8(t).value).value != []
    ensures r.Ok? ==> r.value == Last(vm.parseTypeTags(vm.fromUtf8(t).value).value)
    ensures vm.fromUtf8(t).Ok? && vm.parseTypeTags(vm.fromUtf8(t).value) == Ok([]) ==> r == Err(NoTypeTag)
    ensures vm.fromUtf8(t).Err? ==> r == Err(vm.fromUtf8(t).error)
    ensures vm.fromUtf8(t).Ok? && vm.parseTypeTags(vm.fromUtf8(t).value).Err? ==>
      r == Err(vm.parseTypeTags(vm.fromUtf8(t).value).error)
  {
    match vm.fromUtf8(t)
    case Err(e) => Err(e)
    case Ok(s) =>
      match vm.parseTypeTags(s)
      case Err(e) => Err(e)
      case Ok(tags) => if tags == [] then Err(NoTypeTag) else Ok(Last(tags))
  }

  /** One value argument: UTF-8 text that parses to a transaction argument. */
  function DecodeArg(vm: Vm, a: Bytes): (r: Result<TransactionArgument, Error>)
    ensures r.Ok? <==> vm.fromUtf8(a).Ok? && vm.parseTransactionArgument(vm.fromUtf8(a).value).Ok?
    ensures r.Ok? ==> Ok(r.value) == vm.parseTransactionArgument(vm.fromUtf8(a).value)
    ensures vm.fromUtf8(a).Err? ==> r == Err(vm.fromUtf8(a).error)
    ensures vm.fromUtf8(a).Ok? && vm.parseTransactionArgument(vm.fromUtf8(a).value).Err? ==>
      r == Err(vm.parseTransactionArgument(vm.fromUtf8(a).value).error)
  {
    match vm.fromUtf8(a)
    case Err(e) => Err(e)
    case Ok(s) => vm.parseTransactionArgument(s)
  }

  /** All type arguments, in order; the first that fails to decode ends the stage with its
      error. */
  function DecodeTyArgs(vm: Vm, tyArgs: seq<Bytes>): (r: Result<seq<TypeTag>, Error>)
    ensures r.Ok? <==> forall i :: 0 <= i < |tyArgs| ==> DecodeTyArg(vm, tyArgs[i]).Ok?
    ensures r.Ok? ==> |r.value| == |tyArgs| && forall i :: 0 <= i < |tyArgs| ==> DecodeTyArg(vm, tyArgs[i]) == Ok(r.value[i])
    ensures forall i :: 0 <= i < |tyArgs| && DecodeTyArg(vm, tyArgs[i]).Err?
                        && (forall j :: 0 <= j < i ==> DecodeTyArg(vm, tyArgs[j]).Ok?) ==>
      r == Err(DecodeTyArg(vm, tyArgs[i]).error)
  {
    Traverse((t: Bytes) => DecodeTyArg(vm, t), tyArgs)
  }

  /** All value arguments, in order; the first that fails to decode ends the stage with its
      error. */
  function DecodeArgs(vm: Vm, args: seq<Bytes>): (r: Result<seq<TransactionArgument>, Error>)
    ensures r.Ok? <==> forall i :: 0 <= i < |args| ==> DecodeArg(vm, args[i]).Ok?
    ensures r.Ok? ==> |r.value| == |args| && forall i :: 0 <= i < |args| ==> DecodeArg(vm, args[i]) == Ok(r.value[i])
    ensures forall i :: 0 <= i < |args| && DecodeArg(vm, args[i]).Err?
                        && (forall j :: 0 <= j < i ==> DecodeArg(vm, args[j]).Ok?) ==>
      r == Err(DecodeArg(vm, args[i]).error)
  {
    Traverse((a: Bytes) => DecodeArg(vm, a), args)
  }

  /** The id of the query's entry module, from its address bytes and its UTF-8 name. */
  function EntryModuleId(vm: Vm, q: Query): (r: Result<ModuleId, Error>)
    ensures r.Ok? <==> vm.addressFromBytes(q.moduleAddress).Ok? && vm.identifierFromUtf8(q.moduleName).Ok?
    ensures r.Ok? ==>
      Ok(r.value.address) == vm.addressFromBytes(q.moduleAddress) && Ok(r.value.name) == vm.identifierFromUtf8(q.moduleName)
    ensures vm.addressFromBytes(q.moduleAddress).Err? ==> r == Err(vm.addressFromBytes(q.moduleAddress).error)
    ensures vm.addressFromBytes(q.moduleAddress).Ok? && vm.identifierFromUtf8(q.moduleName).Err? ==>
      r == Err(vm.identifierFromUtf8(q.moduleName).error)
  {
    match vm.addressFromBytes(q.moduleAddress)
    case Err(e) => Err(e)
    case Ok(address) =>
      match vm.identifierFromUtf8(q.moduleName)
      case Err(e) => Err(e)
      case Ok(name) => Ok(ModuleId(address, name))
  }

  /** Looks the entry module up in the store and names the function at `index` of its
      definition table; a missing module is an error, an index past the table panics. */
  function ResolveEntry(store: map<ModuleId, CompiledModule>, id: ModuleId, index: nat): (r: Outcome<Identifier, Error>)
    ensures r == Failed(ModuleNotFound(id)) <==> id !in store
    ensures r.Panicked? <==> id in store && index >= |store[id].functionDefs|
    ensures r.Panicked? ==> r.panic == IndexOutOfBounds(index, |store[id].functionDefs|)
    ensures r.Done? ==> id in store && index < |store[id].functionDefs| && r.value == FunctionNameAt(store[id], index)
    ensures id in store && index < |store[id].functionDefs| ==> r == Done(FunctionNameAt(store[id], index))
  {
    if id !in store then Failed(ModuleNotFound(id))
    else
      var m := store[id];
      if index < |m.functionDefs| then Done(FunctionNameAt(m, index))
      else Panicked(IndexOutOfBounds(index, |m.functionDefs|))
  }

  /** The entry module is missing exactly when no loaded module carries its id. */
  lemma ModuleNotFoundIffUnloaded(compiled: seq<CompiledModule>, id: ModuleId, index: nat)
    ensures ResolveEntry(Registered(map[], compiled), id, index) == Failed(ModuleNotFound(id))
            <==> forall m :: m in compiled ==> m.selfId != id
  {
    RegisteredKeys(map[], compiled);
  }

  /** A resolved name is the name at `index` in one of the loaded modules, the one that
      carries the entry module's id. */
  lemma ResolvedFromLoadedModule(compiled: seq<CompiledModule>, id: ModuleId, index: nat)
    requires ResolveEntry(Registered(map[], compiled), id, index).Done?
    ensures exists m :: m in compiled && m.selfId == id && index < |m.functionDefs|
                        && ResolveEntry(Registered(map[], compiled), id, index).value == FunctionNameAt(m, index)
  {
    RegisteredValues(map[], compiled, id);
    var m := Registered(map[], compiled)[id];
    assert m in compiled && m.selfId == id;
  }

  /** Everything the entry-function call needs. */
  datatype EntryCall = EntryCall(
    compiled: seq<CompiledModule>,
    id: ModuleId,
    functionName: Identifier,
    tyArgs: seq<TypeTag>,
    args: Option<seq<TransactionArgument>>)

  /** The value arguments as the VM takes them: none at all when the list is empty. */
  function ArgsOption(args: seq<TransactionArgument>): (r: Option<seq<TransactionArgument>>)
    ensures r.None? <==> args == []
    ensures r.Some? ==> r.value == args
  {
    if args == [] then None else Some(args)
  }

  /** Prepares the call: load the modules into a fresh store, decode the type and value
      arguments (all or nothing, in order), build the entry module's id, resolve the
      function name. */
  function Prepare(vm: Vm, q: Query, modules: seq<Bytes>): (r: Outcome<EntryCall, Error>)
    ensures (exists i :: 0 <= i < |modules| && vm.deserialize(modules[i]).Err?) ==> r.Failed?
    ensures (exists i :: 0 <= i < |q.tyArgs| && DecodeTyArg(vm, q.tyArgs[i]).Err?) ==> r.Failed?
    ensures (exists i :: 0 <= i < |q.args| && DecodeArg(vm, q.args[i]).Err?) ==> r.Failed?
    ensures !EntryModuleId(vm, q).Ok? ==> r.Failed?
    ensures r.Done? ==>
      && Traverse(vm.deserialize, modules) == Ok(r.value.compiled)
      && |r.value.tyArgs| == |q.tyArgs|
      && (forall i :: 0 <= i < |q.tyArgs| ==> DecodeTyArg(vm, q.tyArgs[i]) == Ok(r.value.tyArgs[i]))
      && (r.value.args.None? <==> q.args == [])
      && (r.value.args.Some? ==>
            && |r.value.args.value| == |q.args|
            && forall i :: 0 <= i < |q.args| ==> DecodeArg(vm, q.args[i]) == Ok(r.value.args.value[i]))
      && EntryModuleId(vm, q) == Ok(r.value.id)
      && ResolveEntry(Registered(map[], r.value.compiled), r.value.id, q.functionIndex) == Done(r.value.functionName)
    // The stages run in order (modules, type arguments, value arguments, module id), and the
    // first failing one ends the call with its own error.
    ensures Traverse(vm.deserialize, modules).Err? ==> r == Failed(Traverse(vm.deserialize, modules).error)
    ensures Traverse(vm.deserialize, modules).Ok? && DecodeTyArgs(vm, q.tyArgs).Err? ==>
      r == Failed(DecodeTyArgs(vm, q.tyArgs).error)
    ensures Traverse(vm.deserialize, modules).Ok? && DecodeTyArgs(vm, q.tyArgs).Ok? && DecodeArgs(vm, q.args).Err? ==>
      r == Failed(DecodeArgs(vm, q.args).error)
    ensures && Traverse(vm.deserialize, modules).Ok? && DecodeTyArgs(vm, q.tyArgs).Ok? && DecodeArgs(vm, q.args).Ok?
            && EntryModuleId(vm, q).Err? ==>
      r == Failed(EntryModuleId(vm, q).error)
    // With every stage decoded, the outcome is that of resolving the function in the
    // registered modules, and success is the call built from the decoded stages.
    ensures && Traverse(vm.deserialize, modules).Ok? && DecodeTyArgs(vm, q.tyArgs).Ok? && DecodeArgs(vm, q.args).Ok?
            && EntryModuleId(vm, q).Ok? ==>
      var compiled := Traverse(vm.deserialize, modules).value;
      var id := EntryModuleId(vm, q).value;
      var resolved := ResolveEntry(Registered(map[], compiled), id, q.functionIndex);
      && (resolved.Failed? ==> r == Failed(resolved.error))
      && (resolved.Panicked? ==> r == Panicked(resolved.panic))
      && (resolved.Done? ==>
            r == Done(EntryCall(compiled, id, resolved.value, DecodeTyArgs(vm, q.tyArgs).value,
                                ArgsOption(DecodeArgs(vm, q.args).value))))
  {
    match Traverse(vm.deserialize, modules)
    case Err(e) => Failed(e)
    case Ok(compiled) =>
      match DecodeTyArgs(vm, q.tyArgs)
      case Err(e) => Failed(e)
      case Ok(tyArgs) =>
        match DecodeArgs(vm, q.args)
        case Err(e) => Failed(e)
        case Ok(args) =>
          match EntryModuleId(vm, q)
          case Err(e) => Failed(e)
          case Ok(id) =>
            match ResolveEntry(Registered(map[], compiled), id, q.functionIndex)
            case Failed(e) => Failed(e)
            case Panicked(p) => Panicked(p)
            case Done(name) => Done(EntryCall(compiled, id, name, tyArgs, ArgsOption(args)))
  }

  /** What `witness` returns: a function of its inputs alone. The prepared call is executed
      against a store holding just the loaded modules (a failing execution panics), then the
      configuration bytes are decoded and the trace is processed into the witness. */
  function WitnessSpec(vm: Vm, uq: UserQuery, modules: seq<Bytes>, vp: VerificationParameters): (r: Outcome<Witness, Error>)
    ensures !Prepare(vm, uq.query, modules).Done? ==> !r.Done?
    ensures r.Done? ==>
      var call := Prepare(vm, uq.query, modules).value;
      var trace := vm.executeEntryFunction(call.id, call.functionName, call.tyArgs, call.args,
                                           StoreView(Registered(map[], call.compiled), Globals(map[])));
      && trace.Ok?
      && vm.decodeConfig(vp.config).Ok?
      && vm.processExecutionTrace(call.tyArgs, call.id, call.functionName, call.compiled, trace.value,
                                  vm.decodeConfig(vp.config).value) == Ok(r.value)
    ensures Prepare(vm, uq.query, modules).Done? ==>
      var call := Prepare(vm, uq.query, modules).value;
      var trace := vm.executeEntryFunction(call.id, call.functionName, call.tyArgs, call.args,
                                           StoreView(Registered(map[], call.compiled), Globals(map[])));
      trace.Err? ==> r == Panicked(UnwrapFailed(trace.error))
    ensures Prepare(vm, uq.query, modules).Failed? ==> r == Failed(Prepare(vm, uq.query, modules).error)
    ensures Prepare(vm, uq.query, modules).Panicked? ==> r == Panicked(Prepare(vm, uq.query, modules).panic)
    // After a successful run: a configuration that does not decode and a trace that cannot be
    // processed are returned as errors; otherwise the processed trace is the witness.
    ensures Prepare(vm, uq.query, modules).Done? ==>
      var call := Prepare(vm, uq.query, modules).value;
      var trace := vm.executeEntryFunction(call.id, call.functionName, call.tyArgs, call.args,
                                           StoreView(Registered(map[], call.compiled), Globals(map[])));
      trace.Ok? ==>
        && (vm.decodeConfig(vp.config).Err? ==> r == Failed(vm.decodeConfig(vp.config).error))
        && (vm.decodeConfig(vp.config).Ok? ==>
              var w := vm.processExecutionTrace(call.tyArgs, call.id, call.functionName, call.compiled, trace.value,
                                                vm.decodeConfig(vp.config).value);
              && (w.Err? ==> r == Failed(w.error))
              && (w.Ok? ==> r == Done(w.value)))
  {
    match Prepare(vm, uq.query, modules)
    case Failed(e) => Failed(e)
    case Panicked(p) => Panicked(p)
    case Done(call) =>
      match vm.executeEntryFunction(call.id, call.functionName, call.tyArgs, call.args,
                                    StoreView(Registered(map[], call.compiled), Globals(map[])))
      case Err(msg) => Panicked(UnwrapFailed(msg))
      case Ok(trace) =>
        match vm.decodeConfig(vp.config)
        case Err(e) => Failed(e)
        case Ok(config) =>
          match vm.processExecutionTrace(call.tyArgs, call.id, call.functionName, call.compiled, trace, config)
          case Err(e) => Failed(e)
          case Ok(w) => Done(w)
  }

  /** `witness`: builds the execution witness for a query in a store of its own. */
  method BuildWitness(vm: Vm, uq: UserQuery, modules: seq<Bytes>, vp: VerificationParameters)
    returns (r: Outcome<Witness, Error>)
    ensures r == WitnessSpec(vm, uq, modules, vp)
  {
    var state := new StateStore();
    var loaded := LoadModules(vm, state, modules);
    if loaded.Err? {
      return Failed(loaded.error);
    }
    var compiledModules := loaded.value;
    var tyArgs := DecodeTyArgs(vm, uq.query.tyArgs);
    if tyArgs.Err? {
      return Failed(tyArgs.error);
    }
    var args := DecodeArgs(vm, uq.query.args);
    if args.Err? {
      return Failed(args.error);
    }
    var address := vm.addressFromBytes(uq.query.moduleAddress);
    if address.Err? {
      return Failed(address.error);
    }
    var name := vm.identifierFromUtf8(uq.query.moduleName);
    if name.Err? {
      return Failed(name.error);
    }
    var entryModuleId := ModuleId(address.value, name.value);
    var found := state.GetModule(entryModuleId);
    if found.None? {
      return Failed(ModuleNotFound(entryModuleId));
    }
    var entryModule := found.value;
    var index := uq.query.functionIndex;
    if index >= |entryModule.functionDefs| {
      return Panicked(IndexOutOfBounds(index, |entryModule.functionDefs|));
    }
    var entryFunctionName := FunctionNameAt(entryModule, index);
    var callArgs := ArgsOption(args.value);
    var traces := vm.executeEntryFunction(entryModuleId, entryFunctionName, tyArgs.value, callArgs, state.View());
    if traces.Err? {
      return Panicked(UnwrapFailed(traces.error));
    }
    var config := vm.decodeConfig(vp.config);
    if config.Err? {
      return Failed(config.error);
    }
    var w := vm.processExecutionTrace(tyArgs.value, entryModuleId, entryFunctionName, compiledModules,
                                      traces.value, config.value);
    if w.Err? {
      return Failed(w.error);
    }
    r := Done(w.value);
  }
}
