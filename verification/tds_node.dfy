/** The offline verification-key generator: the user-facing circuit configuration, its
    conversion into the witness library's configuration, and the batch that runs every entry
    configuration against one shared state store and collects one key per entry. The halo2
    calls are an oracle record `Prover`. */
module TdsNode {
  import opened Common
  import opened MoveVm

  /** Eight independent optional circuit bounds. */
  datatype CircuitConfig = CircuitConfig(
    maxStepRow: Option<nat>,
    stackOpsNum: Option<nat>,
    localsOpsNum: Option<nat>,
    globalOpsNum: Option<nat>,
    maxFrameIndex: Option<nat>,
    maxLocalsSize: Option<nat>,
    maxStackSize: Option<nat>,
    wordSize: Option<nat>)

  /** The derived `Default`: no bound set. */
  const DefaultCircuitConfig := CircuitConfig(None, None, None, None, None, None, None, None)

  /** The conversion into the witness library's configuration, built on that library's
      default `base`. The five bounds the library takes as options are passed through as
      they are, unset ones included; the frame-index, locals-size and stack-size bounds
      replace the library's defaults only when they are set. */
  function ToWitnessConfig(c: CircuitConfig, base: WitnessConfig): (w: WitnessConfig)
    ensures w.maxStepRow == c.maxStepRow && w.stackOpsNum == c.stackOpsNum
    ensures w.localsOpsNum == c.localsOpsNum && w.globalOpsNum == c.globalOpsNum
    ensures w.wordSize == c.wordSize
    ensures w.maxFrameIndex == c.maxFrameIndex.GetOr(base.maxFrameIndex)
    ensures w.maxLocalsSize == c.maxLocalsSize.GetOr(base.maxLocalsSize)
    ensures w.maxStackSize == c.maxStackSize.GetOr(base.maxStackSize)
  {
    var config := base.(maxStepRow := c.maxStepRow, stackOpsNum := c.stackOpsNum,
                        localsOpsNum := c.localsOpsNum, globalOpsNum := c.globalOpsNum,
                        wordSize := c.wordSize);
    var config := if c.maxFrameIndex.Some? then config.(maxFrameIndex := c.maxFrameIndex.value) else config;
    var config := if c.maxLocalsSize.Some? then config.(maxLocalsSize := c.maxLocalsSize.value) else config;
    var config := if c.maxStackSize.Some? then config.(maxStackSize := c.maxStackSize.value) else config;
    config
  }

  /** The default configuration sets no bound, so converting it keeps the library's
      defaults for the three overridable bounds and clears the five pass-through ones. */
  lemma DefaultConversionKeepsLibraryDefaults(base: WitnessConfig)
    ensures DefaultCircuitConfig.maxStepRow.None? && DefaultCircuitConfig.stackOpsNum.None?
    ensures DefaultCircuitConfig.localsOpsNum.None? && DefaultCircuitConfig.globalOpsNum.None?
    ensures DefaultCircuitConfig.maxFrameIndex.None? && DefaultCircuitConfig.maxLocalsSize.None?
    ensures DefaultCircuitConfig.maxStackSize.None? && DefaultCircuitConfig.wordSize.None?
    ensures ToWitnessConfig(DefaultCircuitConfig, base)
            == base.(maxStepRow := None, stackOpsNum := None, localsOpsNum := None,
                     globalOpsNum := None, wordSize := None)
  {
  }

  /** The circuit configuration that sets every bound to the value `w` has. */
  function SettingsOf(w: WitnessConfig): (c: CircuitConfig)
    ensures c.maxFrameIndex.Some? && c.maxLocalsSize.Some? && c.maxStackSize.Some?
  {
    CircuitConfig(w.maxStepRow, w.stackOpsNum, w.localsOpsNum, w.globalOpsNum,
                  Some(w.maxFrameIndex), Some(w.maxLocalsSize), Some(w.maxStackSize), w.wordSize)
  }

  /** Every witness-library configuration is reached by the conversion, whatever the
      library's default: a configuration that sets all three overridable bounds does not
      depend on the default at all. */
  lemma ConversionReachesEveryConfig(w: WitnessConfig, base: WitnessConfig)
    ensures ToWitnessConfig(SettingsOf(w), base) == w
  {
  }

  datatype VerifyingKey = VerifyingKey(content: Bytes)
  /** IPA commitment parameters for circuits of 2^k rows. */
  datatype IpaParams = IpaParams(k: nat)

  /** The halo2 calls: choosing the smallest sufficient row exponent for a circuit, one-time
      key setup, and canonical serialisation of a verifying key. */
  datatype Prover = Prover(
    findBestK: Witness -> Result<nat, Error>,
    setup: (Witness, IpaParams) -> Result<VerifyingKey, Error>,
    toBytes: VerifyingKey -> Bytes)

  /** The static arguments of the demonstration run of one entry function. */
  datatype DemoRunConfig = DemoRunConfig(args: Option<seq<TransactionArgument>>, tyArgs: Option<seq<TypeTag>>)

  datatype EntryFunctionConfig = EntryFunctionConfig(
    entryFunction: string,
    demoRunConfig: DemoRunConfig,
    circuitConfig: CircuitConfig)

  datatype PublishModulesConfig = PublishModulesConfig(
    modules: seq<Bytes>,
    entryFunctionConfig: seq<EntryFunctionConfig>)

  /** One entry of the batch against the store holding `compiled` and the resources `g`: run
      the empty script under the entry's configuration (a failing run panics), size the
      circuit, set up the key. Yields the serialised key and the resources left behind. */
  function RunEntry(vm: Vm, prover: Prover, compiled: seq<CompiledModule>, g: Globals, e: EntryFunctionConfig)
    : (r: Outcome<(Bytes, Globals), Error>)
    ensures var run := vm.executeScript(compiled, e.demoRunConfig.tyArgs.GetOr([]), e.demoRunConfig.args,
                                        StoreView(Registered(map[], compiled), g),
                                        ToWitnessConfig(e.circuitConfig, vm.defaultWitnessConfig));
      && (run.Err? ==> r == Panicked(UnwrapFailed(run.error)))
      && (r.Panicked? ==> run.Err?)
      && (run.Ok? ==>
            var k := prover.findBestK(run.value.0);
            && (k.Err? ==> r == Failed(k.error))
            && (k.Ok? ==>
                  var vk := prover.setup(run.value.0, IpaParams(k.value));
                  && (vk.Err? ==> r == Failed(vk.error))
                  && (vk.Ok? ==> r == Done((prover.toBytes(vk.value), run.value.1)))))
  {
    match vm.executeScript(compiled, e.demoRunConfig.tyArgs.GetOr([]), e.demoRunConfig.args,
                           StoreView(Registered(map[], compiled), g),
                           ToWitnessConfig(e.circuitConfig, vm.defaultWitnessConfig))
    case Err(msg) => Panicked(UnwrapFailed(msg))
    case Ok((vmWitness, after)) =>
      match prover.findBestK(vmWitness)
      case Err(err) => Failed(err)
      case Ok(k) =>
        match prover.setup(vmWitness, IpaParams(k))
        case Err(err) => Failed(err)
        case Ok(vk) => Done((prover.toBytes(vk), after))
  }

  /** The keys of `entries`, run in order, each against the resources the previous one left;
      the first entry that fails ends the batch with its failure. */
  function KeysFor(vm: Vm, prover: Prover, compiled: seq<CompiledModule>, g: Globals, entries: seq<EntryFunctionConfig>)
    : (r: Outcome<seq<Bytes>, Error>)
    ensures r.Done? ==> |r.value| == |entries|
    decreases |entries|
  {
    if entries == [] then Done([])
    else
      match RunEntry(vm, prover, compiled, g, entries[0])
      case Failed(err) => Failed(err)
      case Panicked(p) => Panicked(p)
      case Done((vk, after)) =>
        match KeysFor(vm, prover, compiled, after, entries[1..])
        case Failed(err) => Failed(err)
        case Panicked(p) => Panicked(p)
        case Done(vks) => Done([vk] + vks)
  }

  /** What `gen_vks` returns: the modules are deserialised in order into one fresh store,
      then every entry is run against that same store. */
  function GenVksSpec(vm: Vm, prover: Prover, cfg: PublishModulesConfig): (r: Outcome<seq<Bytes>, Error>)
    ensures r.Done? ==> |r.value| == |cfg.entryFunctionConfig|
    ensures (exists i :: 0 <= i < |cfg.modules| && vm.deserialize(cfg.modules[i]).Err?) ==>
      && r.Failed?
      && exists i :: 0 <= i < |cfg.modules| && vm.deserialize(cfg.modules[i]) == Err(r.error)
                     && forall j :: 0 <= j < i ==> vm.deserialize(cfg.modules[j]).Ok?
  {
    match Traverse(vm.deserialize, cfg.modules)
    case Err(err) => Failed(err)
    case Ok(compiled) => KeysFor(vm, prover, compiled, Globals(map[]), cfg.entryFunctionConfig)
  }

  /** `gs` threads the store's resources through a successful run of every entry of
      `entries`, entry `i` producing `keys[i]`. */
  ghost predicate IsRun(vm: Vm, prover: Prover, compiled: seq<CompiledModule>, gs: seq<Globals>,
                        entries: seq<EntryFunctionConfig>, keys: seq<Bytes>)
  {
    && |gs| == |entries| + 1
    && |keys| == |entries|
    && forall i :: 0 <= i < |entries| ==>
         RunEntry(vm, prover, compiled, gs[i], entries[i]) == Done((keys[i], gs[i + 1]))
  }

  /** A successful batch is a successful run of every entry, in input order, against the
      one store: key `i` is the key of entry `i`. */
  lemma {:induction false} KeysForIsRun(vm: Vm, prover: Prover, compiled: seq<CompiledModule>, g: Globals,
                                        entries: seq<EntryFunctionConfig>)
    requires KeysFor(vm, prover, compiled, g, entries).Done?
    ensures exists gs :: |gs| > 0 && gs[0] == g
                         && IsRun(vm, prover, compiled, gs, entries, KeysFor(vm, prover, compiled, g, entries).value)
    decreases |entries|
  {
    var keys := KeysFor(vm, prover, compiled, g, entries).value;
    if entries == [] {
      assert IsRun(vm, prover, compiled, [g], entries, keys);
    } else {
      var first := RunEntry(vm, prover, compiled, g, entries[0]);
      var (vk, after) := first.value;
      KeysForIsRun(vm, prover, compiled, after, entries[1..]);
      var rest := KeysFor(vm, prover, compiled, after, entries[1..]).value;
      var gs' :| |gs'| > 0 && gs'[0] == after && IsRun(vm, prover, compiled, gs', entries[1..], rest);
      var gs := [g] + gs';
      assert keys == [vk] + rest;
      forall i | 0 <= i < |entries|
        ensures RunEntry(vm, prover, compiled, gs[i], entries[i]) == Done((keys[i], gs[i + 1]))
      {
        if i > 0 {
          assert entries[i] == entries[1..][i - 1];
        }
      }
      assert IsRun(vm, prover, compiled, gs, entries, keys);
    }
  }

  /** Conversely, a successful run of every entry is what the batch returns. */
  lemma {:induction false} RunIsKeysFor(vm: Vm, prover: Prover, compiled: seq<CompiledModule>, gs: seq<Globals>,
                                        entries: seq<EntryFunctionConfig>, keys: seq<Bytes>)
    requires IsRun(vm, prover, compiled, gs, entries, keys)
    ensures KeysFor(vm, prover, compiled, gs[0], entries) == Done(keys)
    decreases |entries|
  {
    if entries != [] {
      assert IsRun(vm, prover, compiled, gs[1..], entries[1..], keys[1..]) by {
        forall i | 0 <= i < |entries[1..]|
          ensures RunEntry(vm, prover, compiled, gs[1..][i], entries[1..][i]) == Done((keys[1..][i], gs[1..][i + 1]))
        {
          assert RunEntry(vm, prover, compiled, gs[i + 1], entries[i + 1]) == Done((keys[i + 1], gs[i + 2]));
        }
      }
      RunIsKeysFor(vm, prover, compiled, gs[1..], entries[1..], keys[1..]);
      assert RunEntry(vm, prover, compiled, gs[0], entries[0]) == Done((keys[0], gs[1]));
      assert keys == [keys[0]] + keys[1..];
    }
  }

  /** If the entries before `i` succeed and entry `i` fails, the whole batch ends with that
      entry's failure: no partial key list is returned. */
  lemma {:induction false} EntryFailureAbortsBatch(vm: Vm, prover: Prover, compiled: seq<CompiledModule>,
                                                   gs: seq<Globals>, entries: seq<EntryFunctionConfig>,
                                                   keys: seq<Bytes>, i: nat)
    requires i < |entries|
    requires IsRun(vm, prover, compiled, gs, entries[..i], keys)
    requires !RunEntry(vm, prover, compiled, gs[i], entries[i]).Done?
    ensures !KeysFor(vm, prover, compiled, gs[0], entries).Done?
    ensures RunEntry(vm, prover, compiled, gs[i], entries[i]).Failed? ==>
      KeysFor(vm, prover, compiled, gs[0], entries) == Failed(RunEntry(vm, prover, compiled, gs[i], entries[i]).error)
    ensures RunEntry(vm, prover, compiled, gs[i], entries[i]).Panicked? ==>
      KeysFor(vm, prover, compiled, gs[0], entries) == Panicked(RunEntry(vm, prover, compiled, gs[i], entries[i]).panic)
    decreases i
  {
    if i > 0 {
      assert entries[..i][0] == entries[0];
      assert RunEntry(vm, prover, compiled, gs[0], entries[0]) == Done((keys[0], gs[1]));
      assert IsRun(vm, prover, compiled, gs[1..], entries[1..][..i - 1], keys[1..]) by {
        forall j | 0 <= j < i - 1
          ensures RunEntry(vm, prover, compiled, gs[1..][j], entries[1..][..i - 1][j]) == Done((keys[1..][j], gs[1..][j + 1]))
        {
          assert entries[1..][..i - 1][j] == entries[..i][j + 1];
        }
      }
      EntryFailureAbortsBatch(vm, prover, compiled, gs[1..], entries[1..], keys[1..], i - 1);
    }
  }

  /** The entry-function name of a configuration is never consulted: every entry runs the
      empty script, so two batches that differ only in those names give the same result. */
  lemma {:induction false} KeysIgnoreEntryFunctionNames(vm: Vm, prover: Prover, compiled: seq<CompiledModule>, g: Globals,
                                                        a: seq<EntryFunctionConfig>, b: seq<EntryFunctionConfig>)
    requires |a| == |b|
    requires forall i :: 0 <= i < |a| ==>
      a[i].demoRunConfig == b[i].demoRunConfig && a[i].circuitConfig == b[i].circuitConfig
    ensures KeysFor(vm, prover, compiled, g, a) == KeysFor(vm, prover, compiled, g, b)
    decreases |a|
  {
    if a != [] {
      assert RunEntry(vm, prover, compiled, g, a[0]) == RunEntry(vm, prover, compiled, g, b[0]);
      var first := RunEntry(vm, prover, compiled, g, a[0]);
      if first.Done? {
        KeysIgnoreEntryFunctionNames(vm, prover, compiled, first.value.1, a[1..], b[1..]);
      }
    }
  }

  /** The failure of `o`, or the keys `done` followed by those of `o`. */
  function Prepend(done: seq<Bytes>, o: Outcome<seq<Bytes>, Error>): Outcome<seq<Bytes>, Error>
  {
    match o
    case Done(keys) => Done(done + keys)
    case Failed(err) => Failed(err)
    case Panicked(p) => Panicked(p)
  }

  /** One entry's success puts its key in front of the rest of the batch. */
  lemma KeysForStep(vm: Vm, prover: Prover, compiled: seq<CompiledModule>, g: Globals,
                    entries: seq<EntryFunctionConfig>, done: seq<Bytes>, vk: Bytes, after: Globals)
    requires entries != []
    requires RunEntry(vm, prover, compiled, g, entries[0]) == Done((vk, after))
    ensures Prepend(done, KeysFor(vm, prover, compiled, g, entries))
            == Prepend(done + [vk], KeysFor(vm, prover, compiled, after, entries[1..]))
  {
    var rest := KeysFor(vm, prover, compiled, after, entries[1..]);
    if rest.Done? {
      assert done + ([vk] + rest.value) == (done + [vk]) + rest.value;
    }
  }

  /** `gen_vks`: deserialise and register every module in one fresh store, then for each
      entry configuration in order run it against that store and push its serialised key. */
  method GenVks(vm: Vm, prover: Prover, cfg: PublishModulesConfig) returns (r: Outcome<seq<Bytes>, Error>)
    ensures r == GenVksSpec(vm, prover, cfg)
  {
    ghost var spec := GenVksSpec(vm, prover, cfg);
    var state := new StateStore();
    var loaded := LoadModules(vm, state, cfg.modules);
    if loaded.Err? {
      return Failed(loaded.error);
    }
    var compiledModules := loaded.value;
    var entries := cfg.entryFunctionConfig;
    var vks: seq<Bytes> := [];
    assert entries[0..] == entries;
    assert spec == KeysFor(vm, prover, compiledModules, state.globals, entries);
    assert spec.Done? ==> [] + spec.value == spec.value;
    for i := 0 to |entries|
      invariant state.modules == Registered(map[], compiledModules)
      invariant spec == Prepend(vks, KeysFor(vm, prover, compiledModules, state.globals, entries[i..]))
    {
      var entry := entries[i];
      ghost var before := state.globals;
      assert entries[i..][0] == entry && entries[i..][1..] == entries[i + 1..];
      var run := vm.executeScript(compiledModules, entry.demoRunConfig.tyArgs.GetOr([]), entry.demoRunConfig.args,
                                  state.View(), ToWitnessConfig(entry.circuitConfig, vm.defaultWitnessConfig));
      if run.Err? {
        assert KeysFor(vm, prover, compiledModules, before, entries[i..]) == Panicked(UnwrapFailed(run.error));
        return Panicked(UnwrapFailed(run.error));
      }
      var (vmWitness, after) := run.value;
      state.Commit(after);
      var k := prover.findBestK(vmWitness);
      if k.Err? {
        assert KeysFor(vm, prover, compiledModules, before, entries[i..]) == Failed(k.error);
        return Failed(k.error);
      }
      var params := IpaParams(k.value);
      var vk := prover.setup(vmWitness, params);
      if vk.Err? {
        assert KeysFor(vm, prover, compiledModules, before, entries[i..]) == Failed(vk.error);
        return Failed(vk.error);
      }
      KeysForStep(vm, prover, compiledModules, before, entries[i..], vks, prover.toBytes(vk.value), after);
      vks := vks + [prover.toBytes(vk.value)];
    }
    assert entries[|entries|..] == [];
    assert vks + [] == vks;
    r := Done(vks);
  }
}
