# tds-node query pipeline, modelled in Dafny

This project models the sequential logic of the tds-node pipeline. That pipeline turns an
on-chain query (a request to prove one call of a Move entry function) into an execution
witness, and separately generates verification keys for a fixed catalogue of entry
functions. Everything foreign is an oracle: the Aptos REST client, the zkMove VM and the
halo2 prover. Each oracle is a record of total functions (`AptosEvents.Client`, `MoveVm.Vm`,
`TdsNode.Prover`). Every chain read except the event page takes the version it is pinned to
as an argument, so the contracts can say which version each read uses. The event page shows
the chain as it stands when it is read, so each iteration of the watcher loop is given the
client as it answers at that time. An event that appears after an idle poll is therefore
picked up by a later one.

- `common.dfy` (`Common`): bytes, `Result`, and `Outcome`. An `Outcome` is a returned
  value, a returned error (`Failed`) or a panic (`Panicked`); `expect`, `unwrap` and
  unchecked indexing in the source become `Panicked`. It also holds `Traverse`, the model
  of collecting an iterator of results into one result.
- `agger_types.dfy` (`AggerTypes`): the contract records `Query`, `UserQuery`,
  `NewQueryEvent` and `Queries`.
- `aptos_events.dfy` (`AptosEvents`): the query manager. It holds the event fetch, the
  resolution of an event to a `UserQuery`, `prepare_modules`, `get_vk_for_query`, and the
  watcher stream. The stream is the class `QueryStream`: a cursor `cur`, the list of items
  yielded so far, a `Step` method for one loop iteration and `Run` for several. Each
  yielded item is tagged with the cursor it was yielded at; the stream's consumer sees
  `Yield.Item()`.
- `move_vm.dfy` (`MoveVm`): modules and their positional tables, and the state store (a
  class). It also holds the module-loading loop that the key generator and the witness
  builder share.
- `tds_node.dfy` (`TdsNode`): `CircuitConfig`, its conversion into the witness library's
  configuration, and the `gen_vks` batch.
- `query_runner.dfy` (`QueryRunner`): the `witness` builder.

Three behaviours of the code are worth stating up front, because the model keeps them as
written:

- A failed resolution is yielded, and the cursor still advances past that event
  (crates/aptos-events/src/lib.rs:164-167). `NoGapsNoDuplicates` counts such an event as
  resolved.
- A view call's last value is taken; only an empty result panics
  (crates/aptos-events/src/lib.rs:136-153). Further values are not rejected.
- `gen_vks` runs `empty_script()` for every entry and never reads `entry_function`
  (crates/tds-node/src/lib.rs:90-106). `KeysIgnoreEntryFunctionNames` states the
  consequence: two entry lists that differ only in those names give the same keys.

## Model

| member | source | states |
|---|---|---|
| `Common.Traverse` | crates/node/src/query_runner.rs:33-52 | Collecting converted elements succeeds iff every element converts. The output has the input's length and order. On failure the error is that of the first element that fails, and every element before it converts. |
| `AptosEvents.GetEvent` | crates/aptos-events/src/lib.rs:227-246 | Requests exactly one page: start `at`, limit 1, on the contract's event handle. It returns `None` exactly when that page is empty, the page's last event otherwise, and passes a transport error through. |
| `AptosEvents.HandleNewQueryEvent` | crates/aptos-events/src/lib.rs:184-226 | On success: version equals the event's version; sequence number comes from the event; id and user come from the decoded payload. The `Queries` read and the table read are both of the query contract's types, pinned to the event's version, and the table key is the payload's id. The steps run decode, `Queries` read, table read; the first that fails ends resolution with its own error, and it fails iff one of them does. |
| `AptosEvents.ResolutionIsPinnedToEventVersion` | crates/aptos-events/src/lib.rs:185-218 | Two managers of the same contract whose clients agree on the payload decoding and on the chain at the event's version resolve the event identically, whatever either holds at other versions. |
| `AptosEvents.ViewRequestFor` | crates/aptos-events/src/lib.rs:42-55 | The view request names the query contract and the requested view. Its arguments are the target module's address and name, plus the function index for every view except `get_module`. |
| `AptosEvents.ExpectOne` | crates/aptos-events/src/lib.rs:136-153 | A view result panics with its `expect` message iff it is empty. Otherwise its last value is decoded, and a decode error is returned as `Err`. |
| `AptosEvents.PrepareModules` | crates/aptos-events/src/lib.rs:38-68 | Makes one `get_module` call at the query's version. A transport error becomes `Err`, an empty result panics with the `get_module` message, and a decode error becomes `Err`. A decodable value gives exactly the one-blob list holding it. |
| `AptosEvents.GetVkForQuery` | crates/aptos-events/src/lib.rs:71-156 | Makes the three view calls at the query's version. Any transport error fails the whole call; errors are looked at `param`, `vk`, `config`, following the join over the popped requests. With all three responses in, the values are taken in the same order. The first empty one panics with its own `expect` message, and the first that fails to decode is returned as `Err`. Otherwise the result is `(config, vk, param)`, each value decoded from its own call. |
| `AptosEvents.Poll` | crates/aptos-events/src/lib.rs:161-175 | One loop iteration. The cursor advances by one iff an event was fetched. No event: nothing is yielded. Fetch error: one `Err` is yielded. Fetched event: exactly one item, that event's resolution, at the current index. |
| `AptosEvents.PollN` | crates/aptos-events/src/lib.rs:161-181 | Iterations of the watcher loop, one per client answer: they yield at most one item per iteration, each tagged with a cursor from `cur` up to, but not including, `cur` plus the number of iterations. |
| `AptosEvents.IdleRetryIsIdempotent` | crates/aptos-events/src/lib.rs:169-171 | Any number of iterations that each find no event at the cursor yield nothing and keep the cursor. |
| `AptosEvents.EventAfterIdleIsPickedUp` | crates/aptos-events/src/lib.rs:162-171 | If the event at the cursor is absent for `k` iterations and present at the next, that iteration resolves it and advances the cursor, and nothing is yielded before it. |
| `AptosEvents.FetchFailureKeepsCursor` | crates/aptos-events/src/lib.rs:172-174 | While fetching fails, each iteration yields its own error once and the cursor stays: the loop surfaces the error and goes on. |
| `AptosEvents.NoGapsNoDuplicates` | crates/aptos-events/src/lib.rs:160-175 | Over any number of iterations, whatever the chain answers at each, the resolved events are exactly those at indices `cur` up to the final cursor, each once and in order. The cursor never decreases and moves at most once per iteration. |
| `AptosEvents.QueryStream.constructor` | crates/aptos-events/src/lib.rs:158-160 | The stream starts at cursor 0 with nothing yielded. |
| `AptosEvents.QueryStream.Step` | crates/aptos-events/src/lib.rs:162-175 | One iteration, given the client as it answers now, updates the cursor and appends the yielded items as `Poll` says. It keeps the invariant that the resolved events are exactly indices `0 .. cur - 1`, each once and in order. |
| `AptosEvents.QueryStream.Run` | crates/aptos-events/src/lib.rs:161-181 | One iteration per given client leaves the stream where those polls from the old cursor lead, with their items appended, and keeps the invariant. |
| `MoveVm.FunctionNameAt` | crates/node/src/query_runner.rs:63-71 | For an index within the definition table, follows definition, then handle, then identifier: the result is the identifier that the definition's handle names. |
| `MoveVm.Registered` | crates/node/src/query_runner.rs:26-31 | Registering modules in order keeps every existing id and stores every registered module's id; the last module registered is the one stored under its id. |
| `MoveVm.RegisteredKeys` | crates/node/src/query_runner.rs:26-31 | After registering modules, the store holds exactly the old ids plus the ids of the registered modules. |
| `MoveVm.RegisteredValues` | crates/tds-node/src/lib.rs:83-87 | Every store entry is either untouched or one of the registered modules, stored under its own id. |
| `MoveVm.StateStore.constructor` | crates/node/src/query_runner.rs:24 | A new store holds no modules and no resources. |
| `MoveVm.StateStore.AddModule` | crates/node/src/query_runner.rs:29 | Stores the module under its own id, leaving everything else as it was. |
| `MoveVm.StateStore.GetModule` | crates/node/src/query_runner.rs:57-60 | The lookup finds a module exactly when one is registered under the id, and then it is that module. |
| `MoveVm.StateStore.Commit` | crates/tds-node/src/lib.rs:103 | Keeps the resources that a VM run left in the store, and leaves the modules as they were. |
| `MoveVm.LoadModules` | crates/node/src/query_runner.rs:24-31 | Deserialises the blobs in order and registers each in the store. The result is the all-or-nothing collection of the deserialised modules; the first failing blob ends the loop with its error. On success the store holds exactly those modules. |
| `TdsNode.ToWitnessConfig` | crates/tds-node/src/lib.rs:25-55 | `max_step_row`, `stack_ops_num`, `locals_ops_num`, `global_ops_num` and `word_size` pass through unchanged, unset ones included. Frame index, locals size and stack size replace the library default only when set. |
| `TdsNode.DefaultConversionKeepsLibraryDefaults` | crates/tds-node/src/lib.rs:13-23 | The default `CircuitConfig` sets none of its eight bounds. Converting it keeps the library's three defaults and clears the five pass-through bounds. |
| `TdsNode.ConversionReachesEveryConfig` | crates/tds-node/src/lib.rs:38-53 | Every library configuration is the conversion of some `CircuitConfig`, whatever the library default. |
| `TdsNode.RunEntry` | crates/tds-node/src/lib.rs:96-112 | One entry runs the empty script against the store holding the loaded modules and the current resources, under the entry's converted circuit configuration. A failed execution panics (the `unwrap`). A sizing or key-setup failure is returned as `Err`. Otherwise the result is the serialised key and the resources the run left. |
| `TdsNode.KeysFor` | crates/tds-node/src/lib.rs:89-114 | A successful batch has exactly one key per entry configuration. |
| `TdsNode.GenVksSpec` | crates/tds-node/src/lib.rs:74-115 | Success has one key per entry. If any module fails to deserialise, the batch fails before any entry runs, with the error of the first failing module. |
| `TdsNode.KeysForIsRun` | crates/tds-node/src/lib.rs:89-113 | A successful batch is a run of every entry in input order against one store. Key `i` is entry `i`'s key, and each entry runs on the resources the previous one left. |
| `TdsNode.RunIsKeysFor` | crates/tds-node/src/lib.rs:89-113 | Conversely, such a run of every entry is exactly what the batch returns. |
| `TdsNode.EntryFailureAbortsBatch` | crates/tds-node/src/lib.rs:96-112 | If the entries before `i` succeed and entry `i` fails, the batch ends with entry `i`'s failure and returns no partial key list. A failed execution panics; a sizing or setup failure is returned as `Err`. |
| `TdsNode.KeysIgnoreEntryFunctionNames` | crates/tds-node/src/lib.rs:90-106 | The batch result does not depend on the entries' `entry_function` names. |
| `TdsNode.GenVks` | crates/tds-node/src/lib.rs:74-115 | The imperative batch loads the modules into one fresh store and runs every entry against it. It returns exactly `GenVksSpec`. |
| `QueryRunner.DecodeTyArg` | crates/node/src/query_runner.rs:37-41 | A type argument decodes iff it is UTF-8, parses, and parses to at least one tag, and then the last tag is taken. A UTF-8 error, then a parse error, is passed on as it is; an empty tag list is the "parse type arg failure" error. |
| `QueryRunner.DecodeArg` | crates/node/src/query_runner.rs:47-51 | A value argument decodes iff it is UTF-8 and parses, and the result is the parsed argument. A UTF-8 error, then a parse error, is passed on as it is. |
| `QueryRunner.DecodeTyArgs` | crates/node/src/query_runner.rs:33-42 | All type arguments decode iff each does, keeping length and order; otherwise the error is that of the first one that fails. |
| `QueryRunner.DecodeArgs` | crates/node/src/query_runner.rs:43-52 | All value arguments decode iff each does, keeping length and order; otherwise the error is that of the first one that fails. |
| `QueryRunner.EntryModuleId` | crates/node/src/query_runner.rs:53-56 | The entry module's id exists iff both the address bytes and the name decode, and it is made of those two values. The address error comes first, then the name error, each passed on as it is. |
| `QueryRunner.ResolveEntry` | crates/node/src/query_runner.rs:57-71 | A missing module gives "cannot find module", and only then. An index at or past the definition table panics, and only then. Otherwise the result is the name of the function at that index. |
| `QueryRunner.ModuleNotFoundIffUnloaded` | crates/node/src/query_runner.rs:57-61 | The entry module is reported missing exactly when no loaded module carries its id. |
| `QueryRunner.ResolvedFromLoadedModule` | crates/node/src/query_runner.rs:57-71 | A resolved function name is the name at that index in a loaded module carrying the entry module's id. |
| `QueryRunner.ArgsOption` | crates/node/src/query_runner.rs:79-83 | An empty argument list is passed as `None`; otherwise `Some` holds the list. |
| `QueryRunner.Prepare` | crates/node/src/query_runner.rs:24-71 | The stages run modules, type arguments, value arguments, module id; the first failing one is returned as `Err` with its own error. Once all decode, the outcome is that of resolving the function: the module is not found, the index is past the table, or success. On success: the modules are exactly the deserialised blobs; the type and value arguments match the query's in length and order; empty args are `None`; the entry module id comes from the query; the function name is the one at `function_index` in the registered entry module. |
| `QueryRunner.WitnessSpec` | crates/node/src/query_runner.rs:73-96 | A preparation error or panic is passed on as it is. A failed execution panics. After a successful run, a configuration that does not decode, or a trace that cannot be processed, is returned as `Err`. Otherwise the witness is what trace processing returns for the prepared call. |
| `QueryRunner.BuildWitness` | crates/node/src/query_runner.rs:19-97 | The imperative builder, with a fresh store of its own, returns exactly `WitnessSpec`: a function of its inputs alone. |

## Left out

- The REST transport, JSON and BCS decoding, and the formatting of Move type names are the oracle fields of `AptosEvents.Client`. Their internals are foreign.
- The crate that defines `UserQuery`, `Query`, `NewQueryEvent` and `Queries` is not part of this model. Those records are rebuilt from how the three files use them.
- The `vk_generator` module of the node crate is not part of this model; only the `config` field of `VerificationParameters` is read.
- `AggerQueryManager::new` only builds the REST client, and is not modelled.
- `AptosEvents.GetVkForQuery`: the three calls run concurrently under a join. The model runs them one after another, all-or-nothing. When several calls fail, the model reports the first failure in the join's argument order (`param`, `vk`, `config`); the real reported error depends on timing.
- The 30-second sleep after an empty poll is an idle step that changes nothing; time is not modelled.
- The `u64` cursor, versions and sequence numbers, and the `u16`/`usize` indices and bounds, are unbounded naturals. The cursor's overflow after 2^64 events is not modelled.
- zkMove VM execution, trace processing, module deserialisation, and the parsers for type tags, transaction arguments, addresses and identifiers are the oracle fields of `MoveVm.Vm`. Their semantics are foreign, including the step-count bounds that trace processing enforces.
- halo2 circuit sizing, parameter generation, key setup and key serialisation are the oracle fields of `TdsNode.Prover`. `ParamsIPA::new(k)` is the value `IpaParams(k)`.
- `runtime.find_best_k` in `gen_vks` names an undefined variable; the model reads it as the batch's own runtime.
- `QueryRunner.BuildWitness`: the store's module lookup is assumed not to fail. Deserialising the module bytes it returns is assumed to give back the module that was registered.
- A VM run may change only the store's global resources. Its effect on the registered modules is not modelled.

