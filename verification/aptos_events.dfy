/** The query-event watcher and the two per-query fetchers of the agger query manager. The
    Aptos REST client is an oracle record `Client`. Every read except the event page takes
    the chain version it is pinned to, so which version a read uses is visible in the model;
    the event page reflects the chain at the time of the read, so the watcher loop is given
    the client afresh at each iteration. */
module AptosEvents {
  import opened Common
  import opened AggerTypes

  /** A JSON value as the REST API returns it, decoded only through the client's oracles. */
  datatype Json = Json(text: string)

  /** An event of the new-query handle: the version of the transaction that emitted it, its
      position in the handle, and its payload. */
  datatype VersionedEvent = VersionedEvent(version: nat, sequenceNumber: nat, data: Json)

  datatype RestError = Transport(detail: string) | Decode(detail: string)

  /** A page request on the query contract's new-query event handle, held at `account`. */
  datatype EventsRequest = EventsRequest(account: AccountAddress, start: nat, limit: nat)

  /** The view functions of the query contract's module. */
  datatype ViewFunction = GetModule | GetConfig | GetVk | GetParam

  datatype ViewArgument =
    | ModuleAddressArg(address: Bytes)
    | ModuleNameArg(name: Bytes)
    | FunctionIndexArg(index: nat)

  datatype ViewRequest = ViewRequest(contract: AccountAddress, view: ViewFunction, arguments: seq<ViewArgument>)

  /** The REST client and the JSON decoders it is used with.
      `queriesAt(contract, user, v)`: the user's `Queries` resource, of the type the query
      contract at `contract` declares, at version `v`;
      `queryAt(contract, handle, id, v)`: the `Query` (of that contract's type) stored under
      key `id` in a table at version `v`;
      `view(req, v)`: the values a view call returns at version `v`. */
  datatype Client = Client(
    accountEvents: EventsRequest -> Result<seq<VersionedEvent>, RestError>,
    decodeNewQueryEvent: Json -> Result<NewQueryEvent, RestError>,
    queriesAt: (AccountAddress, AccountAddress, nat) -> Result<Queries, RestError>,
    queryAt: (AccountAddress, TableHandle, nat, nat) -> Result<Query, RestError>,
    view: (ViewRequest, nat) -> Result<seq<Json>, RestError>,
    decodeBytes: Json -> Result<Bytes, RestError>)

  /** The query manager: a client and the address of the query contract. */
  datatype Manager = Manager(client: Client, agger: AccountAddress)

  /** Fetches the event at index `at` of the new-query handle: a page starting at `at` with
      limit one, of which the last element is taken. */
  function GetEvent(m: Manager, at: nat): (r: Result<Option<VersionedEvent>, RestError>)
    ensures var page := m.client.accountEvents(EventsRequest(m.agger, at, 1));
      && (r.Err? <==> page.Err?)
      && (page.Err? ==> r.error == page.error)
      && (r == Ok(None) <==> page == Ok([]))
      && (r.Ok? && r.value.Some? ==> page.Ok? && page.value != [] && r.value.value == Last(page.value))
  {
    match m.client.accountEvents(EventsRequest(m.agger, at, 1))
    case Err(e) => Err(e)
    case Ok(events) => Ok(if events == [] then None else Some(Last(events)))
  }

  /** Resolves one event to a user query. The payload gives the id and the user; the user's
      `Queries` resource and the table entry under that id are both read at the event's
      version, and the record carries that version and the event's sequence number. The first
      step that fails ends the resolution with its own error. */
  function HandleNewQueryEvent(m: Manager, event: VersionedEvent): (r: Result<UserQuery, RestError>)
    ensures r.Ok? ==>
      && r.value.version == event.version
      && r.value.sequenceNumber == event.sequenceNumber
      && m.client.decodeNewQueryEvent(event.data) == Ok(NewQueryEvent(r.value.id, r.value.user))
      && m.client.queriesAt(m.agger, r.value.user, event.version).Ok?
      && m.client.queryAt(m.agger, m.client.queriesAt(m.agger, r.value.user, event.version).value.handle,
                          r.value.id, event.version)
         == Ok(r.value.query)
    ensures r.Err? <==>
      || m.client.decodeNewQueryEvent(event.data).Err?
      || (var e := m.client.decodeNewQueryEvent(event.data).value;
          || m.client.queriesAt(m.agger, e.user, event.version).Err?
          || m.client.queryAt(m.agger, m.client.queriesAt(m.agger, e.user, event.version).value.handle,
                              e.id, event.version).Err?)
    ensures var decoded := m.client.decodeNewQueryEvent(event.data);
      && (decoded.Err? ==> r == Err(decoded.error))
      && (decoded.Ok? ==>
            var queries := m.client.queriesAt(m.agger, decoded.value.user, event.version);
            && (queries.Err? ==> r == Err(queries.error))
            && (queries.Ok? ==>
                  var query := m.client.queryAt(m.agger, queries.value.handle, decoded.value.id, event.version);
                  query.Err? ==> r == Err(query.error)))
  {
    match m.client.decodeNewQueryEvent(event.data)
    case Err(e) => Err(e)
    case Ok(newQuery) =>
      var version := event.version;
      match m.client.queriesAt(m.agger, newQuery.user, version)
      case Err(e) => Err(e)
      case Ok(queries) =>
        match m.client.queryAt(m.agger, queries.handle, newQuery.id, version)
        case Err(e) => Err(e)
        case Ok(query) => Ok(UserQuery(version, event.sequenceNumber, newQuery.id, newQuery.user, query))
  }

  /** Resolution reads nothing but the event payload and the chain at the event's version:
      two managers of the same contract whose clients agree there resolve the event
      identically, whatever they hold at other versions. */
  lemma ResolutionIsPinnedToEventVersion(m1: Manager, m2: Manager, event: VersionedEvent)
    requires m1.agger == m2.agger
    requires m1.client.decodeNewQueryEvent(event.data) == m2.client.decodeNewQueryEvent(event.data)
    requires forall u :: m1.client.queriesAt(m1.agger, u, event.version) == m2.client.queriesAt(m1.agger, u, event.version)
    requires forall h, id :: m1.client.queryAt(m1.agger, h, id, event.version) == m2.client.queryAt(m1.agger, h, id, event.version)
    ensures HandleNewQueryEvent(m1, event) == HandleNewQueryEvent(m2, event)
  {
  }

  /** The view request for `view` on the query's target; `get_module` takes the module's
      address and name, the other three also the function index. */
  function ViewRequestFor(m: Manager, view: ViewFunction, q: Query): (req: ViewRequest)
    ensures req.contract == m.agger && req.view == view
    ensures |req.arguments| == (if view == GetModule then 2 else 3)
    ensures req.arguments[0] == ModuleAddressArg(q.moduleAddress) && req.arguments[1] == ModuleNameArg(q.moduleName)
    ensures view != GetModule ==> req.arguments[2] == FunctionIndexArg(q.functionIndex)
  {
    var target := [ModuleAddressArg(q.moduleAddress), ModuleNameArg(q.moduleName)];
    ViewRequest(m.agger, view, if view == GetModule then target else target + [FunctionIndexArg(q.functionIndex)])
  }

  /** Takes the last value of a view result and decodes it to bytes; an empty result panics
      with `message`, a decode failure is returned as an error. */
  function ExpectOne(m: Manager, values: seq<Json>, message: string): (r: Outcome<Bytes, RestError>)
    ensures r.Panicked? <==> values == []
    ensures r.Panicked? ==> r.panic == ExpectFailed(message)
    ensures r.Done? ==> values != [] && m.client.decodeBytes(Last(values)) == Ok(r.value)
    ensures r.Failed? ==> values != [] && m.client.decodeBytes(Last(values)) == Err(r.error)
  {
    if values == [] then Panicked(ExpectFailed(message))
    else
      match m.client.decodeBytes(Last(values))
      case Err(e) => Failed(e)
      case Ok(bytes) => Done(bytes)
  }

  const GetModuleExpectation := "view get_module should return one value"
  const GetConfigExpectation := "view get_config return value"
  const GetVkExpectation := "view get_vk return value"
  const GetParamExpectation := "view get_param return value"

  /** Fetches the bytecode of the query's target module with one `get_module` view call at
      the query's version. The result always holds exactly that one blob. */
  function PrepareModules(m: Manager, uq: UserQuery): (r: Outcome<seq<Bytes>, RestError>)
    ensures var resp := m.client.view(ViewRequestFor(m, GetModule, uq.query), uq.version);
      && (resp.Err? ==> r == Failed(resp.error))
      && (r.Panicked? <==> resp == Ok([]))
      && (r.Done? ==> resp.Ok? && |r.value| == 1
                      && ExpectOne(m, resp.value, GetModuleExpectation) == Done(r.value[0]))
      && (resp.Ok? ==>
            var blob := ExpectOne(m, resp.value, GetModuleExpectation);
            && (blob.Done? ==> r == Done([blob.value]))
            && (blob.Failed? ==> r == Failed(blob.error))
            && (blob.Panicked? ==> r == Panicked(ExpectFailed(GetModuleExpectation))))
  {
    match m.client.view(ViewRequestFor(m, GetModule, uq.query), uq.version)
    case Err(e) => Failed(e)
    case Ok(values) =>
      match ExpectOne(m, values, GetModuleExpectation)
      case Failed(e) => Failed(e)
      case Panicked(p) => Panicked(p)
      case Done(moduleBytes) => Done([moduleBytes])
  }

  /** Fetches `(config, vk, param)` for the query's target function with three view calls,
      all at the query's version. The calls are joined all-or-nothing; the join takes them
      popped from the back of the request list, so `param` is looked at first. */
  method GetVkForQuery(m: Manager, uq: UserQuery) returns (r: Outcome<(Bytes, Bytes, Bytes), RestError>)
    ensures var config := m.client.view(ViewRequestFor(m, GetConfig, uq.query), uq.version);
            var vk := m.client.view(ViewRequestFor(m, GetVk, uq.query), uq.version);
            var param := m.client.view(ViewRequestFor(m, GetParam, uq.query), uq.version);
      && (param.Err? ==> r == Failed(param.error))
      && (param.Ok? && vk.Err? ==> r == Failed(vk.error))
      && (param.Ok? && vk.Ok? && config.Err? ==> r == Failed(config.error))
      && (r.Done? <==>
            && config.Ok? && vk.Ok? && param.Ok?
            && ExpectOne(m, param.value, GetParamExpectation).Done?
            && ExpectOne(m, vk.value, GetVkExpectation).Done?
            && ExpectOne(m, config.value, GetConfigExpectation).Done?)
      && (r.Done? ==>
            r.value == (ExpectOne(m, config.value, GetConfigExpectation).value,
                        ExpectOne(m, vk.value, GetVkExpectation).value,
                        ExpectOne(m, param.value, GetParamExpectation).value))
      && (r.Panicked? ==>
            && config.Ok? && vk.Ok? && param.Ok?
            && (config.value == [] || vk.value == [] || param.value == []))
      && (config.Ok? && vk.Ok? && param.Ok? && param.value == [] ==>
            r == Panicked(ExpectFailed(GetParamExpectation)))
    // Once all three calls succeed, the values are taken `param`, `vk`, `config`; the first
    // that is missing panics with its own message and the first that fails to decode is
    // returned as the error.
    ensures var config := m.client.view(ViewRequestFor(m, GetConfig, uq.query), uq.version);
            var vk := m.client.view(ViewRequestFor(m, GetVk, uq.query), uq.version);
            var param := m.client.view(ViewRequestFor(m, GetParam, uq.query), uq.version);
      config.Ok? && vk.Ok? && param.Ok? ==>
        var p := ExpectOne(m, param.value, GetParamExpectation);
        var v := ExpectOne(m, vk.value, GetVkExpectation);
        var c := ExpectOne(m, config.value, GetConfigExpectation);
        && (p.Failed? ==> r == Failed(p.error))
        && (p.Done? && vk.value == [] ==> r == Panicked(ExpectFailed(GetVkExpectation)))
        && (p.Done? && v.Failed? ==> r == Failed(v.error))
        && (p.Done? && v.Done? && config.value == [] ==> r == Panicked(ExpectFailed(GetConfigExpectation)))
        && (p.Done? && v.Done? && c.Failed? ==> r == Failed(c.error))
        && (p.Done? && v.Done? && c.Done? ==> r == Done((c.value, v.value, p.value)))
  {
    var reqs := [ViewRequestFor(m, GetConfig, uq.query), ViewRequestFor(m, GetVk, uq.query),
                 ViewRequestFor(m, GetParam, uq.query)];
    var calls := seq(|reqs|, i requires 0 <= i < |reqs| => m.client.view(reqs[i], uq.version));
    var param := Last(calls);
    calls := calls[..|calls| - 1];
    var vk := Last(calls);
    calls := calls[..|calls| - 1];
    var config := Last(calls);
    if param.Err? { return Failed(param.error); }
    if vk.Err? { return Failed(vk.error); }
    if config.Err? { return Failed(config.error); }
    var paramBytes := ExpectOne(m, param.value, GetParamExpectation);
    if paramBytes.Failed? { return Failed(paramBytes.error); }
    if paramBytes.Panicked? { return Panicked(paramBytes.panic); }
    var vkBytes := ExpectOne(m, vk.value, GetVkExpectation);
    if vkBytes.Failed? { return Failed(vkBytes.error); }
    if vkBytes.Panicked? { return Panicked(vkBytes.panic); }
    var configBytes := ExpectOne(m, config.value, GetConfigExpectation);
    if configBytes.Failed? { return Failed(configBytes.error); }
    if configBytes.Panicked? { return Panicked(configBytes.panic); }
    r := Done((configBytes.value, vkBytes.value, paramBytes.value));
  }

  /** What the watcher yields, tagged with the cursor it was yielded at: the resolution of
      the event at that index (successful or not), or a failure to fetch it. */
  datatype Yield =
    | Resolved(at: nat, item: Result<UserQuery, RestError>)
    | FetchFailed(at: nat, error: RestError)
  {
    /** The item the stream hands to its consumer. */
    function Item(): Result<UserQuery, RestError> {
      match this
      case Resolved(_, item) => item
      case FetchFailed(_, e) => Err(e)
    }
  }

  /** The cursor after some iterations of the watcher loop and what they yielded. */
  datatype Tick = Tick(cursor: nat, yielded: seq<Yield>)

  /** One iteration of the watcher loop at cursor `cur`. Only a fetched event moves the
      cursor, by one; an absent event (after the idle wait) yields nothing. */
  function Poll(m: Manager, cur: nat): (t: Tick)
    ensures t.cursor == (if GetEvent(m, cur).Ok? && GetEvent(m, cur).value.Some? then cur + 1 else cur)
    ensures |t.yielded| == (if GetEvent(m, cur) == Ok(None) then 0 else 1)
    ensures forall y :: y in t.yielded ==> y.at == cur
    ensures GetEvent(m, cur).Err? ==> t.yielded == [FetchFailed(cur, GetEvent(m, cur).error)]
    ensures GetEvent(m, cur).Ok? && GetEvent(m, cur).value.Some? ==>
      t.yielded == [Resolved(cur, HandleNewQueryEvent(m, GetEvent(m, cur).value.value))]
  {
    match GetEvent(m, cur)
    case Ok(Some(event)) => Tick(cur + 1, [Resolved(cur, HandleNewQueryEvent(m, event))])
    case Ok(None) => Tick(cur, [])
    case Err(e) => Tick(cur, [FetchFailed(cur, e)])
  }

  /** Iterations of the watcher loop from cursor `cur`, one per element of `clients`. The
      event page is read from the chain as it stands when the iteration runs, so iteration
      `i` sees the client as it answers at that time, `clients[i]`; reads pinned to a version
      do not depend on when they are made. */
  function PollN(agger: AccountAddress, clients: seq<Client>, cur: nat): (t: Tick)
    ensures |t.yielded| <= |clients|
    ensures forall y :: y in t.yielded ==> cur <= y.at < cur + |clients|
    decreases |clients|
  {
    if clients == [] then Tick(cur, [])
    else
      var t := Poll(Manager(clients[0], agger), cur);
      var rest := PollN(agger, clients[1..], t.cursor);
      Tick(rest.cursor, t.yielded + rest.yielded)
  }

  /** The indices of the events whose resolution was yielded, in yield order. */
  function ResolvedIndices(ys: seq<Yield>): seq<nat>
  {
    if ys == [] then []
    else (if ys[0].Resolved? then [ys[0].at] else []) + ResolvedIndices(ys[1..])
  }

  /** `[lo, lo + 1, ..., hi - 1]` */
  function Range(lo: nat, hi: nat): (r: seq<nat>)
    requires lo <= hi
    decreases hi - lo
  {
    if lo == hi then [] else [lo] + Range(lo + 1, hi)
  }

  lemma {:induction false} ResolvedIndicesAppend(a: seq<Yield>, b: seq<Yield>)
    ensures ResolvedIndices(a + b) == ResolvedIndices(a) + ResolvedIndices(b)
  {
    if a != [] {
      assert (a + b)[0] == a[0];
      assert (a + b)[1..] == a[1..] + b;
      ResolvedIndicesAppend(a[1..], b);
    } else {
      assert a + b == b;
    }
  }

  lemma {:induction false} RangeSnoc(lo: nat, hi: nat)
    requires lo <= hi
    ensures Range(lo, hi) + [hi] == Range(lo, hi + 1)
    decreases hi - lo
  {
    if lo < hi {
      RangeSnoc(lo + 1, hi);
    }
  }

  /** While no event exists at the cursor, any number of polls yields nothing and keeps the
      cursor: retrying is idempotent and skips nothing. */
  lemma {:induction false} IdleRetryIsIdempotent(agger: AccountAddress, clients: seq<Client>, cur: nat)
    requires forall i :: 0 <= i < |clients| ==> GetEvent(Manager(clients[i], agger), cur) == Ok(None)
    ensures PollN(agger, clients, cur) == Tick(cur, [])
    decreases |clients|
  {
    if clients != [] {
      assert GetEvent(Manager(clients[0], agger), cur) == Ok(None);
      assert forall i :: 0 <= i < |clients[1..]| ==> clients[1..][i] == clients[i + 1];
      IdleRetryIsIdempotent(agger, clients[1..], cur);
    }
  }

  /** A fetch failure at the cursor is surfaced and the loop carries on at the same cursor:
      while fetching keeps failing, each poll yields its failure once and nothing advances. */
  lemma {:induction false} FetchFailureKeepsCursor(agger: AccountAddress, clients: seq<Client>, cur: nat)
    requires forall i :: 0 <= i < |clients| ==> GetEvent(Manager(clients[i], agger), cur).Err?
    ensures PollN(agger, clients, cur).cursor == cur
    ensures |PollN(agger, clients, cur).yielded| == |clients|
    ensures forall i :: 0 <= i < |clients| ==>
      PollN(agger, clients, cur).yielded[i] == FetchFailed(cur, GetEvent(Manager(clients[i], agger), cur).error)
    decreases |clients|
  {
    if clients != [] {
      assert GetEvent(Manager(clients[0], agger), cur).Err?;
      assert forall i :: 0 <= i < |clients[1..]| ==> clients[1..][i] == clients[i + 1];
      FetchFailureKeepsCursor(agger, clients[1..], cur);
    }
  }

  /** The idle wait is a retry that works: if the event at the cursor is absent for `k`
      polls and present at the next, that poll resolves it, and nothing else has been
      yielded in between. */
  lemma {:induction false} EventAfterIdleIsPickedUp(agger: AccountAddress, clients: seq<Client>, cur: nat, k: nat)
    requires k < |clients|
    requires forall i :: 0 <= i < k ==> GetEvent(Manager(clients[i], agger), cur) == Ok(None)
    requires GetEvent(Manager(clients[k], agger), cur).Ok? && GetEvent(Manager(clients[k], agger), cur).value.Some?
    ensures PollN(agger, clients[..k + 1], cur)
            == Tick(cur + 1, [Resolved(cur, HandleNewQueryEvent(Manager(clients[k], agger),
                                                                GetEvent(Manager(clients[k], agger), cur).value.value))])
    decreases k
  {
    var ms := clients[..k + 1];
    assert ms[0] == clients[0];
    if k == 0 {
      assert ms[1..] == [];
    } else {
      assert GetEvent(Manager(clients[0], agger), cur) == Ok(None);
      assert ms[1..] == clients[1..][..k];
      EventAfterIdleIsPickedUp(agger, clients[1..], cur, k - 1);
    }
  }

  /** Over any run of the loop, the events resolved are exactly those at indices `cur`,
      `cur + 1`, ..., up to the final cursor, each once and in order: no duplicates, no gaps.
      The cursor never moves back and moves at most once per iteration. */
  lemma {:induction false} NoGapsNoDuplicates(agger: AccountAddress, clients: seq<Client>, cur: nat)
    ensures cur <= PollN(agger, clients, cur).cursor <= cur + |clients|
    ensures ResolvedIndices(PollN(agger, clients, cur).yielded) == Range(cur, PollN(agger, clients, cur).cursor)
    decreases |clients|
  {
    if clients != [] {
      var t := Poll(Manager(clients[0], agger), cur);
      var rest := PollN(agger, clients[1..], t.cursor);
      NoGapsNoDuplicates(agger, clients[1..], t.cursor);
      ResolvedIndicesAppend(t.yielded, rest.yielded);
      if t.cursor == cur + 1 {
        assert ResolvedIndices(t.yielded) == [cur];
      } else {
        assert ResolvedIndices(t.yielded) == [];
      }
    }
  }

  /** The stream returned by `get_query_stream`: the watcher loop of the manager for the
      query contract at `agger`, with its cursor and the items it has yielded so far. */
  class QueryStream {
    const agger: AccountAddress
    var cur: nat
    var yielded: seq<Yield>

    /** The items yielded so far resolve the events `0 .. cur - 1`, each once and in order. */
    ghost predicate Valid()
      reads this
    {
      && ResolvedIndices(yielded) == Range(0, cur)
      && forall y :: y in yielded ==> y.at <= cur
    }

    /** The cursor starts at 0. */
    constructor(m: Manager)
      ensures Valid()
      ensures agger == m.agger && cur == 0 && yielded == []
    {
      agger := m.agger;
      cur := 0;
      yielded := [];
    }

    /** One iteration of the loop, with the manager's client as it answers now. */
    method Step(client: Client)
      requires Valid()
      modifies this
      ensures Valid()
      ensures cur == Poll(Manager(client, agger), old(cur)).cursor
      ensures yielded == old(yielded) + Poll(Manager(client, agger), old(cur)).yielded
    {
      var manager := Manager(client, agger);
      var event := GetEvent(manager, cur);
      match event {
        case Ok(Some(evt)) =>
          var q := HandleNewQueryEvent(manager, evt);
          ResolvedIndicesAppend(yielded, [Resolved(cur, q)]);
          RangeSnoc(0, cur);
          yielded := yielded + [Resolved(cur, q)];
          cur := cur + 1;
        case Ok(None) =>
          // the 30-second idle wait; the cursor stays
        case Err(e) =>
          ResolvedIndicesAppend(yielded, [FetchFailed(cur, e)]);
          yielded := yielded + [FetchFailed(cur, e)];
      }
    }

    /** One iteration of the loop per element of `clients`, iteration `i` seeing the client
        as it answers at that time. */
    method Run(clients: seq<Client>)
      requires Valid()
      modifies this
      ensures Valid()
      ensures cur == PollN(agger, clients, old(cur)).cursor
      ensures yielded == old(yielded) + PollN(agger, clients, old(cur)).yielded
    {
      for i := 0 to |clients|
        invariant Valid()
        invariant PollN(agger, clients, old(cur)).cursor == PollN(agger, clients[i..], cur).cursor
        invariant old(yielded) + PollN(agger, clients, old(cur)).yielded == yielded + PollN(agger, clients[i..], cur).yielded
      {
        assert clients[i..][0] == clients[i] && clients[i..][1..] == clients[i + 1..];
        ghost var before, step := yielded, Poll(Manager(clients[i], agger), cur);
        ghost var rest := PollN(agger, clients[i + 1..], step.cursor);
        assert PollN(agger, clients[i..], cur).yielded == step.yielded + rest.yielded;
        Step(clients[i]);
        assert before + (step.yielded + rest.yielded) == yielded + rest.yielded;
      }
      assert clients[|clients|..] == [];
    }
  }
}
