/** The on-chain records of the query contract, as the watcher and the witness builder see them.
    Integer widths (`u64`, `u16`) are modelled as unbounded naturals. */
module AggerTypes {
  import opened Common

  /** An Aptos account address. */
  datatype AccountAddress = AccountAddress(bytes: Bytes)

  /** A request to prove one entry-function call: the target module, the position of the
      function in the module's definition table, and the serialised arguments. */
  datatype Query = Query(
    moduleAddress: Bytes,
    moduleName: Bytes,
    functionIndex: nat,
    tyArgs: seq<Bytes>,
    args: seq<Bytes>)

  /** A query resolved from one event: the chain version it was read at, the event's
      sequence number, the query id and the account that submitted it. */
  datatype UserQuery = UserQuery(
    version: nat,
    sequenceNumber: nat,
    id: nat,
    user: AccountAddress,
    query: Query)

  /** The payload of a new-query event; `id` keys the user's table of queries. */
  datatype NewQueryEvent = NewQueryEvent(id: nat, user: AccountAddress)

  datatype TableHandle = TableHandle(address: Bytes)

  /** The per-user `Queries` resource; only the handle of its id-keyed table is used. */
  datatype Queries = Queries(handle: TableHandle)
}
