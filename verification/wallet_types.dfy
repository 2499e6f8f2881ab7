/** The records the wallet store holds: the cached chain data of the
    connected address, the connection record, and the browser's key-value
    storage that persists that record. */
module WalletTypes {
  import opened Wrappers

  /** `{amount, denom}`; `amount` is a decimal-integer string. */
  datatype Coin = Coin(amount: string, denom: string)

  /** One delegation response; only its `balance` is read by the store. */
  datatype Delegation = Delegation(balance: Coin)

  /** One entry of an unbonding record; `balance` is a bare amount string. */
  datatype UnbondingEntry = UnbondingEntry(balance: string)

  datatype UnbondingResponse = UnbondingResponse(entries: seq<UnbondingEntry>)

  /** The rewards response; `total` is absent in the initial `{}`. */
  datatype DelegatorRewards = DelegatorRewards(total: Option<seq<Coin>>)

  /** A connection record: `cosmosAddress` plus whatever else the wallet stored. */
  datatype WalletRecord = WalletRecord(cosmosAddress: Option<string>, metadata: map<string, string>)

  /** The in-memory `walletIsConnected` field: `null` or an object. */
  datatype Connection = Null | Obj(record: WalletRecord)

  /** `{}` */
  const EmptyRecord := WalletRecord(None, map[])

  /** `walletIsConnected?.cosmosAddress` is truthy: present and non-empty. */
  predicate HasAddress(c: Connection) {
    c.Obj? && c.record.cosmosAddress.Some? && c.record.cosmosAddress.value != ""
  }

  /** The store's state record. */
  datatype WalletState = WalletState(
    balances: seq<Coin>,
    delegations: seq<Delegation>,
    unbonding: seq<UnbondingResponse>,
    rewards: DelegatorRewards,
    walletIsConnected: Connection)

  /** The state every new store starts in and `$reset` restores. */
  function InitialState(): (s: WalletState)
    ensures s.balances == [] && s.delegations == [] && s.unbonding == []
    ensures s.rewards.total.None? && s.walletIsConnected == Obj(EmptyRecord)
  {
    WalletState([], [], [], DelegatorRewards(None), Obj(EmptyRecord))
  }

  /** What `localStorage.getItem(key)` holds, already classified by what
      `JSON.parse` makes of it: the empty string, a parsable connection
      record (or `null`), or text that makes `JSON.parse` throw. */
  datatype Stored = EmptyText | Json(value: Connection) | Malformed

  type Storage = map<string, Stored>

  /** The store together with the persistent storage it reads and clears. */
  datatype Store = Store(state: WalletState, storage: Storage)

  /** The `SyntaxError` `JSON.parse` throws */
  datatype ParseError = SyntaxError
}
