/** The store's actions as store-to-store functions, and what they
    guarantee about the getters read afterwards. */
module WalletActions {
  import opened Wrappers
  import opened JsNumber
  import opened WalletTypes
  import opened WalletGetters

  /** An RPC call issued by `loadMyAsset`, for the address it names. */
  datatype Request =
    | BankBalances(address: string)
    | StakingDelegations(address: string)
    | DelegatorUnbonding(address: string)
    | DistributionRewards(address: string)

  /** The action `setConnectedWallet(value)`; `None` stands for any falsy
      argument.  Returns the new store and the value the action returns. */
  function SetConnectedWallet(s: Store, value: Option<WalletRecord>): (r: (Store, Connection))
    ensures r.1 == r.0.state.walletIsConnected
    ensures value.Some? ==> r.1 == Obj(value.value)
    ensures value.None? ==> r.1 == Obj(EmptyRecord)
    ensures r.0.storage == s.storage
    ensures r.0.state.balances == s.state.balances
    ensures r.0.state.delegations == s.state.delegations
    ensures r.0.state.unbonding == s.state.unbonding
    ensures r.0.state.rewards == s.state.rewards
  {
    var connected := match value case Some(v) => Obj(v) case None => Obj(EmptyRecord);
    (Store(s.state.(walletIsConnected := connected), s.storage), connected)
  }

  /** The action `disconnect`: drop the stored record, then `$reset`.
      The `null` written to `walletIsConnected` just before `$reset` is
      overwritten by it, so the connection ends as `{}`. */
  function Disconnect(s: Store, key: string): (r: Store)
    ensures key !in r.storage
    ensures r.storage.Keys == s.storage.Keys - {key}
    ensures forall k :: k in r.storage ==> r.storage[k] == s.storage[k]
    ensures r.state.balances == [] && r.state.delegations == [] && r.state.unbonding == []
    ensures r.state.rewards.total.None?
    ensures r.state.walletIsConnected == Obj(EmptyRecord)
  {
    Store(InitialState(), s.storage - {key})
  }

  /** The synchronous part of the action `loadMyAsset`: nothing without a
      current address, otherwise the four RPC calls, all for that address.
      The store itself is only written later, by the calls' handlers. */
  function LoadMyAsset(s: Store, key: string, rebech: string -> string): (r: Result<seq<Request>, ParseError>)
    requires NonEmptyEncoding(rebech)
    ensures r.Failure? <==> CurrentAddress(s.state.walletIsConnected, s.storage, key, rebech).Failure?
    ensures r.Success? ==>
      var address := CurrentAddress(s.state.walletIsConnected, s.storage, key, rebech).value;
      && (address == "" <==> r.value == [])
      && (address != "" ==>
            && |r.value| == 4
            && r.value[0].BankBalances? && r.value[1].StakingDelegations?
            && r.value[2].DelegatorUnbonding? && r.value[3].DistributionRewards?
            && forall i :: 0 <= i < |r.value| ==> r.value[i].address == address)
  {
    match CurrentAddress(s.state.walletIsConnected, s.storage, key, rebech)
    case Failure(e) => Failure(e)
    case Success(address) =>
      if address == "" then Success([])
      else Success([BankBalances(address), StakingDelegations(address),
                    DelegatorUnbonding(address), DistributionRewards(address)])
  }

  /** After `disconnect`, every getter reads as for a fresh store: no
      connection, no address, and zero amounts; and `loadMyAsset` issues
      nothing. */
  lemma DisconnectResetsViews(s: Store, key: string, rebech: string -> string, bondDenom: string)
    requires NonEmptyEncoding(rebech)
    ensures var d := Disconnect(s, key);
      && ConnectedWallet(d.state.walletIsConnected, d.storage, key) == Success(Obj(EmptyRecord))
      && CurrentAddress(d.state.walletIsConnected, d.storage, key, rebech) == Success("")
      && ShortAddress(CurrentAddress(d.state.walletIsConnected, d.storage, key, rebech).value) == ""
      && LoadMyAsset(d, key, rebech) == Success([])
      && BalanceOfStakingToken(d.state.balances, bondDenom) == ZeroCoin(bondDenom)
      && RewardAmount(d.state.rewards, bondDenom) == ZeroCoin(bondDenom)
      && StakingAmount(d.state.delegations) == Coin("0", "")
      && UnbondingAmount(d.state.unbonding, bondDenom) == ZeroCoin(bondDenom)
  {
  }

  lemma DisconnectIdempotent(s: Store, key: string)
    ensures Disconnect(Disconnect(s, key), key) == Disconnect(s, key)
  {
  }

  /** A record with an address set by `setConnectedWallet` is what
      `connectedWallet` reads back, whatever the storage holds. */
  lemma SetThenConnected(s: Store, rec: WalletRecord, key: string)
    requires HasAddress(Obj(rec))
    ensures var (s', _) := SetConnectedWallet(s, Some(rec));
      ConnectedWallet(s'.state.walletIsConnected, s'.storage, key) == Success(Obj(rec))
  {
  }

  /** While the in-memory record has an address, storage is never consulted. */
  lemma ConnectedIgnoresStorage(inMemory: Connection, storage1: Storage, storage2: Storage, key: string)
    requires HasAddress(inMemory)
    ensures ConnectedWallet(inMemory, storage1, key) == ConnectedWallet(inMemory, storage2, key)
  {
  }

  /** Without an in-memory address, a record stored under `key` is read back. */
  lemma StoredRecordIsConnected(s: Store, key: string, rec: WalletRecord)
    requires !HasAddress(s.state.walletIsConnected)
    requires key in s.storage && s.storage[key] == Json(Obj(rec))
    ensures ConnectedWallet(s.state.walletIsConnected, s.storage, key) == Success(Obj(rec))
  {
  }

  /** Clearing the in-memory record with a falsy value makes
      `connectedWallet` fall back to storage. */
  lemma ClearedFallsBackToStorage(s: Store, key: string)
    ensures var (s', _) := SetConnectedWallet(s, None);
      ConnectedWallet(s'.state.walletIsConnected, s'.storage, key) == StoredConnection(s.storage, key)
  {
  }

  /** Malformed stored text makes `connectedWallet` throw unless an
      in-memory address shadows it, and the error reaches `loadMyAsset`. */
  lemma MalformedStorageThrows(s: Store, key: string, rebech: string -> string)
    requires NonEmptyEncoding(rebech)
    requires !HasAddress(s.state.walletIsConnected)
    requires key in s.storage && s.storage[key].Malformed?
    ensures ConnectedWallet(s.state.walletIsConnected, s.storage, key).Failure?
    ensures LoadMyAsset(s, key, rebech) == Failure(SyntaxError)
  {
  }

  /** Once a record with an address is set, `loadMyAsset` issues the four
      RPC calls, each for that address re-encoded under the active prefix. */
  lemma SetThenLoad(s: Store, rec: WalletRecord, key: string, rebech: string -> string)
    requires NonEmptyEncoding(rebech)
    requires HasAddress(Obj(rec))
    ensures var (s', _) := SetConnectedWallet(s, Some(rec));
      var address := rebech(rec.cosmosAddress.value);
      LoadMyAsset(s', key, rebech) == Success([BankBalances(address), StakingDelegations(address),
                                               DelegatorUnbonding(address), DistributionRewards(address)])
  {
  }
}
