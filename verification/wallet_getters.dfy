/** The store's derived views, with the ambient stores made parameters:
    `bondDenom` is the staking module's bond denomination, `key` the active
    chain's HD-path storage key, and `rebech` the bech32 decode-and-re-encode
    under the active chain's prefix. */
module WalletGetters {
  import opened Wrappers
  import opened JsNumber
  import opened WalletTypes

  predicate HasDenom(coins: seq<Coin>, denom: string) {
    exists i :: 0 <= i < |coins| && coins[i].denom == denom
  }

  /** `coins[i]` is the element `coins.find(x => x.denom === denom)` returns. */
  predicate IsFirstWithDenom(coins: seq<Coin>, i: nat, denom: string) {
    && i < |coins|
    && coins[i].denom == denom
    && forall j :: 0 <= j < i ==> coins[j].denom != denom
  }

  /** The index `Array.prototype.find` stops at, if any. */
  function FindDenom(coins: seq<Coin>, denom: string): (r: Option<nat>)
    ensures r.Some? ==> IsFirstWithDenom(coins, r.value, denom)
    ensures r.None? ==> !HasDenom(coins, denom)
  {
    if coins == [] then None
    else if coins[0].denom == denom then Some(0)
    else
      match FindDenom(coins[1..], denom)
      case None =>
        assert forall i :: 1 <= i < |coins| ==> coins[i] == coins[1..][i - 1];
        None
      case Some(i) =>
        assert forall j :: 1 <= j <= i ==> coins[j] == coins[1..][j - 1];
        Some(i + 1)
  }

  /** The zero-amount placeholder `{ amount: '0', denom }`. */
  function ZeroCoin(denom: string): Coin {
    Coin("0", denom)
  }

  /** `coins.find(x => x.denom === denom) || { amount: '0', denom }` */
  function FindOrZero(coins: seq<Coin>, denom: string): (r: Coin)
    ensures r.denom == denom
    ensures HasDenom(coins, denom) ==> exists i: nat :: IsFirstWithDenom(coins, i, denom) && coins[i] == r
    ensures !HasDenom(coins, denom) ==> r == ZeroCoin(denom)
  {
    match FindDenom(coins, denom)
    case Some(i) => coins[i]
    case None => ZeroCoin(denom)
  }

  /** The getter `balanceOfStakingToken`. */
  function BalanceOfStakingToken(balances: seq<Coin>, bondDenom: string): (r: Coin)
    ensures r.denom == bondDenom
    ensures HasDenom(balances, bondDenom) ==>
      exists i: nat :: IsFirstWithDenom(balances, i, bondDenom) && balances[i] == r
    ensures !HasDenom(balances, bondDenom) ==> r == ZeroCoin(bondDenom)
  {
    FindOrZero(balances, bondDenom)
  }

  /** The getter `rewardAmount`: `rewards.total?.find(...) || zero`. */
  function RewardAmount(rewards: DelegatorRewards, bondDenom: string): (r: Coin)
    ensures r.denom == bondDenom
    ensures rewards.total.Some? && HasDenom(rewards.total.value, bondDenom) ==>
      exists i: nat :: IsFirstWithDenom(rewards.total.value, i, bondDenom) && rewards.total.value[i] == r
    ensures rewards.total.None? || !HasDenom(rewards.total.value, bondDenom) ==> r == ZeroCoin(bondDenom)
  {
    match rewards.total
    case None => ZeroCoin(bondDenom)
    case Some(total) => FindOrZero(total, bondDenom)
  }

  /** A `forEach` loop doing `acc += Number(a)` for each amount `a` in order. */
  function Accumulate(acc: Num, amounts: seq<string>): (r: Num)
    ensures r == Plus(acc, Total(amounts))
  {
    if amounts == [] then acc
    else
      var init := amounts[..|amounts| - 1];
      var last := amounts[|amounts| - 1];
      assert amounts == init + [last];
      TotalSnoc(init, last);
      Plus(Accumulate(acc, init), ToNumber(last))
  }

  function DelegationAmounts(delegations: seq<Delegation>): (amounts: seq<string>)
    ensures |amounts| == |delegations|
    ensures forall i :: 0 <= i < |delegations| ==> amounts[i] == delegations[i].balance.amount
  {
    seq(|delegations|, i requires 0 <= i < |delegations| => delegations[i].balance.amount)
  }

  /** The getter `stakingAmount`: the sum of all delegated amounts, as a
      decimal string, with the denomination of the last delegation. */
  function StakingAmount(delegations: seq<Delegation>): (r: Coin)
    ensures AllNumeric(DelegationAmounts(delegations)) ==>
      r.amount == NatToDecimal(SumValues(DelegationAmounts(delegations)))
    ensures !AllNumeric(DelegationAmounts(delegations)) ==> r.amount == "NaN"
    ensures delegations == [] ==> r == Coin("0", "")
    ensures delegations != [] ==> r.denom == delegations[|delegations| - 1].balance.denom
  {
    // The loop adds every amount into `amt` and overwrites `denom` with
    // each delegation's, so `denom` ends as the last one's.
    var amt := Accumulate(Int(0), DelegationAmounts(delegations));
    var denom := if delegations == [] then "" else delegations[|delegations| - 1].balance.denom;
    Coin(NumToString(amt), denom)
  }

  function EntryBalances(entries: seq<UnbondingEntry>): (balances: seq<string>)
    ensures |balances| == |entries|
    ensures forall i :: 0 <= i < |entries| ==> balances[i] == entries[i].balance
  {
    seq(|entries|, i requires 0 <= i < |entries| => entries[i].balance)
  }

  /** Every entry balance of every unbonding record, records in order. */
  function Flatten(unbonding: seq<UnbondingResponse>): seq<string> {
    if unbonding == [] then []
    else EntryBalances(unbonding[0].entries) + Flatten(unbonding[1..])
  }

  lemma {:induction false} FlattenSnoc(unbonding: seq<UnbondingResponse>)
    requires unbonding != []
    ensures Flatten(unbonding) ==
      Flatten(unbonding[..|unbonding| - 1]) + EntryBalances(unbonding[|unbonding| - 1].entries)
  {
    if |unbonding| > 1 {
      var rest := unbonding[1..];
      FlattenSnoc(rest);
      assert rest[..|rest| - 1] == unbonding[..|unbonding| - 1][1..];
    }
  }

  /** The nested loops of `unbondingAmount`: the running total after every
      entry of every record. */
  function UnbondingLoop(unbonding: seq<UnbondingResponse>): (r: Num)
    ensures r == Total(Flatten(unbonding))
  {
    if unbonding == [] then Int(0)
    else
      var init := unbonding[..|unbonding| - 1];
      var last := EntryBalances(unbonding[|unbonding| - 1].entries);
      FlattenSnoc(unbonding);
      TotalAppend(Flatten(init), last);
      Accumulate(UnbondingLoop(init), last)
  }

  /** The getter `unbondingAmount`: the sum over all entries of all
      records, always paired with the bond denomination. */
  function UnbondingAmount(unbonding: seq<UnbondingResponse>, bondDenom: string): (r: Coin)
    ensures r.denom == bondDenom
    ensures AllNumeric(Flatten(unbonding)) ==> r.amount == NatToDecimal(SumValues(Flatten(unbonding)))
    ensures !AllNumeric(Flatten(unbonding)) ==> r.amount == "NaN"
  {
    Coin(NumToString(UnbondingLoop(unbonding)), bondDenom)
  }

  /** The getter `shortAddress`: the last four characters, or "" for an
      address of four characters or fewer. */
  function ShortAddress(address: string): (r: string)
    ensures |address| > 4 ==> |r| == 4 && address == address[..|address| - 4] + r
    ensures |address| <= 4 ==> r == ""
  {
    if |address| > 4 then address[|address| - 4..] else ""
  }

  /** `JSON.parse(localStorage.getItem(key) || '{}')` */
  function StoredConnection(storage: Storage, key: string): (r: Result<Connection, ParseError>)
    ensures r.Failure? <==> key in storage && storage[key].Malformed?
    ensures key !in storage ==> r == Success(Obj(EmptyRecord))
    ensures key in storage && storage[key].EmptyText? ==> r == Success(Obj(EmptyRecord))
    ensures key in storage && storage[key].Json? ==> r == Success(storage[key].value)
  {
    if key !in storage then Success(Obj(EmptyRecord))
    else
      match storage[key]
      case EmptyText => Success(Obj(EmptyRecord))
      case Json(c) => Success(c)
      case Malformed => Failure(SyntaxError)
  }

  /** The getter `connectedWallet`: the in-memory record when it carries
      an address, otherwise whatever is stored under `key`. */
  function ConnectedWallet(inMemory: Connection, storage: Storage, key: string): (r: Result<Connection, ParseError>)
    ensures HasAddress(inMemory) ==> r == Success(inMemory)
    ensures !HasAddress(inMemory) && (key !in storage || storage[key].EmptyText?) ==> r == Success(Obj(EmptyRecord))
    ensures !HasAddress(inMemory) && key in storage && storage[key].Json? ==> r == Success(storage[key].value)
    ensures r.Failure? <==> !HasAddress(inMemory) && key in storage && storage[key].Malformed?
  {
    if HasAddress(inMemory) then Success(inMemory) else StoredConnection(storage, key)
  }

  /** `rebech` never yields "": a bech32 string always holds a prefix, the
      separator `1` and a checksum. */
  ghost predicate NonEmptyEncoding(rebech: string -> string) {
    forall a :: rebech(a) != ""
  }

  /** The getter `currentAddress`: "" exactly without a connected address,
      otherwise the address re-encoded by `rebech`. */
  function CurrentAddress(inMemory: Connection, storage: Storage, key: string, rebech: string -> string)
    : (r: Result<string, ParseError>)
    requires NonEmptyEncoding(rebech)
    ensures r.Failure? <==> ConnectedWallet(inMemory, storage, key).Failure?
    ensures r.Success? ==> (r.value == "" <==> !HasAddress(ConnectedWallet(inMemory, storage, key).value))
    ensures r.Success? && HasAddress(ConnectedWallet(inMemory, storage, key).value) ==>
      r.value == rebech(ConnectedWallet(inMemory, storage, key).value.record.cosmosAddress.value)
  {
    match ConnectedWallet(inMemory, storage, key)
    case Failure(e) => Failure(e)
    case Success(c) =>
      if HasAddress(c) then Success(rebech(c.record.cosmosAddress.value)) else Success("")
  }
}
