/** Properties of the derived views over whole classes of inputs, and
    concrete cases of the getters. */
module WalletScenarios {
  import opened Wrappers
  import opened JsNumber
  import opened WalletTypes
  import opened WalletGetters

  /** With numeric amounts, the staking total reads back, through
      `Number`, as the exact sum of the delegated amounts. */
  lemma StakingAmountReadsBack(delegations: seq<Delegation>)
    requires AllNumeric(DelegationAmounts(delegations))
    ensures ToNumber(StakingAmount(delegations).amount) == Int(SumValues(DelegationAmounts(delegations)))
  {
  }

  /** A single delegation with a canonical amount is reported unchanged. */
  lemma {:induction false} SingleDelegationUnchanged(c: Coin)
    requires IsCanonical(c.amount)
    ensures StakingAmount([Delegation(c)]) == c
  {
    var amounts := DelegationAmounts([Delegation(c)]);
    assert amounts == [c.amount];
    assert amounts[1..] == [];
    assert SumValues(amounts) == DecimalValue(c.amount);
    DecimalRoundTrip(c.amount);
  }

  /** When all delegations share one denomination, that is the result's. */
  lemma StakingDenomOfHomogeneous(delegations: seq<Delegation>, denom: string)
    requires delegations != []
    requires forall i :: 0 <= i < |delegations| ==> delegations[i].balance.denom == denom
    ensures StakingAmount(delegations).denom == denom
  {
  }

  /** With the bond denomination present exactly once, as a chain's bank
      module reports it, that entry is the staking-token balance. */
  lemma UniqueBondDenomBalance(balances: seq<Coin>, i: nat, bondDenom: string)
    requires i < |balances| && balances[i].denom == bondDenom
    requires forall j :: 0 <= j < |balances| && j != i ==> balances[j].denom != bondDenom
    ensures BalanceOfStakingToken(balances, bondDenom) == balances[i]
  {
  }

  /** An unbonding total is unchanged by splitting or merging records:
      only the entries, in order, matter. */
  lemma UnbondingOnlyEntriesMatter(u1: seq<UnbondingResponse>, u2: seq<UnbondingResponse>, bondDenom: string)
    requires Flatten(u1) == Flatten(u2)
    ensures UnbondingAmount(u1, bondDenom) == UnbondingAmount(u2, bondDenom)
  {
  }

  /** Unfolds `SumValues` on a two-element list of numerals; a step of the
      concrete examples below. */
  lemma SumOfTwo(a: string, b: string)
    requires IsNumeral(a) && IsNumeral(b)
    ensures AllNumeric([a, b]) && SumValues([a, b]) == DecimalValue(a) + DecimalValue(b)
  {
    assert [a, b][1..] == [b] && [b][1..] == [];
    assert SumValues([b]) == DecimalValue(b) + SumValues([]);
  }

  /** The values of the literals in `StakingExample`, and the numeral of their sum. */
  lemma TenAndFive()
    ensures IsNumeral("10") && DecimalValue("10") == 10
    ensures IsNumeral("5") && DecimalValue("5") == 5
    ensures NatToDecimal(15) == "15"
  {
  }

  /** Two delegations of 10 and 5 uatom stake 15 uatom. */
  lemma StakingExample()
    ensures StakingAmount([Delegation(Coin("10", "uatom")), Delegation(Coin("5", "uatom"))]) == Coin("15", "uatom")
  {
    var ds := [Delegation(Coin("10", "uatom")), Delegation(Coin("5", "uatom"))];
    var amounts := DelegationAmounts(ds);
    assert amounts == ["10", "5"];
    TenAndFive();
    SumOfTwo("10", "5");
    assert AllNumeric(amounts) && SumValues(amounts) == 15;
    var r := StakingAmount(ds);
    assert r.amount == "15" && r.denom == "uatom";
  }

  /** Unfolds `Flatten` on two records; a step of `UnbondingExample`. */
  lemma FlattenTwo(u1: UnbondingResponse, u2: UnbondingResponse)
    ensures Flatten([u1, u2]) == EntryBalances(u1.entries) + EntryBalances(u2.entries)
  {
    assert [u1, u2][1..] == [u2] && [u2][1..] == [];
    assert Flatten([u2]) == EntryBalances(u2.entries) + Flatten([]);
  }

  /** Two unbonding records with entries of 3 and 7 unbond 10 of the bond denomination. */
  lemma UnbondingExample(bondDenom: string)
    ensures UnbondingAmount([UnbondingResponse([UnbondingEntry("3")]), UnbondingResponse([UnbondingEntry("7")])], bondDenom)
      == Coin("10", bondDenom)
  {
    var u1 := UnbondingResponse([UnbondingEntry("3")]);
    var u2 := UnbondingResponse([UnbondingEntry("7")]);
    assert EntryBalances(u1.entries) == ["3"];
    assert EntryBalances(u2.entries) == ["7"];
    FlattenTwo(u1, u2);
    var flat := Flatten([u1, u2]);
    assert flat == ["3", "7"];
    SumOfTwo("3", "7");
    assert SumValues(flat) == 10;
    assert NatToDecimal(10) == "10";
  }

  /** A missing denomination yields the zero placeholder of the bond denomination. */
  lemma MissingDenomExample()
    ensures BalanceOfStakingToken([Coin("4", "uosmo")], "uatom") == Coin("0", "uatom")
    ensures RewardAmount(DelegatorRewards(Some([Coin("4", "uosmo")])), "uatom") == Coin("0", "uatom")
    ensures RewardAmount(DelegatorRewards(None), "uatom") == Coin("0", "uatom")
  {
  }

  /** `shortAddress` of "cosmos1abcdxyz" is "dxyz"; of a three-character address, "". */
  lemma ShortAddressExample()
    ensures ShortAddress("cosmos1abcdxyz") == "dxyz"
    ensures ShortAddress("abc") == ""
  {
  }
}
