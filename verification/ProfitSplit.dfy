/** `handleRegularPayment`: an organisation's payment, less its treasury cut, is split between
    its holders. Amounts are counted in millionths of a token, so that `toFixed(_, 6)` is
    rounding to an integer. */
module ProfitSplit {
  import opened Decimal
  import opened Ledger

  type OrgId = string

  datatype Account = User(wallet: string) | OrgUser(id: OrgId)

  /** A member of an organisation and its equity in percent, as held on chain. */
  datatype Holder = Holder(account: Account, equity: real)

  /** treasury is a percentage. */
  datatype Org = Org(mintSuccess: bool, treasury: real, holders: seq<Holder>)

  type Payout = Transfer<Account>

  function Min(a: int, b: int): int { if a <= b then a else b }

  // ---------- one holder ----------

  function Treasury(payment: real, treasury: real): int
  {
    RoundHalfUp(Times(payment, Over(treasury, 100.0)))
  }

  function AmountToSplit(payment: real, treasury: real): real
  {
    payment - Treasury(payment, treasury) as real
  }

  function RoundedShare(split: real, equity: real): int
  {
    RoundHalfUp(Times(split, Div(equity, 100.0)))
  }

  /** `_normalizeAmount`: one unit less until the accumulated amount fits. */
  function NormalizeAmount(amount: int, split: real, accumulated: int): int
    decreases accumulated + amount - split.Floor
  {
    if (accumulated + amount) as real > split then NormalizeAmount(amount - 1, split, accumulated) else amount
  }

  lemma {:induction false} NormalizeClosedForm(amount: int, split: real, accumulated: int)
    ensures NormalizeAmount(amount, split, accumulated) == Min(amount, split.Floor - accumulated)
    decreases accumulated + amount - split.Floor
  {
    if (accumulated + amount) as real > split {
      NormalizeClosedForm(amount - 1, split, accumulated);
    }
  }

  // ---------- all holders of one organisation ----------

  /** The amount accumulated after the first k holders. */
  function Accumulated(holders: seq<Holder>, split: real, k: nat): int
    requires k <= |holders|
    decreases k, 0
  {
    if k == 0 then 0
    else if holders[k - 1].equity == 0.0 then Accumulated(holders, split, k - 1)
    else Accumulated(holders, split, k - 1) + AmountFor(holders, split, k - 1)
  }

  function AmountFor(holders: seq<Holder>, split: real, k: nat): int
    requires k < |holders|
    decreases k, 1
  {
    NormalizeAmount(RoundedShare(split, holders[k].equity), split, Accumulated(holders, split, k))
  }

  /** The transfers prepared for the first k holders; a holder without equity gets none. */
  function Payouts(o: OrgId, holders: seq<Holder>, split: real, k: nat): seq<Payout>
    requires k <= |holders|
  {
    if k == 0 then []
    else if holders[k - 1].equity == 0.0 then Payouts(o, holders, split, k - 1)
    else
      Payouts(o, holders, split, k - 1)
      + [Transfer(OrgUser(o), holders[k - 1].account, AmountFor(holders, split, k - 1))]
  }

  function SharesSum(holders: seq<Holder>, split: real, k: nat): int
    requires k <= |holders|
  {
    if k == 0 then 0 else SharesSum(holders, split, k - 1) + RoundedShare(split, holders[k - 1].equity)
  }

  function EquitySum(holders: seq<Holder>, k: nat): real
    requires k <= |holders|
  {
    if k == 0 then 0.0 else EquitySum(holders, k - 1) + holders[k - 1].equity
  }

  ghost predicate NonNegative(holders: seq<Holder>)
  {
    forall k :: 0 <= k < |holders| ==> holders[k].equity >= 0.0
  }

  lemma DivZero(y: real)
    requires y > 0.0
    ensures Div(0.0, y) == 0.0
  {
    assert Over(0.0, y) == 0.0 && Times(0.0, E20) == 0.0 && Over(0.0, E20) == 0.0;
  }

  lemma ShareSign(split: real, equity: real)
    requires split >= 0.0 && equity >= 0.0
    ensures RoundedShare(split, equity) >= 0
    ensures equity == 0.0 ==> RoundedShare(split, equity) == 0
  {
    DivZero(100.0);
    OverMonotone(0.0, equity, 100.0);
    ToFixedMonotone(Over(0.0, 100.0), Over(equity, 100.0), E20);
    TimesMonotone(0.0, split, Div(equity, 100.0));
    assert Times(0.0, Div(equity, 100.0)) == 0.0;
    assert equity == 0.0 ==> Times(split, Div(equity, 100.0)) == 0.0;
    RoundMonotone(0.0, Times(split, Div(equity, 100.0)));
  }

  /** The clamped sum in closed form: the rounded shares, cut at the whole units of the
      amount to split; and no holder gets a negative amount. */
  lemma {:induction false} ClampedSplit(holders: seq<Holder>, split: real, k: nat)
    requires split >= 0.0 && NonNegative(holders) && k <= |holders|
    ensures Accumulated(holders, split, k) == Min(SharesSum(holders, split, k), split.Floor)
    ensures forall i :: 0 <= i < k ==> AmountFor(holders, split, i) >= 0
  {
    if k > 0 {
      ClampedSplit(holders, split, k - 1);
      ShareSign(split, holders[k - 1].equity);
      NormalizeClosedForm(RoundedShare(split, holders[k - 1].equity), split, Accumulated(holders, split, k - 1));
    }
  }

  // ---------- what is left over ----------

  /** How far one rounded share may be from the exact share. */
  function ShareSlack(split: real): real { 0.5 + Times(Over(0.5, E20), split) }

  lemma ShareError(split: real, equity: real)
    requires split >= 0.0
    ensures Abs(RoundedShare(split, equity) as real - Times(Over(equity, 100.0), split)) <= ShareSlack(split)
  {
    DivError(equity, 100.0);
    TimesError(Div(equity, 100.0), Over(equity, 100.0), Over(0.5, E20), split);
    RoundError(Times(split, Div(equity, 100.0)));
    assert Times(split, Div(equity, 100.0)) == Times(Div(equity, 100.0), split);
  }

  /** Each rounded share is within slack of the exact one. */
  ghost predicate SharesWithin(holders: seq<Holder>, split: real, slack: real)
  {
    forall i :: 0 <= i < |holders| ==> ShareWithin(split, holders[i].equity, slack)
  }

  ghost predicate ShareWithin(split: real, equity: real, slack: real)
  {
    Abs(RoundedShare(split, equity) as real - Times(Over(equity, 100.0), split)) <= slack
  }

  lemma {:induction false} SharesSumError(holders: seq<Holder>, split: real, k: nat, slack: real)
    requires k <= |holders| && SharesWithin(holders, split, slack)
    ensures Abs(SharesSum(holders, split, k) as real - Times(Over(EquitySum(holders, k), 100.0), split))
      <= Times(k as real, slack)
  {
    if k == 0 {
      OverAdd(0.0, 0.0, 100.0);
      TimesAdd(0.0, 0.0, split);
      TimesAdd(0.0, 0.0, slack);
    } else {
      var e, f := EquitySum(holders, k - 1), holders[k - 1].equity;
      SharesSumError(holders, split, k - 1, slack);
      assert ShareWithin(split, f, slack);
      OverAdd(e, f, 100.0);
      TimesAdd(Over(e, 100.0), Over(f, 100.0), split);
      TimesAdd((k - 1) as real, 1.0, slack);
    }
  }

  /** With equities that add up to 100 percent the split leaves between nothing and either
      less than one unit or the slack of every holder. */
  lemma LeftoverWithin(holders: seq<Holder>, split: real, slack: real)
    requires split >= 0.0 && NonNegative(holders) && EquitySum(holders, |holders|) == 100.0
    requires SharesWithin(holders, split, slack)
    ensures var leftover := split - Accumulated(holders, split, |holders|) as real;
      0.0 <= leftover && (leftover < 1.0 || leftover <= Times(|holders| as real, slack))
  {
    ClampedSplit(holders, split, |holders|);
    SharesSumError(holders, split, |holders|, slack);
    OverAdd(100.0, 0.0, 100.0);
    TimesAdd(1.0, 0.0, split);
  }

  /** Any balances: half a unit per holder plus the error of the division by 100. */
  lemma LeftoverBound(holders: seq<Holder>, split: real)
    requires split >= 0.0 && NonNegative(holders) && EquitySum(holders, |holders|) == 100.0
    ensures var leftover := split - Accumulated(holders, split, |holders|) as real;
      0.0 <= leftover && (leftover < 1.0 || leftover <= Times(|holders| as real, ShareSlack(split)))
  {
    forall i | 0 <= i < |holders| ensures ShareWithin(split, holders[i].equity, ShareSlack(split)) {
      ShareError(split, holders[i].equity);
    }
    LeftoverWithin(holders, split, ShareSlack(split));
  }

  const E18: real := 1_000_000_000_000_000_000.0

  /** Balances with at most 18 decimals divide by 100 without error. */
  lemma ExactShare(split: real, units: int)
    ensures ShareWithin(split, Over(units as real, E18), 0.5)
  {
    var e := Over(units as real, E18);
    assert Over(e, 100.0) == Over(units as real, E20);
    ToFixedOnGrid(units, E20);
    RoundError(Times(split, Div(e, 100.0)));
    assert Times(split, Over(e, 100.0)) == Times(Over(e, 100.0), split);
  }

  /** Token balances with at most 18 decimals: half a unit per holder. */
  lemma ExactLeftoverBound(holders: seq<Holder>, units: seq<nat>, split: real)
    requires split >= 0.0 && EquitySum(holders, |holders|) == 100.0
    requires |units| == |holders| && forall i :: 0 <= i < |holders| ==> holders[i].equity == Over(units[i] as real, E18)
    ensures var leftover := split - Accumulated(holders, split, |holders|) as real;
      0.0 <= leftover && (leftover < 1.0 || leftover <= Times(|holders| as real, 0.5))
  {
    forall i | 0 <= i < |holders| ensures ShareWithin(split, holders[i].equity, 0.5) && holders[i].equity >= 0.0 {
      ExactShare(split, units[i]);
      OverMonotone(0.0, units[i] as real, E18);
      OverAdd(0.0, 0.0, E18);
    }
    LeftoverWithin(holders, split, 0.5);
  }

  // ---------- the loop over the holders ----------

  /** Prepares the transfers and collects the members that are organisations. */
  method SplitBetweenHolders(o: OrgId, holders: seq<Holder>, split: real)
    returns (membersWithAmount: seq<Payout>, orgMembers: seq<Payout>, accumulatedAmount: int)
    ensures membersWithAmount == Payouts(o, holders, split, |holders|)
    ensures orgMembers == OrgMembers(membersWithAmount)
    ensures accumulatedAmount == Accumulated(holders, split, |holders|)
  {
    membersWithAmount, orgMembers, accumulatedAmount := [], [], 0;
    for k := 0 to |holders|
      invariant membersWithAmount == Payouts(o, holders, split, k)
      invariant orgMembers == OrgMembers(membersWithAmount)
      invariant accumulatedAmount == Accumulated(holders, split, k)
    {
      var holder := holders[k];
      if holder.equity != 0.0 {
        var amount := NormalizeAmount(RoundedShare(split, holder.equity), split, accumulatedAmount);
        accumulatedAmount := accumulatedAmount + amount;
        ghost var before := membersWithAmount;
        membersWithAmount := membersWithAmount + [Transfer(OrgUser(o), holder.account, amount)];
        assert membersWithAmount[..|membersWithAmount| - 1] == before;
        if holder.account.OrgUser? {
          orgMembers := orgMembers + [Transfer(OrgUser(o), holder.account, amount)];
        }
      }
    }
  }

  /** The transfers that go to organisations. */
  function OrgMembers(ts: seq<Payout>): (r: seq<Payout>)
    ensures forall k :: 0 <= k < |r| ==> r[k].to.OrgUser? && r[k] in ts
  {
    if ts == [] then []
    else if ts[|ts| - 1].to.OrgUser? then OrgMembers(ts[..|ts| - 1]) + [ts[|ts| - 1]]
    else OrgMembers(ts[..|ts| - 1])
  }
}
