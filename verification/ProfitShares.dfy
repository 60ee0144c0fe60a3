/** Who gets what: each holder's share of a payment, counted on the holders themselves, and what
    it comes to over the whole recursion. */
module ProfitShares {
  import opened Decimal
  import opened Batches
  import opened Ledger
  import opened ProfitSplit
  import opened ProfitRecursion
  import opened ProfitOrders

  /** What holder k is due of an amount: its rounded share, cut at the whole units that the
      shares of the holders before it leave. */
  function Due(holders: seq<Holder>, split: real, k: nat): int
    requires k < |holders|
  {
    Min(RoundedShare(split, holders[k].equity), split.Floor - Min(SharesSum(holders, split, k), split.Floor))
  }

  /** How many of the first k holders have equity, and how many of these are organisations. */
  function Payees(holders: seq<Holder>, k: nat): nat
    requires k <= |holders|
  {
    if k == 0 then 0 else Payees(holders, k - 1) + if holders[k - 1].equity != 0.0 then 1 else 0
  }

  function OrgPayees(holders: seq<Holder>, k: nat): nat
    requires k <= |holders|
  {
    if k == 0 then 0
    else if holders[k - 1].equity != 0.0 && holders[k - 1].account.OrgUser? then OrgPayees(holders, k - 1) + 1
    else OrgPayees(holders, k - 1)
  }

  // ---------- one organisation ----------

  lemma DueAmount(holders: seq<Holder>, split: real, k: nat)
    requires split >= 0.0 && NonNegative(holders) && k < |holders|
    ensures AmountFor(holders, split, k) == Due(holders, split, k) >= 0
    ensures holders[k].equity == 0.0 ==> Due(holders, split, k) == 0
  {
    ClampedSplit(holders, split, k);
    ShareSign(split, holders[k].equity);
    NormalizeClosedForm(RoundedShare(split, holders[k].equity), split, Accumulated(holders, split, k));
  }

  /** What each holder is due. */
  function Dues(holders: seq<Holder>, split: real): (r: seq<int>)
    ensures |r| == |holders|
  {
    seq(|holders|, k requires 0 <= k < |holders| => Due(holders, split, k))
  }

  /** What holder n - 1 adds to the transfers of the holders before it. */
  function PayoutOf(o: OrgId, holders: seq<Holder>, dues: seq<int>, n: nat): seq<Payout>
    requires 0 < n <= |holders| == |dues|
  {
    if holders[n - 1].equity == 0.0 then [] else [Transfer(OrgUser(o), holders[n - 1].account, dues[n - 1])]
  }

  function PayoutsTo(o: OrgId, holders: seq<Holder>, dues: seq<int>, n: nat): seq<Payout>
    requires n <= |holders| == |dues|
  {
    if n == 0 then [] else PayoutsTo(o, holders, dues, n - 1) + PayoutOf(o, holders, dues, n)
  }

  lemma {:induction false} PayoutsAreDues(o: OrgId, holders: seq<Holder>, split: real, n: nat)
    requires split >= 0.0 && NonNegative(holders) && n <= |holders|
    ensures Payouts(o, holders, split, n) == PayoutsTo(o, holders, Dues(holders, split), n)
  {
    if n > 0 {
      PayoutsAreDues(o, holders, split, n - 1);
      DueAmount(holders, split, n - 1);
    }
  }

  /** The part of it that goes to organisations. */
  function PayoutsToOrgs(o: OrgId, holders: seq<Holder>, dues: seq<int>, n: nat): seq<Payout>
    requires n <= |holders| == |dues|
  {
    if n == 0 then []
    else if holders[n - 1].account.OrgUser?
    then PayoutsToOrgs(o, holders, dues, n - 1) + PayoutOf(o, holders, dues, n)
    else PayoutsToOrgs(o, holders, dues, n - 1)
  }

  lemma {:induction false} OrgsAmongPayouts(o: OrgId, holders: seq<Holder>, dues: seq<int>, n: nat)
    requires n <= |holders| == |dues|
    ensures OrgMembers(PayoutsTo(o, holders, dues, n)) == PayoutsToOrgs(o, holders, dues, n)
  {
    if n > 0 {
      var before := PayoutsTo(o, holders, dues, n - 1);
      OrgsAmongPayouts(o, holders, dues, n - 1);
      if holders[n - 1].equity == 0.0 {
        assert before + PayoutOf(o, holders, dues, n) == before;
      } else {
        assert (before + PayoutOf(o, holders, dues, n))[..|before|] == before;
      }
    }
  }

  /** Each holder with equity has one transfer, of its due and to its own account, in the order
      of the holders; and nobody else has one. */
  ghost predicate PaysHolders(o: OrgId, holders: seq<Holder>, dues: seq<int>, n: nat, ts: seq<Payout>)
    requires n <= |holders| == |dues|
  {
    && |ts| == Payees(holders, n)
    && forall k {:trigger PaysHolder(o, holders, dues, k, ts)} :: 0 <= k < n && holders[k].equity != 0.0 ==>
      PaysHolder(o, holders, dues, k, ts)
  }

  ghost predicate PaysHolder(o: OrgId, holders: seq<Holder>, dues: seq<int>, k: nat, ts: seq<Payout>)
    requires k < |holders| == |dues|
  {
    Payees(holders, k) < |ts| && ts[Payees(holders, k)] == Transfer(OrgUser(o), holders[k].account, dues[k])
  }

  lemma EachHolderIsPaid(o: OrgId, holders: seq<Holder>, split: real)
    requires split >= 0.0 && NonNegative(holders)
    ensures PaysHolders(o, holders, Dues(holders, split), |holders|, Payouts(o, holders, split, |holders|))
  {
    PayoutsAreDues(o, holders, split, |holders|);
    EachDueIsPaid(o, holders, Dues(holders, split), |holders|);
  }

  lemma {:induction false} EachDueIsPaid(o: OrgId, holders: seq<Holder>, dues: seq<int>, n: nat)
    requires n <= |holders| == |dues|
    ensures PaysHolders(o, holders, dues, n, PayoutsTo(o, holders, dues, n))
  {
    if n > 0 {
      EachDueIsPaid(o, holders, dues, n - 1);
      OneMoreHolder(o, holders, dues, n, PayoutsTo(o, holders, dues, n - 1), PayoutsTo(o, holders, dues, n));
    }
  }

  lemma OneMoreHolder(o: OrgId, holders: seq<Holder>, dues: seq<int>, n: nat, before: seq<Payout>, ts: seq<Payout>)
    requires 0 < n <= |holders| == |dues| && PaysHolders(o, holders, dues, n - 1, before)
    requires ts == before + PayoutOf(o, holders, dues, n)
    ensures PaysHolders(o, holders, dues, n, ts)
  {
    forall k | 0 <= k < n && holders[k].equity != 0.0 ensures PaysHolder(o, holders, dues, k, ts) {
      if k < n - 1 {
        assert PaysHolder(o, holders, dues, k, before);
      }
    }
  }

  /** The organisations that are paid on: exactly the holders with equity that are
      organisations, each with its own due. */
  ghost predicate PicksOrgs(o: OrgId, holders: seq<Holder>, dues: seq<int>, n: nat, kids: seq<Payout>)
    requires n <= |holders| == |dues|
  {
    && |kids| == OrgPayees(holders, n)
    && forall k {:trigger PicksOrg(o, holders, dues, k, kids)} ::
      0 <= k < n && holders[k].equity != 0.0 && holders[k].account.OrgUser? ==> PicksOrg(o, holders, dues, k, kids)
  }

  ghost predicate PicksOrg(o: OrgId, holders: seq<Holder>, dues: seq<int>, k: nat, kids: seq<Payout>)
    requires k < |holders| == |dues|
  {
    && OrgPayees(holders, k) < |kids|
    && kids[OrgPayees(holders, k)] == Transfer(OrgUser(o), holders[k].account, dues[k])
  }

  lemma OrgHoldersArePicked(o: OrgId, holders: seq<Holder>, split: real)
    requires split >= 0.0 && NonNegative(holders)
    ensures PicksOrgs(o, holders, Dues(holders, split), |holders|, OrgMembers(Payouts(o, holders, split, |holders|)))
  {
    PayoutsAreDues(o, holders, split, |holders|);
    OrgsAmongPayouts(o, holders, Dues(holders, split), |holders|);
    EachOrgIsPicked(o, holders, Dues(holders, split), |holders|);
  }

  lemma {:induction false} EachOrgIsPicked(o: OrgId, holders: seq<Holder>, dues: seq<int>, n: nat)
    requires n <= |holders| == |dues|
    ensures PicksOrgs(o, holders, dues, n, PayoutsToOrgs(o, holders, dues, n))
  {
    if n > 0 {
      EachOrgIsPicked(o, holders, dues, n - 1);
      OneMoreOrg(o, holders, dues, n, PayoutsToOrgs(o, holders, dues, n - 1), PayoutsToOrgs(o, holders, dues, n));
    }
  }

  lemma OneMoreOrg(o: OrgId, holders: seq<Holder>, dues: seq<int>, n: nat, before: seq<Payout>, kids: seq<Payout>)
    requires 0 < n <= |holders| == |dues| && PicksOrgs(o, holders, dues, n - 1, before)
    requires kids == before + if holders[n - 1].account.OrgUser? then PayoutOf(o, holders, dues, n) else []
    ensures PicksOrgs(o, holders, dues, n, kids)
  {
    forall k | 0 <= k < n && holders[k].equity != 0.0 && holders[k].account.OrgUser?
      ensures PicksOrg(o, holders, dues, k, kids)
    {
      if k < n - 1 {
        assert PicksOrg(o, holders, dues, k, before);
      }
    }
  }

  /** No two holders share an account. */
  ghost predicate OneAccountEach(holders: seq<Holder>)
  {
    forall i, j :: 0 <= i < j < |holders| ==> holders[i].account != holders[j].account
  }

  lemma {:induction false} NothingForOthers(o: OrgId, holders: seq<Holder>, split: real, n: nat, a: Account)
    requires n <= |holders| && forall k :: 0 <= k < n ==> holders[k].account != a
    ensures In(Payouts(o, holders, split, n), a) == 0
  {
    if n > 0 {
      NothingForOthers(o, holders, split, n - 1, a);
      var ts := Payouts(o, holders, split, n);
      assert holders[n - 1].equity != 0.0 ==> ts[..|ts| - 1] == Payouts(o, holders, split, n - 1);
    }
  }

  /** A holder receives exactly its share. */
  lemma {:induction false} HolderReceives(o: OrgId, holders: seq<Holder>, split: real, n: nat, k: nat)
    requires split >= 0.0 && NonNegative(holders) && OneAccountEach(holders) && k < n <= |holders|
    ensures In(Payouts(o, holders, split, n), holders[k].account) == Due(holders, split, k)
  {
    var ts, before := Payouts(o, holders, split, n), Payouts(o, holders, split, n - 1);
    assert holders[n - 1].equity != 0.0 ==> ts[..|ts| - 1] == before;
    if k < n - 1 {
      HolderReceives(o, holders, split, n - 1, k);
      assert holders[k].account != holders[n - 1].account;
    } else {
      NothingForOthers(o, holders, split, k, holders[k].account);
      DueAmount(holders, split, k);
    }
  }

  /** As long as the shares fit, that is its percentage of the amount, up to rounding. */
  lemma DueIsThePercentage(holders: seq<Holder>, split: real, k: nat)
    requires split >= 0.0 && NonNegative(holders) && k < |holders|
    requires SharesSum(holders, split, k + 1) <= split.Floor
    ensures Abs(Due(holders, split, k) as real - Times(Over(holders[k].equity, 100.0), split)) <= ShareSlack(split)
  {
    ShareSign(split, holders[k].equity);
    ShareError(split, holders[k].equity);
  }

  /** The treasury cut is the organisation's percentage, up to half a unit. */
  lemma TreasuryIsThePercentage(payment: real, treasury: real)
    ensures Abs(AmountToSplit(payment, treasury) - Times(payment, Over(100.0 - treasury, 100.0))) <= 0.5
  {
    RoundError(Times(payment, Over(treasury, 100.0)));
    OverSub(100.0, treasury, 100.0);
    OverAdd(100.0, 0.0, 100.0);
    var t := Over(treasury, 100.0);
    TimesAdd(1.0 - t, t, payment);
    assert Times(payment, 1.0 - t) == Times(1.0 - t, payment) && Times(payment, t) == Times(t, payment);
  }

  /** One level of the handler: with a mint that was made, and something to split, each holder
      receives its share and any other account nothing. */
  lemma LevelPaysHolders(g: Graph, o: OrgId, payment: real, a: Account)
    requires Sound(g) && o in g && OneAccountEach(g[o].holders)
    ensures var holders, split := g[o].holders, AmountToSplit(payment, g[o].treasury);
      In(Level(g, o, payment), a) ==
        if g[o].mintSuccess && split >= 0.0 && HolderOf(holders, a, 0) < |holders|
        then Due(holders, split, HolderOf(holders, a, 0))
        else 0
  {
    var holders, split := g[o].holders, AmountToSplit(payment, g[o].treasury);
    var k := HolderOf(holders, a, 0);
    if g[o].mintSuccess && split >= 0.0 {
      if k < |holders| {
        HolderReceives(o, holders, split, |holders|, k);
      } else {
        NothingForOthers(o, holders, split, |holders|, a);
      }
    }
  }

  /** So a holder receives its percentage of what the treasury leaves, up to rounding, as long as
      the shares up to its own fit. */
  lemma HolderGetsItsPercentage(g: Graph, o: OrgId, payment: real, k: nat)
    requires Sound(g) && o in g && OneAccountEach(g[o].holders) && g[o].mintSuccess && k < |g[o].holders|
    requires var split := AmountToSplit(payment, g[o].treasury);
      split >= 0.0 && SharesSum(g[o].holders, split, k + 1) <= split.Floor
    ensures var h, share := g[o].holders[k], Over(g[o].holders[k].equity, 100.0);
      Abs(In(Level(g, o, payment), h.account) as real
          - Times(Times(payment, Over(100.0 - g[o].treasury, 100.0)), share))
        <= ShareSlack(AmountToSplit(payment, g[o].treasury)) + Times(0.5, share)
  {
    var holders, split := g[o].holders, AmountToSplit(payment, g[o].treasury);
    var exact, share := Times(payment, Over(100.0 - g[o].treasury, 100.0)), Over(holders[k].equity, 100.0);
    HolderReceives(o, holders, split, |holders|, k);
    DueIsThePercentage(holders, split, k);
    TreasuryIsThePercentage(payment, g[o].treasury);
    OverMonotone(0.0, holders[k].equity, 100.0);
    OverAdd(0.0, 0.0, 100.0);
    TimesError(split, exact, 0.5, share);
    assert Times(share, split) == Times(split, share);
  }

  function HolderOf(holders: seq<Holder>, a: Account, k: nat): (i: nat)
    requires k <= |holders|
    ensures k <= i <= |holders| && (i < |holders| ==> holders[i].account == a)
    ensures forall j :: k <= j < i ==> holders[j].account != a
    decreases |holders| - k
  {
    if k == |holders| || holders[k].account == a then k else HolderOf(holders, a, k + 1)
  }

  // ---------- the whole recursion ----------

  /** What is due to a user wallet out of a payment to o, given which batches succeed: as a
      holder of o, and through the organisations among the holders of o. */
  ghost function WalletDue(g: Graph, rank: map<OrgId, nat>, o: OrgId, payment: real, ok: Chain, path: seq<nat>,
      w: string): int
    requires Ranked(g, rank) && o in g
    decreases rank[o], 1, 0
  {
    var split := AmountToSplit(payment, g[o].treasury);
    if !g[o].mintSuccess || split < 0.0 then 0
    else
      var holders := g[o].holders;
      OwnDue(holders, Dues(holders, split), ok, path, User(w), |holders|)
      + DueThroughOrgs(g, rank, o, Dues(holders, split), ok, path, w, |holders|)
  }

  /** What its own holdings among the first n holders bring: each batch of five is paid or not. */
  ghost function OwnDue(holders: seq<Holder>, dues: seq<int>, ok: Chain, path: seq<nat>, a: Account, n: nat): int
    requires n <= |holders| == |dues|
  {
    if n == 0 then 0
    else if holders[n - 1].account == a && ok(path, Payees(holders, n - 1) / BATCH_SIZE)
    then OwnDue(holders, dues, ok, path, a, n - 1) + dues[n - 1]
    else OwnDue(holders, dues, ok, path, a, n - 1)
  }

  ghost function DueThroughOrgs(g: Graph, rank: map<OrgId, nat>, o: OrgId, dues: seq<int>, ok: Chain, path: seq<nat>,
      w: string, n: nat): int
    requires Ranked(g, rank) && o in g && n <= |g[o].holders| == |dues|
    decreases rank[o], 0, n
  {
    if n == 0 then 0 else
    DueThroughOrgs(g, rank, o, dues, ok, path, w, n - 1) + DueThrough(g, rank, o, dues, ok, path, w, n - 1)
  }

  /** What holder k passes on when it is an organisation with equity. */
  ghost function DueThrough(g: Graph, rank: map<OrgId, nat>, o: OrgId, dues: seq<int>, ok: Chain, path: seq<nat>,
      w: string, k: nat): int
    requires Ranked(g, rank) && o in g && k < |g[o].holders| == |dues|
    decreases rank[o], 0, k
  {
    var h := g[o].holders[k];
    assert h in g[o].holders && HoldersAreLower(g, rank, o);
    if h.account.User? || h.equity == 0.0 then 0
    else WalletDue(g, rank, h.account.id, dues[k] as real, ok, path + [OrgPayees(g[o].holders, k)], w)
  }

  lemma {:induction false} DeliveredBefore<T>(xs: seq<T>, x: T, ok: Chain, path: seq<nat>, n: nat)
    requires n <= |xs|
    ensures Delivered(xs + [x], ok, path, n) == Delivered(xs, ok, path, n)
  {
    if n > 0 {
      DeliveredBefore(xs, x, ok, path, n - 1);
    }
  }

  lemma {:induction false} DeliveredToWallet(o: OrgId, holders: seq<Holder>, dues: seq<int>, ok: Chain,
      path: seq<nat>, a: Account, n: nat)
    requires n <= |holders| == |dues| && forall k :: 0 <= k < n && holders[k].equity == 0.0 ==> dues[k] == 0
    ensures var ts := PayoutsTo(o, holders, dues, n);
      |ts| == Payees(holders, n) && In(Delivered(ts, ok, path, |ts|), a) == OwnDue(holders, dues, ok, path, a, n)
  {
    if n > 0 {
      DeliveredToWallet(o, holders, dues, ok, path, a, n - 1);
      OneMoreDelivery(o, holders, dues, n, PayoutsTo(o, holders, dues, n - 1), ok, path, a);
    }
  }

  lemma LevelToWallet(o: OrgId, holders: seq<Holder>, split: real, ok: Chain, path: seq<nat>, a: Account)
    requires split >= 0.0 && NonNegative(holders)
    ensures var ts := Payouts(o, holders, split, |holders|);
      In(Delivered(ts, ok, path, |ts|), a) == OwnDue(holders, Dues(holders, split), ok, path, a, |holders|)
  {
    forall k | 0 <= k < |holders| && holders[k].equity == 0.0 ensures Dues(holders, split)[k] == 0 {
      DueAmount(holders, split, k);
    }
    PayoutsAreDues(o, holders, split, |holders|);
    DeliveredToWallet(o, holders, Dues(holders, split), ok, path, a, |holders|);
  }

  lemma OneMoreDelivery(o: OrgId, holders: seq<Holder>, dues: seq<int>, n: nat, before: seq<Payout>, ok: Chain,
      path: seq<nat>, a: Account)
    requires 0 < n <= |holders| == |dues| && |before| == Payees(holders, n - 1)
    requires holders[n - 1].equity == 0.0 ==> dues[n - 1] == 0
    requires In(Delivered(before, ok, path, |before|), a) == OwnDue(holders, dues, ok, path, a, n - 1)
    ensures var ts := before + PayoutOf(o, holders, dues, n);
      In(Delivered(ts, ok, path, |ts|), a) == OwnDue(holders, dues, ok, path, a, n)
  {
    var d := Delivered(before, ok, path, |before|);
    if holders[n - 1].equity == 0.0 {
      assert before + [] == before;
    } else {
      var t := Transfer(OrgUser(o), holders[n - 1].account, dues[n - 1]);
      DeliveredBefore(before, t, ok, path, |before|);
      assert (d + [t])[..|d|] == d;
    }
  }

  /** In every run of the handler, whichever batches fail, each user wallet receives exactly what
      it is due. */
  lemma {:induction false} EveryoneGetsTheirDue(g: Graph, rank: map<OrgId, nat>, o: OrgId, payment: real, ok: Chain,
      path: seq<nat>, w: string)
    requires Ranked(g, rank) && Sound(g) && o in g
    ensures In(Transfers(g, rank, o, payment, ok, path), User(w)) == WalletDue(g, rank, o, payment, ok, path, w)
    decreases rank[o], 1, 0
  {
    var level, split := Level(g, o, payment), AmountToSplit(payment, g[o].treasury);
    var kids := OrgMembers(level);
    KidsAreLower(g, rank, o, payment);
    SumsOfConcat(Delivered(level, ok, path, |level|), KidsTransfers(g, rank, kids, rank[o], ok, path, |kids|), User(w));
    if g[o].mintSuccess && split >= 0.0 {
      LevelToWallet(o, g[o].holders, split, ok, path, User(w));
      OrgHoldersArePicked(o, g[o].holders, split);
      OrgsPassOn(g, rank, o, Dues(g[o].holders, split), ok, path, w, kids, |g[o].holders|);
    }
  }

  /** The first i of the organisations that are paid on, those among the first n holders, pass on
      to w what is due to it through them. */
  ghost predicate PassesOn(g: Graph, rank: map<OrgId, nat>, o: OrgId, dues: seq<int>, ok: Chain, path: seq<nat>,
      w: string, kids: seq<Payout>, i: nat, n: nat)
    requires Ranked(g, rank) && o in g && Lower(g, rank, kids, rank[o]) && n <= |g[o].holders| == |dues|
  {
    && i <= |kids|
    && In(KidsTransfers(g, rank, kids, rank[o], ok, path, i), User(w))
         == DueThroughOrgs(g, rank, o, dues, ok, path, w, n)
  }

  lemma {:induction false} OrgsPassOn(g: Graph, rank: map<OrgId, nat>, o: OrgId, dues: seq<int>, ok: Chain,
      path: seq<nat>, w: string, kids: seq<Payout>, n: nat)
    requires Ranked(g, rank) && Sound(g) && o in g && Lower(g, rank, kids, rank[o]) && n <= |g[o].holders| == |dues|
    requires PicksOrgs(o, g[o].holders, dues, |g[o].holders|, kids)
    ensures PassesOn(g, rank, o, dues, ok, path, w, kids, OrgPayees(g[o].holders, n), n)
    decreases rank[o], 0, n, 3
  {
    if n > 0 {
      OrgsPassOn(g, rank, o, dues, ok, path, w, kids, n - 1);
      NextHolderPassesOn(g, rank, o, dues, ok, path, w, kids, OrgPayees(g[o].holders, n - 1), n);
    }
  }

  lemma NextHolderPassesOn(g: Graph, rank: map<OrgId, nat>, o: OrgId, dues: seq<int>, ok: Chain, path: seq<nat>,
      w: string, kids: seq<Payout>, i: nat, n: nat)
    requires Ranked(g, rank) && Sound(g) && o in g && Lower(g, rank, kids, rank[o]) && 0 < n <= |g[o].holders| == |dues|
    requires PicksOrgs(o, g[o].holders, dues, |g[o].holders|, kids)
    requires i == OrgPayees(g[o].holders, n - 1) && PassesOn(g, rank, o, dues, ok, path, w, kids, i, n - 1)
    ensures PassesOn(g, rank, o, dues, ok, path, w, kids, OrgPayees(g[o].holders, n), n)
    decreases rank[o], 0, n, 2
  {
    if g[o].holders[n - 1].account.OrgUser? && g[o].holders[n - 1].equity != 0.0 {
      assert PicksOrg(o, g[o].holders, dues, n - 1, kids);
      OrgPassesOn(g, rank, o, dues, ok, path, w, kids, i, n);
    } else {
      NextUserPassesOn(g, rank, o, dues, ok, path, w, kids, i, n);
    }
  }

  lemma OrgPassesOn(g: Graph, rank: map<OrgId, nat>, o: OrgId, dues: seq<int>, ok: Chain, path: seq<nat>,
      w: string, kids: seq<Payout>, i: nat, n: nat)
    requires Ranked(g, rank) && Sound(g) && o in g && Lower(g, rank, kids, rank[o]) && 0 < n <= |g[o].holders| == |dues|
    requires g[o].holders[n - 1].account.OrgUser? && g[o].holders[n - 1].equity != 0.0
    requires i == OrgPayees(g[o].holders, n - 1) && PicksOrg(o, g[o].holders, dues, n - 1, kids)
    requires PassesOn(g, rank, o, dues, ok, path, w, kids, i, n - 1)
    ensures PassesOn(g, rank, o, dues, ok, path, w, kids, i + 1, n)
    decreases rank[o], 0, n, 1
  {
    OneOrgPassesOn(g, rank, o, dues, ok, path, w, kids, n - 1);
    NextOrgPassesOn(g, rank, o, dues, ok, path, w, kids, i, n);
  }

  lemma NextOrgPassesOn(g: Graph, rank: map<OrgId, nat>, o: OrgId, dues: seq<int>, ok: Chain, path: seq<nat>,
      w: string, kids: seq<Payout>, i: nat, n: nat)
    requires Ranked(g, rank) && o in g && Lower(g, rank, kids, rank[o]) && 0 < n <= |g[o].holders| == |dues|
    requires i < |kids| && PassesOn(g, rank, o, dues, ok, path, w, kids, i, n - 1)
    requires Passed(g, rank, kids, rank[o], ok, path, w, i) == DueThrough(g, rank, o, dues, ok, path, w, n - 1)
    ensures PassesOn(g, rank, o, dues, ok, path, w, kids, i + 1, n)
  {
    NextDue(g, rank, o, dues, ok, path, w, n);
    NextKid(g, rank, kids, rank[o], ok, path, w, i);
  }

  lemma NextUserPassesOn(g: Graph, rank: map<OrgId, nat>, o: OrgId, dues: seq<int>, ok: Chain, path: seq<nat>,
      w: string, kids: seq<Payout>, i: nat, n: nat)
    requires Ranked(g, rank) && o in g && Lower(g, rank, kids, rank[o]) && 0 < n <= |g[o].holders| == |dues|
    requires g[o].holders[n - 1].account.User? || g[o].holders[n - 1].equity == 0.0
    requires PassesOn(g, rank, o, dues, ok, path, w, kids, i, n - 1)
    ensures PassesOn(g, rank, o, dues, ok, path, w, kids, i, n)
  {
    NextDue(g, rank, o, dues, ok, path, w, n);
    assert DueThrough(g, rank, o, dues, ok, path, w, n - 1) == 0;
  }

  lemma NextDue(g: Graph, rank: map<OrgId, nat>, o: OrgId, dues: seq<int>, ok: Chain, path: seq<nat>, w: string,
      n: nat)
    requires Ranked(g, rank) && o in g && 0 < n <= |g[o].holders| == |dues|
    ensures DueThroughOrgs(g, rank, o, dues, ok, path, w, n)
      == DueThroughOrgs(g, rank, o, dues, ok, path, w, n - 1) + DueThrough(g, rank, o, dues, ok, path, w, n - 1)
  {}

  ghost function Passed(g: Graph, rank: map<OrgId, nat>, kids: seq<Payout>, r: nat, ok: Chain, path: seq<nat>,
      w: string, i: nat): int
    requires Ranked(g, rank) && Lower(g, rank, kids, r) && i < |kids|
  {
    In(Transfers(g, rank, kids[i].to.id, kids[i].amount as real, ok, path + [i]), User(w))
  }

  lemma OneOrgPassesOn(g: Graph, rank: map<OrgId, nat>, o: OrgId, dues: seq<int>, ok: Chain, path: seq<nat>,
      w: string, kids: seq<Payout>, k: nat)
    requires Ranked(g, rank) && Sound(g) && o in g && Lower(g, rank, kids, rank[o]) && k < |g[o].holders| == |dues|
    requires g[o].holders[k].account.OrgUser? && g[o].holders[k].equity != 0.0
    requires PicksOrg(o, g[o].holders, dues, k, kids)
    ensures Passed(g, rank, kids, rank[o], ok, path, w, OrgPayees(g[o].holders, k))
         == DueThrough(g, rank, o, dues, ok, path, w, k)
    decreases rank[o], 0, k
  {
    var i := OrgPayees(g[o].holders, k);
    KidIsLower(g, rank, kids, rank[o], i);
    EveryoneGetsTheirDue(g, rank, kids[i].to.id, kids[i].amount as real, ok, path + [i], w);
  }

  lemma NextKid(g: Graph, rank: map<OrgId, nat>, kids: seq<Payout>, r: nat, ok: Chain, path: seq<nat>, w: string,
      i: nat)
    requires Ranked(g, rank) && Lower(g, rank, kids, r) && i < |kids|
    ensures In(KidsTransfers(g, rank, kids, r, ok, path, i + 1), User(w))
         == In(KidsTransfers(g, rank, kids, r, ok, path, i), User(w)) + Passed(g, rank, kids, r, ok, path, w, i)
  {
    SumsOfConcat(KidsTransfers(g, rank, kids, r, ok, path, i),
      Transfers(g, rank, kids[i].to.id, kids[i].amount as real, ok, path + [i]), User(w));
  }

  /** Only organisations send. */
  ghost predicate FromOrgs(ts: seq<Payout>)
  {
    forall k :: 0 <= k < |ts| ==> ts[k].from.OrgUser?
  }

  lemma {:induction false} DeliveredFromOrgs(ts: seq<Payout>, ok: Chain, path: seq<nat>, n: nat)
    requires n <= |ts| && FromOrgs(ts)
    ensures FromOrgs(Delivered(ts, ok, path, n))
  {
    if n > 0 {
      DeliveredFromOrgs(ts, ok, path, n - 1);
    }
  }

  lemma {:induction false} OrgsSend(g: Graph, rank: map<OrgId, nat>, o: OrgId, payment: real, ok: Chain, path: seq<nat>)
    requires Ranked(g, rank) && o in g
    ensures FromOrgs(Transfers(g, rank, o, payment, ok, path))
    decreases rank[o], 1, 0
  {
    var level := Level(g, o, payment);
    var kids := OrgMembers(level);
    KidsAreLower(g, rank, o, payment);
    PayoutsGoToHolders(o, g[o].holders, AmountToSplit(payment, g[o].treasury), |g[o].holders|);
    DeliveredFromOrgs(level, ok, path, |level|);
    KidsSend(g, rank, kids, rank[o], ok, path, |kids|);
  }

  lemma {:induction false} KidsSend(g: Graph, rank: map<OrgId, nat>, kids: seq<Payout>, r: nat, ok: Chain,
      path: seq<nat>, n: nat)
    requires Ranked(g, rank) && Lower(g, rank, kids, r) && n <= |kids|
    ensures FromOrgs(KidsTransfers(g, rank, kids, r, ok, path, n))
    decreases r, 0, n
  {
    if n > 0 {
      KidIsLower(g, rank, kids, r, n - 1);
      KidsSend(g, rank, kids, r, ok, path, n - 1);
      OrgsSend(g, rank, kids[n - 1].to.id, kids[n - 1].amount as real, ok, path + [n - 1]);
    }
  }

  lemma {:induction false} UsersSendNothing(ts: seq<Payout>, w: string)
    requires FromOrgs(ts)
    ensures Out(ts, User(w)) == 0
  {
    if ts != [] {
      UsersSendNothing(ts[..|ts| - 1], w);
    }
  }

  /** The balance of every user wallet after the handler, in whatever order the calls for
      organisations apply their transfers. */
  lemma WalletBalance(b: map<Account, int>, g: Graph, rank: map<OrgId, nat>, o: OrgId, payment: real, ok: Chain,
      path: seq<nat>, u: seq<Payout>, w: string)
    requires Ranked(g, rank) && Sound(g) && o in g && Order(g, rank, o, payment, ok, path, u)
    ensures Balance(Applied(b, u), User(w)) == Balance(b, User(w)) + WalletDue(g, rank, o, payment, ok, path, w)
  {
    var ts := Transfers(g, rank, o, payment, ok, path);
    OrderKeepsBalances(b, g, rank, o, payment, ok, path, u, User(w));
    EveryoneGetsTheirDue(g, rank, o, payment, ok, path, w);
    OrgsSend(g, rank, o, payment, ok, path);
    UsersSendNothing(ts, w);
    BalanceAfter(b, ts, User(w));
  }
}
