/** `performPayment`: a payer pays an organisation, which passes the commission on to the root
    organisation; then both split what they have. Amounts in millionths. */
module Commission {
  import opened Options
  import opened Decimal
  import opened Batches
  import opened Ledger
  import opened ProfitSplit
  import opened ProfitRecursion
  import opened ProfitOrders
  import opened ProfitSolvency

  /** What the payer's transfer moves on chain: `Math.round` to base units. */
  function Received(payment: real): int { JsRound(payment) }

  function CommissionAmount(payment: real, rate: real): int
  {
    RoundHalfUp(Times(rate, payment))
  }

  /** What the organisation is told to split. */
  function NetPayment(payment: real, rate: real): int
  {
    RoundHalfUp(payment - CommissionAmount(payment, rate) as real)
  }

  lemma CommissionRange(payment: real, rate: real)
    requires payment >= 0.0 && 0.0 <= rate <= 1.0
    ensures 0 <= CommissionAmount(payment, rate) <= Received(payment)
  {
    TimesMonotone(0.0, rate, payment);
    TimesMonotone(rate, 1.0, payment);
    TimesAdd(0.0, 0.0, payment);
    RoundMonotone(0.0, Times(rate, payment));
    RoundMonotone(Times(rate, payment), payment);
  }

  /** The commission is the rate's part of the payment, up to half a unit, and so is what is
      received of it. */
  lemma CommissionIsTheRate(payment: real, rate: real)
    ensures Abs(CommissionAmount(payment, rate) as real - Times(rate, payment)) <= 0.5
    ensures Abs(Received(payment) as real - payment) <= 0.5
  {
    RoundError(Times(rate, payment));
    RoundError(payment);
  }

  /** Told to split a negative whole amount, an organisation pays nothing. */
  lemma NothingFromDebt(g: Graph, o: OrgId, k: int)
    requires o in g && 0.0 <= g[o].treasury <= 100.0 && NonNegative(g[o].holders) && k <= 0
    ensures Sum(Level(g, o, k as real)) <= 0
  {
    var t := Over(g[o].treasury, 100.0);
    OverMonotone(g[o].treasury, 100.0, 100.0);
    OverMonotone(0.0, g[o].treasury, 100.0);
    OverAdd(100.0, 0.0, 100.0);
    TimesMonotone(t, 1.0, (-k) as real);
    TimesAdd(0.0, 0.0, (-k) as real);
    assert Times(k as real, t) == -Times(t, (-k) as real);
    RoundMonotone(k as real, Times(k as real, t));
    RoundWhole(0.0, k);
    var split := AmountToSplit(k as real, g[o].treasury);
    if g[o].mintSuccess && split >= 0.0 {
      PayoutsSum(o, g[o].holders, split, |g[o].holders|);
      ClampedSplit(g[o].holders, split, |g[o].holders|);
    }
  }

  /** The organisation's wallet sends on, as commission and to its holders, at most what it
      received; and the holders of both organisations together get at most that too. */
  lemma CommissionFlow(g: Graph, org: OrgId, root: OrgId, payment: real, rate: real)
    requires Sound(g) && org in g && root in g && payment >= 0.0 && 0.0 <= rate <= 1.0 && g[org].treasury <= 100.0
    ensures var commission := CommissionAmount(payment, rate);
      var toHolders := Sum(Level(g, org, NetPayment(payment, rate) as real));
      && commission + toHolders <= Received(payment)
      && toHolders + Sum(Level(g, root, commission as real)) <= Received(payment)
  {
    var commission, net := CommissionAmount(payment, rate), NetPayment(payment, rate);
    CommissionRange(payment, rate);
    LevelIsCovered(g, root, commission as real);
    if commission as real <= payment {
      RoundWhole(payment, commission);
      RoundMonotone(0.0, payment - commission as real);
      LevelIsCovered(g, org, net as real);
    } else {
      RoundMonotone(payment - commission as real, 0.0);
      NothingFromDebt(g, org, net);
    }
  }

  /** On the 6-decimal grid what is received is the payment itself. */
  lemma OnGridReceived(k: int)
    ensures Received(k as real) == k
  {
    RoundWhole(0.0, k);
  }

  lemma SumOfOne(t: Payout)
    ensures Sum([t]) == t.amount
  {}

  /** What the holders of both organisations get. */
  function Paidout(g: Graph, org: OrgId, root: OrgId, payment: real, rate: real): int
    requires org in g && root in g
  {
    Sum(Level(g, org, NetPayment(payment, rate) as real)) + Sum(Level(g, root, CommissionAmount(payment, rate) as real))
  }

  /** An organisation with one holder and no treasury cut. */
  function SoleOrg(u: string): Org { Org(true, 0.0, [Holder(User(u), 100.0)]) }

  /** Two such organisations pay out all that is received. */
  lemma AllIsPaidOut(payment: real, rate: real)
    requires payment >= 0.0 && 0.0 <= rate <= 1.0
    ensures var g := map["org" := SoleOrg("u"), "root" := SoleOrg("v")];
      Sound(g) && Paidout(g, "org", "root", payment, rate) == Received(payment)
  {
    var g := map["org" := SoleOrg("u"), "root" := SoleOrg("v")];
    var commission := CommissionAmount(payment, rate);
    CommissionRange(payment, rate);
    SoleLevel(g, "root", User("v"), commission);
    SumOfOne(Transfer(OrgUser("root"), User("v"), commission));
    NetIsTheRest(payment, rate);
    SolePays(g, "org", "u", NetPayment(payment, rate));
  }

  /** The organisation splits what is left of the received amount; when the commission is all of
      it, rounding may leave a debt of one unit, which is not split. */
  lemma NetIsTheRest(payment: real, rate: real)
    requires payment >= 0.0 && 0.0 <= rate <= 1.0
    ensures var net, rest := NetPayment(payment, rate), Received(payment) - CommissionAmount(payment, rate);
      net == rest || (net < 0 && rest == 0)
  {
    var commission := CommissionAmount(payment, rate);
    CommissionRange(payment, rate);
    if commission as real <= payment {
      RoundWhole(payment, commission);
    } else {
      RoundError(payment);
      RoundError(payment - commission as real);
    }
  }

  lemma SolePays(g: Graph, o: OrgId, u: string, k: int)
    requires Sole(g, o, User(u))
    ensures Sum(Level(g, o, k as real)) == if k < 0 then 0 else k
  {
    if k >= 0 {
      SoleLevel(g, o, User(u), k);
      SumOfOne(Transfer(OrgUser(o), User(u), k));
    } else {
      assert Over(0.0, 100.0) == 0.0 && Times(k as real, 0.0) == 0.0;
      assert AmountToSplit(k as real, 0.0) == k as real;
    }
  }

  ghost predicate StaysWithin(g: Graph, org: OrgId, root: OrgId, payment: real, rate: real)
  {
    Sound(g) && org in g && root in g && g[org].treasury <= 100.0 ==>
      Paidout(g, org, root, payment, rate) as real <= payment
  }

  lemma RoundedUpIff(payment: real)
    ensures Received(payment) as real <= payment <==> payment - payment.Floor as real < 0.5
  {
    var f := payment.Floor;
    if payment - f as real < 0.5 {
      FloorIs(payment + 0.5, f);
    } else {
      FloorIs(payment + 0.5, f + 1);
    }
  }

  lemma WithinWhenReceived(g: Graph, org: OrgId, root: OrgId, payment: real, rate: real)
    requires payment >= 0.0 && 0.0 <= rate <= 1.0 && Received(payment) as real <= payment
    ensures StaysWithin(g, org, root, payment, rate)
  {
    if Sound(g) && org in g && root in g && g[org].treasury <= 100.0 {
      CommissionFlow(g, org, root, payment, rate);
    }
  }

  /** The payouts stay within the payment itself, for all organisations, if and only if the
      payment is not rounded up to base units: its part below one unit is less than half. */
  lemma WithinPaymentIff(payment: real, rate: real)
    requires payment >= 0.0 && 0.0 <= rate <= 1.0
    ensures (forall g: Graph, org: OrgId, root: OrgId :: StaysWithin(g, org, root, payment, rate))
        <==> payment - payment.Floor as real < 0.5
  {
    RoundedUpIff(payment);
    if Received(payment) as real <= payment {
      forall g: Graph, org: OrgId, root: OrgId ensures StaysWithin(g, org, root, payment, rate) {
        WithinWhenReceived(g, org, root, payment, rate);
      }
    } else {
      AllIsPaidOut(payment, rate);
      assert !StaysWithin(map["org" := SoleOrg("u"), "root" := SoleOrg("v")], "org", "root", payment, rate);
    }
  }

  // ---------- the ledger ----------

  type Balances = map<Account, int>

  /** The balances once the payer's transaction is applied. */
  function Paid(b: Balances, payer: Account, org: OrgId, root: OrgId, payment: real, rate: real): Balances
  {
    Applied(b, FirstTransfers(payer, org, root, payment, rate))
  }

  function FirstTransfers(payer: Account, org: OrgId, root: OrgId, payment: real, rate: real): seq<Payout>
  {
    [Transfer(payer, OrgUser(org), Received(payment)),
     Transfer(OrgUser(org), OrgUser(root), CommissionAmount(payment, rate))]
  }

  /** u is a possible order of the transfers of both splits, which run side by side. */
  ghost predicate BothSplits(g: Graph, rank: map<OrgId, nat>, org: OrgId, root: OrgId, payment: real, rate: real,
      ok: Chain, u: seq<Payout>)
    requires Ranked(g, rank) && org in g && root in g
  {
    exists s, t :: Merge(s, t, u) && Order(g, rank, org, NetPayment(payment, rate) as real, ok, [0], s)
      && Order(g, rank, root, CommissionAmount(payment, rate) as real, ok, [1], t)
  }

  /** And once both splits are done, one after the other. */
  ghost function Settled(b: Balances, g: Graph, rank: map<OrgId, nat>, payer: Account, org: OrgId, root: OrgId,
      payment: real, rate: real, ok: Chain): Balances
    requires Ranked(g, rank) && org in g && root in g
  {
    Applied(Paid(b, payer, org, root, payment, rate), Sequential(g, rank, org, root, payment, rate, ok))
  }

  ghost function Sequential(g: Graph, rank: map<OrgId, nat>, org: OrgId, root: OrgId, payment: real, rate: real,
      ok: Chain): seq<Payout>
    requires Ranked(g, rank) && org in g && root in g
  {
    Transfers(g, rank, org, NetPayment(payment, rate) as real, ok, [0])
      + Transfers(g, rank, root, CommissionAmount(payment, rate) as real, ok, [1])
  }

  lemma SequentialIsBothSplits(g: Graph, rank: map<OrgId, nat>, org: OrgId, root: OrgId, payment: real, rate: real,
      ok: Chain)
    requires Ranked(g, rank) && org in g && root in g
    ensures BothSplits(g, rank, org, root, payment, rate, ok, Sequential(g, rank, org, root, payment, rate, ok))
  {
    var net, commission := NetPayment(payment, rate) as real, CommissionAmount(payment, rate) as real;
    SequentialIsOrder(g, rank, org, net, ok, [0]);
    SequentialIsOrder(g, rank, root, commission, ok, [1]);
    ConcatIsMerge(Transfers(g, rank, org, net, ok, [0]), Transfers(g, rank, root, commission, ok, [1]));
  }

  /** All that the organisation may have to pay: the commission, its own split, and what it
      prepares when it is reached as a holder of the root organisation. */
  ghost function Demand(g: Graph, rank: map<OrgId, nat>, org: OrgId, root: OrgId, payment: real, rate: real): int
    requires Ranked(g, rank) && org in g && root in g
  {
    (if org == root then 0 else CommissionAmount(payment, rate))
      + Prepared(g, rank, org, NetPayment(payment, rate) as real, org)
      + Prepared(g, rank, root, CommissionAmount(payment, rate) as real, org)
  }

  lemma FirstChange(payer: Account, org: OrgId, root: OrgId, payment: real, rate: real)
    requires payer != OrgUser(org)
    ensures var ts := FirstTransfers(payer, org, root, payment, rate);
      In(ts, OrgUser(org)) - Out(ts, OrgUser(org))
        == Received(payment) - if org == root then 0 else CommissionAmount(payment, rate)
  {
    var ts, a := FirstTransfers(payer, org, root, payment, rate), OrgUser(org);
    assert ts[..1][..0] == [];
    assert In(ts[..1], a) == Received(payment) && Out(ts[..1], a) == 0;
  }

  /** The organisation's balance once n transfers of the splits are applied. */
  lemma OrgChange(b: Balances, payer: Account, org: OrgId, root: OrgId, payment: real, rate: real, u: seq<Payout>,
      n: nat)
    requires payer != OrgUser(org) && n <= |u|
    ensures Balance(Applied(Paid(b, payer, org, root, payment, rate), u[..n]), OrgUser(org)) - Balance(b, OrgUser(org))
      == Received(payment) - (if org == root then 0 else CommissionAmount(payment, rate))
        + In(u[..n], OrgUser(org)) - Out(u[..n], OrgUser(org))
  {
    FirstChange(payer, org, root, payment, rate);
    BalanceAfter(b, FirstTransfers(payer, org, root, payment, rate), OrgUser(org));
    BalanceAfter(Paid(b, payer, org, root, payment, rate), u[..n], OrgUser(org));
  }

  /** Exactly the batches of the organisation itself succeed, in both splits. */
  function WorstOfBoth(g: Graph, org: OrgId, root: OrgId, payment: real, rate: real): Chain
  {
    (p: seq<nat>, i: nat) => WorstChain([0], g, org, NetPayment(payment, rate) as real, org)(p, i)
           || WorstChain([1], g, root, CommissionAmount(payment, rate) as real, org)(p, i)
  }

  lemma WorstOfBothIsOnlyFrom(g: Graph, org: OrgId, root: OrgId, payment: real, rate: real)
    ensures OnlyFrom(WorstOfBoth(g, org, root, payment, rate), [0], g, org, NetPayment(payment, rate) as real, org)
    ensures OnlyFrom(WorstOfBoth(g, org, root, payment, rate), [1], g, root, CommissionAmount(payment, rate) as real,
      org)
  {
    WorstChainIsOnlyFrom([0], g, org, NetPayment(payment, rate) as real, org);
    WorstChainIsOnlyFrom([1], g, root, CommissionAmount(payment, rate) as real, org);
    forall rel: seq<nat> ensures ([0] + rel)[..1] == [0] && ([1] + rel)[..1] == [1] {}
  }

  /** At every moment after the payment transaction the organisation has at least what it had
      before it. */
  ghost predicate NotDrained(b: Balances, payer: Account, org: OrgId, root: OrgId, payment: real, rate: real,
      u: seq<Payout>)
  {
    forall n :: 0 <= n <= |u| ==> NotDrainedAt(b, payer, org, root, payment, rate, u, n)
  }

  ghost predicate NotDrainedAt(b: Balances, payer: Account, org: OrgId, root: OrgId, payment: real, rate: real,
      u: seq<Payout>, n: nat)
    requires n <= |u|
  {
    Balance(Applied(Paid(b, payer, org, root, payment, rate), u[..n]), OrgUser(org)) >= Balance(b, OrgUser(org))
  }

  /** Whatever the batches do, and in every order of both splits. */
  ghost predicate AlwaysAfloat(b: Balances, g: Graph, rank: map<OrgId, nat>, payer: Account, org: OrgId, root: OrgId,
      payment: real, rate: real)
    requires Ranked(g, rank) && org in g && root in g
  {
    forall ok: Chain, u: seq<Payout> :: BothSplits(g, rank, org, root, payment, rate, ok, u) ==>
      NotDrained(b, payer, org, root, payment, rate, u)
  }

  /** The organisation's balance never falls below what it was, whichever batches fail, if and
      only if what it received covers all that it may have to pay. */
  lemma NeverDrainedIff(b: Balances, g: Graph, rank: map<OrgId, nat>, payer: Account, org: OrgId, root: OrgId,
      payment: real, rate: real)
    requires Ranked(g, rank) && Sound(g) && org in g && root in g && payer != OrgUser(org)
    ensures AlwaysAfloat(b, g, rank, payer, org, root, payment, rate)
      <==> Demand(g, rank, org, root, payment, rate) <= Received(payment)
  {
    if Demand(g, rank, org, root, payment, rate) <= Received(payment) {
      forall ok: Chain, u: seq<Payout> | BothSplits(g, rank, org, root, payment, rate, ok, u)
        ensures NotDrained(b, payer, org, root, payment, rate, u)
      {
        forall n | 0 <= n <= |u| ensures NotDrainedAt(b, payer, org, root, payment, rate, u, n) {
          OrgChange(b, payer, org, root, payment, rate, u, n);
          WithinDemand(g, rank, org, root, payment, rate, ok, u, n);
        }
      }
    } else {
      var ok := WorstOfBoth(g, org, root, payment, rate);
      var u := Sequential(g, rank, org, root, payment, rate, ok);
      SequentialIsBothSplits(g, rank, org, root, payment, rate, ok);
      WorstSequence(g, rank, org, root, payment, rate);
      OrgChange(b, payer, org, root, payment, rate, u, |u|);
      assert u[..|u|] == u && !NotDrainedAt(b, payer, org, root, payment, rate, u, |u|);
    }
  }

  /** At every moment the splits have taken from the organisation at most what it prepares. */
  lemma WithinDemand(g: Graph, rank: map<OrgId, nat>, org: OrgId, root: OrgId, payment: real, rate: real, ok: Chain,
      u: seq<Payout>, n: nat)
    requires Ranked(g, rank) && Sound(g) && org in g && root in g && n <= |u|
    requires BothSplits(g, rank, org, root, payment, rate, ok, u)
    ensures In(u[..n], OrgUser(org)) - Out(u[..n], OrgUser(org))
      >= -Prepared(g, rank, org, NetPayment(payment, rate) as real, org)
         - Prepared(g, rank, root, CommissionAmount(payment, rate) as real, org)
  {
    var net, commission := NetPayment(payment, rate) as real, CommissionAmount(payment, rate) as real;
    var s, t :| Merge(s, t, u) && Order(g, rank, org, net, ok, [0], s) && Order(g, rank, root, commission, ok, [1], t);
    SolventWithinPrepared(g, rank, org, net, ok, [0], s, org);
    SolventWithinPrepared(g, rank, root, commission, ok, [1], t, org);
    var x, y := Prepared(g, rank, org, net, org) as real, Prepared(g, rank, root, commission, org) as real;
    SolventSideBySide(s, t, u, org, x, y);
    assert SolventAt(u, org, x + y, n);
  }

  lemma WorstSequence(g: Graph, rank: map<OrgId, nat>, org: OrgId, root: OrgId, payment: real, rate: real)
    requires Ranked(g, rank) && org in g && root in g
    ensures var u := Sequential(g, rank, org, root, payment, rate, WorstOfBoth(g, org, root, payment, rate));
      && In(u, OrgUser(org)) == 0
      && Out(u, OrgUser(org)) == Prepared(g, rank, org, NetPayment(payment, rate) as real, org)
          + Prepared(g, rank, root, CommissionAmount(payment, rate) as real, org)
  {
    var net, commission := NetPayment(payment, rate) as real, CommissionAmount(payment, rate) as real;
    var ok := WorstOfBoth(g, org, root, payment, rate);
    WorstOfBothIsOnlyFrom(g, org, root, payment, rate);
    WorstCase(g, rank, org, net, ok, [0], org);
    WorstCase(g, rank, root, commission, ok, [1], org);
    SumsOfConcat(Transfers(g, rank, org, net, ok, [0]), Transfers(g, rank, root, commission, ok, [1]), OrgUser(org));
  }

  /** An organisation that the root organisation's split does not make pay is always afloat. */
  lemma NeverDrained(b: Balances, g: Graph, rank: map<OrgId, nat>, payer: Account, org: OrgId, root: OrgId,
      payment: real, rate: real)
    requires Ranked(g, rank) && Sound(g) && org in g && root in g && payer != OrgUser(org)
    requires payment >= 0.0 && 0.0 <= rate <= 1.0 && g[org].treasury <= 100.0
    requires org == root || Prepared(g, rank, root, CommissionAmount(payment, rate) as real, org) == 0
    ensures AlwaysAfloat(b, g, rank, payer, org, root, payment, rate)
  {
    CommissionFlow(g, org, root, payment, rate);
    OwnIsPrepared(g, rank, org, NetPayment(payment, rate) as real);
    OwnIsPrepared(g, rank, root, CommissionAmount(payment, rate) as real);
    NeverDrainedIff(b, g, rank, payer, org, root, payment, rate);
  }

  // ---------- the handler ----------

  /** The account that pays: without onboarding the payer's, if it has the funds; with it the
      bonus wallet when that has the funds. None is a refusal, or a payment of nothing from a
      missing bonus wallet. */
  function Sender(b: Balances, onboarding: bool, payer: Account, bonus: Option<Account>, payment: real): Option<Account>
  {
    var bonusBalance := if onboarding && bonus.Some? then Balance(b, bonus.value) else 0;
    if Balance(b, payer) as real < payment && (!onboarding || bonusBalance as real < payment) then None
    else if onboarding && bonusBalance as real >= payment then bonus
    else Some(payer)
  }

  ghost predicate HasFunds(b: Balances, a: Option<Account>, payment: real)
  {
    a.Some? && Balance(b, a.value) as real >= payment
  }

  /** An onboarding payment comes from the bonus wallet whenever that has the funds, any other
      from the payer if it has them; and a payment that neither can make is refused. */
  lemma SenderIff(b: Balances, onboarding: bool, payer: Account, bonus: Option<Account>, payment: real)
    requires payment > 0.0
    ensures Sender(b, onboarding, payer, bonus, payment) ==
      if onboarding && HasFunds(b, bonus, payment) then bonus
      else if HasFunds(b, Some(payer), payment) then Some(payer)
      else None
  {}

  /** The transaction takes the received amount from the sender, and leaves the organisation all
      but the commission, which the root organisation gets; nobody else's balance changes. */
  lemma PaidMoves(b: Balances, payer: Account, org: OrgId, root: OrgId, payment: real, rate: real, a: Account)
    ensures Balance(Paid(b, payer, org, root, payment, rate), a) - Balance(b, a)
      == (if a == OrgUser(org) then Received(payment) - CommissionAmount(payment, rate) else 0)
        + (if a == OrgUser(root) then CommissionAmount(payment, rate) else 0)
        - (if a == payer then Received(payment) else 0)
  {
    var ts := FirstTransfers(payer, org, root, payment, rate);
    BalanceAfter(b, ts, a);
    assert ts[..1] == [ts[0]] && ts[..1][..0] == [];
    assert In(ts[..1], a) == (if a == OrgUser(org) then Received(payment) else 0);
    assert Out(ts[..1], a) == (if a == payer then Received(payment) else 0);
  }

  /** The sender always has what the transaction takes from it. */
  lemma SenderCanPay(b: Balances, onboarding: bool, payer: Account, bonus: Option<Account>, payment: real)
    ensures var sender := Sender(b, onboarding, payer, bonus, payment);
      sender.Some? ==> Received(payment) <= Balance(b, sender.value)
  {
    var sender := Sender(b, onboarding, payer, bonus, payment);
    if sender.Some? {
      RoundMonotone(payment, Balance(b, sender.value) as real);
      RoundWhole(0.0, Balance(b, sender.value));
    }
  }

  /** What becomes of the payment transaction: the call returns; it throws and nothing was
      applied; or it throws although the transaction went through. */
  datatype Submission = Returned | Rejected | Unseen

  /** `performPayment`: refused without funds; otherwise the transaction, and both splits unless
      sending it throws. */
  method PerformPayment(ledger: TokenLedger, g: Graph, ghost rank: map<OrgId, nat>, onboarding: bool, payer: Account,
      bonus: Option<Account>, org: OrgId, root: OrgId, payment: real, rate: real, submission: Submission, ok: Chain)
    returns (sender: Option<Account>)
    requires Ranked(g, rank) && org in g && root in g
    modifies ledger
    ensures sender == Sender(old(ledger.balances), onboarding, payer, bonus, payment)
    ensures ledger.balances ==
      if sender.None? || submission == Rejected then old(ledger.balances)
      else if submission == Unseen then Paid(old(ledger.balances), sender.value, org, root, payment, rate)
      else Settled(old(ledger.balances), g, rank, sender.value, org, root, payment, rate, ok)
  {
    sender := None;
    var balance, bonusBalance := Balance(ledger.balances, payer), 0;
    if onboarding {
      if bonus.Some? {
        bonusBalance := Balance(ledger.balances, bonus.value);
      }
      if balance as real < payment && bonusBalance as real < payment {
        return;
      }
    } else if balance as real < payment {
      return;
    }
    sender := if onboarding && bonusBalance as real >= payment then bonus else Some(payer);
    if sender.None? || submission == Rejected {
      return;
    }
    ledger.balances := Paid(ledger.balances, sender.value, org, root, payment, rate);
    if submission == Unseen {
      return;
    }
    ghost var paid := ledger.balances;
    ledger.HandleRegularPayment(g, rank, org, NetPayment(payment, rate) as real, ok, [0]);
    ledger.HandleRegularPayment(g, rank, root, CommissionAmount(payment, rate) as real, ok, [1]);
    AppliedInTurn(paid, Transfers(g, rank, org, NetPayment(payment, rate) as real, ok, [0]),
      Transfers(g, rank, root, CommissionAmount(payment, rate) as real, ok, [1]));
  }
}
