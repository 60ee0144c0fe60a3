/** `handleRegularPayment` as a whole: the split of one organisation, its batches, and the
    same again for every holder that is itself an organisation. */
module ProfitRecursion {
  import opened Decimal
  import opened Batches
  import opened Ledger
  import opened ProfitSplit

  type Graph = map<OrgId, Org>

  /** Organisations hold each other without cycles: a rank falls along every holding. The
      code has no other stop. */
  ghost predicate Ranked(g: Graph, rank: map<OrgId, nat>)
  {
    forall o :: o in g ==> o in rank && HoldersAreLower(g, rank, o)
  }

  ghost predicate HoldersAreLower(g: Graph, rank: map<OrgId, nat>, o: OrgId)
    requires o in g && o in rank
  {
    forall h :: h in g[o].holders && h.account.OrgUser? ==>
      h.account.id in g && h.account.id in rank && rank[h.account.id] < rank[o]
  }

  /** The transfers one organisation prepares for one payment. */
  function Level(g: Graph, o: OrgId, payment: real): seq<Payout>
    requires o in g
  {
    var split := AmountToSplit(payment, g[o].treasury);
    if !g[o].mintSuccess || split < 0.0 then [] else Payouts(o, g[o].holders, split, |g[o].holders|)
  }

  lemma {:induction false} PayoutsGoToHolders(o: OrgId, holders: seq<Holder>, split: real, k: nat)
    requires k <= |holders|
    ensures forall t :: t in Payouts(o, holders, split, k) ==>
      t.from == OrgUser(o) && exists i :: 0 <= i < k && holders[i].account == t.to
  {
    if k > 0 {
      PayoutsGoToHolders(o, holders, split, k - 1);
      assert holders[k - 1].account == holders[k - 1].account;
    }
  }

  /** Every organisation among the payees has a smaller rank. */
  ghost predicate Lower(g: Graph, rank: map<OrgId, nat>, kids: seq<Payout>, r: nat)
  {
    forall k :: 0 <= k < |kids| ==>
      kids[k].to.OrgUser? && kids[k].to.id in g && kids[k].to.id in rank && rank[kids[k].to.id] < r
  }

  lemma KidsAreLower(g: Graph, rank: map<OrgId, nat>, o: OrgId, payment: real)
    requires Ranked(g, rank) && o in g
    ensures Lower(g, rank, OrgMembers(Level(g, o, payment)), rank[o])
  {
    var split, kids := AmountToSplit(payment, g[o].treasury), OrgMembers(Level(g, o, payment));
    PayoutsGoToHolders(o, g[o].holders, split, |g[o].holders|);
    forall k | 0 <= k < |kids|
      ensures kids[k].to.OrgUser? && kids[k].to.id in g && kids[k].to.id in rank && rank[kids[k].to.id] < rank[o]
    {
      var i :| 0 <= i < |g[o].holders| && g[o].holders[i].account == kids[k].to;
      assert g[o].holders[i] in g[o].holders;
    }
  }

  lemma KidIsLower(g: Graph, rank: map<OrgId, nat>, kids: seq<Payout>, r: nat, i: nat)
    requires Lower(g, rank, kids, r) && i < |kids|
    ensures kids[i].to.OrgUser? && kids[i].to.id in g && kids[i].to.id in rank && rank[kids[i].to.id] < r
  {}

  // ---------- all transfers of a payment ----------

  /** Every transfer applied on chain: the delivered batches of this organisation, then those
      of the organisations among its holders. A failed batch does not stop the recursion. */
  ghost function Transfers(g: Graph, rank: map<OrgId, nat>, o: OrgId, payment: real, ok: Chain,
      path: seq<nat>): seq<Payout>
    requires Ranked(g, rank) && o in g
    decreases rank[o], 1, 0
  {
    var level := Level(g, o, payment);
    KidsAreLower(g, rank, o, payment);
    Delivered(level, ok, path, |level|)
      + KidsTransfers(g, rank, OrgMembers(level), rank[o], ok, path, |OrgMembers(level)|)
  }

  /** The transfers of the first n of these organisations. */
  ghost function KidsTransfers(g: Graph, rank: map<OrgId, nat>, kids: seq<Payout>, r: nat, ok: Chain, path: seq<nat>,
      n: nat): seq<Payout>
    requires Ranked(g, rank) && Lower(g, rank, kids, r) && n <= |kids|
    decreases r, 0, n
  {
    if n == 0 then [] else
    var kid := kids[n - 1];
    KidsTransfers(g, rank, kids, r, ok, path, n - 1)
      + Transfers(g, rank, kid.to.id, kid.amount as real, ok, path + [n - 1])
  }

  // ---------- sums over transfers ----------

  function PaidToUsers(ts: seq<Payout>): int
  {
    if ts == [] then 0
    else if ts[|ts| - 1].to.User? then PaidToUsers(ts[..|ts| - 1]) + ts[|ts| - 1].amount
    else PaidToUsers(ts[..|ts| - 1])
  }

  lemma {:induction false} PaidOfConcat(s: seq<Payout>, t: seq<Payout>)
    ensures PaidToUsers(s + t) == PaidToUsers(s) + PaidToUsers(t)
  {
    if t == [] {
      assert s + t == s;
    } else {
      assert (s + t)[..|s + t| - 1] == s + t[..|t| - 1];
      PaidOfConcat(s, t[..|t| - 1]);
    }
  }

  // ---------- one level ----------

  /** Rates and balances are not negative. */
  ghost predicate Sound(g: Graph)
  {
    forall o :: o in g ==> g[o].treasury >= 0.0 && NonNegative(g[o].holders)
  }

  lemma {:induction false} PayoutsSum(o: OrgId, holders: seq<Holder>, split: real, k: nat)
    requires k <= |holders|
    ensures Sum(Payouts(o, holders, split, k)) == Accumulated(holders, split, k)
  {
    if k > 0 {
      PayoutsSum(o, holders, split, k - 1);
    }
  }

  lemma {:induction false} PayoutsNonNegative(o: OrgId, holders: seq<Holder>, split: real, k: nat)
    requires split >= 0.0 && NonNegative(holders) && k <= |holders|
    ensures forall t :: t in Payouts(o, holders, split, k) ==> t.from == OrgUser(o) && t.amount >= 0
  {
    if k > 0 {
      PayoutsNonNegative(o, holders, split, k - 1);
      ClampedSplit(holders, split, k);
    }
  }

  lemma TreasurySign(payment: real, treasury: real)
    requires payment >= 0.0 && treasury >= 0.0
    ensures Treasury(payment, treasury) >= 0
  {
    OverMonotone(0.0, treasury, 100.0);
    OverAdd(0.0, 0.0, 100.0);
    TimesMonotone(0.0, payment, Over(treasury, 100.0));
    TimesAdd(0.0, 0.0, Over(treasury, 100.0));
    RoundMonotone(0.0, Times(payment, Over(treasury, 100.0)));
  }

  /** An organisation prepares non-negative transfers, all its own, and at most what it got
      less its treasury cut. */
  lemma LevelIsCovered(g: Graph, o: OrgId, payment: real)
    requires Sound(g) && o in g && payment >= 0.0
    ensures forall t :: t in Level(g, o, payment) ==> t.from == OrgUser(o) && t.amount >= 0
    ensures Level(g, o, payment) != [] ==> Sum(Level(g, o, payment)) as real <= AmountToSplit(payment, g[o].treasury)
    ensures Sum(Level(g, o, payment)) as real <= payment
  {
    var holders, split := g[o].holders, AmountToSplit(payment, g[o].treasury);
    TreasurySign(payment, g[o].treasury);
    if g[o].mintSuccess && split >= 0.0 {
      PayoutsSum(o, holders, split, |holders|);
      PayoutsNonNegative(o, holders, split, |holders|);
      ClampedSplit(holders, split, |holders|);
    }
  }

  // ---------- batches ----------

  lemma {:induction false} AllDelivered(ts: seq<Payout>, ok: Chain, path: seq<nat>, n: nat)
    requires n <= |ts| && forall i :: ok(path, i)
    ensures Delivered(ts, ok, path, n) == ts[..n]
  {
    if n > 0 {
      AllDelivered(ts, ok, path, n - 1);
    }
  }

  /** The batches that carry money to an organisation arrive. */
  ghost predicate OrgPayoutsArrive(ts: seq<Payout>, ok: Chain, path: seq<nat>)
  {
    forall k :: 0 <= k < |ts| ==> Arrived(ts, ok, path, k)
  }

  ghost predicate Arrived(ts: seq<Payout>, ok: Chain, path: seq<nat>, k: nat)
    requires k < |ts|
  {
    ts[k].to.OrgUser? && ts[k].amount != 0 ==> ok(path, k / BATCH_SIZE)
  }

  /** What an organisation receives it receives among the organisations. */
  lemma {:induction false} InAmongOrgs(ts: seq<Payout>, a: OrgId)
    ensures In(OrgMembers(ts), OrgUser(a)) == In(ts, OrgUser(a))
  {
    if ts != [] {
      InAmongOrgs(ts[..|ts| - 1], a);
    }
  }

  lemma {:induction false} OrgsReceive(ts: seq<Payout>, ok: Chain, path: seq<nat>, a: OrgId, n: nat)
    requires n <= |ts| && OrgPayoutsArrive(ts, ok, path)
    ensures In(Delivered(ts, ok, path, n), OrgUser(a)) == In(ts[..n], OrgUser(a))
  {
    if n > 0 {
      OrgsReceive(ts, ok, path, a, n - 1);
      assert Arrived(ts, ok, path, n - 1);
      assert ts[..n][..n - 1] == ts[..n - 1];
    }
  }

  // ---------- the money for organisations arrives ----------

  /** In this call and all calls below it the money for organisations arrives. */
  ghost predicate Arrives(g: Graph, rank: map<OrgId, nat>, o: OrgId, payment: real, ok: Chain, path: seq<nat>)
    requires Ranked(g, rank) && o in g
    decreases rank[o], 1, 0
  {
    var level := Level(g, o, payment);
    KidsAreLower(g, rank, o, payment);
    OrgPayoutsArrive(level, ok, path) && KidsArrive(g, rank, OrgMembers(level), rank[o], ok, path, |OrgMembers(level)|)
  }

  ghost predicate KidsArrive(g: Graph, rank: map<OrgId, nat>, kids: seq<Payout>, r: nat, ok: Chain, path: seq<nat>,
      n: nat)
    requires Ranked(g, rank) && Lower(g, rank, kids, r) && n <= |kids|
    decreases r, 0, n
  {
    n > 0 ==>
      && KidsArrive(g, rank, kids, r, ok, path, n - 1)
      && Arrives(g, rank, kids[n - 1].to.id, kids[n - 1].amount as real, ok, path + [n - 1])
  }

  // ---------- where the payment goes when every batch succeeds ----------

  lemma {:induction false} EverythingArrives(g: Graph, rank: map<OrgId, nat>, o: OrgId, payment: real, ok: Chain,
      path: seq<nat>)
    requires Ranked(g, rank) && o in g && forall p, i :: ok(p, i)
    ensures Arrives(g, rank, o, payment, ok, path)
    decreases rank[o], 1, 0
  {
    KidsAreLower(g, rank, o, payment);
    var level := Level(g, o, payment);
    var kids := OrgMembers(level);
    assert forall k :: 0 <= k < |level| ==> Arrived(level, ok, path, k);
    AllKidsArrive(g, rank, kids, rank[o], ok, path, |kids|);
  }

  lemma {:induction false} AllKidsArrive(g: Graph, rank: map<OrgId, nat>, kids: seq<Payout>, r: nat, ok: Chain,
      path: seq<nat>, n: nat)
    requires Ranked(g, rank) && Lower(g, rank, kids, r) && n <= |kids| && forall p, i :: ok(p, i)
    ensures KidsArrive(g, rank, kids, r, ok, path, n)
    decreases r, 0, n
  {
    if n > 0 {
      AllKidsArrive(g, rank, kids, r, ok, path, n - 1);
      EverythingArrives(g, rank, kids[n - 1].to.id, kids[n - 1].amount as real, ok, path + [n - 1]);
    }
  }

  /** What organisations keep of a payment: this one its treasury cut and rounding dust (all
      of it when its mint is not `success`), the others below it likewise. */
  ghost function Kept(g: Graph, rank: map<OrgId, nat>, o: OrgId, payment: real): real
    requires Ranked(g, rank) && o in g
    decreases rank[o], 1, 0
  {
    var level := Level(g, o, payment);
    KidsAreLower(g, rank, o, payment);
    payment - Sum(level) as real + KidsKept(g, rank, OrgMembers(level), rank[o], |OrgMembers(level)|)
  }

  ghost function KidsKept(g: Graph, rank: map<OrgId, nat>, kids: seq<Payout>, r: nat, n: nat): real
    requires Ranked(g, rank) && Lower(g, rank, kids, r) && n <= |kids|
    decreases r, 0, n
  {
    if n == 0 then 0.0 else
    KidsKept(g, rank, kids, r, n - 1) + Kept(g, rank, kids[n - 1].to.id, kids[n - 1].amount as real)
  }

  lemma {:induction false} UsersAndOrgs(ts: seq<Payout>)
    ensures Sum(ts) == PaidToUsers(ts) + Sum(OrgMembers(ts))
  {
    if ts != [] {
      UsersAndOrgs(ts[..|ts| - 1]);
    }
  }

  /** The payment is exactly what user wallets get plus what organisations keep. */
  lemma {:induction false} PaymentIsConserved(g: Graph, rank: map<OrgId, nat>, o: OrgId, payment: real, ok: Chain,
      path: seq<nat>)
    requires Ranked(g, rank) && o in g && forall p, i :: ok(p, i)
    ensures PaidToUsers(Transfers(g, rank, o, payment, ok, path)) as real + Kept(g, rank, o, payment) == payment
    decreases rank[o], 1, 0
  {
    var level := Level(g, o, payment);
    var kids := OrgMembers(level);
    KidsAreLower(g, rank, o, payment);
    AllDelivered(level, ok, path, |level|);
    UsersAndOrgs(level);
    KidsConserve(g, rank, kids, rank[o], ok, path, |kids|);
    assert level[..|level|] == level && kids[..|kids|] == kids;
    PaidOfConcat(level, KidsTransfers(g, rank, kids, rank[o], ok, path, |kids|));
  }

  lemma {:induction false} KidsConserve(g: Graph, rank: map<OrgId, nat>, kids: seq<Payout>, r: nat, ok: Chain,
      path: seq<nat>, n: nat)
    requires Ranked(g, rank) && Lower(g, rank, kids, r) && n <= |kids| && forall p, i :: ok(p, i)
    ensures PaidToUsers(KidsTransfers(g, rank, kids, r, ok, path, n)) as real + KidsKept(g, rank, kids, r, n)
      == Sum(kids[..n]) as real
    decreases r, 0, n
  {
    if n > 0 {
      var kid := kids[n - 1];
      KidsConserve(g, rank, kids, r, ok, path, n - 1);
      PaymentIsConserved(g, rank, kid.to.id, kid.amount as real, ok, path + [n - 1]);
      PaidOfConcat(KidsTransfers(g, rank, kids, r, ok, path, n - 1),
        Transfers(g, rank, kid.to.id, kid.amount as real, ok, path + [n - 1]));
      assert kids[..n][..n - 1] == kids[..n - 1];
    }
  }

  /** No organisation keeps a negative amount; an active one keeps at least its treasury. */
  lemma {:induction false} KeptIsNotNegative(g: Graph, rank: map<OrgId, nat>, o: OrgId, payment: real)
    requires Ranked(g, rank) && Sound(g) && o in g && payment >= 0.0
    ensures 0.0 <= Kept(g, rank, o, payment)
    ensures Level(g, o, payment) != [] ==> Treasury(payment, g[o].treasury) as real <= Kept(g, rank, o, payment)
    ensures !g[o].mintSuccess ==> Kept(g, rank, o, payment) == payment
    decreases rank[o], 1, 0
  {
    var level := Level(g, o, payment);
    var kids := OrgMembers(level);
    KidsAreLower(g, rank, o, payment);
    LevelIsCovered(g, o, payment);
    KidsKeep(g, rank, kids, rank[o], |kids|);
  }

  lemma {:induction false} KidsKeep(g: Graph, rank: map<OrgId, nat>, kids: seq<Payout>, r: nat, n: nat)
    requires Ranked(g, rank) && Sound(g) && Lower(g, rank, kids, r) && n <= |kids|
    requires forall k :: 0 <= k < |kids| ==> kids[k].amount >= 0
    ensures 0.0 <= KidsKept(g, rank, kids, r, n)
    decreases r, 0, n
  {
    if n > 0 {
      KidsKeep(g, rank, kids, r, n - 1);
      KeptIsNotNegative(g, rank, kids[n - 1].to.id, kids[n - 1].amount as real);
    }
  }

  // ---------- a failed batch ----------

  /** An organisation held by a single holder with all its equity, without treasury cut. */
  predicate Sole(g: Graph, o: OrgId, a: Account)
  {
    o in g && g[o] == Org(true, 0.0, [Holder(a, 100.0)])
  }

  lemma SoleShare(k: nat)
    ensures AmountToSplit(k as real, 0.0) == k as real && RoundedShare(k as real, 100.0) == k
  {
    assert Over(0.0, 100.0) == 0.0 && Times(k as real, 0.0) == 0.0;
    assert Over(100.0, 100.0) == 1.0 && Times(1.0, E20) == E20 && Over(E20, E20) == 1.0;
    assert Div(100.0, 100.0) == 1.0;
    assert Times(k as real, 1.0) == k as real;
    RoundWhole(0.0, k);
  }

  lemma SoleLevel(g: Graph, o: OrgId, a: Account, k: nat)
    requires Sole(g, o, a)
    ensures Level(g, o, k as real) == [Transfer(OrgUser(o), a, k)]
  {
    var h, split := [Holder(a, 100.0)], k as real;
    SoleShare(k);
    assert Accumulated(h, split, 0) == 0 && AmountFor(h, split, 0) == k;
    assert Payouts(o, h, split, 0) == [];
    assert Payouts(o, h, split, 1) == [Transfer(OrgUser(o), a, k)];
  }

  lemma OneDelivered(t: Payout, ok: Chain, path: seq<nat>)
    ensures Delivered([t], ok, path, 1) == if ok(path, 0) then [t] else []
    ensures OrgMembers([t]) == if t.to.OrgUser? then [t] else []
  {
    assert Delivered([t], ok, path, 0) == [] && [t][..0] == [];
  }

  lemma SoleTransfers(g: Graph, rank: map<OrgId, nat>, o: OrgId, u: string, ok: Chain, path: seq<nat>, k: nat)
    requires Ranked(g, rank) && Sole(g, o, User(u)) && ok(path, 0)
    ensures Transfers(g, rank, o, k as real, ok, path) == [Transfer(OrgUser(o), User(u), k)]
  {
    SoleLevel(g, o, User(u), k);
    OneDelivered(Transfer(OrgUser(o), User(u), k), ok, path);
  }

  /** The recursion does not look at the batches: when the one that pays an organisation
      fails, that organisation still pays its own holders, out of money it did not get. */
  lemma FailedBatchStillRecurses(g: Graph, rank: map<OrgId, nat>, root: OrgId, sub: OrgId, u: string, ok: Chain,
      path: seq<nat>, k: nat)
    requires Ranked(g, rank) && Sole(g, root, OrgUser(sub)) && Sole(g, sub, User(u)) && root != sub
    requires !ok(path, 0) && ok(path + [0], 0)
    ensures var ts := Transfers(g, rank, root, k as real, ok, path);
      In(ts, OrgUser(sub)) == 0 && Out(ts, OrgUser(sub)) == k
  {
    var level, paid := [Transfer(OrgUser(root), OrgUser(sub), k)], [Transfer(OrgUser(sub), User(u), k)];
    SoleLevel(g, root, OrgUser(sub), k);
    OneDelivered(level[0], ok, path);
    KidsAreLower(g, rank, root, k as real);
    SoleTransfers(g, rank, sub, u, ok, path + [0], k);
    assert KidsTransfers(g, rank, level, rank[root], ok, path, 0) == [];
    assert KidsTransfers(g, rank, level, rank[root], ok, path, 1) == paid;
    assert Transfers(g, rank, root, k as real, ok, path) == paid;
    assert paid[..0] == [];
  }

  // ---------- the handler ----------

  type Balances = map<Account, int>

  class TokenLedger {
    var balances: Balances

    /** Sends the prepared transfers; a batch that fails is reported and skipped. */
    method SendBatches(membersWithAmount: seq<Payout>, ok: Chain, path: seq<nat>)
      modifies this
      ensures balances == Applied(old(balances), Delivered(membersWithAmount, ok, path, |membersWithAmount|))
    {
      for i := 0 to NumBatches(|membersWithAmount|)
        invariant balances == Applied(old(balances), Delivered(membersWithAmount, ok, path,
          if i == NumBatches(|membersWithAmount|) then |membersWithAmount| else i * BATCH_SIZE))
      {
        OneBatch(membersWithAmount, ok, path, i);
        if ok(path, i) {
          var batch := Slice(membersWithAmount, i);
          AppliedInTurn(old(balances), Delivered(membersWithAmount, ok, path, i * BATCH_SIZE), batch);
          balances := Applied(balances, batch);
        }
      }
    }

    /** The whole handler, with its recursion into organisations that are holders. */
    method HandleRegularPayment(g: Graph, ghost rank: map<OrgId, nat>, o: OrgId, payment: real, ok: Chain,
        path: seq<nat>)
      requires Ranked(g, rank) && o in g
      modifies this
      ensures balances == Applied(old(balances), Transfers(g, rank, o, payment, ok, path))
      decreases rank[o], 2
    {
      ghost var start, level := balances, Level(g, o, payment);
      KidsAreLower(g, rank, o, payment);
      var membersWithAmount, orgMembers := [], [];
      if g[o].mintSuccess {
        var amountToSplit := payment - Treasury(payment, g[o].treasury) as real;
        if amountToSplit >= 0.0 {
          var accumulated;
          membersWithAmount, orgMembers, accumulated := SplitBetweenHolders(o, g[o].holders, amountToSplit);
        }
      }
      assert membersWithAmount == level && orgMembers == OrgMembers(level);
      SendBatches(membersWithAmount, ok, path);
      PayOrgMembers(g, rank, orgMembers, rank[o], ok, path);
      AppliedInTurn(start, Delivered(level, ok, path, |level|),
        KidsTransfers(g, rank, orgMembers, rank[o], ok, path, |orgMembers|));
    }

    /** The recursion over the organisations among the holders. */
    method PayOrgMembers(g: Graph, ghost rank: map<OrgId, nat>, orgMembers: seq<Payout>, ghost r: nat, ok: Chain,
        path: seq<nat>)
      requires Ranked(g, rank) && Lower(g, rank, orgMembers, r)
      modifies this
      ensures balances == Applied(old(balances), KidsTransfers(g, rank, orgMembers, r, ok, path, |orgMembers|))
      decreases r, 1
    {
      ghost var start, paid := balances, [];
      for i := 0 to |orgMembers|
        invariant paid == KidsTransfers(g, rank, orgMembers, r, ok, path, i)
        invariant balances == Applied(start, paid)
      {
        ghost var more := PayOrgMember(g, rank, orgMembers, r, ok, path, i);
        AppliedInTurn(start, paid, more);
        paid := paid + more;
      }
    }

    /** One recursive call. */
    method PayOrgMember(g: Graph, ghost rank: map<OrgId, nat>, orgMembers: seq<Payout>, ghost r: nat, ok: Chain,
        path: seq<nat>, i: nat)
      returns (ghost more: seq<Payout>)
      requires Ranked(g, rank) && Lower(g, rank, orgMembers, r) && i < |orgMembers|
      modifies this
      ensures KidsTransfers(g, rank, orgMembers, r, ok, path, i + 1)
        == KidsTransfers(g, rank, orgMembers, r, ok, path, i) + more
      ensures balances == Applied(old(balances), more)
      decreases r, 0
    {
      var kid := orgMembers[i];
      KidIsLower(g, rank, orgMembers, r, i);
      HandleRegularPayment(g, rank, kid.to.id, kid.amount as real, ok, path + [i]);
      more := Transfers(g, rank, kid.to.id, kid.amount as real, ok, path + [i]);
    }
  }
}
