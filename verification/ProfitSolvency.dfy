/** Whether organisations can pay what `handleRegularPayment` makes them pay, at every moment, in
    every order of the calls, and for every outcome of the batches. */
module ProfitSolvency {
  import opened Batches
  import opened Ledger
  import opened ProfitSplit
  import opened ProfitRecursion
  import opened ProfitOrders

  /** What organisation a had for this payment before the first transfer. */
  function Own(a: OrgId, o: OrgId, payment: real): real { if a == o then payment else 0.0 }

  /** At no moment has a sent more than what it had and had received. */
  ghost predicate Solvent(ts: seq<Payout>, a: OrgId, own: real)
  {
    forall n :: 0 <= n <= |ts| ==> SolventAt(ts, a, own, n)
  }

  ghost predicate SolventAt(ts: seq<Payout>, a: OrgId, own: real, n: nat)
    requires n <= |ts|
  {
    Out(ts[..n], OrgUser(a)) as real <= In(ts[..n], OrgUser(a)) as real + own
  }

  // ---------- sums of non-negative transfers ----------

  lemma {:induction false} PartsGrow(ts: seq<Payout>, a: OrgId, n: nat)
    requires AllNonNegative(ts) && n <= |ts|
    ensures 0 <= Out(ts[..n], OrgUser(a)) <= Out(ts, OrgUser(a))
    ensures 0 <= In(ts[..n], OrgUser(a)) <= In(ts, OrgUser(a))
  {
    if ts == [] {
      assert ts[..n] == [];
    } else {
      var front := ts[..|ts| - 1];
      if n == |ts| {
        PartsGrow(front, a, |front|);
        assert ts[..n] == ts && front[..|front|] == front;
      } else {
        PartsGrow(front, a, n);
        assert front[..n] == ts[..n];
      }
    }
  }

  /** What is delivered of a level is part of it. */
  lemma {:induction false} DeliveredWithinLevel(g: Graph, o: OrgId, payment: real, ok: Chain, path: seq<nat>,
      a: OrgId, n: nat)
    requires Sound(g) && o in g && n <= |Level(g, o, payment)|
    ensures var ts := Delivered(Level(g, o, payment), ok, path, n);
      && AllNonNegative(ts)
      && Out(ts, OrgUser(a)) <= (if a == o then Sum(Level(g, o, payment)[..n]) else 0)
      && (a != o ==> Out(ts, OrgUser(a)) == 0)
    ensures Sum(Level(g, o, payment)[..n]) >= 0
  {
    if n > 0 {
      var level := Level(g, o, payment);
      DeliveredWithinLevel(g, o, payment, ok, path, a, n - 1);
      LevelIsNonNegative(g, o, payment);
      assert level[..n][..n - 1] == level[..n - 1] && level[n - 1] in level;
    }
  }

  lemma LevelIsNonNegative(g: Graph, o: OrgId, payment: real)
    requires Sound(g) && o in g
    ensures forall t :: t in Level(g, o, payment) ==> t.from == OrgUser(o) && t.amount >= 0
  {
    var split := AmountToSplit(payment, g[o].treasury);
    if g[o].mintSuccess && split >= 0.0 {
      PayoutsNonNegative(o, g[o].holders, split, |g[o].holders|);
    }
  }

  lemma KidsAreNonNegative(g: Graph, o: OrgId, payment: real)
    requires Sound(g) && o in g
    ensures AllNonNegative(OrgMembers(Level(g, o, payment)))
  {
    LevelIsNonNegative(g, o, payment);
  }

  // ---------- what a call and the calls below it prepare ----------

  /** What organisation a prepares to pay in this call and all calls below it. */
  ghost function Prepared(g: Graph, rank: map<OrgId, nat>, o: OrgId, payment: real, a: OrgId): int
    requires Ranked(g, rank) && o in g
    decreases rank[o], 1, 0
  {
    var level := Level(g, o, payment);
    KidsAreLower(g, rank, o, payment);
    (if a == o then Sum(level) else 0) + KidsPrepared(g, rank, OrgMembers(level), rank[o], a, |OrgMembers(level)|)
  }

  ghost function KidsPrepared(g: Graph, rank: map<OrgId, nat>, kids: seq<Payout>, r: nat, a: OrgId, n: nat): int
    requires Ranked(g, rank) && Lower(g, rank, kids, r) && n <= |kids|
    decreases r, 0, n
  {
    if n == 0 then 0 else
    KidsPrepared(g, rank, kids, r, a, n - 1) + Prepared(g, rank, kids[n - 1].to.id, kids[n - 1].amount as real, a)
  }

  lemma {:induction false} OrderIsNonNegative(g: Graph, rank: map<OrgId, nat>, o: OrgId, payment: real, ok: Chain,
      path: seq<nat>, u: seq<Payout>)
    requires Ranked(g, rank) && Sound(g) && o in g && Order(g, rank, o, payment, ok, path, u)
    ensures AllNonNegative(u)
    decreases rank[o], 1, 0
  {
    var level := Level(g, o, payment);
    var kids, done := OrgMembers(level), Delivered(level, ok, path, |level|);
    KidsAreLower(g, rank, o, payment);
    DeliveredWithinLevel(g, o, payment, ok, path, o, |level|);
    KidsOrderIsNonNegative(g, rank, kids, rank[o], ok, path, |kids|, u[|done|..]);
    assert u == done + u[|done|..];
  }

  lemma {:induction false} KidsOrderIsNonNegative(g: Graph, rank: map<OrgId, nat>, kids: seq<Payout>, r: nat, ok: Chain,
      path: seq<nat>, n: nat, u: seq<Payout>)
    requires Ranked(g, rank) && Sound(g) && Lower(g, rank, kids, r) && n <= |kids|
    requires KidsOrder(g, rank, kids, r, ok, path, n, u)
    ensures AllNonNegative(u)
    decreases r, 0, n
  {
    if n > 0 {
      var kid, p := kids[n - 1], path + [n - 1];
      KidIsLower(g, rank, kids, r, n - 1);
      var s, t :| Merge(s, t, u) && KidsOrder(g, rank, kids, r, ok, path, n - 1, s)
        && Order(g, rank, kid.to.id, kid.amount as real, ok, p, t);
      KidsOrderIsNonNegative(g, rank, kids, r, ok, path, n - 1, s);
      OrderIsNonNegative(g, rank, kid.to.id, kid.amount as real, ok, p, t);
      MergedNonNegative(s, t, u);
    }
  }

  /** Whatever the batches do, a sends at most what it prepares. */
  lemma {:induction false} OutWithinPrepared(g: Graph, rank: map<OrgId, nat>, o: OrgId, payment: real, ok: Chain,
      path: seq<nat>, a: OrgId)
    requires Ranked(g, rank) && Sound(g) && o in g
    ensures Out(Transfers(g, rank, o, payment, ok, path), OrgUser(a)) <= Prepared(g, rank, o, payment, a)
    decreases rank[o], 1, 0
  {
    var level := Level(g, o, payment);
    var kids := OrgMembers(level);
    KidsAreLower(g, rank, o, payment);
    DeliveredWithinLevel(g, o, payment, ok, path, a, |level|);
    assert level[..|level|] == level;
    KidsOutWithinPrepared(g, rank, kids, rank[o], ok, path, a, |kids|);
    SumsOfConcat(Delivered(level, ok, path, |level|), KidsTransfers(g, rank, kids, rank[o], ok, path, |kids|),
      OrgUser(a));
  }

  lemma {:induction false} KidsOutWithinPrepared(g: Graph, rank: map<OrgId, nat>, kids: seq<Payout>, r: nat,
      ok: Chain, path: seq<nat>, a: OrgId, n: nat)
    requires Ranked(g, rank) && Sound(g) && Lower(g, rank, kids, r) && n <= |kids|
    ensures Out(KidsTransfers(g, rank, kids, r, ok, path, n), OrgUser(a)) <= KidsPrepared(g, rank, kids, r, a, n)
    decreases r, 0, n
  {
    if n == 0 {
      assert KidsTransfers(g, rank, kids, r, ok, path, 0) == [] && KidsPrepared(g, rank, kids, r, a, 0) == 0;
    } else {
      KidsOutWithinPrepared(g, rank, kids, r, ok, path, a, n - 1);
      OneMoreKid(g, rank, kids, r, ok, path, a, n - 1);
    }
  }

  lemma {:induction false} OneMoreKid(g: Graph, rank: map<OrgId, nat>, kids: seq<Payout>, r: nat, ok: Chain,
      path: seq<nat>, a: OrgId, n: nat)
    requires Ranked(g, rank) && Sound(g) && Lower(g, rank, kids, r) && n < |kids|
    ensures Out(KidsTransfers(g, rank, kids, r, ok, path, n + 1), OrgUser(a))
        - Out(KidsTransfers(g, rank, kids, r, ok, path, n), OrgUser(a))
      <= KidsPrepared(g, rank, kids, r, a, n + 1) - KidsPrepared(g, rank, kids, r, a, n)
    decreases r, 0, n
  {
    KidIsLower(g, rank, kids, r, n);
    OutWithinPrepared(g, rank, kids[n].to.id, kids[n].amount as real, ok, path + [n], a);
    SumsOfConcat(KidsTransfers(g, rank, kids, r, ok, path, n),
      Transfers(g, rank, kids[n].to.id, kids[n].amount as real, ok, path + [n]), OrgUser(a));
  }

  // ---------- the worst chain ----------

  /** The call at this relative path is one for organisation a. */
  predicate CallsFor(g: Graph, o: OrgId, payment: real, rel: seq<nat>, a: OrgId)
    decreases |rel|
  {
    o in g &&
    if rel == [] then a == o else
    var kids := OrgMembers(Level(g, o, payment));
    rel[0] < |kids| && CallsFor(g, kids[rel[0]].to.id, kids[rel[0]].amount as real, rel[1..], a)
  }

  /** Below path, exactly the batches of a succeed. */
  ghost predicate OnlyFrom(ok: Chain, path: seq<nat>, g: Graph, o: OrgId, payment: real, a: OrgId)
  {
    forall rel: seq<nat>, i: nat :: ok(path + rel, i) <==> CallsFor(g, o, payment, rel, a)
  }

  function WorstChain(path: seq<nat>, g: Graph, o: OrgId, payment: real, a: OrgId): Chain
  {
    (p, i) => |path| <= |p| && p[..|path|] == path && CallsFor(g, o, payment, p[|path|..], a)
  }

  lemma WorstChainIsOnlyFrom(path: seq<nat>, g: Graph, o: OrgId, payment: real, a: OrgId)
    ensures OnlyFrom(WorstChain(path, g, o, payment, a), path, g, o, payment, a)
  {
    forall rel: seq<nat>, i: nat
      ensures WorstChain(path, g, o, payment, a)(path + rel, i) <==> CallsFor(g, o, payment, rel, a)
    {
      assert (path + rel)[..|path|] == path && (path + rel)[|path|..] == rel;
    }
  }

  lemma OnlyFromKid(ok: Chain, path: seq<nat>, g: Graph, o: OrgId, payment: real, a: OrgId, k: nat)
    requires OnlyFrom(ok, path, g, o, payment, a) && o in g && k < |OrgMembers(Level(g, o, payment))|
    ensures var kid := OrgMembers(Level(g, o, payment))[k];
      OnlyFrom(ok, path + [k], g, kid.to.id, kid.amount as real, a)
  {
    var kid := OrgMembers(Level(g, o, payment))[k];
    forall rel: seq<nat>, i: nat
      ensures ok(path + [k] + rel, i) <==> CallsFor(g, kid.to.id, kid.amount as real, rel, a)
    {
      assert path + [k] + rel == path + ([k] + rel) && ([k] + rel)[1..] == rel;
    }
  }

  /** A level delivered whole sends its sum, and nothing to its own organisation. */
  lemma {:induction false} WholeLevel(g: Graph, rank: map<OrgId, nat>, o: OrgId, ts: seq<Payout>)
    requires Ranked(g, rank) && o in g
    requires forall t :: t in ts ==>
      t.from == OrgUser(o) && exists i :: 0 <= i < |g[o].holders| && g[o].holders[i].account == t.to
    ensures Out(ts, OrgUser(o)) == Sum(ts) && In(ts, OrgUser(o)) == 0
  {
    if ts != [] {
      var t := ts[|ts| - 1];
      WholeLevel(g, rank, o, ts[..|ts| - 1]);
      var i :| 0 <= i < |g[o].holders| && g[o].holders[i].account == t.to;
      assert HoldersAreLower(g, rank, o) && g[o].holders[i] in g[o].holders;
    }
  }

  lemma {:induction false} NothingDelivered(ts: seq<Payout>, ok: Chain, path: seq<nat>, n: nat)
    requires n <= |ts| && forall i: nat :: !ok(path, i)
    ensures Delivered(ts, ok, path, n) == []
  {
    if n > 0 {
      NothingDelivered(ts, ok, path, n - 1);
    }
  }

  lemma OwnLevel(g: Graph, rank: map<OrgId, nat>, o: OrgId, payment: real, ok: Chain, path: seq<nat>, a: OrgId)
    requires Ranked(g, rank) && o in g && OnlyFrom(ok, path, g, o, payment, a)
    ensures var ts := Delivered(Level(g, o, payment), ok, path, |Level(g, o, payment)|);
      && Out(ts, OrgUser(a)) == (if a == o then Sum(Level(g, o, payment)) else 0)
      && In(ts, OrgUser(a)) == 0
  {
    var level := Level(g, o, payment);
    assert forall i: nat :: ok(path, i) <==> a == o by {
      forall i: nat ensures ok(path, i) <==> a == o {
        assert path + [] == path && (ok(path + [], i) <==> CallsFor(g, o, payment, [], a));
      }
    }
    if a == o {
      AllDelivered(level, ok, path, |level|);
      assert level[..|level|] == level;
      PayoutsGoToHolders(o, g[o].holders, AmountToSplit(payment, g[o].treasury), |g[o].holders|);
      WholeLevel(g, rank, o, level);
    } else {
      NothingDelivered(level, ok, path, |level|);
    }
  }

  /** When exactly the batches of a succeed, a sends all it prepares and receives nothing. */
  lemma {:induction false} WorstCase(g: Graph, rank: map<OrgId, nat>, o: OrgId, payment: real, ok: Chain,
      path: seq<nat>, a: OrgId)
    requires Ranked(g, rank) && o in g && OnlyFrom(ok, path, g, o, payment, a)
    ensures var ts := Transfers(g, rank, o, payment, ok, path);
      Out(ts, OrgUser(a)) == Prepared(g, rank, o, payment, a) && In(ts, OrgUser(a)) == 0
    decreases rank[o], 1, 0
  {
    var level := Level(g, o, payment);
    var kids := OrgMembers(level);
    KidsAreLower(g, rank, o, payment);
    OwnLevel(g, rank, o, payment, ok, path, a);
    forall k | 0 <= k < |kids| ensures OnlyFrom(ok, path + [k], g, kids[k].to.id, kids[k].amount as real, a) {
      OnlyFromKid(ok, path, g, o, payment, a, k);
    }
    KidsWorstCase(g, rank, kids, rank[o], ok, path, a, |kids|);
    SumsOfConcat(Delivered(level, ok, path, |level|), KidsTransfers(g, rank, kids, rank[o], ok, path, |kids|),
      OrgUser(a));
  }

  lemma {:induction false} KidsWorstCase(g: Graph, rank: map<OrgId, nat>, kids: seq<Payout>, r: nat, ok: Chain,
      path: seq<nat>, a: OrgId, n: nat)
    requires Ranked(g, rank) && Lower(g, rank, kids, r) && n <= |kids|
    requires forall k :: 0 <= k < |kids| ==> OnlyFrom(ok, path + [k], g, kids[k].to.id, kids[k].amount as real, a)
    ensures var ts := KidsTransfers(g, rank, kids, r, ok, path, n);
      Out(ts, OrgUser(a)) == KidsPrepared(g, rank, kids, r, a, n) && In(ts, OrgUser(a)) == 0
    decreases r, 0, n
  {
    if n > 0 {
      var kid, p := kids[n - 1], path + [n - 1];
      KidIsLower(g, rank, kids, r, n - 1);
      KidsWorstCase(g, rank, kids, r, ok, path, a, n - 1);
      WorstCase(g, rank, kid.to.id, kid.amount as real, ok, p, a);
      SumsOfConcat(KidsTransfers(g, rank, kids, r, ok, path, n - 1),
        Transfers(g, rank, kid.to.id, kid.amount as real, ok, p), OrgUser(a));
    }
  }

  /** No call below one for o is for an organisation above it. */
  lemma {:induction false} NotBelow(g: Graph, rank: map<OrgId, nat>, o: OrgId, payment: real, a: OrgId)
    requires Ranked(g, rank) && o in g && a in rank && rank[a] > rank[o]
    ensures Prepared(g, rank, o, payment, a) == 0
    decreases rank[o], 1, 0
  {
    KidsAreLower(g, rank, o, payment);
    KidsNotBelow(g, rank, OrgMembers(Level(g, o, payment)), rank[o], a, |OrgMembers(Level(g, o, payment))|);
  }

  lemma {:induction false} KidsNotBelow(g: Graph, rank: map<OrgId, nat>, kids: seq<Payout>, r: nat, a: OrgId, n: nat)
    requires Ranked(g, rank) && Lower(g, rank, kids, r) && n <= |kids| && a in rank && rank[a] >= r
    ensures KidsPrepared(g, rank, kids, r, a, n) == 0
    decreases r, 0, n
  {
    if n > 0 {
      KidIsLower(g, rank, kids, r, n - 1);
      KidsNotBelow(g, rank, kids, r, a, n - 1);
      NotBelow(g, rank, kids[n - 1].to.id, kids[n - 1].amount as real, a);
    }
  }

  /** So the paid organisation itself prepares its own level only. */
  lemma OwnIsPrepared(g: Graph, rank: map<OrgId, nat>, o: OrgId, payment: real)
    requires Ranked(g, rank) && o in g
    ensures Prepared(g, rank, o, payment, o) == Sum(Level(g, o, payment))
  {
    KidsAreLower(g, rank, o, payment);
    KidsNotBelow(g, rank, OrgMembers(Level(g, o, payment)), rank[o], o, |OrgMembers(Level(g, o, payment))|);
  }

  // ---------- which organisations stay solvent ----------

  /** At every moment of every order, whatever the batches do. */
  ghost predicate AlwaysSolvent(g: Graph, rank: map<OrgId, nat>, o: OrgId, payment: real, path: seq<nat>, a: OrgId)
    requires Ranked(g, rank) && o in g
  {
    forall ok: Chain, u: seq<Payout> :: Order(g, rank, o, payment, ok, path, u) ==> Solvent(u, a, Own(a, o, payment))
  }

  lemma SolventWithinPrepared(g: Graph, rank: map<OrgId, nat>, o: OrgId, payment: real, ok: Chain, path: seq<nat>,
      u: seq<Payout>, a: OrgId)
    requires Ranked(g, rank) && Sound(g) && o in g && Order(g, rank, o, payment, ok, path, u)
    ensures Solvent(u, a, Prepared(g, rank, o, payment, a) as real)
  {
    OrderSums(g, rank, o, payment, ok, path, u, OrgUser(a));
    OutWithinPrepared(g, rank, o, payment, ok, path, a);
    OrderIsNonNegative(g, rank, o, payment, ok, path, u);
    var prepared := Prepared(g, rank, o, payment, a) as real;
    forall n | 0 <= n <= |u| ensures SolventAt(u, a, prepared, n) {
      PartsGrow(u, a, n);
    }
  }

  lemma SolventWithMore(ts: seq<Payout>, a: OrgId, less: real, more: real)
    requires Solvent(ts, a, less) && less <= more
    ensures Solvent(ts, a, more)
  {
    forall n | 0 <= n <= |ts| ensures SolventAt(ts, a, more, n) {
      assert SolventAt(ts, a, less, n);
    }
  }

  /** Organisation a is always solvent if and only if it prepares no more than what it has for
      this payment. */
  lemma SolventIff(g: Graph, rank: map<OrgId, nat>, o: OrgId, payment: real, path: seq<nat>, a: OrgId)
    requires Ranked(g, rank) && Sound(g) && o in g
    ensures AlwaysSolvent(g, rank, o, payment, path, a)
      <==> Prepared(g, rank, o, payment, a) as real <= Own(a, o, payment)
  {
    var prepared, own := Prepared(g, rank, o, payment, a) as real, Own(a, o, payment);
    if prepared <= own {
      forall ok: Chain, u: seq<Payout> | Order(g, rank, o, payment, ok, path, u) ensures Solvent(u, a, own) {
        SolventWithinPrepared(g, rank, o, payment, ok, path, u, a);
        SolventWithMore(u, a, prepared, own);
      }
    } else {
      var ok := WorstChain(path, g, o, payment, a);
      var ts := Transfers(g, rank, o, payment, ok, path);
      WorstChainIsOnlyFrom(path, g, o, payment, a);
      WorstCase(g, rank, o, payment, ok, path, a);
      SequentialIsOrder(g, rank, o, payment, ok, path);
      assert ts[..|ts|] == ts && !SolventAt(ts, a, own, |ts|);
    }
  }

  /** No organisation among the payees would itself pay anything. */
  ghost predicate NothingBelow(g: Graph, o: OrgId, payment: real)
    requires o in g
  {
    forall k :: 0 <= k < |OrgMembers(Level(g, o, payment))| ==> PaysNothing(g, OrgMembers(Level(g, o, payment))[k])
  }

  predicate PaysNothing(g: Graph, kid: Payout)
  {
    kid.to.OrgUser? && kid.to.id in g && Sum(Level(g, kid.to.id, kid.amount as real)) == 0
  }

  lemma {:induction false} PreparedNonNegative(g: Graph, rank: map<OrgId, nat>, o: OrgId, payment: real, a: OrgId)
    requires Ranked(g, rank) && Sound(g) && o in g
    ensures (if a == o then Sum(Level(g, o, payment)) else 0) <= Prepared(g, rank, o, payment, a)
    ensures 0 <= Sum(Level(g, o, payment)) && 0 <= Prepared(g, rank, o, payment, a)
    decreases rank[o], 1, 0
  {
    var level := Level(g, o, payment);
    KidsAreLower(g, rank, o, payment);
    DeliveredWithinLevel(g, o, payment, (p, i) => true, [], a, |level|);
    assert level[..|level|] == level;
    KidsPreparedGrow(g, rank, OrgMembers(level), rank[o], a, |OrgMembers(level)|);
  }

  ghost function KidPrepared(g: Graph, rank: map<OrgId, nat>, kids: seq<Payout>, r: nat, a: OrgId, k: nat): int
    requires Ranked(g, rank) && Lower(g, rank, kids, r) && k < |kids|
  {
    Prepared(g, rank, kids[k].to.id, kids[k].amount as real, a)
  }

  lemma {:induction false} KidsPreparedGrow(g: Graph, rank: map<OrgId, nat>, kids: seq<Payout>, r: nat, a: OrgId,
      n: nat)
    requires Ranked(g, rank) && Sound(g) && Lower(g, rank, kids, r) && n <= |kids|
    ensures 0 <= KidsPrepared(g, rank, kids, r, a, n)
    ensures forall k :: 0 <= k < n ==> KidPrepared(g, rank, kids, r, a, k) <= KidsPrepared(g, rank, kids, r, a, n)
    decreases r, 0, n
  {
    if n > 0 {
      KidIsLower(g, rank, kids, r, n - 1);
      KidsPreparedGrow(g, rank, kids, r, a, n - 1);
      PreparedNonNegative(g, rank, kids[n - 1].to.id, kids[n - 1].amount as real, a);
    }
  }

  lemma {:induction false} ZeroAmounts(ts: seq<Payout>)
    requires AllNonNegative(ts)
    ensures 0 <= Sum(ts) && (Sum(ts) == 0 ==> forall k :: 0 <= k < |ts| ==> ts[k].amount == 0)
  {
    if ts != [] {
      ZeroAmounts(ts[..|ts| - 1]);
    }
  }

  /** A call that pays nothing is followed by calls that pay nothing. */
  lemma {:induction false} IdlePreparesNothing(g: Graph, rank: map<OrgId, nat>, o: OrgId, payment: real, a: OrgId)
    requires Ranked(g, rank) && Sound(g) && o in g && Sum(Level(g, o, payment)) == 0
    ensures Prepared(g, rank, o, payment, a) == 0
    decreases rank[o], 1, 0
  {
    var level := Level(g, o, payment);
    var kids := OrgMembers(level);
    KidsAreLower(g, rank, o, payment);
    LevelIsNonNegative(g, o, payment);
    ZeroAmounts(level);
    forall k | 0 <= k < |kids| ensures PaysNothing(g, kids[k]) {
      KidIsLower(g, rank, kids, rank[o], k);
      LevelIsCovered(g, kids[k].to.id, 0.0);
      PreparedNonNegative(g, rank, kids[k].to.id, 0.0, a);
    }
    IdleKids(g, rank, kids, rank[o], a, |kids|);
  }

  lemma {:induction false} IdleKids(g: Graph, rank: map<OrgId, nat>, kids: seq<Payout>, r: nat, a: OrgId, n: nat)
    requires Ranked(g, rank) && Sound(g) && Lower(g, rank, kids, r) && n <= |kids|
    requires forall k :: 0 <= k < |kids| ==> PaysNothing(g, kids[k])
    ensures KidsPrepared(g, rank, kids, r, a, n) == 0
    decreases r, 0, n
  {
    if n > 0 {
      KidIsLower(g, rank, kids, r, n - 1);
      IdleKids(g, rank, kids, r, a, n - 1);
      IdlePreparesNothing(g, rank, kids[n - 1].to.id, kids[n - 1].amount as real, a);
    }
  }

  /** Every organisation is always solvent if and only if no organisation that holds part of the
      paid one would pay anything on. */
  lemma AllSolventIff(g: Graph, rank: map<OrgId, nat>, o: OrgId, payment: real, path: seq<nat>)
    requires Ranked(g, rank) && Sound(g) && o in g && payment >= 0.0
    ensures (forall a: OrgId :: AlwaysSolvent(g, rank, o, payment, path, a)) <==> NothingBelow(g, o, payment)
  {
    var kids := OrgMembers(Level(g, o, payment));
    KidsAreLower(g, rank, o, payment);
    LevelIsCovered(g, o, payment);
    if NothingBelow(g, o, payment) {
      forall a: OrgId ensures AlwaysSolvent(g, rank, o, payment, path, a) {
        IdleKids(g, rank, kids, rank[o], a, |kids|);
        SolventIff(g, rank, o, payment, path, a);
      }
    } else {
      var k :| 0 <= k < |kids| && !PaysNothing(g, kids[k]);
      var a := kids[k].to.id;
      KidIsLower(g, rank, kids, rank[o], k);
      PreparedNonNegative(g, rank, a, kids[k].amount as real, a);
      KidsPreparedGrow(g, rank, kids, rank[o], a, |kids|);
      assert KidPrepared(g, rank, kids, rank[o], a, k) > 0;
      SolventIff(g, rank, o, payment, path, a);
    }
  }

  // ---------- when the money for organisations arrives ----------

  lemma SolventInTurn(s: seq<Payout>, t: seq<Payout>, a: OrgId, own: real, more: real)
    requires Solvent(s, a, own) && Solvent(t, a, more)
    requires In(s, OrgUser(a)) as real - Out(s, OrgUser(a)) as real + own >= more
    ensures Solvent(s + t, a, own)
  {
    forall n | 0 <= n <= |s + t| ensures SolventAt(s + t, a, own, n) {
      if n <= |s| {
        assert (s + t)[..n] == s[..n] && SolventAt(s, a, own, n);
      } else {
        assert (s + t)[..n] == s + t[..n - |s|] && SolventAt(t, a, more, n - |s|);
        SumsOfConcat(s, t[..n - |s|], OrgUser(a));
      }
    }
  }

  /** Side by side the means of both add up. */
  lemma SolventSideBySide(s: seq<Payout>, t: seq<Payout>, u: seq<Payout>, a: OrgId, x: real, y: real)
    requires Merge(s, t, u) && Solvent(s, a, x) && Solvent(t, a, y)
    ensures Solvent(u, a, x + y)
  {
    var both := x + y;
    forall n | 0 <= n <= |u| ensures SolventAt(u, a, both, n) {
      var i, j := MergedPrefix(s, t, u, n);
      MergedSums(s[..i], t[..j], u[..n], OrgUser(a));
      assert SolventAt(s, a, x, i) && SolventAt(t, a, y, j);
    }
  }

  /** In this call and all calls below it the money for organisations arrives: then every
      organisation stays solvent at every moment, in whatever order the calls run. */
  lemma {:induction false} NoOrgOverpays(g: Graph, rank: map<OrgId, nat>, o: OrgId, payment: real, ok: Chain,
      path: seq<nat>, u: seq<Payout>, a: OrgId)
    requires Ranked(g, rank) && Sound(g) && o in g && payment >= 0.0
    requires Arrives(g, rank, o, payment, ok, path) && Order(g, rank, o, payment, ok, path, u)
    ensures Solvent(u, a, Own(a, o, payment))
    decreases rank[o], 1, 0
  {
    var level := Level(g, o, payment);
    var kids, done := OrgMembers(level), Delivered(level, ok, path, |level|);
    KidsAreLower(g, rank, o, payment);
    KidsAreNonNegative(g, o, payment);
    OwnLevelIsCovered(g, o, payment, ok, path, a);
    OrgsReceive(level, ok, path, a, |level|);
    InAmongOrgs(level, a);
    assert level[..|level|] == level && kids[..|kids|] == kids && u == done + u[|done|..];
    KidsDoNotOverpay(g, rank, kids, rank[o], ok, path, |kids|, u[|done|..], a);
    SolventInTurn(done, u[|done|..], a, Own(a, o, payment), In(kids, OrgUser(a)) as real);
  }

  lemma OwnLevelIsCovered(g: Graph, o: OrgId, payment: real, ok: Chain, path: seq<nat>, a: OrgId)
    requires Sound(g) && o in g && payment >= 0.0
    ensures var done := Delivered(Level(g, o, payment), ok, path, |Level(g, o, payment)|);
      Solvent(done, a, Own(a, o, payment)) && Out(done, OrgUser(a)) as real <= Own(a, o, payment)
  {
    var level := Level(g, o, payment);
    var done := Delivered(level, ok, path, |level|);
    LevelIsCovered(g, o, payment);
    DeliveredWithinLevel(g, o, payment, ok, path, a, |level|);
    assert level[..|level|] == level;
    forall n | 0 <= n <= |done| ensures SolventAt(done, a, Own(a, o, payment), n) {
      PartsGrow(done, a, n);
    }
  }

  /** Side by side, the calls for organisations spend what these calls were prepared with. */
  lemma {:induction false} KidsDoNotOverpay(g: Graph, rank: map<OrgId, nat>, kids: seq<Payout>, r: nat, ok: Chain,
      path: seq<nat>, n: nat, u: seq<Payout>, a: OrgId)
    requires Ranked(g, rank) && Sound(g) && Lower(g, rank, kids, r) && n <= |kids| && AllNonNegative(kids)
    requires KidsArrive(g, rank, kids, r, ok, path, n) && KidsOrder(g, rank, kids, r, ok, path, n, u)
    ensures Solvent(u, a, In(kids[..n], OrgUser(a)) as real)
    decreases r, 0, n
  {
    if n > 0 {
      var kid, p := kids[n - 1], path + [n - 1];
      KidIsLower(g, rank, kids, r, n - 1);
      var s, t :| Merge(s, t, u) && KidsOrder(g, rank, kids, r, ok, path, n - 1, s)
        && Order(g, rank, kid.to.id, kid.amount as real, ok, p, t);
      KidsDoNotOverpay(g, rank, kids, r, ok, path, n - 1, s, a);
      NoOrgOverpays(g, rank, kid.to.id, kid.amount as real, ok, p, t, a);
      OneMoreFund(kids, n, a);
      SolventSideBySide(s, t, u, a, In(kids[..n - 1], OrgUser(a)) as real, Own(a, kid.to.id, kid.amount as real));
    }
  }

  lemma OneMoreFund(kids: seq<Payout>, n: nat, a: OrgId)
    requires 0 < n <= |kids| && kids[n - 1].to.OrgUser?
    ensures In(kids[..n], OrgUser(a)) as real
      == In(kids[..n - 1], OrgUser(a)) as real + Own(a, kids[n - 1].to.id, kids[n - 1].amount as real)
  {
    assert kids[..n][..n - 1] == kids[..n - 1];
  }

  /** The balance of an organisation never falls below what it was before the payment came. */
  lemma NeverInDebt(b: Balances, g: Graph, rank: map<OrgId, nat>, o: OrgId, payment: real, ok: Chain, path: seq<nat>,
      u: seq<Payout>, a: OrgId, n: nat)
    requires Ranked(g, rank) && Sound(g) && o in g && payment >= 0.0
    requires Arrives(g, rank, o, payment, ok, path) && Order(g, rank, o, payment, ok, path, u) && n <= |u|
    ensures Balance(Applied(b, u[..n]), OrgUser(a)) as real >= Balance(b, OrgUser(a)) as real - Own(a, o, payment)
  {
    NoOrgOverpays(g, rank, o, payment, ok, path, u, a);
    assert SolventAt(u, a, Own(a, o, payment), n);
    BalanceAfter(b, u[..n], OrgUser(a));
  }
}
