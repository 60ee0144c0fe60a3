/** The orders in which the transfers of one payment may be applied. An organisation's own level
    comes first; the calls for the organisations among its holders then run side by side. */
module ProfitOrders {
  import opened Batches
  import opened Ledger
  import opened ProfitSplit
  import opened ProfitRecursion

  ghost predicate AllNonNegative(ts: seq<Payout>)
  {
    forall k :: 0 <= k < |ts| ==> ts[k].amount >= 0
  }

  // ---------- interleavings ----------

  /** u is an interleaving of s and t. */
  ghost predicate Merge(s: seq<Payout>, t: seq<Payout>, u: seq<Payout>)
    decreases |u|
  {
    if u == [] then s == [] && t == [] else
    var front, x := u[..|u| - 1], u[|u| - 1];
    || (s != [] && s[|s| - 1] == x && Merge(s[..|s| - 1], t, front))
    || (t != [] && t[|t| - 1] == x && Merge(s, t[..|t| - 1], front))
  }

  lemma {:induction false} ConcatIsMerge(s: seq<Payout>, t: seq<Payout>)
    ensures Merge(s, t, s + t)
    decreases |s| + |t|
  {
    if t != [] {
      assert (s + t)[..|s + t| - 1] == s + t[..|t| - 1];
      ConcatIsMerge(s, t[..|t| - 1]);
    } else if s != [] {
      assert s + t == s && s[..|s| - 1] + [] == s[..|s| - 1];
      ConcatIsMerge(s[..|s| - 1], []);
    }
  }

  /** An interleaving moves what both parts move. */
  lemma {:induction false} MergedSums(s: seq<Payout>, t: seq<Payout>, u: seq<Payout>, w: Account)
    requires Merge(s, t, u)
    ensures Out(u, w) == Out(s, w) + Out(t, w) && In(u, w) == In(s, w) + In(t, w)
    decreases |u|
  {
    if u != [] {
      var front, x := u[..|u| - 1], u[|u| - 1];
      if s != [] && s[|s| - 1] == x && Merge(s[..|s| - 1], t, front) {
        MergedSums(s[..|s| - 1], t, front, w);
      } else {
        MergedSums(s, t[..|t| - 1], front, w);
      }
    }
  }

  lemma {:induction false} MergedNonNegative(s: seq<Payout>, t: seq<Payout>, u: seq<Payout>)
    requires Merge(s, t, u) && AllNonNegative(s) && AllNonNegative(t)
    ensures AllNonNegative(u)
    decreases |u|
  {
    if u != [] {
      var front, x := u[..|u| - 1], u[|u| - 1];
      if s != [] && s[|s| - 1] == x && Merge(s[..|s| - 1], t, front) {
        MergedNonNegative(s[..|s| - 1], t, front);
      } else {
        MergedNonNegative(s, t[..|t| - 1], front);
      }
    }
  }

  /** At every moment a prefix of each part has been applied. */
  lemma {:induction false} MergedPrefix(s: seq<Payout>, t: seq<Payout>, u: seq<Payout>, n: nat) returns (i: nat, j: nat)
    requires Merge(s, t, u) && n <= |u|
    ensures i <= |s| && j <= |t| && Merge(s[..i], t[..j], u[..n])
    decreases |u|
  {
    if n == |u| {
      i, j := |s|, |t|;
      assert s[..i] == s && t[..j] == t && u[..n] == u;
    } else {
      var front, x := u[..|u| - 1], u[|u| - 1];
      assert front[..n] == u[..n];
      if s != [] && s[|s| - 1] == x && Merge(s[..|s| - 1], t, front) {
        i, j := MergedPrefix(s[..|s| - 1], t, front, n);
        assert s[..|s| - 1][..i] == s[..i];
      } else {
        i, j := MergedPrefix(s, t[..|t| - 1], front, n);
        assert t[..|t| - 1][..j] == t[..j];
      }
    }
  }

  // ---------- the orders of one payment ----------

  /** u is a possible order of the transfers of this call and all calls below it. */
  ghost predicate Order(g: Graph, rank: map<OrgId, nat>, o: OrgId, payment: real, ok: Chain, path: seq<nat>,
      u: seq<Payout>)
    requires Ranked(g, rank) && o in g
    decreases rank[o], 1, 0
  {
    var level := Level(g, o, payment);
    var done := Delivered(level, ok, path, |level|);
    KidsAreLower(g, rank, o, payment);
    && |done| <= |u| && u[..|done|] == done
    && KidsOrder(g, rank, OrgMembers(level), rank[o], ok, path, |OrgMembers(level)|, u[|done|..])
  }

  /** The calls for the first n of these organisations, side by side. */
  ghost predicate KidsOrder(g: Graph, rank: map<OrgId, nat>, kids: seq<Payout>, r: nat, ok: Chain, path: seq<nat>,
      n: nat, u: seq<Payout>)
    requires Ranked(g, rank) && Lower(g, rank, kids, r) && n <= |kids|
    decreases r, 0, n
  {
    if n == 0 then u == [] else
    exists s, t :: Merge(s, t, u) && KidsOrder(g, rank, kids, r, ok, path, n - 1, s)
      && Order(g, rank, kids[n - 1].to.id, kids[n - 1].amount as real, ok, path + [n - 1], t)
  }

  /** One call after the other is such an order. */
  lemma {:induction false} SequentialIsOrder(g: Graph, rank: map<OrgId, nat>, o: OrgId, payment: real, ok: Chain,
      path: seq<nat>)
    requires Ranked(g, rank) && o in g
    ensures Order(g, rank, o, payment, ok, path, Transfers(g, rank, o, payment, ok, path))
    decreases rank[o], 1, 0
  {
    var level := Level(g, o, payment);
    var kids, done := OrgMembers(level), Delivered(level, ok, path, |level|);
    KidsAreLower(g, rank, o, payment);
    var rest := KidsTransfers(g, rank, kids, rank[o], ok, path, |kids|);
    KidsSequentialIsOrder(g, rank, kids, rank[o], ok, path, |kids|);
    assert (done + rest)[..|done|] == done && (done + rest)[|done|..] == rest;
  }

  lemma KidJoinsOrder(g: Graph, rank: map<OrgId, nat>, kids: seq<Payout>, r: nat, ok: Chain, path: seq<nat>, n: nat,
      s: seq<Payout>, t: seq<Payout>, u: seq<Payout>)
    requires Ranked(g, rank) && Lower(g, rank, kids, r) && 0 < n <= |kids|
    requires Merge(s, t, u) && KidsOrder(g, rank, kids, r, ok, path, n - 1, s)
    requires kids[n - 1].to.OrgUser? && kids[n - 1].to.id in g
    requires Order(g, rank, kids[n - 1].to.id, kids[n - 1].amount as real, ok, path + [n - 1], t)
    ensures KidsOrder(g, rank, kids, r, ok, path, n, u)
  {
  }

  lemma {:induction false} KidsSequentialIsOrder(g: Graph, rank: map<OrgId, nat>, kids: seq<Payout>, r: nat, ok: Chain,
      path: seq<nat>, n: nat)
    requires Ranked(g, rank) && Lower(g, rank, kids, r) && n <= |kids|
    ensures KidsOrder(g, rank, kids, r, ok, path, n, KidsTransfers(g, rank, kids, r, ok, path, n))
    decreases r, 0, n
  {
    if n > 0 {
      var kid, p := kids[n - 1], path + [n - 1];
      KidIsLower(g, rank, kids, r, n - 1);
      KidsSequentialIsOrder(g, rank, kids, r, ok, path, n - 1);
      SequentialIsOrder(g, rank, kid.to.id, kid.amount as real, ok, p);
      var s := KidsTransfers(g, rank, kids, r, ok, path, n - 1);
      var t := Transfers(g, rank, kid.to.id, kid.amount as real, ok, p);
      ConcatIsMerge(s, t);
      KidJoinsOrder(g, rank, kids, r, ok, path, n, s, t, s + t);
    }
  }

  ghost predicate SameSums(s: seq<Payout>, t: seq<Payout>, w: Account)
  {
    Out(s, w) == Out(t, w) && In(s, w) == In(t, w)
  }

  /** In every order every account sends and receives the same in all. */
  lemma {:induction false} OrderSums(g: Graph, rank: map<OrgId, nat>, o: OrgId, payment: real, ok: Chain,
      path: seq<nat>, u: seq<Payout>, w: Account)
    requires Ranked(g, rank) && o in g && Order(g, rank, o, payment, ok, path, u)
    ensures SameSums(u, Transfers(g, rank, o, payment, ok, path), w)
    decreases rank[o], 1, 0
  {
    var level := Level(g, o, payment);
    var kids, done := OrgMembers(level), Delivered(level, ok, path, |level|);
    KidsAreLower(g, rank, o, payment);
    KidsOrderSums(g, rank, kids, rank[o], ok, path, |kids|, u[|done|..], w);
    assert u == done + u[|done|..];
    SumsOfConcat(done, u[|done|..], w);
    SumsOfConcat(done, KidsTransfers(g, rank, kids, rank[o], ok, path, |kids|), w);
  }

  lemma {:induction false} KidsOrderSums(g: Graph, rank: map<OrgId, nat>, kids: seq<Payout>, r: nat, ok: Chain,
      path: seq<nat>, n: nat, u: seq<Payout>, w: Account)
    requires Ranked(g, rank) && Lower(g, rank, kids, r) && n <= |kids|
    requires KidsOrder(g, rank, kids, r, ok, path, n, u)
    ensures SameSums(u, KidsTransfers(g, rank, kids, r, ok, path, n), w)
    decreases r, 0, n
  {
    if n > 0 {
      var kid, p := kids[n - 1], path + [n - 1];
      KidIsLower(g, rank, kids, r, n - 1);
      var s, t :| Merge(s, t, u) && KidsOrder(g, rank, kids, r, ok, path, n - 1, s)
        && Order(g, rank, kid.to.id, kid.amount as real, ok, p, t);
      KidsOrderSums(g, rank, kids, r, ok, path, n - 1, s, w);
      OrderSums(g, rank, kid.to.id, kid.amount as real, ok, p, t, w);
      MergedSums(s, t, u, w);
      SumsOfConcat(KidsTransfers(g, rank, kids, r, ok, path, n - 1),
        Transfers(g, rank, kid.to.id, kid.amount as real, ok, p), w);
    }
  }

  /** So the order does not matter for the balances at the end. */
  lemma OrderKeepsBalances(b: Balances, g: Graph, rank: map<OrgId, nat>, o: OrgId, payment: real, ok: Chain,
      path: seq<nat>, u: seq<Payout>, w: Account)
    requires Ranked(g, rank) && o in g && Order(g, rank, o, payment, ok, path, u)
    ensures Balance(Applied(b, u), w) == Balance(Applied(b, Transfers(g, rank, o, payment, ok, path)), w)
  {
    OrderSums(g, rank, o, payment, ok, path, u, w);
    BalanceAfter(b, u, w);
    BalanceAfter(b, Transfers(g, rank, o, payment, ok, path), w);
  }
}
