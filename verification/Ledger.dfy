/** Token balances and the transfers that change them. */
module Ledger {

  datatype Transfer<A> = Transfer(from: A, to: A, amount: int)

  function Sum<A>(ts: seq<Transfer<A>>): int
  {
    if ts == [] then 0 else Sum(ts[..|ts| - 1]) + ts[|ts| - 1].amount
  }

  /** What a sends in these transfers. */
  function Out<A(==)>(ts: seq<Transfer<A>>, a: A): int
  {
    if ts == [] then 0
    else if ts[|ts| - 1].from == a then Out(ts[..|ts| - 1], a) + ts[|ts| - 1].amount
    else Out(ts[..|ts| - 1], a)
  }

  /** What a receives in them. */
  function In<A(==)>(ts: seq<Transfer<A>>, a: A): int
  {
    if ts == [] then 0
    else if ts[|ts| - 1].to == a then In(ts[..|ts| - 1], a) + ts[|ts| - 1].amount
    else In(ts[..|ts| - 1], a)
  }

  lemma {:induction false} SumsOfConcat<A>(s: seq<Transfer<A>>, t: seq<Transfer<A>>, a: A)
    ensures Sum(s + t) == Sum(s) + Sum(t)
    ensures Out(s + t, a) == Out(s, a) + Out(t, a)
    ensures In(s + t, a) == In(s, a) + In(t, a)
  {
    if t == [] {
      assert s + t == s;
    } else {
      assert (s + t)[..|s + t| - 1] == s + t[..|t| - 1];
      SumsOfConcat(s, t[..|t| - 1], a);
    }
  }

  // ---------- balances ----------

  function Balance<A(==)>(b: map<A, int>, a: A): int { if a in b then b[a] else 0 }

  function Moved<A(==)>(b: map<A, int>, t: Transfer<A>): map<A, int>
  {
    var paid := b[t.from := Balance(b, t.from) - t.amount];
    paid[t.to := Balance(paid, t.to) + t.amount]
  }

  function Applied<A(==)>(b: map<A, int>, ts: seq<Transfer<A>>): map<A, int>
  {
    if ts == [] then b else Moved(Applied(b, ts[..|ts| - 1]), ts[|ts| - 1])
  }

  lemma {:induction false} AppliedInTurn<A>(b: map<A, int>, s: seq<Transfer<A>>, t: seq<Transfer<A>>)
    ensures Applied(b, s + t) == Applied(Applied(b, s), t)
  {
    if t == [] {
      assert s + t == s;
    } else {
      assert (s + t)[..|s + t| - 1] == s + t[..|t| - 1];
      AppliedInTurn(b, s, t[..|t| - 1]);
    }
  }

  /** A wallet changes by what it receives less what it sends. */
  lemma {:induction false} BalanceAfter<A>(b: map<A, int>, ts: seq<Transfer<A>>, a: A)
    ensures Balance(Applied(b, ts), a) == Balance(b, a) + In(ts, a) - Out(ts, a)
  {
    if ts != [] {
      BalanceAfter(b, ts[..|ts| - 1], a);
    }
  }

  // ---------- supply ----------

  /** The balances of a list of wallets together. */
  function Supply<A(==)>(b: map<A, int>, wallets: seq<A>): int
  {
    if wallets == [] then 0 else Balance(b, wallets[0]) + Supply(b, wallets[1..])
  }

  ghost predicate Unique<A>(wallets: seq<A>)
  {
    forall i, j :: 0 <= i < j < |wallets| ==> wallets[i] != wallets[j]
  }

  lemma {:induction false} SupplyAfterUpdate<A>(b: map<A, int>, wallets: seq<A>, a: A, v: int)
    requires Unique(wallets)
    ensures Supply(b[a := v], wallets) == Supply(b, wallets) + if a in wallets then v - Balance(b, a) else 0
  {
    if wallets != [] {
      SupplyAfterUpdate(b, wallets[1..], a, v);
      assert wallets[0] !in wallets[1..];
    }
  }

  /** Transfers between the listed wallets leave their supply unchanged. */
  lemma {:induction false} SupplyIsConserved<A>(b: map<A, int>, ts: seq<Transfer<A>>, wallets: seq<A>)
    requires Unique(wallets)
    requires forall k :: 0 <= k < |ts| ==> ts[k].from in wallets && ts[k].to in wallets
    ensures Supply(Applied(b, ts), wallets) == Supply(b, wallets)
  {
    if ts != [] {
      var before, t := Applied(b, ts[..|ts| - 1]), ts[|ts| - 1];
      SupplyIsConserved(b, ts[..|ts| - 1], wallets);
      var paid := before[t.from := Balance(before, t.from) - t.amount];
      SupplyAfterUpdate(before, wallets, t.from, Balance(before, t.from) - t.amount);
      SupplyAfterUpdate(paid, wallets, t.to, Balance(paid, t.to) + t.amount);
    }
  }
}
