/** Oldest-first matching is the best possible matching.

    An assignment x says how much debit row i takes from credit row j. The matcher's
    remaining credits are, on every prefix of the rows, at most what any assignment leaves
    there; with days held that do not grow with the date this gives the smallest weighted
    total. */
module AirdropOptimality {
  import opened AirdropMatching

  type Assignment = (nat, nat) -> nat

  /** x(0, j) + ... + x(k - 1, j): what the first k rows take from row j. */
  ghost function TakenFrom(x: Assignment, k: nat, j: nat): nat
  {
    if k == 0 then 0 else TakenFrom(x, k - 1, j) + x(k - 1, j)
  }

  /** x(i, 0) + ... + x(i, m - 1): what row i takes from the first m rows. */
  ghost function TakenBy(x: Assignment, i: nat, m: nat): nat
  {
    if m == 0 then 0 else TakenBy(x, i, m - 1) + x(i, m - 1)
  }

  /** x pays every debit in full out of strictly earlier credits and overdraws none. */
  ghost predicate Valid(rows: seq<Tx>, x: Assignment)
  {
    && (forall i, j :: 0 <= i < |rows| && 0 <= j < |rows| && x(i, j) > 0 ==>
        rows[i].kind == DEBIT && Eligible(rows[j], rows[i].date))
    && (forall i :: 0 <= i < |rows| && rows[i].kind == DEBIT ==> TakenBy(x, i, |rows|) == rows[i].amount)
    && (forall j :: 0 <= j < |rows| ==> TakenFrom(x, |rows|, j) <= rows[j].amount)
  }

  /** The rows an assignment leaves: credits reduced, debits paid. */
  ghost function Left(rows: seq<Tx>, x: Assignment): (r: seq<Tx>)
    requires Valid(rows, x)
    ensures |r| == |rows|
  {
    seq(|rows|, j requires 0 <= j < |rows| =>
      if rows[j].kind == DEBIT then rows[j].(amount := 0)
      else rows[j].(amount := rows[j].amount - TakenFrom(x, |rows|, j)))
  }

  /** Credits among the first m rows once the first k rows have taken their part under x. */
  ghost function CreditsAfter(rows: seq<Tx>, x: Assignment, k: nat, m: nat): int
    requires m <= |rows|
  {
    if m == 0 then 0
    else if rows[m - 1].kind != CREDIT then CreditsAfter(rows, x, k, m - 1)
    else CreditsAfter(rows, x, k, m - 1) + rows[m - 1].amount - TakenFrom(x, k, m - 1)
  }

  // ---------- sums over an assignment ----------

  lemma {:induction false} TakenGrows(x: Assignment, k: nat, l: nat, j: nat)
    requires k <= l
    ensures TakenFrom(x, k, j) <= TakenFrom(x, l, j)
  {
    if k < l {
      TakenGrows(x, k, l - 1, j);
    }
  }

  lemma {:induction false} TakenByGrows(x: Assignment, i: nat, m: nat, n: nat)
    requires m <= n
    ensures TakenBy(x, i, m) <= TakenBy(x, i, n)
  {
    if m < n {
      TakenByGrows(x, i, m, n - 1);
    }
  }

  /** Row k takes from the first m rows what it takes from each of them; only credits give. */
  lemma {:induction false} CreditsAfterStep(rows: seq<Tx>, x: Assignment, k: nat, m: nat)
    requires Valid(rows, x) && k < |rows| && m <= |rows|
    ensures CreditsAfter(rows, x, k + 1, m) == CreditsAfter(rows, x, k, m) - TakenBy(x, k, m)
  {
    if m > 0 {
      CreditsAfterStep(rows, x, k, m - 1);
    }
  }

  /** A credit not older than any of the first k rows has given nothing to them. */
  lemma {:induction false} LateCreditUntouched(rows: seq<Tx>, x: Assignment, k: nat, j: nat, date: int)
    requires Dated(rows) && Valid(rows, x) && k <= |rows| && j < |rows|
    requires forall i :: 0 <= i < k ==> rows[i].date <= date
    requires !Eligible(rows[j], date)
    ensures TakenFrom(x, k, j) == 0
  {
    if k > 0 {
      LateCreditUntouched(rows, x, k - 1, j, date);
      assert !Eligible(rows[j], rows[k - 1].date);
    }
  }

  lemma NotOverdrawn(rows: seq<Tx>, x: Assignment, k: nat, j: nat)
    requires Valid(rows, x) && k <= |rows| && j < |rows|
    ensures TakenFrom(x, k, j) <= rows[j].amount
  {
    TakenGrows(x, k, |rows|, j);
  }

  /** Once the offers of the first m rows run out, the matcher leaves there only credits that
      no assignment could have used yet. */
  lemma {:induction false} LateCreditsRemain(rows: seq<Tx>, done: seq<Tx>, x: Assignment, k: nat, m: nat, date: int)
    requires m <= |done| <= |rows|
    requires forall j :: 0 <= j < |done| ==>
      done[j].kind == rows[j].kind && done[j].date == rows[j].date && done[j].amount <= rows[j].amount
    requires forall j :: 0 <= j < |rows| ==> TakenFrom(x, k, j) <= rows[j].amount
    requires forall j :: 0 <= j < |rows| && !Eligible(rows[j], date) ==> TakenFrom(x, k, j) == 0
    ensures Credits(done, m) - Offered(done, date, m) <= CreditsAfter(rows, x, k, m)
  {
    if m > 0 {
      LateCreditsRemain(rows, done, x, k, m - 1, date);
    }
  }

  lemma {:induction false} NothingTaken(rows: seq<Tx>, x: Assignment, i: nat, m: nat)
    requires Valid(rows, x) && i < |rows| && m <= |rows| && rows[i].kind != DEBIT
    ensures TakenBy(x, i, m) == 0
  {
    if m > 0 {
      NothingTaken(rows, x, i, m - 1);
    }
  }

  lemma LateCredits(rows: seq<Tx>, x: Assignment, k: nat, m: nat)
    requires Dated(rows) && Valid(rows, x) && m <= k < |rows|
    ensures Credits(Matched(rows[..k]), m) - Offered(Matched(rows[..k]), rows[k].date, m)
         <= CreditsAfter(rows, x, k + 1, m)
  {
    var done, date := Matched(rows[..k]), rows[k].date;
    MatchedShape(rows[..k]);
    forall i | 0 <= i < k + 1 ensures rows[i].date <= date {
      assert DateOf(rows[i]) <= DateOf(rows[k]);
    }
    forall j | 0 <= j < |rows| ensures TakenFrom(x, k + 1, j) <= rows[j].amount {
      NotOverdrawn(rows, x, k + 1, j);
    }
    forall j | 0 <= j < |rows| && !Eligible(rows[j], date) ensures TakenFrom(x, k + 1, j) == 0 {
      LateCreditUntouched(rows, x, k + 1, j, date);
    }
    LateCreditsRemain(rows, done, x, k + 1, m, date);
  }

  /** One more row keeps the dominance on the older prefixes. */
  lemma DominanceStep(rows: seq<Tx>, x: Assignment, k: nat, m: nat)
    requires Dated(rows) && Valid(rows, x) && m <= k < |rows|
    requires Credits(Matched(rows[..k]), m) <= CreditsAfter(rows, x, k, m)
    ensures Credits(Absorb(Matched(rows[..k]), rows[k]), m) <= CreditsAfter(rows, x, k + 1, m)
  {
    var done, t := Matched(rows[..k]), rows[k];
    CreditsAfterStep(rows, x, k, m);
    if t.kind == DEBIT {
      var drained := Drained(done, t.date, t.amount);
      SumsOfPrefix(Absorb(done, t), drained, 0, m);
      DrainedSums(done, t.date, t.amount, m);
      TakenByGrows(x, k, m, |rows|);
      LateCredits(rows, x, k, m);
    } else {
      SumsOfPrefix(Absorb(done, t), done, 0, m);
      NothingTaken(rows, x, k, m);
    }
  }

  /** Prefix dominance: after k rows the matcher's credits are at most the assignment's, on
      every prefix. */
  lemma {:induction false} PrefixDominance(rows: seq<Tx>, x: Assignment, k: nat, m: nat)
    requires Dated(rows) && Valid(rows, x) && m <= k <= |rows|
    ensures Credits(Matched(rows[..k]), m) <= CreditsAfter(rows, x, k, m)
    decreases k, m
  {
    if m > 0 {
      assert rows[..k][..k - 1] == rows[..k - 1];
      if m < k {
        PrefixDominance(rows, x, k - 1, m);
        DominanceStep(rows, x, k - 1, m);
      } else {
        PrefixDominance(rows, x, k, m - 1);
        MatchedShape(rows[..k]);
        var t := rows[k - 1];
        if t.kind == CREDIT {
          forall i | 0 <= i < k ensures rows[i].date <= t.date {
            assert DateOf(rows[i]) <= DateOf(rows[k - 1]);
          }
          LateCreditUntouched(rows, x, k, k - 1, t.date);
        }
      }
    }
  }

  // ---------- every debit is paid when it can be ----------

  lemma {:induction false} CreditsAfterAll(rows: seq<Tx>, x: Assignment, m: nat)
    requires Valid(rows, x) && m <= |rows|
    ensures Credits(Left(rows, x), m) == CreditsAfter(rows, x, |rows|, m)
    ensures Debits(Left(rows, x), m) == 0
  {
    if m > 0 {
      CreditsAfterAll(rows, x, m - 1);
    }
  }

  lemma {:induction false} CreditsAfterSteps(rows: seq<Tx>, x: Assignment, k: nat)
    requires Valid(rows, x) && k <= |rows|
    ensures CreditsAfter(rows, x, k, |rows|) == Credits(rows, |rows|) - Debits(rows, k)
  {
    if k == 0 {
      CreditsAfterNone(rows, x, |rows|);
    } else {
      CreditsAfterSteps(rows, x, k - 1);
      CreditsAfterStep(rows, x, k - 1, |rows|);
      if rows[k - 1].kind != DEBIT {
        NothingTaken(rows, x, k - 1, |rows|);
      }
    }
  }

  lemma {:induction false} CreditsAfterNone(rows: seq<Tx>, x: Assignment, m: nat)
    requires m <= |rows|
    ensures CreditsAfter(rows, x, 0, m) == Credits(rows, m)
  {
    if m > 0 {
      CreditsAfterNone(rows, x, m - 1);
    }
  }

  lemma {:induction false} NoDebitsMeansZero(rows: seq<Tx>, m: nat)
    requires m <= |rows| && Debits(rows, m) == 0
    ensures forall j :: 0 <= j < m && rows[j].kind == DEBIT ==> rows[j].amount == 0
  {
    if m > 0 {
      NoDebitsMeansZero(rows, m - 1);
    }
  }

  /** When any assignment pays all debits, the matcher does too, and leaves the same total. */
  lemma MatcherPaysWhatCanBePaid(rows: seq<Tx>, x: Assignment)
    requires Dated(rows) && Valid(rows, x)
    ensures Debits(Matched(rows), |rows|) == 0
    ensures Credits(Matched(rows), |rows|) == Credits(Left(rows, x), |rows|)
  {
    var n := |rows|;
    assert rows[..n] == rows;
    PrefixDominance(rows, x, n, n);
    CreditsAfterAll(rows, x, n);
    CreditsAfterSteps(rows, x, n);
    MatchedKeepsNet(rows);
    NetIsCreditsMinusDebits(rows, n);
    NetIsCreditsMinusDebits(Matched(rows), n);
  }

  // ---------- smallest weighted total ----------

  ghost predicate DaysFallWithDate(rows: seq<Tx>)
  {
    forall i, j :: 0 <= i < j < |rows| ==> rows[i].days >= rows[j].days
  }

  lemma PartialSum(v: int, w: int, gap: int, p: int, q: int, d: int)
    requires v >= w && gap >= 0 && d >= v * gap
    ensures d + (q * w - p * w) >= w * (gap + q - p)
  {
    assert (v - w) * gap >= 0;
    assert w * (gap + q - p) == w * gap + q * w - p * w;
  }

  /** Summation by parts: dominance on every prefix carries over to falling weights. */
  lemma {:induction false} SummationByParts(a: seq<Tx>, b: seq<Tx>, m: nat)
    requires SameButAmounts(a, b) && DaysFallWithDate(a) && 0 < m <= |a|
    requires forall j :: 0 <= j < |a| && a[j].kind != CREDIT ==> a[j].amount == b[j].amount
    requires forall l :: 0 <= l <= |a| ==> Credits(a, l) <= Credits(b, l)
    ensures Weighted(b, m) - Weighted(a, m) >= a[m - 1].days * (Credits(b, m) - Credits(a, m))
  {
    var w, gap := a[m - 1].days, Credits(b, m - 1) - Credits(a, m - 1);
    var p, q := a[m - 1].amount, b[m - 1].amount;
    assert b[m - 1].days == w && b[m - 1].kind == a[m - 1].kind;
    if m == 1 {
      PartialSum(w, w, 0, p, q, 0);
    } else {
      SummationByParts(a, b, m - 1);
      PartialSum(a[m - 2].days, w, gap, p, q, Weighted(b, m - 1) - Weighted(a, m - 1));
    }
  }

  /** No valid assignment of debits to strictly earlier credits has a smaller weighted
      total than the oldest-first matcher. */
  lemma MatcherIsOptimal(rows: seq<Tx>, x: Assignment)
    requires Dated(rows) && DaysFallWithDate(rows) && Valid(rows, x)
    ensures Weighted(Matched(rows), |rows|) <= Weighted(Left(rows, x), |rows|)
  {
    var n := |rows|;
    var a, b := Matched(rows), Left(rows, x);
    if n > 0 {
      MatchedShape(rows);
      MatcherPaysWhatCanBePaid(rows, x);
      NoDebitsMeansZero(a, n);
      assert rows[..n] == rows;
      forall l | 0 <= l <= n ensures Credits(a, l) <= Credits(b, l) {
        PrefixDominance(rows, x, n, l);
        CreditsAfterAll(rows, x, l);
      }
      forall j | 0 <= j < n && a[j].kind != CREDIT ensures a[j].amount == b[j].amount {
        if a[j].kind != DEBIT {
          OthersUnchanged(rows, j);
        }
        NothingTakenFrom(rows, x, n, j);
      }
      SummationByParts(a, b, n);
    }
  }

  lemma {:induction false} OthersUnchanged(rows: seq<Tx>, j: nat)
    requires j < |rows| && rows[j].kind != CREDIT && rows[j].kind != DEBIT
    ensures Matched(rows)[j] == rows[j]
  {
    if j < |rows| - 1 {
      MatchedShape(rows[..|rows| - 1]);
      OthersUnchanged(rows[..|rows| - 1], j);
    }
  }

  lemma {:induction false} NothingTakenFrom(rows: seq<Tx>, x: Assignment, k: nat, j: nat)
    requires Valid(rows, x) && k <= |rows| && j < |rows| && rows[j].kind != CREDIT
    ensures TakenFrom(x, k, j) == 0
  {
    if k > 0 {
      NothingTakenFrom(rows, x, k - 1, j);
    }
  }
}
