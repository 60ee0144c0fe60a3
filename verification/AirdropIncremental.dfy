/** Snapshots compose: matching the stored residuals together with a strictly later window
    gives what one matching of the whole history gives. */
module AirdropIncremental {
  import opened Sorting
  import opened AirdropMatching

  /** The rows `finalCalculations` stores for a list of rows, its RESULT row apart. */
  function Residual(rows: seq<Tx>): seq<Tx>
  {
    Keep(Matched(StableSort(rows, DateOf)))
  }

  /** Stored rows come back with k more days held. */
  function Aged(rows: seq<Tx>, k: int): (r: seq<Tx>)
    ensures |r| == |rows|
  {
    seq(|rows|, i requires 0 <= i < |rows| => rows[i].(days := rows[i].days + k))
  }

  // ---------- rows with amount zero do not matter ----------

  lemma KeepSnoc(front: seq<Tx>, x: Tx)
    ensures Keep(front + [x]) == if x.amount == 0 then Keep(front) else Keep(front) + [x]
  {}

  /** What a debit leaves of row x when the rows before it offer o. */
  function Reduced(x: Tx, date: int, d: nat, o: nat): Tx
  {
    if Eligible(x, date) && o < d then x.(amount := x.amount - Min(x.amount, d - o)) else x
  }

  lemma DrainedSnoc(front: seq<Tx>, x: Tx, date: int, d: nat)
    ensures Drained(front + [x], date, d)
         == Drained(front, date, d) + [Reduced(x, date, d, Offered(front, date, |front|))]
    ensures Offered(front + [x], date, |front| + 1)
         == Offered(front, date, |front|) + if Eligible(x, date) then x.amount else 0
  {
    SumsOfPrefix(front + [x], front, date, |front|);
    DrainedLast(front, x, date, d);
    var l, r := Drained(front + [x], date, d), Drained(front, date, d);
    forall j | 0 <= j < |r| ensures l[j] == r[j] {
      DrainedFront(front, x, date, d, j);
    }
    Snoc(l, r);
  }

  lemma Snoc<T>(l: seq<T>, r: seq<T>)
    requires |l| == |r| + 1 && forall j :: 0 <= j < |r| ==> l[j] == r[j]
    ensures l == r + [l[|r|]]
  {}

  lemma DrainedFront(front: seq<Tx>, x: Tx, date: int, d: nat, j: nat)
    requires j < |front|
    ensures Drained(front + [x], date, d)[j] == Drained(front, date, d)[j]
  {
    SumsOfPrefix(front + [x], front, date, j);
  }

  lemma DrainedLast(front: seq<Tx>, x: Tx, date: int, d: nat)
    ensures Drained(front + [x], date, d)[|front|] == Reduced(x, date, d, Offered(front, date, |front|))
  {
    SumsOfPrefix(front + [x], front, date, |front|);
  }

  lemma {:induction false} ZerosDoNotMatter(done: seq<Tx>, date: int, d: nat)
    ensures Keep(Drained(done, date, d)) == Keep(Drained(Keep(done), date, d))
    ensures Offered(done, date, |done|) == Offered(Keep(done), date, |Keep(done)|)
  {
    if done != [] {
      var front, x := done[..|done| - 1], done[|done| - 1];
      assert done == front + [x];
      ZerosDoNotMatter(front, date, d);
      OneMoreRow(front, x, date, d);
    }
  }

  lemma OneMoreRow(front: seq<Tx>, x: Tx, date: int, d: nat)
    requires Keep(Drained(front, date, d)) == Keep(Drained(Keep(front), date, d))
    requires Offered(front, date, |front|) == Offered(Keep(front), date, |Keep(front)|)
    ensures Keep(Drained(front + [x], date, d)) == Keep(Drained(Keep(front + [x]), date, d))
    ensures Offered(front + [x], date, |front| + 1) == Offered(Keep(front + [x]), date, |Keep(front + [x])|)
  {
    KeepSnoc(front, x);
    DrainedSnoc(front, x, date, d);
    var y := Reduced(x, date, d, Offered(front, date, |front|));
    KeepSnoc(Drained(front, date, d), y);
    if x.amount != 0 {
      DrainedSnoc(Keep(front), x, date, d);
      KeepSnoc(Drained(Keep(front), date, d), y);
    }
  }

  lemma AbsorbKept(done: seq<Tx>, x: Tx)
    ensures Keep(Absorb(Keep(done), x)) == Keep(Absorb(done, x))
  {
    if x.kind == DEBIT {
      ZerosDoNotMatter(done, x.date, x.amount);
      KeepSnoc(Drained(done, x.date, x.amount), Absorb(done, x)[|done|]);
      KeepSnoc(Drained(Keep(done), x.date, x.amount), Absorb(done, x)[|done|]);
    } else {
      KeepSnoc(done, x);
      KeepSnoc(Keep(done), x);
      KeepTwice(done);
    }
  }

  lemma {:induction false} KeepTwice(rows: seq<Tx>)
    ensures Keep(Keep(rows)) == Keep(rows)
  {
    if rows != [] {
      KeepTwice(rows[..|rows| - 1]);
      KeepSnoc(Keep(rows[..|rows| - 1]), rows[|rows| - 1]);
    }
  }

  /** Only the non-zero rows of what is already matched decide what later rows leave. */
  lemma {:induction false} MatchedOntoKept(done: seq<Tx>, b: seq<Tx>)
    ensures Keep(MatchedOnto(Keep(done), b)) == Keep(MatchedOnto(done, b))
  {
    if b == [] {
      KeepTwice(done);
    } else {
      var front, x := b[..|b| - 1], b[|b| - 1];
      MatchedOntoKept(done, front);
      AbsorbKept(MatchedOnto(done, front), x);
      AbsorbKept(MatchedOnto(Keep(done), front), x);
    }
  }

  lemma {:induction false} MatchedOfConcat(done: seq<Tx>, a: seq<Tx>, b: seq<Tx>)
    ensures MatchedOnto(done, a + b) == MatchedOnto(MatchedOnto(done, a), b)
  {
    if b == [] {
      assert a + b == a;
    } else {
      assert (a + b)[..|a + b| - 1] == a + b[..|b| - 1];
      MatchedOfConcat(done, a, b[..|b| - 1]);
    }
  }

  // ---------- residuals are settled ----------

  /** Nothing is left that any of the debits could still take. */
  ghost predicate Settled(rows: seq<Tx>)
  {
    forall i, j :: 0 <= j < i < |rows| && rows[i].kind == DEBIT && rows[i].amount > 0 && Eligible(rows[j], rows[i].date)
      ==> rows[j].amount == 0
  }

  lemma {:induction false} NothingOffered(rows: seq<Tx>, date: int, m: nat)
    requires m <= |rows|
    ensures Offered(rows, date, m) == 0 <==> forall j :: 0 <= j < m && Eligible(rows[j], date) ==> rows[j].amount == 0
  {
    if m > 0 {
      NothingOffered(rows, date, m - 1);
    }
  }

  lemma {:induction false} MatchedIsSettled(rows: seq<Tx>)
    ensures Settled(Matched(rows))
  {
    if rows != [] {
      var front, x := rows[..|rows| - 1], rows[|rows| - 1];
      MatchedIsSettled(front);
      AbsorbSettles(Matched(front), x);
    }
  }

  lemma AbsorbSettles(done: seq<Tx>, x: Tx)
    requires Settled(done)
    ensures Settled(Absorb(done, x))
  {
    if x.kind == DEBIT && Rest(done, x.date, x.amount) > 0 {
      var drained := Drained(done, x.date, x.amount);
      DrainedOut(done, x.date, x.amount, |done|);
      NothingOffered(drained, x.date, |done|);
    }
  }

  /** A debit that stays unpaid has emptied every offer. */
  lemma {:induction false} DrainedOut(rows: seq<Tx>, date: int, d: nat, m: nat)
    requires m <= |rows| && d >= Offered(rows, date, m)
    ensures Offered(Drained(rows, date, d), date, m) == 0
  {
    if m > 0 {
      DrainedOut(rows, date, d, m - 1);
    }
  }

  lemma {:induction false} SettledStays(rows: seq<Tx>)
    requires Settled(rows)
    ensures Matched(rows) == rows
  {
    if rows != [] {
      var front, x := rows[..|rows| - 1], rows[|rows| - 1];
      SettledStays(front);
      if x.kind == DEBIT {
        NothingToTake(front, x);
      }
    }
  }

  lemma NothingToTake(done: seq<Tx>, x: Tx)
    requires x.kind == DEBIT
    requires x.amount > 0 ==> forall j :: 0 <= j < |done| && Eligible(done[j], x.date) ==> done[j].amount == 0
    ensures Absorb(done, x) == done + [x]
  {
    NothingOffered(done, x.date, |done|);
    forall j | 0 <= j < |done| ensures Taken(done, x.date, x.amount, j) == 0 {}
  }

  lemma {:induction false} KeepMember(rows: seq<Tx>, j: nat) returns (i: nat)
    requires j < |Keep(rows)|
    ensures i < |rows| && rows[i] == Keep(rows)[j]
  {
    if j < |Keep(rows[..|rows| - 1])| {
      i := KeepMember(rows[..|rows| - 1], j);
    } else {
      i := |rows| - 1;
    }
  }

  lemma {:induction false} KeepSettled(rows: seq<Tx>)
    requires Settled(rows)
    ensures Settled(Keep(rows))
  {
    if rows != [] {
      var front, x := rows[..|rows| - 1], rows[|rows| - 1];
      KeepSettled(front);
      if x.amount != 0 {
        forall j | 0 <= j < |Keep(front)| && x.kind == DEBIT && Eligible(Keep(front)[j], x.date)
          ensures Keep(front)[j].amount == 0
        {
          var i := KeepMember(front, j);
          assert rows[i] == Keep(front)[j];
        }
      }
    }
  }

  // ---------- ageing ----------

  lemma {:induction false} AgedMatched(rows: seq<Tx>, k: int)
    ensures Matched(Aged(rows, k)) == Aged(Matched(rows), k)
  {
    if rows != [] {
      var front := rows[..|rows| - 1];
      assert Aged(rows, k)[..|rows| - 1] == Aged(front, k);
      AgedMatched(front, k);
      AgedAbsorb(Matched(front), rows[|rows| - 1], k);
    }
  }

  lemma AgedAbsorb(done: seq<Tx>, x: Tx, k: int)
    ensures Absorb(Aged(done, k), x.(days := x.days + k)) == Aged(Absorb(done, x), k)
  {
    forall m | 0 <= m <= |done| ensures Offered(Aged(done, k), x.date, m) == Offered(done, x.date, m) {
      AgedOffers(done, x.date, m, k);
    }
  }

  lemma {:induction false} AgedOffers(rows: seq<Tx>, date: int, m: nat, k: int)
    requires m <= |rows|
    ensures Offered(Aged(rows, k), date, m) == Offered(rows, date, m)
  {
    if m > 0 {
      AgedOffers(rows, date, m - 1, k);
    }
  }

  lemma {:induction false} AgedKeep(rows: seq<Tx>, k: int)
    ensures Keep(Aged(rows, k)) == Aged(Keep(rows), k)
  {
    if rows != [] {
      assert Aged(rows, k)[..|rows| - 1] == Aged(rows[..|rows| - 1], k);
      AgedKeep(rows[..|rows| - 1], k);
    }
  }

  lemma {:induction false} AgedSort(rows: seq<Tx>, k: int)
    ensures StableSort(Aged(rows, k), DateOf) == Aged(StableSort(rows, DateOf), k)
  {
    if rows != [] {
      assert Aged(rows, k)[..|rows| - 1] == Aged(rows[..|rows| - 1], k);
      AgedSort(rows[..|rows| - 1], k);
      AgedInsert(StableSort(rows[..|rows| - 1], DateOf), rows[|rows| - 1], k);
    }
  }

  lemma {:induction false} AgedInsert(s: seq<Tx>, x: Tx, k: int)
    ensures Insert(Aged(s, k), x.(days := x.days + k), DateOf) == Aged(Insert(s, x, DateOf), k)
  {
    if s != [] {
      assert Aged(s, k)[..|s| - 1] == Aged(s[..|s| - 1], k);
      AgedInsert(s[..|s| - 1], x, k);
    }
  }

  // ---------- totals see only non-zero rows ----------

  lemma {:induction false} KeepTotals(rows: seq<Tx>)
    ensures Net(Keep(rows), |Keep(rows)|) == Net(rows, |rows|)
    ensures Weighted(Keep(rows), |Keep(rows)|) == Weighted(rows, |rows|)
  {
    if rows != [] {
      var front, x := rows[..|rows| - 1], rows[|rows| - 1];
      KeepTotals(front);
      SumsOfPrefix(rows, front, 0, |front|);
      SumsOfPrefix(Keep(front) + [x], Keep(front), 0, |Keep(front)|);
    }
  }

  lemma {:induction false} NetOfConcat(a: seq<Tx>, b: seq<Tx>)
    ensures Net(a + b, |a + b|) == Net(a, |a|) + Net(b, |b|)
  {
    if b == [] {
      assert a + b == a;
    } else {
      var front := b[..|b| - 1];
      assert (a + b)[..|a + b| - 1] == a + front;
      NetOfConcat(a, front);
      SumsOfPrefix(a + b, a + front, 0, |a + front|);
      SumsOfPrefix(b, front, 0, |front|);
    }
  }

  // ---------- the theorems ----------

  ghost predicate StrictlyLater(a: seq<Tx>, b: seq<Tx>)
  {
    forall i, j :: 0 <= i < |a| && 0 <= j < |b| ==> a[i].date < b[j].date
  }

  /** What is stored is sorted, and matching it again changes nothing. */
  lemma ResidualIsStable(rows: seq<Tx>, k: int)
    ensures Dated(Residual(rows))
    ensures Residual(Aged(Residual(rows), k)) == Aged(Residual(rows), k)
  {
    var sorted := StableSort(rows, DateOf);
    var r := Residual(rows);
    StableSortIsStable(rows, DateOf);
    MatchedShape(sorted);
    assert Dated(Matched(sorted)) by {
      forall i, j | 0 <= i < j < |sorted| ensures DateOf(Matched(sorted)[i]) <= DateOf(Matched(sorted)[j]) {
        assert DateOf(sorted[i]) <= DateOf(sorted[j]);
      }
    }
    KeepDated(Matched(sorted));
    MatchedIsSettled(sorted);
    KeepSettled(Matched(sorted));
    SettledStays(r);
    KeepTwice(Matched(sorted));
    SortOfSorted(r, DateOf);
    AgedSort(r, k);
    AgedMatched(r, k);
    AgedKeep(r, k);
  }

  lemma {:induction false} KeepDated(rows: seq<Tx>)
    requires Dated(rows)
    ensures Dated(Keep(rows))
  {
    if rows != [] {
      var front := rows[..|rows| - 1];
      KeepDated(front);
      forall j | 0 <= j < |Keep(front)| ensures DateOf(Keep(front)[j]) <= DateOf(rows[|rows| - 1]) {
        var i := KeepMember(front, j);
        assert DateOf(rows[i]) <= DateOf(rows[|rows| - 1]);
      }
    }
  }

  lemma ResidualIsLaterToo(w1: seq<Tx>, w2: seq<Tx>)
    requires StrictlyLater(w1, w2)
    ensures StrictlyLater(Residual(w1), w2)
  {
    var sorted := StableSort(w1, DateOf);
    StableSortIsStable(w1, DateOf);
    MatchedShape(sorted);
    forall i, j | 0 <= i < |Residual(w1)| && 0 <= j < |w2| ensures Residual(w1)[i].date < w2[j].date {
      var l := KeepMember(Matched(sorted), i);
      assert sorted[l] in multiset(sorted);
      var m :| 0 <= m < |w1| && w1[m] == sorted[l];
      assert w1[m].date < w2[j].date;
    }
  }

  /** One snapshot of the older rows, then one of its residuals with the strictly later rows,
      leaves the same rows, the same balance and the same weighted total as a single
      snapshot of everything. */
  lemma IncrementalIsBatch(w1: seq<Tx>, w2: seq<Tx>, k: int)
    requires StrictlyLater(w1, w2)
    ensures SameOutcome(Aged(Residual(w1), k) + w2, Aged(w1, k) + w2)
  {
    SortedParts(w1, w2, k);
    SplitSnapshot(StableSort(w1, DateOf), StableSort(w2, DateOf), k);
  }

  /** Matching either list stores the same rows, checks the same balance and gives the same
      weighted total. */
  ghost predicate SameOutcome(a: seq<Tx>, b: seq<Tx>)
  {
    && Residual(a) == Residual(b)
    && Net(StableSort(a, DateOf), |a|) == Net(StableSort(b, DateOf), |b|)
    && Weighted(Matched(StableSort(a, DateOf)), |a|) == Weighted(Matched(StableSort(b, DateOf)), |b|)
  }

  lemma SortedParts(w1: seq<Tx>, w2: seq<Tx>, k: int)
    requires StrictlyLater(w1, w2)
    ensures StableSort(Aged(Residual(w1), k) + w2, DateOf) == Aged(Residual(w1), k) + StableSort(w2, DateOf)
    ensures StableSort(Aged(w1, k) + w2, DateOf) == Aged(StableSort(w1, DateOf), k) + StableSort(w2, DateOf)
  {
    SortedInParts(w1, w2, k);
    ResidualIsLaterToo(w1, w2);
    SortedInParts(Residual(w1), w2, k);
    ResidualIsStable(w1, k);
    SortOfSorted(Residual(w1), DateOf);
  }

  lemma SortedInParts(w1: seq<Tx>, w2: seq<Tx>, k: int)
    requires StrictlyLater(w1, w2)
    ensures StableSort(Aged(w1, k) + w2, DateOf) == Aged(StableSort(w1, DateOf), k) + StableSort(w2, DateOf)
  {
    AgedSort(w1, k);
    SortOfLaterBatch(Aged(w1, k), w2, DateOf);
  }

  lemma SplitSnapshot(s1: seq<Tx>, s2: seq<Tx>, k: int)
    ensures var r, a := Aged(Keep(Matched(s1)), k), Aged(s1, k);
      && Keep(Matched(r + s2)) == Keep(Matched(a + s2))
      && Net(r + s2, |r + s2|) == Net(a + s2, |a + s2|)
      && Weighted(Matched(r + s2), |r + s2|) == Weighted(Matched(a + s2), |a + s2|)
  {
    var r, a := Aged(Keep(Matched(s1)), k), Aged(s1, k);
    AgedMatched(s1, k);
    AgedKeep(Matched(s1), k);
    assert r == Keep(Matched(a));
    MatchedIsSettled(a);
    KeepSettled(Matched(a));
    SettledStays(r);
    MatchedOfConcat([], r, s2);
    MatchedOfConcat([], a, s2);
    MatchedOntoKept(Matched(a), s2);
    KeepTotals(Matched(r + s2));
    KeepTotals(Matched(a + s2));
    KeepTotals(Matched(a));
    MatchedKeepsNet(a);
    NetOfConcat(r, s2);
    NetOfConcat(a, s2);
  }
}
