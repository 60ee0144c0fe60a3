/** When the matcher pays every debit, and that its own draws are a valid assignment. */
module AirdropCoverage {
  import opened AirdropMatching
  import opened AirdropOptimality

  /** Up to and including each debit, the debits do not exceed the strictly earlier credits. */
  ghost predicate Covered(rows: seq<Tx>)
  {
    forall i :: 0 <= i < |rows| && rows[i].kind == DEBIT ==> CoveredAt(rows, i)
  }

  ghost predicate CoveredAt(rows: seq<Tx>, i: nat)
    requires i < |rows|
  {
    Debits(rows, i + 1) <= Offered(rows, rows[i].date, i)
  }

  lemma {:induction false} DrainedOffers(rows: seq<Tx>, date: int, d: nat, later: int, m: nat)
    requires m <= |rows| && date <= later
    ensures Offered(Drained(rows, date, d), later, m) == Offered(rows, later, m) - Min(d, Offered(rows, date, m))
  {
    if m > 0 {
      DrainedOffers(rows, date, d, later, m - 1);
    }
  }

  /** What is left to offer is what was there minus what the debits so far have got. */
  lemma {:induction false} OffersAfter(rows: seq<Tx>, k: nat, date: int)
    requires k <= |rows| && forall i :: 0 <= i < k ==> rows[i].date <= date
    ensures Offered(Matched(rows[..k]), date, k)
         == Offered(rows, date, k) - Debits(rows, k) + Debits(Matched(rows[..k]), k)
  {
    if k > 0 {
      OffersAfter(rows, k - 1, date);
      assert rows[..k][..k - 1] == rows[..k - 1];
      AbsorbOffers(Matched(rows[..k - 1]), rows[k - 1], date);
    }
  }

  lemma AbsorbOffers(done: seq<Tx>, t: Tx, date: int)
    requires t.date <= date
    ensures Offered(Absorb(done, t), date, |done| + 1) - Debits(Absorb(done, t), |done| + 1)
         == Offered(done, date, |done|) - Debits(done, |done|)
          + (if Eligible(t, date) then t.amount else 0) - (if t.kind == DEBIT then t.amount else 0)
  {
    var k, r := |done|, Absorb(done, t);
    var base := if t.kind == DEBIT then Drained(done, t.date, t.amount) else done;
    SumsOfPrefix(r, base, date, k);
    if t.kind == DEBIT {
      DrainedOffers(done, t.date, t.amount, date, k);
      DrainedSums(done, t.date, t.amount, k);
    }
  }

  /** Paid debits of a longer list are paid debits of its prefixes. */
  lemma {:induction false} DebitsGrow(rows: seq<Tx>, k: nat)
    requires k < |rows|
    ensures Debits(Matched(rows[..k + 1]), k + 1)
         == Debits(Matched(rows[..k]), k)
          + if rows[k].kind == DEBIT then Rest(Matched(rows[..k]), rows[k].date, rows[k].amount) else 0
  {
    var done, t := Matched(rows[..k]), rows[k];
    assert rows[..k + 1][..k] == rows[..k];
    var base := if t.kind == DEBIT then Drained(done, t.date, t.amount) else done;
    SumsOfPrefix(Absorb(done, t), base, 0, k);
    if t.kind == DEBIT {
      DrainedSums(done, t.date, t.amount, k);
    }
  }

  ghost predicate CoveredUpTo(rows: seq<Tx>, k: nat)
    requires k <= |rows|
  {
    forall i :: 0 <= i < k && rows[i].kind == DEBIT ==> CoveredAt(rows, i)
  }

  lemma {:induction false} PaidIffCovered(rows: seq<Tx>, k: nat)
    requires Dated(rows) && k <= |rows|
    ensures Debits(Matched(rows[..k]), k) == 0 <==> CoveredUpTo(rows, k)
  {
    if k > 0 {
      var t := rows[k - 1];
      PaidIffCovered(rows, k - 1);
      DebitsGrow(rows, k - 1);
      if t.kind == DEBIT && CoveredUpTo(rows, k - 1) {
        forall i | 0 <= i < k - 1 ensures rows[i].date <= t.date {
          assert DateOf(rows[i]) <= DateOf(rows[k - 1]);
        }
        OffersAfter(rows, k - 1, t.date);
      }
      assert CoveredUpTo(rows, k) <==> CoveredUpTo(rows, k - 1) && (t.kind == DEBIT ==> CoveredAt(rows, k - 1));
    }
  }

  // ---------- the matcher's own draws ----------

  ghost function Draws(rows: seq<Tx>): Assignment
  {
    (i: nat, j: nat) =>
      if i < |rows| && j < i && rows[i].kind == DEBIT
      then Taken(Matched(rows[..i]), rows[i].date, rows[i].amount, j) else 0
  }

  lemma {:induction false} DrawsBy(rows: seq<Tx>, i: nat, m: nat)
    requires i < |rows| && m <= |rows| && rows[i].kind == DEBIT
    ensures TakenBy(Draws(rows), i, m)
         == Min(rows[i].amount, Offered(Matched(rows[..i]), rows[i].date, if m <= i then m else i))
  {
    if m > 0 {
      DrawsBy(rows, i, m - 1);
    }
  }

  lemma {:induction false} DrawsFrom(rows: seq<Tx>, k: nat, j: nat)
    requires k <= |rows| && j < |rows| && rows[j].kind == CREDIT
    ensures TakenFrom(Draws(rows), k, j)
         == if j < k then rows[j].amount - Matched(rows[..k])[j].amount else 0
  {
    if k > 0 {
      DrawsFrom(rows, k - 1, j);
      assert rows[..k][..k - 1] == rows[..k - 1];
      MatchedShape(rows[..k - 1]);
    }
  }

  /** When every debit is covered, the matcher's draws are a valid assignment, and it leaves
      exactly what that assignment leaves: the optimum is attained. */
  lemma MatcherIsAnAssignment(rows: seq<Tx>)
    requires Dated(rows) && Covered(rows)
    ensures Valid(rows, Draws(rows)) && Left(rows, Draws(rows)) == Matched(rows)
  {
    var n := |rows|;
    forall i | 0 <= i < n && rows[i].kind == DEBIT ensures TakenBy(Draws(rows), i, n) == rows[i].amount {
      DrawsPay(rows, i);
    }
    forall j | 0 <= j < n ensures TakenFrom(Draws(rows), n, j) <= rows[j].amount {
      AllDrawn(rows, j);
    }
    forall i, j | 0 <= i < n && 0 <= j < n && Draws(rows)(i, j) > 0
      ensures rows[i].kind == DEBIT && Eligible(rows[j], rows[i].date)
    {
      DrawsEligible(rows, i, j);
    }
    forall j | 0 <= j < n ensures Left(rows, Draws(rows))[j] == Matched(rows)[j] {
      DrawsLeave(rows, j);
    }
  }

  /** What all debits together draw from row j. */
  function DrawnFrom(rows: seq<Tx>, j: nat): int
    requires j < |rows|
  {
    if rows[j].kind == CREDIT then rows[j].amount - Matched(rows)[j].amount else 0
  }

  lemma DrawsEligible(rows: seq<Tx>, i: nat, j: nat)
    requires i < |rows| && j < |rows| && Draws(rows)(i, j) > 0
    ensures rows[i].kind == DEBIT && Eligible(rows[j], rows[i].date)
  {
    MatchedShape(rows[..i]);
  }

  lemma DrawsPay(rows: seq<Tx>, i: nat)
    requires Dated(rows) && Covered(rows) && i < |rows| && rows[i].kind == DEBIT
    ensures TakenBy(Draws(rows), i, |rows|) == rows[i].amount
  {
    DrawsBy(rows, i, |rows|);
    PaidIffCovered(rows, i);
    PaidIffCovered(rows, i + 1);
    DebitsGrow(rows, i);
  }

  lemma AllDrawn(rows: seq<Tx>, j: nat)
    requires j < |rows|
    ensures TakenFrom(Draws(rows), |rows|, j) == DrawnFrom(rows, j)
  {
    assert rows[..|rows|] == rows;
    if rows[j].kind == CREDIT {
      DrawsFrom(rows, |rows|, j);
    } else {
      DrawsOnlyCredits(rows, |rows|, j);
    }
  }

  lemma DrawsLeave(rows: seq<Tx>, j: nat)
    requires Dated(rows) && Covered(rows) && Valid(rows, Draws(rows)) && j < |rows|
    ensures Left(rows, Draws(rows))[j] == Matched(rows)[j]
  {
    assert rows[..|rows|] == rows;
    MatchedShape(rows);
    AllDrawn(rows, j);
    if rows[j].kind == DEBIT {
      PaidIffCovered(rows, |rows|);
      NoDebitsMeansZero(Matched(rows), |rows|);
    } else if rows[j].kind != CREDIT {
      OthersUnchanged(rows, j);
    }
  }

  lemma {:induction false} DrawsOnlyCredits(rows: seq<Tx>, k: nat, j: nat)
    requires k <= |rows| && j < |rows| && rows[j].kind != CREDIT
    ensures TakenFrom(Draws(rows), k, j) == 0
  {
    if k > 0 {
      DrawsOnlyCredits(rows, k - 1, j);
      if j < k - 1 {
        MatchedShape(rows[..k - 1]);
        assert !Eligible(Matched(rows[..k - 1])[j], rows[k - 1].date);
      }
    }
  }

  /** All debits end at zero exactly when they are covered, and that is exactly when some
      valid assignment exists; the credits left are then the final balance. */
  lemma FullyMatchedIffCovered(rows: seq<Tx>)
    requires Dated(rows)
    ensures Covered(rows) <==> forall i :: 0 <= i < |rows| && rows[i].kind == DEBIT ==> Matched(rows)[i].amount == 0
    ensures Covered(rows) <==> exists x: Assignment :: Valid(rows, x)
    ensures Covered(rows) ==> Credits(Matched(rows), |rows|) == Net(rows, |rows|)
  {
    var n := |rows|;
    assert rows[..n] == rows;
    PaidIffCovered(rows, n);
    MatchedShape(rows);
    if Covered(rows) {
      NoDebitsMeansZero(Matched(rows), n);
      MatcherIsAnAssignment(rows);
      MatchedKeepsNet(rows);
      NetIsCreditsMinusDebits(Matched(rows), n);
    }
    if forall i :: 0 <= i < n && rows[i].kind == DEBIT ==> Matched(rows)[i].amount == 0 {
      ZeroMeansNoDebits(Matched(rows), n);
    }
    if x: Assignment :| Valid(rows, x) {
      MatcherPaysWhatCanBePaid(rows, x);
    }
  }

  lemma {:induction false} ZeroMeansNoDebits(rows: seq<Tx>, m: nat)
    requires m <= |rows| && forall j :: 0 <= j < m && rows[j].kind == DEBIT ==> rows[j].amount == 0
    ensures Debits(rows, m) == 0
  {
    if m > 0 {
      ZeroMeansNoDebits(rows, m - 1);
    }
  }
}
