/** The oldest-first matcher of the airdrop snapshot, on values.

    A row is one movement of a wallet's tokens. `Matched` says what the matcher leaves of a
    date-sorted list of rows: each DEBIT is taken, oldest credit first, out of the CREDITs
    with a strictly earlier date. */
module AirdropMatching {
  import opened Sorting

  datatype Kind = CREDIT | DEBIT | UNKNOWN | RESULT

  datatype Tx = Tx(kind: Kind, date: int, amount: nat, days: int)

  function Min(a: int, b: int): int { if a <= b then a else b }

  const DateOf: Tx -> int := (t: Tx) => t.date

  ghost predicate Dated(rows: seq<Tx>)
  {
    SortedBy(rows, DateOf)
  }

  // ---------- one debit ----------

  predicate Eligible(t: Tx, date: int)
  {
    t.kind == CREDIT && t.date < date
  }

  /** What the first m rows offer to a debit of the given date. */
  function Offered(rows: seq<Tx>, date: int, m: nat): nat
    requires m <= |rows|
  {
    if m == 0 then 0
    else Offered(rows, date, m - 1) + if Eligible(rows[m - 1], date) then rows[m - 1].amount else 0
  }

  /** What a debit (date, d) takes from row j: what the older rows could not give. */
  function Taken(rows: seq<Tx>, date: int, d: nat, j: nat): (t: nat)
    requires j < |rows|
    ensures t <= rows[j].amount
  {
    if Eligible(rows[j], date) && Offered(rows, date, j) < d
    then Min(rows[j].amount, d - Offered(rows, date, j))
    else 0
  }

  function Drained(rows: seq<Tx>, date: int, d: nat): (r: seq<Tx>)
    ensures |r| == |rows|
  {
    seq(|rows|, j requires 0 <= j < |rows| =>
      rows[j].(amount := rows[j].amount - Taken(rows, date, d, j)))
  }

  /** What stays of the debit when every offer has been used. */
  function Rest(rows: seq<Tx>, date: int, d: nat): nat
  {
    if d <= Offered(rows, date, |rows|) then 0 else d - Offered(rows, date, |rows|)
  }

  // ---------- all rows ----------

  function Absorb(done: seq<Tx>, x: Tx): (r: seq<Tx>)
    ensures |r| == |done| + 1
  {
    if x.kind == DEBIT
    then Drained(done, x.date, x.amount) + [x.(amount := Rest(done, x.date, x.amount))]
    else done + [x]
  }

  /** Rows b processed on top of the already processed rows done. */
  function MatchedOnto(done: seq<Tx>, b: seq<Tx>): (r: seq<Tx>)
    ensures |r| == |done| + |b|
    decreases |b|
  {
    if b == [] then done else Absorb(MatchedOnto(done, b[..|b| - 1]), b[|b| - 1])
  }

  function Matched(rows: seq<Tx>): (r: seq<Tx>)
    ensures |r| == |rows|
  {
    MatchedOnto([], rows)
  }

  // ---------- sums ----------

  /** What a movement adds to the balance. */
  function Signed(t: Tx): int
  {
    match t.kind
    case CREDIT => t.amount as int
    case DEBIT => -(t.amount as int)
    case _ => 0
  }

  /** Credits minus debits among the first k rows. */
  function Net(rows: seq<Tx>, k: nat): int
    requires k <= |rows|
  {
    if k == 0 then 0 else Net(rows, k - 1) + Signed(rows[k - 1])
  }

  function Credits(rows: seq<Tx>, m: nat): nat
    requires m <= |rows|
  {
    if m == 0 then 0
    else Credits(rows, m - 1) + if rows[m - 1].kind == CREDIT then rows[m - 1].amount else 0
  }

  function Debits(rows: seq<Tx>, m: nat): nat
    requires m <= |rows|
  {
    if m == 0 then 0
    else Debits(rows, m - 1) + if rows[m - 1].kind == DEBIT then rows[m - 1].amount else 0
  }

  /** The day-weighted total of all rows: `finalAmount`. */
  function Weighted(rows: seq<Tx>, m: nat): int
    requires m <= |rows|
  {
    if m == 0 then 0 else Weighted(rows, m - 1) + rows[m - 1].amount * rows[m - 1].days
  }

  // ---------- what matching keeps ----------

  ghost predicate SameButAmounts(a: seq<Tx>, b: seq<Tx>)
  {
    |a| == |b| && forall j :: 0 <= j < |a| ==> a[j] == b[j].(amount := a[j].amount)
  }

  lemma {:induction false} NetIsCreditsMinusDebits(rows: seq<Tx>, k: nat)
    requires k <= |rows|
    ensures Net(rows, k) == Credits(rows, k) - Debits(rows, k)
  {
    if k > 0 {
      NetIsCreditsMinusDebits(rows, k - 1);
    }
  }

  /** The sums look only at the first m rows. */
  lemma {:induction false} SumsOfPrefix(a: seq<Tx>, b: seq<Tx>, date: int, m: nat)
    requires m <= |a| && m <= |b| && a[..m] == b[..m]
    ensures Offered(a, date, m) == Offered(b, date, m)
    ensures Credits(a, m) == Credits(b, m) && Debits(a, m) == Debits(b, m)
    ensures Net(a, m) == Net(b, m) && Weighted(a, m) == Weighted(b, m)
  {
    if m > 0 {
      assert a[m - 1] == a[..m][m - 1] == b[..m][m - 1] == b[m - 1];
      assert a[..m - 1] == a[..m][..m - 1] == b[..m][..m - 1] == b[..m - 1];
      SumsOfPrefix(a, b, date, m - 1);
    }
  }

  /** A debit takes from the first m rows all it can: min(d, what they offer). */
  lemma {:induction false} DrainedSums(rows: seq<Tx>, date: int, d: nat, m: nat)
    requires m <= |rows|
    ensures Credits(Drained(rows, date, d), m) == Credits(rows, m) - Min(d, Offered(rows, date, m))
    ensures Debits(Drained(rows, date, d), m) == Debits(rows, m)
  {
    if m > 0 {
      DrainedSums(rows, date, d, m - 1);
    }
  }

  lemma {:induction false} MatchedShape(rows: seq<Tx>)
    ensures SameButAmounts(Matched(rows), rows)
    ensures forall j :: 0 <= j < |rows| ==> Matched(rows)[j].amount <= rows[j].amount
  {
    if rows != [] {
      MatchedShape(rows[..|rows| - 1]);
    }
  }

  /** Matching preserves credits minus debits. */
  lemma {:induction false} MatchedKeepsNet(rows: seq<Tx>)
    ensures Net(Matched(rows), |rows|) == Net(rows, |rows|)
  {
    if rows != [] {
      var n := |rows|;
      var front, x := rows[..n - 1], rows[n - 1];
      var done := Matched(front);
      MatchedKeepsNet(front);
      AbsorbNet(done, x);
      SumsOfPrefix(rows, front, 0, n - 1);
    }
  }

  lemma NetOfSnoc(rows: seq<Tx>, x: Tx)
    ensures Net(rows + [x], |rows| + 1) == Net(rows, |rows|) + Signed(x)
  {
    SumsOfPrefix(rows + [x], rows, 0, |rows|);
  }

  lemma AbsorbNet(done: seq<Tx>, x: Tx)
    ensures Net(Absorb(done, x), |done| + 1) == Net(done, |done|) + Signed(x)
  {
    if x.kind == DEBIT {
      var drained := Drained(done, x.date, x.amount);
      DrainedSums(done, x.date, x.amount, |done|);
      NetIsCreditsMinusDebits(done, |done|);
      NetIsCreditsMinusDebits(drained, |done|);
      NetOfSnoc(drained, x.(amount := Rest(done, x.date, x.amount)));
    } else {
      NetOfSnoc(done, x);
    }
  }

  // ---------- residual rows ----------

  /** The rows with a non-zero amount, in order: what is stored for the next snapshot. */
  function Keep(rows: seq<Tx>): seq<Tx>
  {
    if rows == [] then []
    else if rows[|rows| - 1].amount == 0 then Keep(rows[..|rows| - 1])
    else Keep(rows[..|rows| - 1]) + [rows[|rows| - 1]]
  }

  lemma {:induction false} OffersGrow(rows: seq<Tx>, date: int, m: nat, n: nat)
    requires m <= n <= |rows|
    ensures Offered(rows, date, m) <= Offered(rows, date, n)
  {
    if m < n {
      OffersGrow(rows, date, m, n - 1);
    }
  }

  /** The amount of row k once a debit has visited the first j rows. */
  function AmountAfter(rows: seq<Tx>, date: int, d: nat, j: nat, k: nat): nat
    requires k < |rows|
  {
    if k < j then rows[k].amount - Taken(rows, date, d, k) else rows[k].amount
  }

  /** A debit that the first j rows can pay takes nothing from later ones. */
  lemma PaidInFull(rows: seq<Tx>, date: int, d: nat, j: nat)
    requires j <= |rows| && d <= Offered(rows, date, j)
    ensures Rest(rows, date, d) == 0
    ensures forall k :: 0 <= k < |rows| ==> AmountAfter(rows, date, d, j, k) == AmountAfter(rows, date, d, |rows|, k)
  {
    forall k | j <= k <= |rows| ensures d <= Offered(rows, date, k) {
      OffersGrow(rows, date, j, k);
    }
  }

  /** Rows from i on are not older than the debit, so they offer nothing. */
  lemma {:induction false} OffersStop(rows: seq<Tx>, date: int, i: nat, n: nat)
    requires i <= n <= |rows| && forall k :: i <= k < |rows| ==> rows[k].date >= date
    ensures Offered(rows, date, n) == Offered(rows[..i], date, i)
  {
    if i == n {
      SumsOfPrefix(rows, rows[..i], date, i);
    } else {
      OffersStop(rows, date, i, n - 1);
    }
  }

  /** Draining the whole list and overwriting the debit where it stands. */
  function DebitInPlace(rows: seq<Tx>, i: nat): (r: seq<Tx>)
    requires i < |rows|
    ensures |r| == |rows|
  {
    var date, d := rows[i].date, rows[i].amount;
    Drained(rows, date, d)[i := rows[i].(amount := Rest(rows, date, d))]
  }

  lemma DrainInPlace(rows: seq<Tx>, i: nat)
    requires i < |rows| && rows[i].kind == DEBIT && forall k :: i <= k < |rows| ==> rows[k].date >= rows[i].date
    ensures DebitInPlace(rows, i) == Absorb(rows[..i], rows[i]) + rows[i + 1..]
  {
    var date, d := rows[i].date, rows[i].amount;
    var l, r := DebitInPlace(rows, i), Absorb(rows[..i], rows[i]) + rows[i + 1..];
    OffersStop(rows, date, i, |rows|);
    forall k | 0 <= k < |rows| ensures l[k] == r[k] {
      if k < i {
        SumsOfPrefix(rows, rows[..i], date, k);
      }
    }
  }

  /** The whole list, overwritten in place, after the first i rows have been visited. */
  function InPlace(rows: seq<Tx>, i: nat): (r: seq<Tx>)
    requires i <= |rows|
    ensures |r| == |rows|
  {
    if i == 0 then rows
    else if rows[i - 1].kind == DEBIT then DebitInPlace(InPlace(rows, i - 1), i - 1)
    else InPlace(rows, i - 1)
  }

  /** In a date-sorted list the rows from i on are untouched while the first i are matched:
      overwriting the list in place computes Matched. */
  lemma {:induction false} InPlaceIsMatched(rows: seq<Tx>, i: nat)
    requires i <= |rows| && Dated(rows)
    ensures InPlace(rows, i) == Matched(rows[..i]) + rows[i..]
  {
    if i == 0 {
      assert rows[..0] == [] && rows[0..] == rows;
    } else {
      var now, k := InPlace(rows, i - 1), i - 1;
      InPlaceIsMatched(rows, k);
      assert now[..k] == Matched(rows[..k]) && now[k] == rows[k] && now[i..] == rows[i..];
      assert rows[..i][..k] == rows[..k];
      if rows[k].kind == DEBIT {
        forall l | k <= l < |now| ensures now[l].date >= now[k].date {
          assert now[l] == rows[l] && DateOf(rows[k]) <= DateOf(rows[l]);
        }
        DrainInPlace(now, k);
      }
    }
  }

  /** Every row still has its first amount when its turn comes. */
  lemma NotYetTouched(rows: seq<Tx>, i: nat)
    requires i < |rows| && Dated(rows)
    ensures InPlace(rows, i)[i] == rows[i]
  {
    InPlaceIsMatched(rows, i);
  }

  lemma InPlaceIsMatchedAll(rows: seq<Tx>)
    requires Dated(rows)
    ensures InPlace(rows, |rows|) == Matched(rows)
  {
    InPlaceIsMatched(rows, |rows|);
    assert rows[..|rows|] == rows && Matched(rows) + rows[|rows|..] == Matched(rows);
  }
}
