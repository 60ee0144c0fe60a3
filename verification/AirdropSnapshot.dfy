/** One wallet's part of `calculate`: on-chain balance pairs become CREDIT, DEBIT and UNKNOWN
    rows, are added to the stored residuals, and are matched. */
module AirdropSnapshot {
  import opened Options
  import opened Sorting
  import opened AirdropMatching
  import opened AirdropOptimality
  import opened AirdropIncremental
  import opened AirdropService

  /** The hold period of one snapshot, in epoch seconds. */
  datatype Period = Period(start: int, end: int)

  /** The period written in the code; a later round is an edit of these two numbers. */
  const HOLD_PERIOD := Period(1724025600, 1724630399)

  /** A parsed transaction: the wallet's token balance before and after, when listed. */
  datatype ChainTxn = ChainTxn(blockTime: int, failed: bool, pre: Option<nat>, post: Option<nat>)

  function Balance(b: Option<nat>): nat { if b.Some? then b.value else 0 }

  function DaysDifference(startDate: int, transactionDate: int): int
  {
    (transactionDate * 1000 - startDate * 1000) / (1000 * 60 * 60 * 24)
  }

  function DaysIn(p: Period): int { DaysDifference(p.start, p.end) }

  predicate Pushed(t: ChainTxn) { !t.failed && t.post.Some? }

  function Classified(t: ChainTxn, p: Period): Tx
    requires Pushed(t)
  {
    var days := DaysDifference(t.blockTime, p.end);
    var post := t.post.value;
    if t.pre.None? then Tx(CREDIT, t.blockTime, post, days)
    else if post > t.pre.value then Tx(CREDIT, t.blockTime, post - t.pre.value, days)
    else if post < t.pre.value then Tx(DEBIT, t.blockTime, t.pre.value - post, days)
    else Tx(UNKNOWN, t.blockTime, 0, days)
  }

  function Parsed(txns: seq<ChainTxn>, p: Period): seq<Tx>
  {
    if txns == [] then []
    else if Pushed(txns[|txns| - 1]) then Parsed(txns[..|txns| - 1], p) + [Classified(txns[|txns| - 1], p)]
    else Parsed(txns[..|txns| - 1], p)
  }

  // ---------- what a row says ----------

  /** A row's amount is how far the balance moved, its kind the direction; a transaction that
      leaves the balance as it was is UNKNOWN. Its days are the full days since then. */
  lemma RowIsTheMovement(t: ChainTxn, p: Period)
    requires !t.failed && t.post.Some?
    ensures |Parsed([t], p)| == 1
    ensures var x, pre, post := Parsed([t], p)[0], Balance(t.pre), Balance(t.post);
      && x.date == t.blockTime && (x.amount == post - pre || x.amount == pre - post)
      && (x.kind == CREDIT <==> t.pre.None? || post > pre)
      && (x.kind == DEBIT <==> post < pre)
      && (x.kind == UNKNOWN <==> t.pre == t.post)
      && x.days * SECONDS_PER_DAY <= p.end - t.blockTime < (x.days + 1) * SECONDS_PER_DAY
  {
    assert [t][..0] == [] && Parsed([t], p) == [Classified(t, p)];
    FullDays(t.blockTime, p.end);
  }

  const SECONDS_PER_DAY := 86_400

  /** Only full days count. */
  lemma FullDays(start: int, end: int)
    ensures var days := DaysDifference(start, end);
      days * SECONDS_PER_DAY <= end - start < (days + 1) * SECONDS_PER_DAY
  {}

  lemma {:induction false} ParsedOfConcat(a: seq<ChainTxn>, b: seq<ChainTxn>, p: Period)
    ensures Parsed(a + b, p) == Parsed(a, p) + Parsed(b, p)
  {
    if b == [] {
      assert a + b == a;
    } else {
      assert (a + b)[..|a + b| - 1] == a + b[..|b| - 1];
      ParsedOfConcat(a, b[..|b| - 1], p);
    }
  }

  /** A row of amount zero that is no debit has no influence on the rows that are kept. */
  lemma ZeroRowIsIgnored(s: seq<Tx>, x: Tx, t: seq<Tx>)
    requires x.amount == 0 && x.kind != DEBIT
    ensures Keep(Matched(s + [x] + t)) == Keep(Matched(s + t)) && Signed(x) == 0
  {
    MatchedOfConcat([], s + [x], t);
    MatchedOfConcat([], s, t);
    assert (s + [x])[..|s|] == s;
    assert Matched(s + [x]) == Matched(s) + [x];
    KeepSnoc(Matched(s), x);
    MatchedOntoKept(Matched(s) + [x], t);
    MatchedOntoKept(Matched(s), t);
  }

  /** A transaction that failed, that has no post balance, or that names the account and moves
      nothing, anywhere in the history, changes neither the rows that are stored nor the balance
      nor the weighted total. */
  lemma IdleTransactionIsIgnored(stored: seq<Tx>, a: seq<ChainTxn>, t: ChainTxn, b: seq<ChainTxn>, p: Period)
    requires t.failed || t.post.None? || t.post == t.pre
    ensures SameOutcome(SnapshotRows(stored, a + [t] + b, p), SnapshotRows(stored, a + b, p))
  {
    var aged, x := Aged(stored, DaysIn(p)) + Parsed(a, p), Parsed([t], p);
    assert [t][..0] == [] && Parsed([t][..0], p) == [];
    ParsedOfConcat(a + [t], b, p);
    ParsedOfConcat(a, [t], p);
    ParsedOfConcat(a, b, p);
    assert SnapshotRows(stored, a + [t] + b, p) == aged + x + Parsed(b, p);
    assert SnapshotRows(stored, a + b, p) == aged + Parsed(b, p);
    if !t.failed && t.post.Some? {
      RowIsTheMovement(t, p);
      assert x == [x[0]];
      ZeroRowSorted(aged, x[0], Parsed(b, p));
    } else {
      assert x == [] && aged + [] == aged;
    }
  }

  lemma ZeroRowSorted(a: seq<Tx>, x: Tx, b: seq<Tx>)
    requires x.amount == 0 && x.kind != DEBIT
    ensures SameOutcome(a + [x] + b, a + b)
  {
    var s, t := SortWithOneMore(a, x, b, DateOf);
    ZeroRowIsIgnored(s, x, t);
    KeepTotals(Matched(s + [x] + t));
    KeepTotals(Matched(s + t));
    NetOfConcat(s + [x], t);
    NetOfConcat(s, t);
    NetOfSnoc(s, x);
  }

  // ---------- the round trip ----------

  /** A newest-first history without gaps: each transaction starts where the next older one
      ended, the oldest at start; a failed transaction moves nothing. */
  ghost predicate Chained(txns: seq<ChainTxn>, start: nat)
  {
    && (forall k :: 0 <= k < |txns| && txns[k].failed ==> Balance(txns[k].pre) == Balance(txns[k].post))
    && (forall k :: 0 <= k < |txns| - 1 ==> Balance(txns[k].pre) == Balance(txns[k + 1].post))
    && (txns != [] ==> Balance(txns[|txns| - 1].pre) == start)
  }

  /** Balances that a transaction took to an unlisted (closed) account. */
  function ClosedOut(txns: seq<ChainTxn>): nat
  {
    if txns == [] then 0
    else if !txns[|txns| - 1].failed && txns[|txns| - 1].post.None?
    then ClosedOut(txns[..|txns| - 1]) + Balance(txns[|txns| - 1].pre)
    else ClosedOut(txns[..|txns| - 1])
  }

  ghost predicate NothingClosed(txns: seq<ChainTxn>)
  {
    forall k :: 0 <= k < |txns| && !txns[k].failed && txns[k].post.None? ==> Balance(txns[k].pre) == 0
  }

  /** Re-accumulating the classified rows telescopes: it gives the newest balance, plus what
      left through closed accounts. */
  lemma {:induction false} ParsedNet(txns: seq<ChainTxn>, start: nat, p: Period)
    requires Chained(txns, start) && txns != []
    ensures Net(Parsed(txns, p), |Parsed(txns, p)|) == Balance(txns[0].post) - start + ClosedOut(txns)
  {
    var front, t := txns[..|txns| - 1], txns[|txns| - 1];
    if front == [] {
      assert Parsed(front, p) == [] && ClosedOut(front) == 0;
      assert Pushed(t) ==> Net(Parsed(txns, p), 1) == Net(Parsed(txns, p), 0) + Signed(Classified(t, p));
    } else {
      assert Balance(front[|front| - 1].pre) == Balance(txns[|front|].post);
      ParsedNet(front, Balance(t.post), p);
      if Pushed(t) {
        SumsOfPrefix(Parsed(txns, p), Parsed(front, p), 0, |Parsed(front, p)|);
      }
    }
  }

  lemma {:induction false} NetOfInsert(s: seq<Tx>, x: Tx)
    ensures Net(Insert(s, x, DateOf), |s| + 1) == Net(s, |s|) + Signed(x)
  {
    if s == [] {
      assert Net([x], 1) == Net([x], 0) + Signed(x);
    } else if DateOf(s[|s| - 1]) <= DateOf(x) {
      SumsOfPrefix(s + [x], s, 0, |s|);
    } else {
      var front := s[..|s| - 1];
      NetOfInsert(front, x);
      SumsOfPrefix(Insert(s, x, DateOf), Insert(front, x, DateOf), 0, |s|);
      SumsOfPrefix(s, front, 0, |front|);
    }
  }

  /** The balance does not depend on how ties are ordered. */
  lemma {:induction false} NetOfSorted(rows: seq<Tx>)
    ensures Net(StableSort(rows, DateOf), |rows|) == Net(rows, |rows|)
  {
    if rows != [] {
      var front := rows[..|rows| - 1];
      NetOfSorted(front);
      NetOfInsert(StableSort(front, DateOf), rows[|rows| - 1]);
      SumsOfPrefix(rows, front, 0, |front|);
    }
  }

  lemma {:induction false} NetOfAged(rows: seq<Tx>, k: int, m: nat)
    requires m <= |rows|
    ensures Net(Aged(rows, k), m) == Net(rows, m)
  {
    if m > 0 {
      NetOfAged(rows, k, m - 1);
    }
  }

  /** The rows of one snapshot, in the order in which they are collected. */
  function SnapshotRows(stored: seq<Tx>, txns: seq<ChainTxn>, p: Period): seq<Tx>
  {
    Aged(stored, DaysIn(p)) + Parsed(txns, p)
  }

  /** The recomputed balance meets the newest on-chain balance exactly when no non-zero
      balance left through a closed account. */
  lemma BalanceCheckIff(stored: seq<Tx>, txns: seq<ChainTxn>, p: Period)
    requires txns != [] && Net(stored, |stored|) >= 0 && Chained(txns, Net(stored, |stored|))
    ensures var rows := SnapshotRows(stored, txns, p);
      Net(StableSort(rows, DateOf), |rows|) == Balance(txns[0].post)
      <==> NothingClosed(txns)
  {
    ParsedNet(txns, Net(stored, |stored|), p);
    NetOfAged(stored, DaysIn(p), |stored|);
    NetOfConcat(Aged(stored, DaysIn(p)), Parsed(txns, p));
    NetOfSorted(SnapshotRows(stored, txns, p));
    NothingClosedOut(txns);
  }

  /** A wallet that receives tokens and closes the account again: the closing adds no row, so the
      recomputed balance is what came in although nothing is left. */
  lemma ClosedAccountIsAnError(come: int, gone: int, amount: nat, p: Period)
    requires come < gone && amount > 0
    ensures var txns := [ChainTxn(gone, false, Some(amount), None), ChainTxn(come, false, None, Some(amount))];
      var rows := SnapshotRows([], txns, p);
      && Chained(txns, 0) && !NothingClosed(txns)
      && Net(StableSort(rows, DateOf), |rows|) == amount && Balance(txns[0].post) == 0
  {
    var txns := [ChainTxn(gone, false, Some(amount), None), ChainTxn(come, false, None, Some(amount))];
    assert txns[..1] == [txns[0]] && [txns[0]][..0] == [];
    assert ClosedOut(txns[..1]) == ClosedOut([]) + amount;
    assert !NothingClosed(txns) by {
      assert txns[0].post.None? && Balance(txns[0].pre) == amount;
    }
    ParsedNet(txns, 0, p);
    assert SnapshotRows([], txns, p) == Parsed(txns, p);
    NetOfSorted(Parsed(txns, p));
  }

  lemma {:induction false} NothingClosedOut(txns: seq<ChainTxn>)
    ensures ClosedOut(txns) == 0
      <==> NothingClosed(txns)
  {
    if txns != [] {
      var front := txns[..|txns| - 1];
      NothingClosedOut(front);
      assert forall k :: 0 <= k < |front| ==> front[k] == txns[k];
    }
  }

  // ---------- days held fall with the date ----------

  ghost predicate Falling(rows: seq<Tx>)
  {
    && (forall t :: t in rows ==> t.days >= 0)
    && (forall s, t :: s in rows && t in rows && s.date <= t.date ==> s.days >= t.days)
  }

  /** Every transaction falls into the period: the source filters by it. */
  ghost predicate Within(txns: seq<ChainTxn>, p: Period)
  {
    p.start <= p.end && forall c :: c in txns ==> p.start <= c.blockTime <= p.end
  }

  lemma {:induction false} ParsedDays(txns: seq<ChainTxn>, p: Period)
    requires Within(txns, p)
    ensures forall t :: t in Parsed(txns, p) ==> p.start <= t.date <= p.end && t.days == DaysDifference(t.date, p.end)
  {
    if txns != [] {
      var front := txns[..|txns| - 1];
      assert forall c :: c in front ==> c in txns;
      ParsedDays(front, p);
      assert txns[|txns| - 1] in txns;
    }
  }

  lemma DaysFall(a: int, b: int, end: int)
    requires a <= b <= end
    ensures DaysDifference(a, end) >= DaysDifference(b, end) >= 0
  {}

  /** Stored rows from before the hold period keep at least its days; rows of the period have
      at most that many. So the rows of a snapshot meet the hypothesis of the optimality
      theorem. */
  lemma SnapshotDaysFall(stored: seq<Tx>, txns: seq<ChainTxn>, p: Period)
    requires Falling(stored) && Within(txns, p) && forall t :: t in stored ==> t.date < p.start
    ensures Falling(SnapshotRows(stored, txns, p))
    ensures DaysFallWithDate(StableSort(SnapshotRows(stored, txns, p), DateOf))
  {
    var k, aged, parsed := DaysIn(p), Aged(stored, DaysIn(p)), Parsed(txns, p);
    DaysFall(p.start, p.start, p.end);
    ParsedDays(txns, p);
    forall t | t in aged ensures k <= t.days && t.date < p.start && t.(days := t.days - k) in stored {
      var i :| 0 <= i < |aged| && aged[i] == t;
      assert t.(days := t.days - k) == stored[i];
    }
    forall t | t in parsed ensures 0 <= t.days <= k && p.start <= t.date {
      DaysFall(p.start, t.date, p.end);
    }
    forall s, t | s in parsed && t in parsed && s.date <= t.date ensures s.days >= t.days {
      DaysFall(s.date, t.date, p.end);
    }
    FallingParts(aged, parsed, p.start, k);
    FallingSorted(SnapshotRows(stored, txns, p));
  }

  lemma FallingParts(a: seq<Tx>, b: seq<Tx>, start: int, k: int)
    requires forall s, t :: s in a && t in a && s.date <= t.date ==> s.days >= t.days
    requires forall s, t :: s in b && t in b && s.date <= t.date ==> s.days >= t.days
    requires forall t :: t in a ==> 0 <= k <= t.days && t.date < start
    requires forall t :: t in b ==> 0 <= t.days <= k && start <= t.date
    ensures Falling(a + b)
  {}

  lemma FallingSorted(rows: seq<Tx>)
    requires Falling(rows)
    ensures DaysFallWithDate(StableSort(rows, DateOf))
  {
    var s := StableSort(rows, DateOf);
    StableSortIsStable(rows, DateOf);
    forall i, j | 0 <= i < j < |s| ensures s[i].days >= s[j].days {
      assert s[i] in multiset(s) && s[j] in multiset(s);
      assert s[i] in rows && s[j] in rows;
      assert DateOf(s[i]) <= DateOf(s[j]);
    }
  }

  // ---------- the per-wallet procedure ----------

  /** The stored rows have been held through this hold period too. */
  method AgeRows(stored: seq<AirdropDto>, p: Period, ghost rows: seq<Tx>)
    requires Holds(stored, rows) && Distinct(stored)
    modifies stored`holderOfDays
    ensures Holds(stored, Aged(rows, DaysIn(p)))
  {
    var k := DaysDifference(p.start, p.end);
    ghost var aged := Aged(rows, k);
    for i := 0 to |stored|
      invariant forall j {:trigger stored[j].holderOfDays} :: 0 <= j < |stored| ==>
        stored[j].holderOfDays == if j < i then rows[j].days + k else rows[j].days
    {
      stored[i].holderOfDays := stored[i].holderOfDays + k;
    }
  }

  method SetCurrentBalance(stored: seq<AirdropDto>, balance: int)
    modifies stored`currentBalance
    ensures forall t :: t in stored ==> t.currentBalance == balance
  {
    for i := 0 to |stored|
      invariant forall j {:trigger stored[j].currentBalance} :: 0 <= j < i ==> stored[j].currentBalance == balance
    {
      stored[i].currentBalance := balance;
    }
  }

  method NewRow(t: ChainTxn, p: Period, wallet: string, balance: int) returns (row: AirdropDto)
    requires Pushed(t)
    ensures fresh(row) && row.View() == Classified(t, p) && row.currentBalance == balance && row.wallet == wallet
  {
    var x := Classified(t, p);
    row := new AirdropDto(x.date, x.kind, wallet, "");
    row.amount := x.amount;
    row.holderOfDays := x.days;
    row.currentBalance := balance;
  }

  /** The loop over the parsed transactions: failed ones and those that leave no balance entry
      add no row. */
  method ParseTransactions(txns: seq<ChainTxn>, p: Period, wallet: string, balance: int) returns (rows: seq<AirdropDto>)
    ensures Holds(rows, Parsed(txns, p)) && Distinct(rows) && fresh(rows)
    ensures forall t :: t in rows ==> t.currentBalance == balance && t.typeTransaction != RESULT && t.wallet == wallet
  {
    rows := [];
    for i := 0 to |txns|
      invariant Holds(rows, Parsed(txns[..i], p)) && Distinct(rows) && fresh(rows)
      invariant forall t :: t in rows ==>
        t.currentBalance == balance && t.typeTransaction != RESULT && t.wallet == wallet
    {
      assert txns[..i + 1][..i] == txns[..i];
      if !txns[i].failed && txns[i].post.Some? {
        var row := NewRow(txns[i], p, wallet, balance);
        assert row.View() == Classified(txns[i], p);
        rows := rows + [row];
      }
    }
    assert txns[..|txns|] == txns;
  }

  lemma HoldsConcat(a: seq<AirdropDto>, b: seq<AirdropDto>, ra: seq<Tx>, rb: seq<Tx>)
    requires Holds(a, ra) && Holds(b, rb)
    ensures Views(a + b) == ra + rb
  {}

  /** Collects the rows of one snapshot of one wallet. */
  method CollectRows(stored: seq<AirdropDto>, txns: seq<ChainTxn>, p: Period, wallet: string)
    returns (listTransactions: seq<AirdropDto>)
    requires Distinct(stored)
    requires forall t :: t in stored ==> t.typeTransaction != RESULT
    modifies stored`holderOfDays, stored`currentBalance
    ensures Views(listTransactions) == SnapshotRows(old(Views(stored)), txns, p)
    ensures Distinct(listTransactions) && forall t :: t in listTransactions ==> t.typeTransaction != RESULT
    ensures forall k :: 0 <= k < |listTransactions| ==>
      listTransactions[k] in stored || (fresh(listTransactions[k]) && listTransactions[k].wallet == wallet)
    ensures txns != [] ==> forall t :: t in listTransactions ==> t.currentBalance == Balance(txns[0].post)
    ensures txns == [] ==> listTransactions == stored && forall t :: t in stored ==>
      t.currentBalance == old(t.currentBalance)
  {
    ghost var rows := Views(stored);
    AgeRows(stored, p, rows);
    var parsed := [];
    if txns != [] {
      var balanceBeforeEndDate := Balance(txns[0].post);
      SetCurrentBalance(stored, balanceBeforeEndDate);
      parsed := ParseTransactions(txns, p, wallet, balanceBeforeEndDate);
    }
    HoldsConcat(stored, parsed, Aged(rows, DaysIn(p)), Parsed(txns, p));
    listTransactions := stored + parsed;
  }

  /** The transactions of the hold period. */
  function InPeriod(history: seq<ChainTxn>, p: Period): seq<ChainTxn>
  {
    if history == [] then []
    else if p.start <= history[|history| - 1].blockTime <= p.end
    then InPeriod(history[..|history| - 1], p) + [history[|history| - 1]]
    else InPeriod(history[..|history| - 1], p)
  }

  lemma {:induction false} InPeriodIsWithin(history: seq<ChainTxn>, p: Period)
    requires p.start <= p.end
    ensures Within(InPeriod(history, p), p)
  {
    if history != [] {
      InPeriodIsWithin(history[..|history| - 1], p);
    }
  }

  /** More transactions than this in one period make a wallet a potential bot. */
  const BOT_LIMIT: nat := 20

  /** The rows that replace the stored ones. */
  method CalculateRows(stored: seq<AirdropDto>, txns: seq<ChainTxn>, wallet: string, p: Period)
    returns (sorted: seq<AirdropDto>, results: seq<AirdropDto>)
    requires Distinct(stored)
    requires forall t :: t in stored ==> t.typeTransaction != RESULT
    modifies stored
    ensures Calculated(sorted, results, StableSort(SnapshotRows(old(Views(stored)), txns, p), DateOf))
    ensures ErrorIsExact(results, Net(old(Views(stored)), |stored|), txns)
    ensures Distinct(sorted)
    ensures forall k :: 0 <= k < |sorted| ==> sorted[k].typeTransaction != RESULT
    ensures forall k :: 0 <= k < |sorted| ==> sorted[k] in stored || (fresh(sorted[k]) && sorted[k].wallet == wallet)
  {
    ghost var rows := Views(stored);
    var listTransactions := CollectRows(stored, txns, p, wallet);
    sorted, results := FinalCalculations(listTransactions);
    DistinctSorted(listTransactions);
    if txns != [] && results != [] {
      var n := |results|;
      assert results[n - 2] == Kept(sorted)[n - 2] && results[n - 2] in listTransactions;
      if Net(rows, |stored|) >= 0 && Chained(txns, Net(rows, |stored|)) {
        BalanceCheckIff(rows, txns, p);
      }
    }
  }

  /** The body of `calculate` for one wallet: the rows that replace the stored ones in the
      database, or None for a potential bot, whose stored rows stay as they are. */
  method CalculateWallet(stored: seq<AirdropDto>, history: seq<ChainTxn>, wallet: string, p: Period := HOLD_PERIOD)
    returns (sorted: seq<AirdropDto>, saved: Option<seq<AirdropDto>>)
    requires Distinct(stored)
    requires forall t :: t in stored ==> t.typeTransaction != RESULT
    modifies stored
    ensures saved.None? <==> |InPeriod(history, p)| > BOT_LIMIT
    ensures saved.None? ==> Holds(stored, old(Views(stored))) && sorted == []
    ensures saved.Some? ==>
      Calculated(sorted, saved.value, StableSort(SnapshotRows(old(Views(stored)), InPeriod(history, p), p), DateOf))
    ensures saved.Some? ==> ErrorIsExact(saved.value, Net(old(Views(stored)), |stored|), InPeriod(history, p))
    ensures Distinct(sorted)
    ensures forall k :: 0 <= k < |sorted| ==> sorted[k].typeTransaction != RESULT
    ensures forall k :: 0 <= k < |sorted| ==> sorted[k] in stored || (fresh(sorted[k]) && sorted[k].wallet == wallet)
  {
    var txns := InPeriod(history, p);
    if |txns| > BOT_LIMIT {
      return [], None;
    }
    var results;
    sorted, results := CalculateRows(stored, txns, wallet, p);
    saved := Some(results);
  }

  /** For stored rows that carry the balance at which the transactions begin: the RESULT row has
      an error if and only if something left through a closed account. */
  ghost predicate ErrorIsExact(results: seq<AirdropDto>, net: int, txns: seq<ChainTxn>)
    reads results
  {
    txns != [] && results != [] && net >= 0 && Chained(txns, net) ==>
      (!results[|results| - 1].error <==> NothingClosed(txns))
  }
}
