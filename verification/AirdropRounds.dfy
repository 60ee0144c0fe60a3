/** Runs of `calculate` for one wallet, round after round, each on what the rounds before stored. */
module AirdropRounds {
  import opened Options
  import opened Sorting
  import opened AirdropMatching
  import opened AirdropOptimality
  import opened AirdropCoverage
  import opened AirdropIncremental
  import opened AirdropSnapshot
  import opened AirdropService

  /** One run of `calculate`: its hold period and what happened in it, newest first. */
  datatype Round = Round(period: Period, txns: seq<ChainTxn>)

  predicate Skipped(r: Round) { |r.txns| > BOT_LIMIT }

  /** What is stored after some rounds, oldest round first; a skipped round stores nothing. */
  function StoredAfter(rounds: seq<Round>): seq<Tx>
  {
    if rounds == [] then [] else
    var stored, r := StoredAfter(rounds[..|rounds| - 1]), rounds[|rounds| - 1];
    if Skipped(r) then stored else Residual(SnapshotRows(stored, r.txns, r.period))
  }

  /** The rows of all rounds that are not skipped, none of them matched. */
  function Everything(rounds: seq<Round>): seq<Tx>
  {
    if rounds == [] then [] else
    var rows, r := Everything(rounds[..|rounds| - 1]), rounds[|rounds| - 1];
    if Skipped(r) then rows else SnapshotRows(rows, r.txns, r.period)
  }

  function NewestBalance(rounds: seq<Round>): nat
  {
    if rounds == [] then 0
    else if rounds[|rounds| - 1].txns == [] then NewestBalance(rounds[..|rounds| - 1])
    else Balance(rounds[|rounds| - 1].txns[0].post)
  }

  /** Hold periods follow each other, and each round's transactions fall into its period. */
  ghost predicate InOrder(rounds: seq<Round>)
  {
    && (forall i :: 0 <= i < |rounds| ==> Within(rounds[i].txns, rounds[i].period))
    && (forall i, j :: 0 <= i < j < |rounds| ==> rounds[i].period.end < rounds[j].period.start)
  }

  /** Each round goes on from the balance at which the rounds before it ended. */
  ghost predicate Continued(rounds: seq<Round>)
  {
    rounds != [] ==>
      var front, r := rounds[..|rounds| - 1], rounds[|rounds| - 1];
      Continued(front) && (r.txns != [] ==> Chained(r.txns, NewestBalance(front)))
  }

  lemma InOrderBefore(rounds: seq<Round>)
    requires InOrder(rounds) && rounds != []
    ensures var front, r := rounds[..|rounds| - 1], rounds[|rounds| - 1];
      InOrder(front) && Within(r.txns, r.period) && forall i :: 0 <= i < |front| ==>
        front[i].period.end < r.period.start
  {}

  // ---------- any number of rounds is one batch ----------

  /** A residual row is one of the rows, with another amount. */
  lemma ResidualRow(rows: seq<Tx>, t: Tx) returns (s: Tx)
    requires t in Residual(rows)
    ensures s in rows && t == s.(amount := t.amount)
  {
    var sorted := StableSort(rows, DateOf);
    var j :| 0 <= j < |Residual(rows)| && Residual(rows)[j] == t;
    var i := KeepMember(Matched(sorted), j);
    StableSortIsStable(rows, DateOf);
    MatchedShape(sorted);
    s := sorted[i];
    assert s in multiset(sorted);
  }

  /** Rows of the rounds so far are older than the next period. */
  lemma {:induction false} EverythingIsOlder(rounds: seq<Round>, later: Period)
    requires InOrder(rounds) && forall i :: 0 <= i < |rounds| ==> rounds[i].period.end < later.start
    ensures forall t :: t in Everything(rounds) ==> t.date < later.start
  {
    if rounds != [] {
      var front, r := rounds[..|rounds| - 1], rounds[|rounds| - 1];
      EverythingIsOlder(front, later);
      ParsedDays(r.txns, r.period);
      forall t | t in Everything(rounds) ensures t.date < later.start {
        if !Skipped(r) {
          OlderRow(Everything(front), r, t, later.start);
        }
      }
    }
  }

  lemma OlderRow(rows: seq<Tx>, r: Round, t: Tx, date: int)
    requires forall s :: s in rows ==> s.date < date
    requires forall s :: s in Parsed(r.txns, r.period) ==> s.date < date
    requires t in SnapshotRows(rows, r.txns, r.period)
    ensures t.date < date
  {}

  /** Any number of rounds stores what one matching of the rows of all rounds that are not
      skipped would store. */
  lemma {:induction false} RoundsAreOneBatch(rounds: seq<Round>)
    requires InOrder(rounds)
    ensures StoredAfter(rounds) == Residual(Everything(rounds))
  {
    if rounds != [] {
      var front, r := rounds[..|rounds| - 1], rounds[|rounds| - 1];
      InOrderBefore(rounds);
      RoundsAreOneBatch(front);
      EverythingIsOlder(front, r.period);
      ParsedDays(r.txns, r.period);
      IncrementalIsBatch(Everything(front), Parsed(r.txns, r.period), DaysIn(r.period));
    }
  }

  lemma StoredIsOlder(rounds: seq<Round>, later: Period)
    requires InOrder(rounds) && forall i :: 0 <= i < |rounds| ==> rounds[i].period.end < later.start
    ensures forall t :: t in StoredAfter(rounds) ==> t.date < later.start
  {
    RoundsAreOneBatch(rounds);
    EverythingIsOlder(rounds, later);
    forall t | t in StoredAfter(rounds) ensures t.date < later.start {
      var s := ResidualRow(Everything(rounds), t);
    }
  }

  /** What is stored has moved tokens: no row is UNKNOWN, and none has amount zero. */
  ghost predicate OnlyMovements(rows: seq<Tx>)
  {
    forall t :: t in rows ==> (t.kind == CREDIT || t.kind == DEBIT) && t.amount > 0
  }

  lemma {:induction false} OnlyMovementsAreStored(rounds: seq<Round>)
    ensures OnlyMovements(StoredAfter(rounds))
  {
    if rounds != [] {
      var front, r := rounds[..|rounds| - 1], rounds[|rounds| - 1];
      OnlyMovementsAreStored(front);
      if !Skipped(r) {
        ParsedKinds(r.txns, r.period);
        MovementsAreKept(SnapshotRows(StoredAfter(front), r.txns, r.period));
      }
    }
  }

  lemma {:induction false} ParsedKinds(txns: seq<ChainTxn>, p: Period)
    ensures forall t :: t in Parsed(txns, p) ==> t.kind != RESULT && (t.kind == UNKNOWN ==> t.amount == 0)
  {
    if txns != [] {
      ParsedKinds(txns[..|txns| - 1], p);
      if Pushed(txns[|txns| - 1]) {
        RowIsTheMovement(txns[|txns| - 1], p);
        assert Parsed([txns[|txns| - 1]], p) == [Classified(txns[|txns| - 1], p)];
      }
    }
  }

  lemma MovementsAreKept(rows: seq<Tx>)
    requires forall t :: t in rows ==> t.kind != RESULT && (t.kind == UNKNOWN ==> t.amount == 0)
    ensures OnlyMovements(Residual(rows))
  {
    var s := StableSort(rows, DateOf);
    StableSortIsStable(rows, DateOf);
    MatchedShape(s);
    forall k | 0 <= k < |Residual(rows)|
      ensures var t := Residual(rows)[k]; (t.kind == CREDIT || t.kind == DEBIT) && t.amount > 0
    {
      KeptIsNotZero(Matched(s));
      var i := KeepMember(Matched(s), k);
      assert s[i] in multiset(s) && s[i] in rows;
    }
  }

  /** The full days of the later rounds in which the wallet was not skipped. */
  function DaysSince(rounds: seq<Round>, j: nat): int
    requires j < |rounds|
  {
    if j == |rounds| - 1 then 0
    else if Skipped(rounds[|rounds| - 1]) then DaysSince(rounds[..|rounds| - 1], j)
    else
      var p := rounds[|rounds| - 1].period;
      DaysSince(rounds[..|rounds| - 1], j) + DaysDifference(p.start, p.end)
  }

  /** The row is what is left of a transaction of round j, held since then. */
  ghost predicate HeldSince(rounds: seq<Round>, j: nat, t: Tx)
    requires j < |rounds|
  {
    && (exists c :: c in rounds[j].txns && c.blockTime == t.date)
    && t.days == DaysDifference(t.date, rounds[j].period.end) + DaysSince(rounds, j)
  }

  /** The days of every stored row: those to the end of its own round, and those of the later
      rounds. A round in which the wallet was skipped does not count. */
  lemma {:induction false} DaysAreHeld(rounds: seq<Round>, t: Tx)
    requires t in StoredAfter(rounds)
    ensures exists j: nat :: j < |rounds| && HeldSince(rounds, j, t)
  {
    var front, r := rounds[..|rounds| - 1], rounds[|rounds| - 1];
    if Skipped(r) {
      DaysAreHeld(front, t);
      var j: nat :| j < |front| && HeldSince(front, j, t);
      assert HeldSince(rounds, j, t);
    } else {
      var s := ResidualRow(SnapshotRows(StoredAfter(front), r.txns, r.period), t);
      if s in Parsed(r.txns, r.period) {
        ParsedFrom(r.txns, r.period, s);
        assert HeldSince(rounds, |front|, t);
      } else {
        var i :| 0 <= i < |StoredAfter(front)| && Aged(StoredAfter(front), DaysIn(r.period))[i] == s;
        var u := StoredAfter(front)[i];
        DaysAreHeld(front, u);
        var j: nat :| j < |front| && HeldSince(front, j, u);
        assert front[j] == rounds[j] && HeldSince(rounds, j, t);
      }
    }
  }

  lemma {:induction false} ParsedFrom(txns: seq<ChainTxn>, p: Period, t: Tx)
    requires t in Parsed(txns, p)
    ensures exists c :: c in txns && c.blockTime == t.date
    ensures t.days == DaysDifference(t.date, p.end)
  {
    var front, c := txns[..|txns| - 1], txns[|txns| - 1];
    if t in Parsed(front, p) {
      ParsedFrom(front, p, t);
    } else {
      assert t == Classified(c, p) && c in txns;
    }
  }

  // ---------- the balance over rounds ----------

  /** By how much the stored rows exceed the newest balance: what left through closed accounts,
      less what skipped rounds gained. */
  function Drift(rounds: seq<Round>): int
  {
    if rounds == [] then 0 else
    var front, r := rounds[..|rounds| - 1], rounds[|rounds| - 1];
    Drift(front) + if Skipped(r) then NewestBalance(front) - NewestBalance(rounds) else ClosedOut(r.txns)
  }

  lemma NetOfSnapshot(stored: seq<Tx>, txns: seq<ChainTxn>, p: Period, start: nat)
    requires txns != [] ==> Chained(txns, start)
    ensures var rows := SnapshotRows(stored, txns, p);
      Net(StableSort(rows, DateOf), |rows|)
        == Net(stored, |stored|) + if txns == [] then 0 else Balance(txns[0].post) - start + ClosedOut(txns)
  {
    NetOfAged(stored, DaysIn(p), |stored|);
    NetOfConcat(Aged(stored, DaysIn(p)), Parsed(txns, p));
    NetOfSorted(SnapshotRows(stored, txns, p));
    if txns != [] {
      ParsedNet(txns, start, p);
    }
  }

  lemma NetOfResidual(rows: seq<Tx>)
    ensures Net(Residual(rows), |Residual(rows)|) == Net(StableSort(rows, DateOf), |rows|)
  {
    KeepTotals(Matched(StableSort(rows, DateOf)));
    MatchedKeepsNet(StableSort(rows, DateOf));
  }

  /** Over any number of rounds of a history without gaps, what is stored is the newest balance
      plus the drift. */
  lemma {:induction false} RoundsCarryTheBalance(rounds: seq<Round>)
    requires Continued(rounds)
    ensures Net(StoredAfter(rounds), |StoredAfter(rounds)|) == NewestBalance(rounds) + Drift(rounds)
  {
    if rounds != [] {
      var front, r := rounds[..|rounds| - 1], rounds[|rounds| - 1];
      RoundsCarryTheBalance(front);
      if !Skipped(r) {
        NetOfSnapshot(StoredAfter(front), r.txns, r.period, NewestBalance(front));
        NetOfResidual(SnapshotRows(StoredAfter(front), r.txns, r.period));
      }
    }
  }

  /** In every round the recomputed balance is the newest one if and only if there is no drift:
      nothing was closed or missed, or it cancels out. */
  lemma BalanceCheckOverRounds(front: seq<Round>, r: Round)
    requires Continued(front + [r]) && !Skipped(r) && r.txns != []
    ensures var rows := SnapshotRows(StoredAfter(front), r.txns, r.period);
      Net(StableSort(rows, DateOf), |rows|) == Balance(r.txns[0].post) <==> Drift(front + [r]) == 0
  {
    assert (front + [r])[..|front|] == front;
    RoundsCarryTheBalance(front);
    NetOfSnapshot(StoredAfter(front), r.txns, r.period, NewestBalance(front));
  }

  // ---------- days held over rounds ----------

  lemma FallingResidual(rows: seq<Tx>)
    requires Falling(rows)
    ensures Falling(Residual(rows))
  {
    forall t | t in Residual(rows) ensures t.days >= 0 {
      var s := ResidualRow(rows, t);
    }
    forall t, u | t in Residual(rows) && u in Residual(rows) && t.date <= u.date ensures t.days >= u.days {
      var s := ResidualRow(rows, t);
      var v := ResidualRow(rows, u);
    }
  }

  lemma {:induction false} StoredFalls(rounds: seq<Round>)
    requires InOrder(rounds)
    ensures Falling(StoredAfter(rounds))
  {
    if rounds != [] {
      var front, r := rounds[..|rounds| - 1], rounds[|rounds| - 1];
      InOrderBefore(rounds);
      StoredFalls(front);
      StoredIsOlder(front, r.period);
      SnapshotDaysFall(StoredAfter(front), r.txns, r.period);
      FallingResidual(SnapshotRows(StoredAfter(front), r.txns, r.period));
    }
  }

  /** The rows that round r matches. */
  function RoundRows(front: seq<Round>, r: Round): seq<Tx>
  {
    StableSort(SnapshotRows(StoredAfter(front), r.txns, r.period), DateOf)
  }

  /** In every round the matcher does at least as well as any way of paying all debits. */
  lemma NothingBeatsTheMatcher(front: seq<Round>, r: Round, x: Assignment)
    requires InOrder(front + [r]) && Valid(RoundRows(front, r), x)
    ensures var rows := RoundRows(front, r);
      Weighted(Matched(rows), |rows|) <= Weighted(Left(rows, x), |rows|)
  {
    assert (front + [r])[..|front|] == front;
    InOrderBefore(front + [r]);
    StoredFalls(front);
    StoredIsOlder(front, r.period);
    SnapshotDaysFall(StoredAfter(front), r.txns, r.period);
    StableSortIsStable(SnapshotRows(StoredAfter(front), r.txns, r.period), DateOf);
    MatcherIsOptimal(RoundRows(front, r), x);
  }

  // ---------- every debit of a real history is covered ----------

  /** Newest first, no two transactions in the same second. */
  ghost predicate TimesDiffer(txns: seq<ChainTxn>)
  {
    forall i, j :: 0 <= i < j < |txns| ==> txns[i].blockTime > txns[j].blockTime
  }

  ghost predicate NoDebits(rows: seq<Tx>)
  {
    forall k :: 0 <= k < |rows| ==> rows[k].kind != DEBIT
  }

  ghost predicate Strict(rows: seq<Tx>)
  {
    forall i, j :: 0 <= i < j < |rows| ==> rows[i].date < rows[j].date
  }

  ghost predicate NeverNegative(rows: seq<Tx>, start: int)
  {
    forall k :: 0 <= k <= |rows| ==> start + Net(rows, k) >= 0
  }

  lemma {:induction false} ParsedLater(txns: seq<ChainTxn>, p: Period, date: int)
    requires forall k :: 0 <= k < |txns| ==> txns[k].blockTime > date
    ensures forall t :: t in Parsed(txns, p) ==> t.date > date
  {
    if txns != [] {
      ParsedLater(txns[..|txns| - 1], p, date);
    }
  }

  lemma {:induction false} InsertFirst(s: seq<Tx>, x: Tx)
    requires forall k :: 0 <= k < |s| ==> s[k].date > x.date
    ensures Insert(s, x, DateOf) == [x] + s
  {
    if s != [] {
      assert DateOf(s[|s| - 1]) > DateOf(x);
      InsertFirst(s[..|s| - 1], x);
      assert s == s[..|s| - 1] + [s[|s| - 1]];
    }
  }

  /** An older row comes first. */
  lemma SortOlder(rows: seq<Tx>, x: Tx)
    requires forall t :: t in rows ==> t.date > x.date
    ensures StableSort(rows + [x], DateOf) == [x] + StableSort(rows, DateOf)
    ensures forall t :: t in StableSort(rows, DateOf) ==> t.date > x.date
  {
    var s := StableSort(rows, DateOf);
    StableSortIsStable(rows, DateOf);
    forall t | t in s ensures t in rows {
      assert t in multiset(s) && t in multiset(rows);
    }
    assert (rows + [x])[..|rows|] == rows;
    InsertFirst(s, x);
  }

  lemma NetAfterFirst(x: Tx, s: seq<Tx>, start: int)
    requires NeverNegative(s, start + Signed(x)) && start >= 0
    ensures NeverNegative([x] + s, start)
  {
    var r := [x] + s;
    forall k | 0 <= k <= |r| ensures start + Net(r, k) >= 0 {
      if k > 0 {
        FirstNet(x, s, k - 1);
      }
    }
  }

  lemma {:induction false} FirstNet(x: Tx, s: seq<Tx>, k: nat)
    requires k <= |s|
    ensures Net([x] + s, k + 1) == Signed(x) + Net(s, k)
  {
    if k > 0 {
      FirstNet(x, s, k - 1);
      assert ([x] + s)[k] == s[k - 1];
    } else {
      assert Net([x] + s, 1) == Net([x] + s, 0) + Signed(([x] + s)[0]);
    }
  }

  lemma OlderPart(txns: seq<ChainTxn>, start: nat)
    requires txns != [] && Chained(txns, start)
    ensures var front, t := txns[..|txns| - 1], txns[|txns| - 1];
      && (front != [] ==> Chained(front, Balance(t.post)))
      && Balance(t.pre) == start && (t.failed ==> Balance(t.post) == start)
  {
    var front := txns[..|txns| - 1];
    assert front != [] ==> Balance(front[|front| - 1].pre) == Balance(txns[|front|].post);
  }

  /** In the order of time the running balance of a history without gaps is an on-chain balance,
      or more after a closing, so it is never negative. */
  lemma {:induction false} RunningBalances(txns: seq<ChainTxn>, start: nat, p: Period)
    requires TimesDiffer(txns) && (txns != [] ==> Chained(txns, start))
    ensures Steady(Parsed(txns, p), start)
  {
    if txns != [] {
      var front, t := txns[..|txns| - 1], txns[|txns| - 1];
      OlderPart(txns, start);
      RunningBalances(front, Balance(t.post), p);
      if Pushed(t) {
        ParsedLater(front, p, t.blockTime);
        SteadyFirst(Parsed(front, p), t, p);
      } else {
        SteadyFromMore(Parsed(front, p), Balance(t.post), start);
      }
    }
  }

  /** In the order of time no two rows share a date, and the balance is never negative. */
  ghost predicate Steady(rows: seq<Tx>, start: int)
  {
    NeverNegative(StableSort(rows, DateOf), start) && Strict(StableSort(rows, DateOf))
  }

  lemma SteadyFromMore(rows: seq<Tx>, less: int, more: int)
    requires Steady(rows, less) && less <= more
    ensures Steady(rows, more)
  {
    var s := StableSort(rows, DateOf);
    forall k | 0 <= k <= |s| ensures more + Net(s, k) >= 0 {
      assert less + Net(s, k) >= 0;
    }
  }

  lemma SteadyFirst(rows: seq<Tx>, t: ChainTxn, p: Period)
    requires Pushed(t) && Steady(rows, Balance(t.post)) && forall x :: x in rows ==> x.date > t.blockTime
    ensures Steady(rows + [Classified(t, p)], Balance(t.pre))
  {
    var s, x := StableSort(rows, DateOf), Classified(t, p);
    SortOlder(rows, x);
    NetAfterFirst(x, s, Balance(t.pre));
    StrictFirst(x, s);
  }

  lemma StrictFirst(x: Tx, s: seq<Tx>)
    requires Strict(s) && forall t :: t in s ==> t.date > x.date
    ensures Strict([x] + s)
  {}

  lemma {:induction false} OffersAreCredits(rows: seq<Tx>, date: int, m: nat)
    requires m <= |rows| && forall j :: 0 <= j < m ==> rows[j].date < date
    ensures Offered(rows, date, m) == Credits(rows, m)
  {
    if m > 0 {
      OffersAreCredits(rows, date, m - 1);
    }
  }

  lemma NetOfParts(a: seq<Tx>, b: seq<Tx>, k: nat)
    requires k <= |b|
    ensures Net(a + b, |a| + k) == Net(a, |a|) + Net(b, k)
  {
    NetOfConcat(a, b[..k]);
    assert (a + b)[..|a| + k] == a + b[..k];
    SumsOfPrefix(a + b, a + b[..k], 0, |a| + k);
    SumsOfPrefix(b, b[..k], 0, k);
  }

  /** Old rows without debits, then strictly later ones over which the balance never falls below
      zero: every debit is covered. */
  lemma CoveredInParts(a: seq<Tx>, b: seq<Tx>)
    requires NoDebits(a) && Strict(b) && StrictlyLater(a, b) && NeverNegative(b, Net(a, |a|))
    ensures Covered(a + b)
  {
    forall i | 0 <= i < |a + b| && (a + b)[i].kind == DEBIT ensures CoveredAt(a + b, i) {
      assert i >= |a|;
      NetOfParts(a, b, i - |a| + 1);
      AllOlder(a, b, i);
      CoveredByNet(a + b, i);
    }
  }

  lemma AllOlder(a: seq<Tx>, b: seq<Tx>, i: nat)
    requires Strict(b) && StrictlyLater(a, b) && |a| <= i < |a + b|
    ensures forall j :: 0 <= j < i ==> (a + b)[j].date < (a + b)[i].date
  {}

  /** A debit younger than all rows before it is covered if the balance after it is not
      negative. */
  lemma CoveredByNet(rows: seq<Tx>, i: nat)
    requires i < |rows| && rows[i].kind == DEBIT && Net(rows, i + 1) >= 0
    requires forall j :: 0 <= j < i ==> rows[j].date < rows[i].date
    ensures CoveredAt(rows, i)
  {
    OffersAreCredits(rows, rows[i].date, i);
    NetIsCreditsMinusDebits(rows, i + 1);
  }

  lemma {:induction false} KeptIsNotZero(rows: seq<Tx>)
    ensures forall k :: 0 <= k < |Keep(rows)| ==> Keep(rows)[k].amount != 0
  {
    if rows != [] {
      KeptIsNotZero(rows[..|rows| - 1]);
    }
  }

  /** Covered debits leave no debit behind. */
  lemma CoveredLeavesNoDebits(rows: seq<Tx>)
    requires Dated(rows) && Covered(rows)
    ensures NoDebits(Keep(Matched(rows)))
  {
    FullyMatchedIffCovered(rows);
    KeptIsNotZero(Matched(rows));
    MatchedShape(rows);
    forall k | 0 <= k < |Keep(Matched(rows))| ensures Keep(Matched(rows))[k].kind != DEBIT {
      var i := KeepMember(Matched(rows), k);
      assert rows[i].kind == Matched(rows)[i].kind;
    }
  }

  /** No round is skipped, and in none do two transactions share a second. */
  ghost predicate EachSeen(rounds: seq<Round>)
  {
    forall i :: 0 <= i < |rounds| ==> !Skipped(rounds[i]) && TimesDiffer(rounds[i].txns)
  }

  lemma {:induction false} DriftIsGain(rounds: seq<Round>)
    requires EachSeen(rounds)
    ensures Drift(rounds) >= 0
  {
    if rounds != [] {
      DriftIsGain(rounds[..|rounds| - 1]);
    }
  }

  lemma StoredIsDated(rounds: seq<Round>)
    requires InOrder(rounds)
    ensures Dated(StoredAfter(rounds))
  {
    RoundsAreOneBatch(rounds);
    ResidualIsStable(Everything(rounds), 0);
  }

  /** The rows of a round: the aged stored rows, then the new ones in the order of time. */
  lemma RoundRowsAre(front: seq<Round>, r: Round)
    requires InOrder(front) && Within(r.txns, r.period) && forall i :: 0 <= i < |front| ==>
      front[i].period.end < r.period.start
    ensures RoundRows(front, r)
      == Aged(StoredAfter(front), DaysIn(r.period)) + StableSort(Parsed(r.txns, r.period), DateOf)
    ensures StrictlyLater(Aged(StoredAfter(front), DaysIn(r.period)), StableSort(Parsed(r.txns, r.period), DateOf))
  {
    var stored, fresher := StoredAfter(front), Parsed(r.txns, r.period);
    StoredIsOlder(front, r.period);
    StoredIsDated(front);
    ParsedDays(r.txns, r.period);
    SortOfSorted(stored, DateOf);
    SortedInParts(stored, fresher, DaysIn(r.period));
    StableSortIsStable(fresher, DateOf);
    var s := StableSort(fresher, DateOf);
    assert forall t :: t in s ==> t in multiset(s) && t in fresher;
  }

  /** When each round is seen, none leaves an unpaid debit. */
  lemma {:induction false} RoundsPayAllDebits(rounds: seq<Round>)
    requires InOrder(rounds) && Continued(rounds) && EachSeen(rounds)
    ensures NoDebits(StoredAfter(rounds))
  {
    if rounds != [] {
      var front, r := rounds[..|rounds| - 1], rounds[|rounds| - 1];
      InOrderBefore(rounds);
      RoundsPayAllDebits(front);
      RoundIsCovered(front, r);
      StableSortIsStable(SnapshotRows(StoredAfter(front), r.txns, r.period), DateOf);
      CoveredLeavesNoDebits(RoundRows(front, r));
    }
  }

  lemma RoundIsCovered(front: seq<Round>, r: Round)
    requires InOrder(front) && Within(r.txns, r.period) && forall i :: 0 <= i < |front| ==>
      front[i].period.end < r.period.start
    requires Continued(front) && EachSeen(front) && TimesDiffer(r.txns)
    requires r.txns != [] ==> Chained(r.txns, NewestBalance(front))
    requires NoDebits(StoredAfter(front))
    ensures Covered(RoundRows(front, r))
  {
    var stored, s := StoredAfter(front), StableSort(Parsed(r.txns, r.period), DateOf);
    RoundRowsAre(front, r);
    RoundsCarryTheBalance(front);
    DriftIsGain(front);
    RunningBalances(r.txns, NewestBalance(front), r.period);
    NetOfAged(stored, DaysIn(r.period), |stored|);
    SteadyFromMore(Parsed(r.txns, r.period), NewestBalance(front), Net(stored, |stored|));
    CoveredInParts(Aged(stored, DaysIn(r.period)), s);
  }

  /** In every round of a history without gaps, without two transactions in one second and
      without skipped rounds: the matcher pays every debit, by draws that are a valid assignment,
      and no valid assignment has a smaller weighted total. */
  lemma EveryRoundIsOptimal(front: seq<Round>, r: Round)
    requires InOrder(front + [r]) && Continued(front + [r]) && EachSeen(front + [r])
    ensures var rows := RoundRows(front, r);
      && Valid(rows, Draws(rows)) && Left(rows, Draws(rows)) == Matched(rows)
      && forall x: Assignment :: Valid(rows, x) ==> Weighted(Matched(rows), |rows|) <= Weighted(Left(rows, x), |rows|)
  {
    var rows := RoundRows(front, r);
    assert (front + [r])[..|front|] == front && (front + [r])[|front|] == r;
    assert forall i :: 0 <= i < |front| ==> front[i] == (front + [r])[i];
    InOrderBefore(front + [r]);
    RoundsPayAllDebits(front);
    RoundIsCovered(front, r);
    StableSortIsStable(SnapshotRows(StoredAfter(front), r.txns, r.period), DateOf);
    MatcherIsAnAssignment(rows);
    forall x: Assignment | Valid(rows, x) ensures Weighted(Matched(rows), |rows|) <= Weighted(Left(rows, x), |rows|) {
      NothingBeatsTheMatcher(front, r, x);
    }
  }

  /** Two transactions in one second: tokens that come and go at once are not matched, and both
      movements count in the weighted total. */
  lemma SameSecondIsNotMatched(time: int, amount: nat, p: Period)
    requires amount > 0
    ensures var txns := [ChainTxn(time, false, Some(amount), Some(0)), ChainTxn(time, false, None, Some(amount))];
      var rows := StableSort(Parsed(txns, p), DateOf);
      && Chained(txns, 0) && !Covered(rows) && |rows| == 2
      && Weighted(Matched(rows), 2) == amount * DaysDifference(time, p.end) + amount * DaysDifference(time, p.end)
  {
    var out, come := ChainTxn(time, false, Some(amount), Some(0)), ChainTxn(time, false, None, Some(amount));
    var d, c := Classified(out, p), Classified(come, p);
    assert Parsed([], p) == [] && [out][..0] == [] && [out, come][..1] == [out];
    assert Parsed([out], p) == [d] && Parsed([out, come], p) == [d, c];
    AtOnce(d, c);
  }

  lemma AtOnce(d: Tx, c: Tx)
    requires d.kind == DEBIT && c.kind == CREDIT && d.date == c.date && d.amount > 0
    ensures var rows := [d, c];
      && StableSort(rows, DateOf) == rows && !Covered(rows)
      && Weighted(Matched(rows), 2) == d.amount * d.days + c.amount * c.days
  {
    var rows := [d, c];
    SortOfSorted(rows, DateOf);
    assert rows[..1] == [d] && [d][..0] == [];
    assert MatchedOnto([], [][..0]) == [] && Drained([], d.date, d.amount) == [] && Absorb([], d) == [d];
    assert MatchedOnto([], [d]) == [d];
    assert Matched(rows) == Absorb([d], c) == rows;
    assert Debits(rows, 1) == Debits(rows, 0) + d.amount && !CoveredAt(rows, 0);
    assert Weighted(rows, 1) == d.amount * d.days;
  }

  // ---------- the rounds of one history ----------

  /** The whole history of a wallet, newest first. */
  ghost predicate NewestFirst(history: seq<ChainTxn>)
  {
    forall i, j :: 0 <= i < j < |history| ==> history[i].blockTime >= history[j].blockTime
  }

  /** Each hold period begins in the second after the one before it. */
  ghost predicate Contiguous(periods: seq<Period>)
  {
    && (forall i :: 0 <= i < |periods| ==> periods[i].start <= periods[i].end)
    && (forall i :: 0 < i < |periods| ==> periods[i].start == periods[i - 1].end + 1)
  }

  /** The history begins in the first period, from nothing, and has no gaps. */
  ghost predicate Complete(history: seq<ChainTxn>, periods: seq<Period>)
  {
    && NewestFirst(history) && Contiguous(periods) && (history != [] ==> Chained(history, 0))
    && (periods != [] ==> forall k :: 0 <= k < |history| ==> history[k].blockTime >= periods[0].start)
  }

  function RoundsOf(history: seq<ChainTxn>, periods: seq<Period>): (r: seq<Round>)
    ensures |r| == |periods|
  {
    seq(|periods|, i requires 0 <= i < |periods| => Round(periods[i], InPeriod(history, periods[i])))
  }

  /** How many transactions are newer than the given time. */
  function Newer(history: seq<ChainTxn>, time: int): (n: nat)
    ensures n <= |history|
  {
    if history == [] then 0
    else if history[|history| - 1].blockTime > time then |history|
    else Newer(history[..|history| - 1], time)
  }

  /** The transactions of a period are one stretch of the history. */
  ghost predicate IsStretch(history: seq<ChainTxn>, p: Period)
  {
    && Newer(history, p.end) <= Newer(history, p.start - 1)
    && InPeriod(history, p) == history[Newer(history, p.end)..Newer(history, p.start - 1)]
  }

  lemma OneOlder(front: seq<ChainTxn>, x: ChainTxn, p: Period)
    requires p.start <= p.end && IsStretch(front, p) && (front != [] ==> front[|front| - 1].blockTime >= x.blockTime)
    ensures IsStretch(front + [x], p)
  {
    var all := front + [x];
    assert all[..|front|] == front;
    if x.blockTime > p.end {
      assert Newer(front, p.end) == Newer(front, p.start - 1) == |front|;
    } else if x.blockTime >= p.start {
      assert Newer(front, p.start - 1) == |front|;
      assert all[Newer(front, p.end)..] == front[Newer(front, p.end)..] + [x];
    }
  }

  lemma {:induction false} PeriodIsStretch(history: seq<ChainTxn>, p: Period)
    requires NewestFirst(history) && p.start <= p.end
    ensures IsStretch(history, p)
  {
    if history != [] {
      var front, x := history[..|history| - 1], history[|history| - 1];
      PeriodIsStretch(front, p);
      OneOlder(front, x, p);
      assert history == front + [x];
    }
  }

  function BalanceAt(history: seq<ChainTxn>, time: int): nat
  {
    if Newer(history, time) == |history| then 0 else Balance(history[Newer(history, time)].post)
  }

  lemma StretchIsChained(history: seq<ChainTxn>, lo: nat, hi: nat)
    requires Chained(history, 0) && lo < hi <= |history|
    ensures Chained(history[lo..hi], if hi == |history| then 0 else Balance(history[hi].post))
  {
    var s := history[lo..hi];
    forall k | 0 <= k < |s| - 1 ensures Balance(s[k].pre) == Balance(s[k + 1].post) {
      assert s[k] == history[lo + k] && s[k + 1] == history[lo + k + 1];
    }
    assert s[|s| - 1] == history[hi - 1];
  }

  /** The transactions of one period lead from the balance at the end of the period before to
      the balance at its own end. */
  lemma PeriodContinues(history: seq<ChainTxn>, p: Period)
    requires NewestFirst(history) && p.start <= p.end && (history != [] ==> Chained(history, 0))
    ensures var txns := InPeriod(history, p);
      if txns == [] then BalanceAt(history, p.end) == BalanceAt(history, p.start - 1)
      else Chained(txns, BalanceAt(history, p.start - 1)) && Balance(txns[0].post) == BalanceAt(history, p.end)
  {
    var lo, hi := Newer(history, p.end), Newer(history, p.start - 1);
    PeriodIsStretch(history, p);
    if lo < hi {
      StretchIsChained(history, lo, hi);
      assert history[lo..hi][0] == history[lo];
    }
  }

  lemma {:induction false} NothingBefore(history: seq<ChainTxn>, time: int)
    requires forall k :: 0 <= k < |history| ==> history[k].blockTime > time
    ensures BalanceAt(history, time) == 0
  {}

  /** The rounds of a complete history continue each other, up to the balance at the end of the
      last period. */
  lemma {:induction false} HistoryContinues(history: seq<ChainTxn>, periods: seq<Period>)
    requires Complete(history, periods)
    ensures Continued(RoundsOf(history, periods))
    ensures periods != [] ==>
      NewestBalance(RoundsOf(history, periods)) == BalanceAt(history, periods[|periods| - 1].end)
  {
    if periods != [] {
      var front, p := periods[..|periods| - 1], periods[|periods| - 1];
      HistoryContinues(history, front);
      PeriodContinues(history, p);
      assert RoundsOf(history, periods)[..|front|] == RoundsOf(history, front);
      if front == [] {
        NothingBefore(history, p.start - 1);
      }
    }
  }

  lemma {:induction false} PeriodsAscend(periods: seq<Period>, i: nat, j: nat)
    requires Contiguous(periods) && i < j < |periods|
    ensures periods[i].end < periods[j].start
  {
    if i < j - 1 {
      PeriodsAscend(periods, i, j - 1);
    }
  }

  lemma HistoryIsInOrder(history: seq<ChainTxn>, periods: seq<Period>)
    requires Contiguous(periods)
    ensures InOrder(RoundsOf(history, periods))
  {
    forall i | 0 <= i < |periods| ensures Within(InPeriod(history, periods[i]), periods[i]) {
      InPeriodIsWithin(history, periods[i]);
    }
    forall i, j | 0 <= i < j < |periods| ensures periods[i].end < periods[j].start {
      PeriodsAscend(periods, i, j);
    }
  }

  lemma HistoryIsSeen(history: seq<ChainTxn>, periods: seq<Period>)
    requires Contiguous(periods) && TimesDiffer(history)
    requires forall i :: 0 <= i < |periods| ==> |InPeriod(history, periods[i])| <= BOT_LIMIT
    ensures EachSeen(RoundsOf(history, periods))
  {
    forall i | 0 <= i < |periods| ensures TimesDiffer(InPeriod(history, periods[i])) {
      PeriodIsStretch(history, periods[i]);
    }
  }

  /** For the whole history of a wallet, split into contiguous hold periods with at most twenty
      transactions each and no two in one second: every round pays all debits, carries the
      balance, and is optimal. */
  lemma HistoryIsOptimal(history: seq<ChainTxn>, periods: seq<Period>, p: Period)
    requires Complete(history, periods + [p]) && TimesDiffer(history)
    requires |InPeriod(history, p)| <= BOT_LIMIT
    requires forall i :: 0 <= i < |periods| ==> |InPeriod(history, periods[i])| <= BOT_LIMIT
    ensures var front := RoundsOf(history, periods);
      var rows := RoundRows(front, Round(p, InPeriod(history, p)));
      && Valid(rows, Draws(rows)) && Left(rows, Draws(rows)) == Matched(rows)
      && (forall x: Assignment :: Valid(rows, x) ==> Weighted(Matched(rows), |rows|) <= Weighted(Left(rows, x), |rows|))
      && NoDebits(StoredAfter(front + [Round(p, InPeriod(history, p))]))
  {
    var all, front := RoundsOf(history, periods + [p]), RoundsOf(history, periods);
    assert all == front + [Round(p, InPeriod(history, p))];
    HistoryContinues(history, periods + [p]);
    HistoryIsInOrder(history, periods + [p]);
    HistoryIsSeen(history, periods + [p]);
    EveryRoundIsOptimal(front, Round(p, InPeriod(history, p)));
    RoundsPayAllDebits(all);
  }

  // ---------- running the rounds ----------

  lemma {:induction false} KeptDistinct(ts: seq<AirdropDto>)
    requires Distinct(ts)
    ensures Distinct(Kept(ts))
  {
    if ts != [] {
      var front := ts[..|ts| - 1];
      KeptDistinct(front);
      assert ts[|ts| - 1] !in front;
    }
  }

  lemma NextStored(front: seq<Round>, r: Round)
    ensures StoredAfter(front + [r])
      == if Skipped(r) then StoredAfter(front)
          else Keep(Matched(StableSort(SnapshotRows(StoredAfter(front), r.txns, r.period), DateOf)))
  {
    assert (front + [r])[..|front|] == front;
  }

  /** One round on what is stored: `calculate` for the wallet, with what it saves, its RESULT row
      apart, as the stored rows of the next round. */
  method CalculateRound(stored: seq<AirdropDto>, history: seq<ChainTxn>, wallet: string, p: Period,
      ghost front: seq<Round>)
    returns (next: seq<AirdropDto>)
    requires Distinct(stored) && (forall t :: t in stored ==> t.typeTransaction != RESULT)
    requires Holds(stored, StoredAfter(front))
    modifies stored
    ensures Holds(next, StoredAfter(front + [Round(p, InPeriod(history, p))]))
    ensures Distinct(next) && forall t :: t in next ==> t.typeTransaction != RESULT && (t in stored || fresh(t))
  {
    assert Views(stored) == StoredAfter(front);
    NextStored(front, Round(p, InPeriod(history, p)));
    var sorted, saved := CalculateWallet(stored, history, wallet, p);
    if saved.None? {
      next := stored;
    } else {
      KeptDistinct(sorted);
      next := if saved.value == [] then [] else saved.value[..|saved.value| - 1];
      assert next == Kept(sorted);
    }
  }

  lemma OneMoreRound(history: seq<ChainTxn>, periods: seq<Period>, i: nat)
    requires i < |periods|
    ensures RoundsOf(history, periods[..i + 1])
      == RoundsOf(history, periods[..i]) + [Round(periods[i], InPeriod(history, periods[i]))]
  {}

  /** All rounds of a history, one after the other. */
  method RunRounds(history: seq<ChainTxn>, periods: seq<Period>, wallet: string) returns (stored: seq<AirdropDto>)
    ensures Holds(stored, StoredAfter(RoundsOf(history, periods)))
  {
    stored := [];
    ghost var rounds: seq<Round> := [];
    for i := 0 to |periods|
      invariant rounds == RoundsOf(history, periods[..i])
      invariant Holds(stored, StoredAfter(rounds)) && Distinct(stored) && fresh(stored)
      invariant forall t :: t in stored ==> t.typeTransaction != RESULT
    {
      stored := CalculateRound(stored, history, wallet, periods[i], rounds);
      OneMoreRound(history, periods, i);
      rounds := rounds + [Round(periods[i], InPeriod(history, periods[i]))];
    }
    assert periods[..|periods|] == periods;
  }
}
