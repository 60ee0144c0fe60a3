/** `deplanWalletCheck`: a paginated scan of a wallet's newest-first history that adds up the
    minutes of use per day, proved equal to one pass over the claim period. */
module DeplanUsage {
  import opened Options

  const PAGE_SIZE: nat := 6
  const DAY := 86400
  const REQUIRED_MINUTES_PER_DAY := 10

  /** An instruction; ixType is already in lower case, parsed is the memo's number. */
  datatype Ix = Ix(ixType: string, authority: string, isMemo: bool, parsed: int)

  datatype Txn = Txn(signature: string, blockTime: int, instructions: seq<Ix>)

  /** The object `usagePerDay`: one entry per day, in the order of first use. */
  datatype DayUsage = DayUsage(day: int, times: nat, duration: int)

  type Usage = seq<DayUsage>

  // ---------- what one transaction counts ----------

  predicate HasTransferBy(ixs: seq<Ix>, wallet: string)
  {
    exists i :: 0 <= i < |ixs| && ixs[i].ixType in ["transferchecked", "transfer"] && ixs[i].authority == wallet
  }

  function FirstMemo(ixs: seq<Ix>): Option<int>
  {
    if ixs == [] then None else if ixs[0].isMemo then Some(ixs[0].parsed) else FirstMemo(ixs[1..])
  }

  /** The minutes of a qualifying transaction: a transfer by the wallet, with a memo. */
  function Minutes(t: Txn, wallet: string): Option<int>
  {
    if HasTransferBy(t.instructions, wallet) then FirstMemo(t.instructions) else None
  }

  function CeilDiv(a: int, b: int): int
    requires b > 0
  {
    -((-a) / b)
  }

  function Recorded(u: Usage, day: int, minutes: int): Usage
  {
    if u == [] then [DayUsage(day, 1, minutes)]
    else if u[0].day == day then [DayUsage(day, u[0].times + 1, u[0].duration + minutes)] + u[1..]
    else [u[0]] + Recorded(u[1..], day, minutes)
  }

  function Counted(u: Usage, t: Txn, wallet: string, from: int): Usage
  {
    match Minutes(t, wallet)
    case None => u
    case Some(minutes) => Recorded(u, CeilDiv(t.blockTime - from, DAY), minutes)
  }

  /** The first memo of a transaction that has a transfer by the wallet, and nothing otherwise. */
  lemma {:induction false} FirstMemoIs(ixs: seq<Ix>)
    ensures match FirstMemo(ixs)
      case None => forall k :: 0 <= k < |ixs| ==> !ixs[k].isMemo
      case Some(m) => exists k :: 0 <= k < |ixs| && ixs[k].isMemo && ixs[k].parsed == m && NoMemo(ixs[..k])
  {
    if ixs != [] && !ixs[0].isMemo {
      FirstMemoIs(ixs[1..]);
      if FirstMemo(ixs).Some? {
        var k :| 0 <= k < |ixs[1..]| && ixs[1..][k].isMemo && ixs[1..][k].parsed == FirstMemo(ixs).value
          && NoMemo(ixs[1..][..k]);
        assert ixs[..k + 1] == [ixs[0]] + ixs[1..][..k];
        assert ixs[k + 1].isMemo && NoMemo(ixs[..k + 1]);
      } else {
        forall k | 0 <= k < |ixs| ensures !ixs[k].isMemo {
          assert k > 0 ==> ixs[k] == ixs[1..][k - 1];
        }
      }
    } else if ixs != [] {
      assert NoMemo(ixs[..0]);
    }
  }

  /** A transaction counts when it has both. */
  lemma QualifiesIff(t: Txn, wallet: string)
    ensures Minutes(t, wallet).Some?
      <==> && (exists ix :: ix in t.instructions && ix.authority == wallet
                && (ix.ixType == "transfer" || ix.ixType == "transferchecked"))
           && exists ix :: ix in t.instructions && ix.isMemo
  {
    FirstMemoIs(t.instructions);
  }

  ghost predicate NoMemo(ixs: seq<Ix>)
  {
    forall k :: 0 <= k < |ixs| ==> !ixs[k].isMemo
  }

  /** Days count from the beginning of the period, rounded up. */
  lemma CeilDivIs(a: int, b: int)
    requires b > 0
    ensures (CeilDiv(a, b) - 1) * b < a <= CeilDiv(a, b) * b
  {}

  // ---------- one pass ----------

  /** The transactions of the claim period. */
  function Recent(history: seq<Txn>, from: int): seq<Txn>
  {
    if history == [] then []
    else if history[|history| - 1].blockTime >= from
    then Recent(history[..|history| - 1], from) + [history[|history| - 1]]
    else Recent(history[..|history| - 1], from)
  }

  function UsageOf(txns: seq<Txn>, wallet: string, from: int): Usage
  {
    UsageOnto([], txns, wallet, from)
  }

  function UsageOnto(u: Usage, txns: seq<Txn>, wallet: string, from: int): Usage
  {
    if txns == [] then u
    else Counted(UsageOnto(u, txns[..|txns| - 1], wallet, from), txns[|txns| - 1], wallet, from)
  }

  lemma {:induction false} UsageOfConcat(u: Usage, a: seq<Txn>, b: seq<Txn>, wallet: string, from: int)
    ensures UsageOnto(u, a + b, wallet, from) == UsageOnto(UsageOnto(u, a, wallet, from), b, wallet, from)
  {
    if b == [] {
      assert a + b == a;
    } else {
      assert (a + b)[..|a + b| - 1] == a + b[..|b| - 1];
      UsageOfConcat(u, a, b[..|b| - 1], wallet, from);
    }
  }

  function TotalMinutes(txns: seq<Txn>, wallet: string): int
  {
    if txns == [] then 0
    else match Minutes(txns[|txns| - 1], wallet)
      case None => TotalMinutes(txns[..|txns| - 1], wallet)
      case Some(minutes) => TotalMinutes(txns[..|txns| - 1], wallet) + minutes
  }

  /** The transactions that fall on one day of the period. */
  function OnDay(txns: seq<Txn>, from: int, day: int): seq<Txn>
  {
    if txns == [] then []
    else if CeilDiv(txns[|txns| - 1].blockTime - from, DAY) == day
    then OnDay(txns[..|txns| - 1], from, day) + [txns[|txns| - 1]]
    else OnDay(txns[..|txns| - 1], from, day)
  }

  // ---------- sums over the days ----------

  function Durations(u: Usage): int
  {
    if u == [] then 0 else u[0].duration + Durations(u[1..])
  }

  /** The duration stored for a day, zero when it has no entry. */
  function DurationOn(u: Usage, day: int): int
  {
    if u == [] then 0 else if u[0].day == day then u[0].duration else DurationOn(u[1..], day)
  }

  lemma {:induction false} RecordedDurations(u: Usage, day: int, minutes: int)
    ensures Durations(Recorded(u, day, minutes)) == Durations(u) + minutes
    ensures forall d :: DurationOn(Recorded(u, day, minutes), d) == DurationOn(u, d) + if d == day then minutes else 0
  {
    if u != [] && u[0].day != day {
      RecordedDurations(u[1..], day, minutes);
    }
  }

  /** Grouping by day loses and invents no minutes: each day's entry is the total of the
      transactions of that day, and the entries add up to the total of all. */
  lemma {:induction false} DaysAddUp(txns: seq<Txn>, wallet: string, from: int)
    ensures Durations(UsageOf(txns, wallet, from)) == TotalMinutes(txns, wallet)
    ensures forall d :: DurationOn(UsageOf(txns, wallet, from), d) == TotalMinutes(OnDay(txns, from, d), wallet)
  {
    if txns != [] {
      var front, t := txns[..|txns| - 1], txns[|txns| - 1];
      DaysAddUp(front, wallet, from);
      if Minutes(t, wallet).Some? {
        RecordedDurations(UsageOf(front, wallet, from), CeilDiv(t.blockTime - from, DAY), Minutes(t, wallet).value);
      }
    }
  }

  /** The number of uses stored for a day, zero when it has no entry. */
  function TimesOn(u: Usage, day: int): nat
  {
    if u == [] then 0 else if u[0].day == day then u[0].times else TimesOn(u[1..], day)
  }

  function Qualifying(txns: seq<Txn>, wallet: string): nat
  {
    if txns == [] then 0
    else if Minutes(txns[|txns| - 1], wallet).Some? then Qualifying(txns[..|txns| - 1], wallet) + 1
    else Qualifying(txns[..|txns| - 1], wallet)
  }

  lemma {:induction false} RecordedTimes(u: Usage, day: int, minutes: int)
    ensures forall d :: TimesOn(Recorded(u, day, minutes), d) == TimesOn(u, d) + if d == day then 1 else 0
  {
    if u != [] && u[0].day != day {
      RecordedTimes(u[1..], day, minutes);
    }
  }

  /** Each day's uses are its qualifying transactions. */
  lemma {:induction false} TimesAddUp(txns: seq<Txn>, wallet: string, from: int)
    ensures forall d :: TimesOn(UsageOf(txns, wallet, from), d) == Qualifying(OnDay(txns, from, d), wallet)
  {
    if txns != [] {
      var front, t := txns[..|txns| - 1], txns[|txns| - 1];
      TimesAddUp(front, wallet, from);
      if Minutes(t, wallet).Some? {
        RecordedTimes(UsageOf(front, wallet, from), CeilDiv(t.blockTime - from, DAY), Minutes(t, wallet).value);
      }
    }
  }

  // ---------- pages ----------

  ghost predicate TimesFall(history: seq<Txn>)
  {
    forall i, j :: 0 <= i < j < |history| ==> history[i].blockTime >= history[j].blockTime
  }

  ghost predicate NewestFirst(history: seq<Txn>)
  {
    && TimesFall(history)
    && (forall i, j :: 0 <= i < j < |history| ==> history[i].signature != history[j].signature)
  }

  /** The position behind the transaction with this signature. */
  function Behind(history: seq<Txn>, signature: string, i: nat): (r: nat)
    requires i <= |history|
    ensures r <= |history|
    decreases |history| - i
  {
    if i == |history| then i
    else if history[i].signature == signature then i + 1
    else Behind(history, signature, i + 1)
  }

  /** The node's answer: up to PAGE_SIZE transactions older than the cursor. */
  function Page(history: seq<Txn>, before: Option<string>): seq<Txn>
  {
    var p := if before.Some? then Behind(history, before.value, 0) else 0;
    history[p..if p + PAGE_SIZE <= |history| then p + PAGE_SIZE else |history|]
  }

  /** `getTokenHistory` with a `from` filter. */
  function TokenHistory(history: seq<Txn>, before: Option<string>, from: int): seq<Txn>
  {
    Recent(Page(history, before), from)
  }

  function Cursor(parsedTxns: seq<Txn>): Option<string>
  {
    if parsedTxns == [] then None else Some(parsedTxns[|parsedTxns| - 1].signature)
  }

  lemma {:induction false} BehindIs(history: seq<Txn>, i: nat, k: nat)
    requires NewestFirst(history) && i <= k < |history|
    ensures Behind(history, history[k].signature, i) == k + 1
    decreases k - i
  {
    if i < k {
      BehindIs(history, i + 1, k);
    }
  }

  /** In a newest-first list the recent transactions are a prefix. */
  lemma {:induction false} RecentIsPrefix(h: seq<Txn>, from: int)
    requires TimesFall(h)
    ensures |Recent(h, from)| <= |h| && Recent(h, from) == h[..|Recent(h, from)|]
    ensures forall k :: 0 <= k < |h| ==> (h[k].blockTime >= from <==> k < |Recent(h, from)|)
  {
    if h != [] {
      RecentIsPrefix(h[..|h| - 1], from);
    }
  }

  /** The page behind the first p transactions. */
  lemma PageAt(history: seq<Txn>, p: nat)
    requires NewestFirst(history) && p <= |history|
    ensures Page(history, CursorAt(history, p))
      == history[p..if p + PAGE_SIZE <= |history| then p + PAGE_SIZE else |history|]
  {
    if p > 0 {
      BehindIs(history, 0, p - 1);
    }
  }

  function CursorAt(history: seq<Txn>, p: nat): Option<string>
    requires p <= |history|
  {
    if p == 0 then None else Some(history[p - 1].signature)
  }

  /** The recent part of a stretch is the recent prefix of the whole, cut to the stretch. */
  lemma RecentOfStretch(history: seq<Txn>, p: nat, q: nat, from: int)
    requires TimesFall(history) && p <= q <= |history| && p <= |Recent(history, from)| <= |history|
    ensures Recent(history[p..q], from)
      == history[p..if q <= |Recent(history, from)| then q else |Recent(history, from)|]
  {
    var h, n := history[p..q], |Recent(history, from)|;
    RecentIsPrefix(history, from);
    RecentIsPrefix(h, from);
    var m := |Recent(h, from)|;
    if m < |h| {
      assert h[m] == history[p + m];
    }
    if 0 < m {
      assert h[m - 1] == history[p + m - 1];
    }
    assert h[..m] == history[p..p + m];
  }

  /** From position p the next page is the next stretch of the recent prefix, and it is empty
      only when nothing recent is left. */
  lemma NextPage(history: seq<Txn>, p: nat, from: int)
    requires NewestFirst(history) && p <= |Recent(history, from)| <= |history|
    ensures var page, n := TokenHistory(history, CursorAt(history, p), from), |Recent(history, from)|;
      page == history[p..if p + PAGE_SIZE <= n then p + PAGE_SIZE else n]
  {
    PageAt(history, p);
    RecentOfStretch(history, p, if p + PAGE_SIZE <= |history| then p + PAGE_SIZE else |history|, from);
  }

  // ---------- the scan ----------

  datatype Outcome = Ok | BadRequest

  method AddUp(u: Usage) returns (total: int)
    ensures total == Durations(u)
  {
    total := 0;
    for i := 0 to |u|
      invariant total + Durations(u[i..]) == Durations(u)
    {
      total := total + u[i].duration;
    }
  }

  /** The loop over one page. The page is already filtered, so the inner test always holds. */
  method VisitPage(usage: Usage, page: seq<Txn>, wallet: string, from: int, before: int)
    returns (usagePerDay: Usage, lastBlocktime: int)
    requires forall t :: t in page ==> t.blockTime >= from
    ensures usagePerDay == UsageOnto(usage, page, wallet, from)
    ensures lastBlocktime == if page == [] then before else page[|page| - 1].blockTime
  {
    usagePerDay, lastBlocktime := usage, before;
    for i := 0 to |page|
      invariant usagePerDay == UsageOnto(usage, page[..i], wallet, from)
      invariant lastBlocktime == if i < |page| || page == [] then before else page[|page| - 1].blockTime
    {
      var txn := page[i];
      assert page[..i + 1][..i] == page[..i];
      if txn.blockTime >= from {
        usagePerDay := Counted(usagePerDay, txn, wallet, from);
      }
      if i == |page| - 1 {
        lastBlocktime := txn.blockTime;
      }
    }
    assert page[..|page|] == page;
  }

  /** One turn of the do/while loop, at the cursor behind the first p transactions. */
  method ScanPage(history: seq<Txn>, usage: Usage, before: Option<string>, wallet: string, from: int, last: int,
      ghost p: nat)
    returns (usagePerDay: Usage, parsedTxns: seq<Txn>, lastBlocktime: int)
    requires NewestFirst(history)
    requires p <= |Recent(history, from)| <= |history| && before == CursorAt(history, p)
    ensures p + |parsedTxns| <= |Recent(history, from)| && parsedTxns == history[p..p + |parsedTxns|]
    ensures parsedTxns == [] ==> p == |Recent(history, from)|
    ensures parsedTxns != [] ==> lastBlocktime >= from
    ensures usagePerDay == UsageOnto(usage, parsedTxns, wallet, from)
  {
    parsedTxns := TokenHistory(history, before, from);
    NextPage(history, p, from);
    RecentIsPrefix(history, from);
    usagePerDay, lastBlocktime := VisitPage(usage, parsedTxns, wallet, from, last);
  }

  /** The do/while loop: every transaction of the period is visited exactly once. */
  method Scan(history: seq<Txn>, wallet: string, from: int) returns (usagePerDay: Usage)
    requires NewestFirst(history)
    ensures usagePerDay == UsageOf(Recent(history, from), wallet, from)
  {
    RecentIsPrefix(history, from);
    ghost var recent := Recent(history, from);
    ghost var seen: seq<Txn> := [];
    var parsedTxns: seq<Txn> := [];
    var lastBlocktime := 0;
    var more := true;
    usagePerDay := [];
    while more
      invariant |seen| <= |recent| && seen == recent[..|seen|]
      invariant more ==> Cursor(parsedTxns) == CursorAt(history, |seen|)
      invariant usagePerDay == UsageOf(seen, wallet, from)
      invariant !more ==> |seen| == |recent|
      decreases more, |recent| - |seen|
    {
      usagePerDay, parsedTxns, lastBlocktime :=
        ScanPage(history, usagePerDay, Cursor(parsedTxns), wallet, from, lastBlocktime, |seen|);
      UsageOfConcat([], seen, parsedTxns, wallet, from);
      seen := seen + parsedTxns;
      more := parsedTxns != [] && lastBlocktime >= from;
    }
    assert seen == recent;
  }

  /** The whole check: it fails before the last day of the period, and when the minutes of
      all qualifying transactions of the period do not reach ten a day. The usage per day is
      recorded either way once the last day has come. */
  method DeplanWalletCheck(history: seq<Txn>, wallet: string, claimFromDate: int, claimToDate: int, currentDate: int)
    returns (outcome: Outcome, usagePerDay: Usage)
    requires NewestFirst(history)
    ensures var days := CeilDiv(claimToDate - claimFromDate, DAY);
      outcome == Ok <==>
        && CeilDiv(currentDate - claimFromDate, DAY) >= days
        && TotalMinutes(Recent(history, claimFromDate), wallet) >= days * REQUIRED_MINUTES_PER_DAY
    ensures usagePerDay ==
      if CeilDiv(currentDate - claimFromDate, DAY) < CeilDiv(claimToDate - claimFromDate, DAY) then []
      else UsageOf(Recent(history, claimFromDate), wallet, claimFromDate)
  {
    var daysInPeriod := CeilDiv(claimToDate - claimFromDate, DAY);
    var currentDayOfPeriod := CeilDiv(currentDate - claimFromDate, DAY);
    if currentDayOfPeriod < daysInPeriod {
      return BadRequest, [];
    }
    usagePerDay := Scan(history, wallet, claimFromDate);
    var totalUsageMinutes := AddUp(usagePerDay);
    DaysAddUp(Recent(history, claimFromDate), wallet, claimFromDate);
    outcome := if totalUsageMinutes < daysInPeriod * REQUIRED_MINUTES_PER_DAY then BadRequest else Ok;
  }
}
