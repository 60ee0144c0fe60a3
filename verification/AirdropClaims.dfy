/** `airdropCalculations` shares a fixed pool pro rata; the claim handlers give each share out
    at most once. */
module AirdropClaims {
  import opened Decimal

  // ---------- the shares ----------

  function Total(fs: seq<int>, m: nat): int
    requires m <= |fs|
  {
    if m == 0 then 0 else Total(fs, m - 1) + fs[m - 1]
  }

  /** AIRDROP_SIZE times the holder's percentage of the total. */
  function ClaimAmount(size: real, f: int, total: int): real
    requires total != 0
  {
    Times(Div(f as real, total as real), size)
  }

  /** The token amount a claim transfers. */
  function Rounded(size: real, f: int, total: int): int
    requires total != 0
  {
    JsRound(ClaimAmount(size, f, total))
  }

  /** The exact share and how far a rounded claim may be from it. */
  function Share(size: real, f: int, total: int): real
    requires total != 0
  {
    Times(Over(f as real, total as real), size)
  }

  function Slack(size: real): real { 0.5 + Times(Over(0.5, E20), size) }

  lemma RoundedError(size: real, f: int, total: int)
    requires total != 0 && size >= 0.0
    ensures Abs(Rounded(size, f, total) as real - Share(size, f, total)) <= Slack(size)
  {
    DivError(f as real, total as real);
    TimesError(Div(f as real, total as real), Over(f as real, total as real), Over(0.5, E20), size);
    RoundError(ClaimAmount(size, f, total));
  }

  /** A larger final amount never gets a smaller claim. */
  lemma ClaimsPreserveOrder(size: real, f: int, g: int, total: int)
    requires total > 0 && size >= 0.0 && f <= g
    ensures Rounded(size, f, total) <= Rounded(size, g, total)
  {
    OverMonotone(f as real, g as real, total as real);
    ToFixedMonotone(Over(f as real, total as real), Over(g as real, total as real), E20);
    TimesMonotone(Div(f as real, total as real), Div(g as real, total as real), size);
    RoundMonotone(ClaimAmount(size, f, total), ClaimAmount(size, g, total));
  }

  function SumRounded(size: real, fs: seq<int>, total: int, m: nat): int
    requires total != 0 && m <= |fs|
  {
    if m == 0 then 0 else SumRounded(size, fs, total, m - 1) + Rounded(size, fs[m - 1], total)
  }

  lemma {:induction false} SumError(size: real, fs: seq<int>, total: int, m: nat)
    requires total != 0 && size >= 0.0 && m <= |fs|
    ensures Abs(SumRounded(size, fs, total, m) as real - Share(size, Total(fs, m), total))
      <= Times(m as real, Slack(size))
  {
    if m == 0 {
      assert Over(0.0, total as real) == 0.0 && Times(0.0, size) == 0.0 && Times(0.0, Slack(size)) == 0.0;
    } else {
      SumError(size, fs, total, m - 1);
      RoundedError(size, fs[m - 1], total);
      ShareAdds(size, Total(fs, m - 1), fs[m - 1], total);
      assert Times(m as real, Slack(size)) == Times((m - 1) as real, Slack(size)) + Slack(size);
    }
  }

  lemma ShareAdds(size: real, f: int, g: int, total: int)
    requires total != 0
    ensures Share(size, f + g, total) == Share(size, f, total) + Share(size, g, total)
  {
    OverSub((f + g) as real, g as real, total as real);
    var a, b := Over(f as real, total as real), Over(g as real, total as real);
    assert Times(a + b, size) == Times(a, size) + Times(b, size);
  }

  /** All rounded claims together are within n * (1/2 + size/2 * 10^-20) of the pool. */
  lemma PoolBound(size: real, fs: seq<int>)
    requires Total(fs, |fs|) != 0 && size >= 0.0
    ensures Abs(SumRounded(size, fs, Total(fs, |fs|), |fs|) as real - size) <= Times(|fs| as real, Slack(size))
  {
    var total := Total(fs, |fs|);
    SumError(size, fs, total, |fs|);
    OverTimes(1.0, total as real);
    assert Over(total as real, total as real) == 1.0;
    assert Times(1.0, size) == size;
  }

  // ---------- writing the shares ----------

  class AirdropResult {
    const wallet: string
    const finalAmount: int
    var claimPercent: real
    var claimAmount: real

    constructor (wallet: string, finalAmount: int)
      ensures this.wallet == wallet && this.finalAmount == finalAmount
    {
      this.wallet, this.finalAmount := wallet, finalAmount;
      claimPercent, claimAmount := 0.0, 0.0;
    }

    /** The part of the total, and that part of the pool. */
    predicate HasShare(size: real, total: int)
      reads this
    {
      && total != 0
      && claimPercent == Div(finalAmount as real, total as real)
      && claimAmount == ClaimAmount(size, finalAmount, total)
    }
  }

  function Finals(holders: seq<AirdropResult>): (fs: seq<int>)
    ensures |fs| == |holders|
  {
    seq(|holders|, i requires 0 <= i < |holders| => holders[i].finalAmount)
  }

  /** `airdropCalculations`: big.js throws on a zero total, before any holder is written. */
  method AirdropCalculations(allHolders: seq<AirdropResult>, airdropSize: real) returns (ok: bool)
    modifies allHolders`claimPercent, allHolders`claimAmount
    ensures ok <==> allHolders == [] || Total(Finals(allHolders), |allHolders|) != 0
    ensures ok ==> forall h {:trigger h in allHolders} :: h in allHolders ==>
      h.HasShare(airdropSize, Total(Finals(allHolders), |allHolders|))
    ensures !ok ==> forall h :: h in allHolders ==> unchanged(h)
  {
    var totalAmount := 0;
    for i := 0 to |allHolders|
      invariant totalAmount == Total(Finals(allHolders), i)
    {
      totalAmount := totalAmount + allHolders[i].finalAmount;
    }
    ok := true;
    for i := 0 to |allHolders|
      invariant if i == 0 then forall h :: h in allHolders ==> unchanged(h) else totalAmount != 0
      invariant forall k {:trigger allHolders[k].HasShare(airdropSize, totalAmount)} :: 0 <= k < i ==>
        allHolders[k].HasShare(airdropSize, totalAmount)
    {
      if totalAmount == 0 {
        return false;
      }
      var h := allHolders[i];
      h.claimPercent := Div(h.finalAmount as real, totalAmount as real);
      h.claimAmount := Times(h.claimPercent, airdropSize);
    }
  }

  /** The percentage is the exact one up to the error of the division, and the amount is that part
      of the pool. */
  lemma ShareOfHolder(h: AirdropResult, size: real, total: int)
    requires h.HasShare(size, total)
    ensures Abs(h.claimPercent - Over(h.finalAmount as real, total as real)) <= Over(0.5, E20)
    ensures h.claimAmount == Times(h.claimPercent, size)
  {
    DivError(h.finalAmount as real, total as real);
  }

  // ---------- claiming ----------

  /** The stored RESULT row of a wallet; amount is its rounded claim. */
  datatype ClaimDoc = ClaimDoc(wallet: string, amount: int, error: bool, isClaim: bool)

  /** A signed claim transaction handed out. */
  datatype Issue = Issue(wallet: string, amount: int)

  /** The stored rows, the claims handed out, and the wallets whose signed claims were sent. */
  datatype Desk = Desk(docs: seq<ClaimDoc>, issued: seq<Issue>, sent: seq<string>)

  ghost predicate UniqueWallets(docs: seq<ClaimDoc>)
  {
    forall i, j :: 0 <= i < j < |docs| ==> docs[i].wallet != docs[j].wallet
  }

  /** Position of the first row with this wallet, |docs| when there is none. */
  function Find(docs: seq<ClaimDoc>, wallet: string, m: nat): (i: nat)
    requires m <= |docs|
    ensures m <= i <= |docs|
    ensures i < |docs| ==> docs[i].wallet == wallet
    ensures forall k :: m <= k < i ==> docs[k].wallet != wallet
    decreases |docs| - m
  {
    if m == |docs| || docs[m].wallet == wallet then m else Find(docs, wallet, m + 1)
  }

  function MarkClaimed(docs: seq<ClaimDoc>, wallet: string): (r: seq<ClaimDoc>)
    ensures |r| == |docs|
  {
    var i := Find(docs, wallet, 0);
    if i == |docs| then docs else docs[i := docs[i].(isClaim := true)]
  }

  /** `getClaimByWallet`: a missing or erroneous row claims nothing. */
  function ClaimOf(docs: seq<ClaimDoc>, wallet: string): (int, bool)
  {
    var i := Find(docs, wallet, 0);
    if i == |docs| || docs[i].error then (0, false) else (docs[i].amount, docs[i].isClaim)
  }

  /** nonce says whether the nonce account is found or made, sends whether sending succeeds. */
  datatype Event = CreateClaim(wallet: string, checksPass: bool) | SendClaim(wallet: string, nonce: bool, sends: bool)

  function Step(d: Desk, e: Event): Desk
  {
    match e
    case CreateClaim(wallet, checksPass) =>
      var (amount, isClaim) := ClaimOf(d.docs, wallet);
      if !checksPass || amount == 0 || isClaim then d
      else Desk(MarkClaimed(d.docs, wallet), d.issued + [Issue(wallet, amount)], d.sent)
    case SendClaim(wallet, nonce, sends) =>
      if !nonce then d
      else Desk(MarkClaimed(d.docs, wallet), d.issued, if sends then d.sent + [wallet] else d.sent)
  }

  function Run(d: Desk, events: seq<Event>): Desk
  {
    if events == [] then d else Step(Run(d, events[..|events| - 1]), events[|events| - 1])
  }

  class ClaimService {
    var docs: seq<ClaimDoc>
    var issued: seq<Issue>
    var sent: seq<string>

    function State(): Desk
      reads this
    {
      Desk(docs, issued, sent)
    }

    /** `createClaimTransaction` as one atomic step; the follow and usage checks may throw. */
    method CreateClaimTransaction(wallet: string, checksPass: bool) returns (amount: int)
      modifies this
      ensures State() == Step(old(State()), CreateClaim(wallet, checksPass))
      ensures issued == old(issued) + if amount == 0 then [] else [Issue(wallet, amount)]
    {
      amount := 0;
      if !checksPass {
        return;
      }
      var claim := ClaimOf(docs, wallet);
      if claim.0 == 0 || claim.1 {
        return;
      }
      amount := claim.0;
      issued := issued + [Issue(wallet, amount)];
      docs := MarkClaimed(docs, wallet);
    }

    /** `sendClaimTransaction` looks for a nonce account, marks the row, and only then sends. */
    method SendClaimTransaction(wallet: string, nonce: bool, sends: bool) returns (ok: bool)
      modifies this
      ensures State() == Step(old(State()), SendClaim(wallet, nonce, sends))
      ensures ok <==> nonce && sends
    {
      if !nonce {
        return false;
      }
      docs := MarkClaimed(docs, wallet);
      if sends {
        sent := sent + [wallet];
      }
      ok := sends;
    }
  }

  /** What has been issued to a wallet. */
  function IssuedTo(issued: seq<Issue>, wallet: string): int
  {
    if issued == [] then 0
    else if issued[|issued| - 1].wallet == wallet
    then IssuedTo(issued[..|issued| - 1], wallet) + issued[|issued| - 1].amount
    else IssuedTo(issued[..|issued| - 1], wallet)
  }

  function IssuedTotal(issued: seq<Issue>): int
  {
    if issued == [] then 0 else IssuedTotal(issued[..|issued| - 1]) + issued[|issued| - 1].amount
  }

  /** How many claims a wallet has been issued. */
  function Claims(issued: seq<Issue>, wallet: string): nat
  {
    if issued == [] then 0
    else if issued[|issued| - 1].wallet == wallet then Claims(issued[..|issued| - 1], wallet) + 1
    else Claims(issued[..|issued| - 1], wallet)
  }

  /** At most one claim for a row, of its amount, and only once the row is marked. */
  ghost predicate RowInv(d: Desk, i: nat)
    requires i < |d.docs|
  {
    var doc := d.docs[i];
    && Claims(d.issued, doc.wallet) <= (if doc.isClaim && !doc.error then 1 else 0)
    && IssuedTo(d.issued, doc.wallet) == if Claims(d.issued, doc.wallet) == 0 then 0 else doc.amount
  }

  /** A claim that was sent has its row marked, if there is one. */
  ghost predicate SentIsMarked(start: seq<ClaimDoc>, d: Desk, wallet: string)
    requires |d.docs| == |start|
  {
    Find(start, wallet, 0) < |start| ==> d.docs[Find(start, wallet, 0)].isClaim
  }

  ghost predicate AllSentMarked(start: seq<ClaimDoc>, d: Desk)
    requires |d.docs| == |start|
  {
    forall k :: 0 <= k < |d.sent| ==> SentIsMarked(start, d, d.sent[k])
  }

  ghost predicate Inv(start: seq<ClaimDoc>, d: Desk)
  {
    && |d.docs| == |start|
    && (forall i :: 0 <= i < |start| ==> d.docs[i] == start[i].(isClaim := d.docs[i].isClaim))
    && (forall i :: 0 <= i < |start| ==> RowInv(d, i))
    && (forall k :: 0 <= k < |d.issued| ==> Find(start, d.issued[k].wallet, 0) < |start|)
  }

  lemma FindSame(a: seq<ClaimDoc>, b: seq<ClaimDoc>, wallet: string, m: nat)
    requires m <= |a| == |b| && forall i :: 0 <= i < |a| ==> a[i].wallet == b[i].wallet
    ensures Find(a, wallet, m) == Find(b, wallet, m)
  {}

  lemma StepKeepsInv(start: seq<ClaimDoc>, d: Desk, e: Event)
    requires UniqueWallets(start) && Inv(start, d)
    ensures Inv(start, Step(d, e))
  {
    var r := Step(d, e);
    var at := Find(d.docs, e.wallet, 0);
    FindSame(d.docs, start, e.wallet, 0);
    assert r.issued == d.issued || (at < |start| && r.issued == d.issued + [Issue(e.wallet, d.docs[at].amount)]);
    if r.issued != d.issued {
      assert r.issued[..|r.issued| - 1] == d.issued;
    }
    forall i | 0 <= i < |start| ensures RowInv(r, i) {
      assert RowInv(d, i);
      if i != at && at < |start| {
        assert start[i].wallet != start[at].wallet;
      }
    }
  }

  lemma StepKeepsMarks(start: seq<ClaimDoc>, d: Desk, e: Event)
    requires Inv(start, d) && AllSentMarked(start, d)
    ensures AllSentMarked(start, Step(d, e))
  {
    FindSame(d.docs, start, e.wallet, 0);
    forall k | 0 <= k < |Step(d, e).sent| ensures SentIsMarked(start, Step(d, e), Step(d, e).sent[k]) {
      assert k < |d.sent| ==> SentIsMarked(start, d, d.sent[k]);
    }
  }

  lemma {:induction false} RunKeepsInv(start: seq<ClaimDoc>, events: seq<Event>)
    requires UniqueWallets(start)
    ensures Inv(start, Run(Desk(start, [], []), events)) && AllSentMarked(start, Run(Desk(start, [], []), events))
  {
    if events != [] {
      RunKeepsInv(start, events[..|events| - 1]);
      StepKeepsMarks(start, Run(Desk(start, [], []), events[..|events| - 1]), events[|events| - 1]);
      StepKeepsInv(start, Run(Desk(start, [], []), events[..|events| - 1]), events[|events| - 1]);
    }
  }

  // ---------- the total ----------

  function SumIssued(docs: seq<ClaimDoc>, issued: seq<Issue>, m: nat): int
    requires m <= |docs|
  {
    if m == 0 then 0 else SumIssued(docs, issued, m - 1) + IssuedTo(issued, docs[m - 1].wallet)
  }

  function SumAmounts(docs: seq<ClaimDoc>, m: nat): int
    requires m <= |docs|
  {
    if m == 0 then 0 else SumAmounts(docs, m - 1) + docs[m - 1].amount
  }

  lemma {:induction false} SumOfOneMore(docs: seq<ClaimDoc>, issued: seq<Issue>, x: Issue, m: nat)
    requires UniqueWallets(docs) && m <= |docs|
    ensures SumIssued(docs, issued + [x], m)
         == SumIssued(docs, issued, m) + if Find(docs, x.wallet, 0) < m then x.amount else 0
  {
    if m > 0 {
      SumOfOneMore(docs, issued, x, m - 1);
      assert (issued + [x])[..|issued|] == issued;
    }
  }

  lemma {:induction false} SumByWallet(docs: seq<ClaimDoc>, issued: seq<Issue>)
    requires UniqueWallets(docs)
    requires forall k :: 0 <= k < |issued| ==> Find(docs, issued[k].wallet, 0) < |docs|
    ensures IssuedTotal(issued) == SumIssued(docs, issued, |docs|)
  {
    if issued == [] {
      NothingIssued(docs, |docs|);
    } else {
      var front := issued[..|issued| - 1];
      SumByWallet(docs, front);
      SumOfOneMore(docs, front, issued[|issued| - 1], |docs|);
      assert front + [issued[|issued| - 1]] == issued;
    }
  }

  lemma {:induction false} NothingIssued(docs: seq<ClaimDoc>, m: nat)
    requires m <= |docs|
    ensures SumIssued(docs, [], m) == 0
  {
    if m > 0 {
      NothingIssued(docs, m - 1);
    }
  }

  lemma {:induction false} IssuedWithinAmounts(start: seq<ClaimDoc>, d: Desk, m: nat)
    requires Inv(start, d) && m <= |start|
    requires forall i :: 0 <= i < |start| ==> start[i].amount >= 0
    ensures SumIssued(start, d.issued, m) <= SumAmounts(start, m)
  {
    if m > 0 {
      IssuedWithinAmounts(start, d, m - 1);
      assert RowInv(d, m - 1) && d.docs[m - 1].wallet == start[m - 1].wallet;
    }
  }

  lemma {:induction false} AmountsAreClaims(size: real, fs: seq<int>, docs: seq<ClaimDoc>, m: nat)
    requires |fs| == |docs| && Total(fs, |fs|) != 0 && m <= |fs|
    requires forall i :: 0 <= i < |fs| ==> docs[i].amount == Rounded(size, fs[i], Total(fs, |fs|))
    ensures SumAmounts(docs, m) == SumRounded(size, fs, Total(fs, |fs|), m)
  {
    if m > 0 {
      AmountsAreClaims(size, fs, docs, m - 1);
    }
  }

  /** Over any run of claim steps no wallet is issued more than one claim, and that one is
      its stored amount. */
  lemma OneClaimPerWallet(start: seq<ClaimDoc>, events: seq<Event>, i: nat)
    requires UniqueWallets(start) && i < |start|
    ensures var issued := Run(Desk(start, [], []), events).issued;
      && Claims(issued, start[i].wallet) <= 1
      && IssuedTo(issued, start[i].wallet) == if Claims(issued, start[i].wallet) == 0 then 0 else start[i].amount
  {
    RunKeepsInv(start, events);
    var d := Run(Desk(start, [], []), events);
    assert RowInv(d, i) && d.docs[i].wallet == start[i].wallet;
  }

  /** The event marks the wallet's row: an issued claim, or one that is being sent. */
  predicate Marks(e: Event, wallet: string)
  {
    e.wallet == wallet && (if e.CreateClaim? then e.checksPass else e.nonce)
  }

  predicate MarkedIn(events: seq<Event>, wallet: string)
  {
    exists k :: 0 <= k < |events| && Marks(events[k], wallet)
  }

  /** The first event that marks the row is the issue of a claim. */
  ghost predicate IssuedFirst(events: seq<Event>, wallet: string)
  {
    exists k :: 0 <= k < |events| && Marks(events[k], wallet) && events[k].CreateClaim?
      && !MarkedIn(events[..k], wallet)
  }

  lemma IssuedFirstLater(front: seq<Event>, e: Event, wallet: string)
    ensures MarkedIn(front + [e], wallet) <==> MarkedIn(front, wallet) || Marks(e, wallet)
    ensures IssuedFirst(front + [e], wallet)
      <==> IssuedFirst(front, wallet) || (Marks(e, wallet) && e.CreateClaim? && !MarkedIn(front, wallet))
  {
    var events := front + [e];
    forall k | 0 <= k < |front| ensures events[k] == front[k] && events[..k] == front[..k] {}
    assert events[|front|] == e && events[..|front|] == front;
    if k :| 0 <= k < |events| && Marks(events[k], wallet) && k < |front| {
      assert Marks(front[k], wallet);
    }
  }

  lemma IssuedIsMarked(events: seq<Event>, wallet: string)
    requires IssuedFirst(events, wallet)
    ensures MarkedIn(events, wallet)
  {}

  /** The row is marked exactly by the run, and its claim issued exactly when that marked it. */
  ghost predicate FollowsMarks(d: Desk, events: seq<Event>, wallet: string, i: nat)
  {
    && i < |d.docs| && (d.docs[i].isClaim <==> MarkedIn(events, wallet))
    && Claims(d.issued, wallet) == if IssuedFirst(events, wallet) then 1 else 0
  }

  lemma {:induction false} RunFollowsMarks(start: seq<ClaimDoc>, events: seq<Event>, i: nat)
    requires UniqueWallets(start) && i < |start| && !start[i].isClaim && !start[i].error && start[i].amount != 0
    ensures FollowsMarks(Run(Desk(start, [], []), events), events, start[i].wallet, i)
  {
    if events == [] {
      assert !MarkedIn(events, start[i].wallet) && !IssuedFirst(events, start[i].wallet);
    } else {
      var front, e := events[..|events| - 1], events[|events| - 1];
      RunFollowsMarks(start, front, i);
      RunKeepsInv(start, front);
      StepFollowsMarks(start, Run(Desk(start, [], []), front), front, e, i);
      assert events == front + [e];
    }
  }

  lemma StepFollowsMarks(start: seq<ClaimDoc>, d: Desk, front: seq<Event>, e: Event, i: nat)
    requires UniqueWallets(start) && Inv(start, d) && i < |start| && !start[i].error && start[i].amount != 0
    requires FollowsMarks(d, front, start[i].wallet, i)
    ensures FollowsMarks(Step(d, e), front + [e], start[i].wallet, i)
  {
    IssuedFirstLater(front, e, start[i].wallet);
    ClaimStep(start, d, e, i);
    if IssuedFirst(front, start[i].wallet) {
      IssuedIsMarked(front, start[i].wallet);
    }
  }

  /** Every claim that passes the checks and finds an unmarked, good row is issued, once and in
      full: over any run, exactly the wallets whose first mark is a claim have been issued their
      stored amount. */
  lemma ClaimIsIssuedIff(start: seq<ClaimDoc>, events: seq<Event>, i: nat)
    requires UniqueWallets(start) && i < |start| && !start[i].isClaim && !start[i].error && start[i].amount != 0
    ensures IssuedTo(Run(Desk(start, [], []), events).issued, start[i].wallet)
      == if IssuedFirst(events, start[i].wallet) then start[i].amount else 0
  {
    RunFollowsMarks(start, events, i);
    OneClaimPerWallet(start, events, i);
  }

  /** One event, for one unclaimed good row. */
  lemma ClaimStep(start: seq<ClaimDoc>, d: Desk, e: Event, i: nat)
    requires UniqueWallets(start) && Inv(start, d) && i < |start| && !start[i].error && start[i].amount != 0
    ensures var w, t := start[i].wallet, Step(d, e);
      && |t.docs| == |start| && (t.docs[i].isClaim <==> d.docs[i].isClaim || Marks(e, w))
      && Claims(t.issued, w) == Claims(d.issued, w)
          + if Marks(e, w) && e.CreateClaim? && !d.docs[i].isClaim then 1 else 0
  {
    var at := Find(d.docs, e.wallet, 0);
    FindSame(d.docs, start, e.wallet, 0);
    if e.wallet == start[i].wallet {
      assert at == i;
    } else if at < |start| {
      assert start[at].wallet != start[i].wallet;
    }
    var t := Step(d, e);
    if t.issued != d.issued {
      assert t.issued[..|t.issued| - 1] == d.issued;
    }
  }

  /** And no claim is ever sent for a row that is not marked. */
  lemma SentOnlyMarked(start: seq<ClaimDoc>, events: seq<Event>, wallet: string)
    requires UniqueWallets(start)
    ensures var d := Run(Desk(start, [], []), events);
      wallet in d.sent && Find(start, wallet, 0) < |start| ==>
        |d.docs| == |start| && d.docs[Find(start, wallet, 0)].isClaim
  {
    RunKeepsInv(start, events);
    var d := Run(Desk(start, [], []), events);
    if wallet in d.sent {
      var k :| 0 <= k < |d.sent| && d.sent[k] == wallet;
      assert SentIsMarked(start, d, d.sent[k]);
    }
  }

  lemma IssuedWithinClaims(start: seq<ClaimDoc>, events: seq<Event>)
    requires UniqueWallets(start) && forall i :: 0 <= i < |start| ==> start[i].amount >= 0
    ensures IssuedTotal(Run(Desk(start, [], []), events).issued) <= SumAmounts(start, |start|)
  {
    var d := Run(Desk(start, [], []), events);
    RunKeepsInv(start, events);
    SumByWallet(start, d.issued);
    IssuedWithinAmounts(start, d, |start|);
  }

  /** Over any run of claim steps after one calculation, all claims issued stay within the
      pool and its rounding slack. */
  lemma IssuedWithinPool(size: real, fs: seq<int>, start: seq<ClaimDoc>, events: seq<Event>)
    requires size >= 0.0 && Total(fs, |fs|) > 0 && |fs| == |start| && UniqueWallets(start)
    requires forall i :: 0 <= i < |fs| ==> fs[i] >= 0
    requires forall i :: 0 <= i < |fs| ==> start[i].amount == Rounded(size, fs[i], Total(fs, |fs|))
    ensures IssuedTotal(Run(Desk(start, [], []), events).issued) as real <= size + Times(|fs| as real, Slack(size))
  {
    forall i | 0 <= i < |start| ensures start[i].amount >= 0 {
      ClaimsPreserveOrder(size, 0, fs[i], Total(fs, |fs|));
      ZeroClaim(size, Total(fs, |fs|));
    }
    IssuedWithinClaims(start, events);
    AmountsAreClaims(size, fs, start, |fs|);
    PoolBound(size, fs);
  }

  lemma ZeroClaim(size: real, total: int)
    requires total != 0
    ensures Rounded(size, 0, total) == 0
  {
    assert Over(0.0, total as real) == 0.0 && Times(0.0, E20) == 0.0 && Over(0.0, E20) == 0.0;
    assert Times(0.0, size) == 0.0;
  }
}
