/** How a stopped contribution is split between the contributor and the investors, in
    lamports (10^-9 of a token); durations in hours. */
module ContributionSplit {
  import opened Options
  import opened Decimal

  const LAMPORTS_PER_SOL: real := 1_000_000_000.0
  const MS_PER_HOUR: real := 3_600_000.0

  /** allocation is the investor's percentage, None for a member that is no investor. */
  datatype Member = Member(id: string, user: Option<string>, orgUser: Option<string>, impactRatio: real,
    allocation: Option<real>, lamportsEarned: int, contributed: real)

  datatype Part = Part(member: string, amount: int, duration: real)

  function Lamports(duration: real, impactRatio: real): int
  {
    JsRound(Times(Times(duration, impactRatio), LAMPORTS_PER_SOL))
  }

  function InvestorShare(lamports: int, allocation: real): int
  {
    JsRound(Times(Over(allocation, 100.0), lamports as real))
  }

  // ---------- the investors' parts ----------

  function InvestorParts(members: seq<Member>, lamports: int): seq<Part>
  {
    if members == [] then []
    else match members[|members| - 1].allocation
      case None => InvestorParts(members[..|members| - 1], lamports)
      case Some(a) =>
        InvestorParts(members[..|members| - 1], lamports)
        + [Part(members[|members| - 1].id, InvestorShare(lamports, a), 0.0)]
  }

  function Amounts(parts: seq<Part>): int
  {
    if parts == [] then 0 else Amounts(parts[..|parts| - 1]) + parts[|parts| - 1].amount
  }

  function Investors(members: seq<Member>): nat
  {
    if members == [] then 0
    else if members[|members| - 1].allocation.Some? then Investors(members[..|members| - 1]) + 1
    else Investors(members[..|members| - 1])
  }

  function Allocations(members: seq<Member>): real
  {
    if members == [] then 0.0
    else match members[|members| - 1].allocation
      case None => Allocations(members[..|members| - 1])
      case Some(a) => Allocations(members[..|members| - 1]) + a
  }

  /** The whole split: the investors, then the contributor with what is left. */
  function Split(members: seq<Member>, contributor: string, lamports: int, duration: real): seq<Part>
  {
    var shares := InvestorParts(members, lamports);
    shares + [Part(contributor, lamports - Amounts(shares), duration)]
  }

  /** `_calculateAndUpdateInvestorsShares`. */
  method InvestorsShares(members: seq<Member>, lamports: int) returns (receivers: seq<Part>, total: int)
    ensures receivers == InvestorParts(members, lamports) && total == Amounts(receivers)
  {
    receivers, total := [], 0;
    for i := 0 to |members|
      invariant receivers == InvestorParts(members[..i], lamports) && total == Amounts(receivers)
    {
      assert members[..i + 1][..i] == members[..i];
      var investor := members[i];
      if investor.allocation.Some? {
        var share := InvestorShare(lamports, investor.allocation.value);
        total := total + share;
        ghost var before := receivers;
        receivers := receivers + [Part(investor.id, share, 0.0)];
        assert receivers[..|receivers| - 1] == before;
      }
    }
    assert members[..|members|] == members;
  }

  /** The parts add up to what was earned, exactly, whatever the allocations. */
  lemma {:induction false} SplitAddsUp(members: seq<Member>, contributor: string, lamports: int, duration: real)
    ensures Amounts(Split(members, contributor, lamports, duration)) == lamports
  {
    var s := Split(members, contributor, lamports, duration);
    assert s[..|s| - 1] == InvestorParts(members, lamports);
  }

  /** total is near the share of the percentage sum, n half-units at most. */
  ghost predicate NearShare(total: int, sum: real, lamports: int, n: nat)
  {
    Abs(total as real - Times(Over(sum, 100.0), lamports as real)) <= Times(n as real, 0.5)
  }

  lemma OneMoreInvestor(total: int, sum: real, lamports: int, n: nat, a: real)
    requires NearShare(total, sum, lamports, n)
    ensures NearShare(total + InvestorShare(lamports, a), sum + a, lamports, n + 1)
  {
    RoundError(Times(Over(a, 100.0), lamports as real));
    OverAdd(sum, a, 100.0);
    TimesAdd(Over(sum, 100.0), Over(a, 100.0), lamports as real);
    TimesAdd(n as real, 1.0, 0.5);
  }

  lemma {:induction false} SharesError(members: seq<Member>, lamports: int)
    ensures NearShare(Amounts(InvestorParts(members, lamports)), Allocations(members), lamports, Investors(members))
  {
    if members == [] {
      OverAdd(0.0, 0.0, 100.0);
      TimesAdd(0.0, 0.0, lamports as real);
      TimesAdd(0.0, 0.0, 0.5);
    } else {
      var front, m := members[..|members| - 1], members[|members| - 1];
      SharesError(front, lamports);
      if m.allocation.Some? {
        var parts := InvestorParts(members, lamports);
        assert parts[..|parts| - 1] == InvestorParts(front, lamports);
        OneMoreInvestor(Amounts(InvestorParts(front, lamports)), Allocations(front), lamports, Investors(front),
          m.allocation.value);
      }
    }
  }

  /** The contributor gets the earned lamports times (100 - allocations)/100, up to half a
      lamport per investor. */
  lemma {:induction false} ContributorsPart(members: seq<Member>, contributor: string, lamports: int, duration: real)
    ensures var split := Split(members, contributor, lamports, duration);
      && split[|split| - 1].member == contributor
      && Abs(split[|split| - 1].amount as real - Times(Over(100.0 - Allocations(members), 100.0), lamports as real))
         <= Times(Investors(members) as real, 0.5)
  {
    SharesError(members, lamports);
    OverSub(100.0, Allocations(members), 100.0);
    OverAdd(100.0, 0.0, 100.0);
    var p, l := Over(Allocations(members), 100.0), lamports as real;
    TimesAdd(1.0 - p, p, l);
  }
}
