/** `calculateEquity` and `collectEquity`: an equity allocation is pulled pro rata from the
    existing holders, in batches that may fail. Equity is in percent; a token holds `mint`
    base units, and 10^9 is a multiple of it (up to nine decimals). */
module Dilution {
  import opened Options
  import opened Decimal
  import opened Batches
  import opened Ledger

  /** A member of the organisation, with the user or organisation behind it. */
  datatype Member = Member(id: string, user: Option<string>, orgUser: Option<string>, wallet: string)

  /** A recorded investor that is not to be diluted. */
  datatype Skipped = Skipped(user: Option<string>, orgUser: Option<string>, equityAmount: real)

  /** An entry of the map that collects what is taken from each member. */
  datatype Entry = Entry(id: string, wallet: string, amount: real, processed: bool, failed: bool)

  // ---------- one holder ----------

  function Equity(base: nat, mint: real): real
    requires mint > 0.0
  {
    Over(base as real, mint)
  }

  /** The percentage taken from a holder: nine decimals. */
  function Amount(equity: real, allocation: real, free: real): real
    requires free != 0.0
  {
    ToFixed(Times(Div(allocation, free), equity), E9)
  }

  /** The base units moved on chain: `Math.round`. */
  function Pulled(amount: real, mint: real): int
  {
    JsRound(Times(amount, mint))
  }

  lemma RatioRange(allocation: real, free: real)
    requires 0.0 <= allocation <= free && free > 0.0
    ensures 0.0 <= Div(allocation, free) <= 1.0
  {
    OverMonotone(0.0, allocation, free);
    OverMonotone(allocation, free, free);
    OverAdd(0.0, free, free);
    ToFixedMonotone(0.0, Over(allocation, free), E20);
    ToFixedMonotone(Over(allocation, free), 1.0, E20);
    ToFixedOnGrid(0, E20);
    OverAdd(0.0, 0.0, E20);
    OverTimes(1.0, E20);
    ToFixedOnGrid(100_000_000_000_000_000_000, E20);
  }

  /** A balance in base units has at most nine decimals. */
  lemma EquityOnGrid(base: nat, mint: real, r: nat)
    requires mint > 0.0 && Times(r as real, mint) == E9
    ensures ToFixed(Equity(base, mint), E9) == Equity(base, mint)
  {
    var e := Equity(base, mint);
    OverTimes(base as real, mint);
    assert Times(e, E9) == Times(Times(e, mint), r as real);
    assert Times(e, E9) == (base * r) as real;
    OverTimes(e, E9);
    ToFixedOnGrid(base * r, E9);
  }

  /** The pull from a holder of base units is between nothing and all it has. */
  ghost predicate Affordable(base: nat, mint: real, allocation: real, free: real)
    requires mint > 0.0 && free != 0.0
  {
    0 <= Pulled(Amount(Equity(base, mint), allocation, free), mint) <= base
  }

  /** With a ratio from 0 to 1 no holder loses more than it has, and none gains. */
  lemma PulledWithinBalance(base: nat, mint: real, r: nat, q: real)
    requires mint > 0.0 && Times(r as real, mint) == E9 && 0.0 <= q <= 1.0
    ensures 0 <= Pulled(ToFixed(Times(q, Equity(base, mint)), E9), mint) <= base
  {
    var e := Equity(base, mint);
    OverMonotone(0.0, base as real, mint);
    OverAdd(0.0, 0.0, mint);
    TimesMonotone(0.0, q, e);
    TimesMonotone(q, 1.0, e);
    TimesAdd(0.0, 0.0, e);
    EquityOnGrid(base, mint, r);
    ToFixedMonotone(0.0, Times(q, e), E9);
    ToFixedMonotone(Times(q, e), e, E9);
    ToFixedOnGrid(0, E9);
    OverAdd(0.0, 0.0, E9);
    var a := ToFixed(Times(q, e), E9);
    TimesMonotone(0.0, a, mint);
    TimesMonotone(a, e, mint);
    TimesAdd(0.0, 0.0, mint);
    OverTimes(base as real, mint);
    RoundMonotone(0.0, Times(a, mint));
    RoundMonotone(Times(a, mint), base as real);
    RoundWhole(0.0, 0);
    RoundWhole(0.0, base);
  }

  // ---------- pulls in units of the ninth decimal ----------

  /** What is taken from a holder at ratio q, in units of the ninth decimal; a base unit has r. */
  function NinthUnits(q: real, base: nat, r: nat): int
  {
    RoundHalfUp(Times(q, (r * base) as real))
  }

  lemma PullInUnits(q: real, base: nat, mint: real, r: nat)
    requires mint > 0.0 && Times(r as real, mint) == E9
    ensures r > 0
    ensures Pulled(ToFixed(Times(q, Equity(base, mint)), E9), mint)
      == JsRound(Over(NinthUnits(q, base, r) as real, r as real))
  {
    var e, n := Equity(base, mint), NinthUnits(q, base, r) as real;
    TimesAdd(0.0, 0.0, mint);
    OverTimes(base as real, mint);
    assert Times(e, E9) == Times(Times(e, mint), r as real);
    assert Times(e, E9) == (r * base) as real;
    assert Times(Times(q, e), E9) == Times(q, Times(e, E9));
    OverTimes(n, E9);
    OverTimes(n, r as real);
    assert Times(Over(n, E9), mint) == Over(n, r as real) by {
      assert Times(Times(Over(n, E9), mint), r as real) == Times(Over(n, E9), Times(r as real, mint));
      OverTimes(Times(Over(n, E9), mint), r as real);
    }
  }

  /** n units of the ninth decimal, rounded to base units of r each, are between nothing and all
      of the given units. */
  predicate Fits(n: int, all: nat, r: nat)
  {
    0 <= 2 * n + r && 2 * n < 2 * all + r
  }

  lemma WholeUnits(n: int, base: nat, r: nat)
    requires r > 0
    ensures 0 <= JsRound(Over(n as real, r as real)) <= base <==> Fits(n, r * base, r)
  {
    var x := Over(n as real, r as real);
    OverTimes(n as real, r as real);
    assert x + 0.5 >= 0.0 <==> 0 <= 2 * n + r by {
      SameSign(x + 0.5, r as real);
      assert Times(x + 0.5, r as real) == n as real + 0.5 * r as real;
    }
    assert x - 0.5 - base as real >= 0.0 <==> 2 * n >= 2 * (r * base) + r by {
      SameSign(x - 0.5 - base as real, r as real);
      assert Times(x - 0.5 - base as real, r as real) == n as real - 0.5 * r as real - (r * base) as real;
    }
  }

  lemma SameSign(x: real, u: real)
    requires u > 0.0
    ensures x >= 0.0 <==> Times(x, u) >= 0.0
  {}

  lemma NegativeRatioFits(q: real, b: nat, m: nat, r: nat)
    requires q < 0.0 && b <= m && r > 0 && Fits(RoundHalfUp(Times(q, m as real)), m, r)
    ensures Fits(RoundHalfUp(Times(q, b as real)), b, r)
  {
    var x, y := b as real, m as real;
    TimesMonotone(x, y, -q);
    TimesMonotone(0.0, x, -q);
    TimesAdd(0.0, 0.0, -q);
    assert Times(q, x) == -Times(x, -q) && Times(q, y) == -Times(y, -q);
    RoundMonotone(Times(q, y), Times(q, x));
    RoundMonotone(Times(q, x), 0.0);
  }

  lemma RatioUpToOneFits(q: real, b: nat, r: nat)
    requires 0.0 <= q <= 1.0 && r > 0
    ensures Fits(RoundHalfUp(Times(q, b as real)), b, r)
  {
    TimesMonotone(0.0, q, b as real);
    TimesMonotone(q, 1.0, b as real);
    TimesAdd(0.0, 0.0, b as real);
    RoundMonotone(0.0, Times(q, b as real));
    RoundMonotone(Times(q, b as real), b as real);
    RoundWhole(0.0, b);
  }

  /** Above ratio 1 the excess over what is held grows with it. */
  lemma RatioAboveOneFits(q: real, b: nat, m: nat, r: nat)
    requires q > 1.0 && b <= m && r > 0 && Fits(RoundHalfUp(Times(q, m as real)), m, r)
    ensures Fits(RoundHalfUp(Times(q, b as real)), b, r)
  {
    ExcessOf(q, b);
    ExcessOf(q, m);
    TimesMonotone(b as real, m as real, q - 1.0);
    RoundMonotone(Times(b as real, q - 1.0), Times(m as real, q - 1.0));
    RoundMonotone(0.0, Times(b as real, q - 1.0));
  }

  lemma ExcessOf(q: real, b: nat)
    requires q > 1.0
    ensures Times(b as real, q - 1.0) >= 0.0
    ensures RoundHalfUp(Times(q, b as real)) == b + RoundHalfUp(Times(b as real, q - 1.0))
  {
    var x := b as real;
    TimesMonotone(0.0, x, q - 1.0);
    TimesAdd(0.0, 0.0, q - 1.0);
    assert Times(q, x) == x + Times(x, q - 1.0);
    RoundWhole(Times(q, x), b);
  }

  /** A pull stays affordable for every smaller balance. */
  lemma SmallerFits(q: real, b: nat, m: nat, r: nat)
    requires b <= m && r > 0 && Fits(RoundHalfUp(Times(q, m as real)), m, r)
    ensures Fits(RoundHalfUp(Times(q, b as real)), b, r)
  {
    if q < 0.0 {
      NegativeRatioFits(q, b, m, r);
    } else if q <= 1.0 {
      RatioUpToOneFits(q, b, r);
    } else {
      RatioAboveOneFits(q, b, m, r);
    }
  }

  lemma MoreUnits(base: nat, most: nat, r: nat)
    requires base <= most
    ensures 0 <= r * base <= r * most
  {}

  /** Every holder of up to most base units can afford its pull if and only if a holder of most
      can: the largest holder decides. */
  lemma AffordableIff(most: nat, mint: real, r: nat, allocation: real, free: real)
    requires mint > 0.0 && Times(r as real, mint) == E9 && free != 0.0
    ensures (forall base: nat :: base <= most ==> Affordable(base, mint, allocation, free))
      <==> Affordable(most, mint, allocation, free)
  {
    var q := Div(allocation, free);
    PullInUnits(q, most, mint, r);
    WholeUnits(NinthUnits(q, most, r), most, r);
    if Affordable(most, mint, allocation, free) {
      forall base: nat | base <= most ensures Affordable(base, mint, allocation, free) {
        PullInUnits(q, base, mint, r);
        WholeUnits(NinthUnits(q, base, r), base, r);
        MoreUnits(base, most, r);
        SmallerFits(q, r * base, r * most, r);
      }
    }
  }

  /** Percentages with nine decimals, given in units of the ninth. */
  function Percent(units: int): real { Over(units as real, E9) }

  const GRID_LIMIT := 200_000_000_000_000_000_000

  lemma RatioOfUnits(a: int, f: int)
    requires f != 0
    ensures Percent(f) != 0.0 && Over(Percent(a), Percent(f)) == Over(a as real, f as real)
  {
    OverTimes(a as real, E9);
    OverTimes(f as real, E9);
    var q := Over(a as real, f as real);
    OverTimes(a as real, f as real);
    assert Times(q, Percent(f)) == Percent(a);
    OverTimes(q, Percent(f));
  }

  lemma UnitOutside(a: int, f: int)
    requires a > 0 && -GRID_LIMIT <= f <= GRID_LIMIT && f != 0 && !(a <= f)
    ensures var x := Times(Over(a as real, f as real), E20); x >= E20 + 0.5 || x <= -0.5
  {
    var q := Over(a as real, f as real);
    OverTimes(a as real, f as real);
    if f > 0 {
      OverMonotone((f + 1) as real, a as real, f as real);
      OverAdd(f as real, 1.0, f as real);
      SmallUnit(f as real);
      TimesMonotone(1.0 + Over(1.0, f as real), q, E20);
      TimesAdd(1.0, Over(1.0, f as real), E20);
    } else {
      SmallUnit((-f) as real);
      assert q == -Over(a as real, (-f) as real);
      OverMonotone(1.0, a as real, (-f) as real);
      TimesMonotone(q, -Over(1.0, (-f) as real), E20);
      assert Times(-Over(1.0, (-f) as real), E20) == -Times(Over(1.0, (-f) as real), E20);
    }
  }

  lemma SmallUnit(f: real)
    requires 0.0 < f <= GRID_LIMIT as real
    ensures Times(Over(1.0, f), E20) >= 0.5
  {
    var u := Over(1.0, f);
    OverTimes(1.0, f);
    OverMonotone(0.0, 1.0, f);
    OverAdd(0.0, 0.0, f);
    TimesMonotone(f, GRID_LIMIT as real, u);
    assert Times(f, u) == Times(u, f);
  }

  /** The guard that the code does not have: with nine decimals the ratio is from 0 to 1 if
      and only if the allocation is at most the percentage that is not skipped. */
  lemma GuardIff(a: int, f: int)
    requires a > 0 && -GRID_LIMIT <= f <= GRID_LIMIT && f != 0
    ensures 0.0 <= Div(Percent(a), Percent(f)) <= 1.0 <==> Percent(a) <= Percent(f)
  {
    RatioOfUnits(a, f);
    OverMonotone(0.0, a as real, E9);
    OverAdd(0.0, 0.0, E9);
    if a <= f {
      OverMonotone(a as real, f as real, E9);
      assert Percent(f) > 0.0;
      RatioRange(Percent(a), Percent(f));
    } else {
      OverMonotone(f as real, (a - 1) as real, E9);
      assert Percent(a - 1) < Percent(a);
      UnitOutside(a, f);
      OutsideRounds(Over(a as real, f as real));
    }
  }

  lemma OutsideRounds(q: real)
    requires Times(q, E20) >= E20 + 0.5 || Times(q, E20) <= -0.5
    ensures ToFixed(q, E20) < 0.0 || ToFixed(q, E20) > 1.0
  {
    var k := RoundHalfUp(Times(q, E20));
    assert k >= 100_000_000_000_000_000_001 || k <= -1;
  }

  /** A single holder of the whole remaining percentage is asked for exactly the allocation,
      whatever the decimals of the mint. */
  lemma SoleHolderPays(a: int, u: nat, mint: real, r: nat)
    requires mint > 0.0 && Times(r as real, mint) == E9 && u > 0 && r * u < 100_000_000_000_000_000_000
    ensures Equity(u, mint) == Percent(r * u) > 0.0
    ensures Amount(Equity(u, mint), Percent(a), Equity(u, mint)) == Percent(a)
  {
    var f := r * u;
    OverTimes(u as real, mint);
    assert Times(Equity(u, mint), E9) == Times(Times(Equity(u, mint), mint), r as real);
    OverTimes(Equity(u, mint), E9);
    TimesAdd(0.0, 0.0, mint);
    StrictTimes(0.0, Over(1.0, E9), f as real);
    assert Times(Over(1.0, E9), f as real) == Percent(f) && Times(0.0, f as real) == 0.0;
    UnitsPaid(a, f);
  }

  lemma UnitsPaid(a: int, f: nat)
    requires 0 < f < 100_000_000_000_000_000_000
    ensures Percent(f) != 0.0 && Amount(Percent(f), Percent(a), Percent(f)) == Percent(a)
  {
    RatioOfUnits(a, f);
    var e, x := Percent(f), Over(Percent(a), Percent(f));
    DivError(Percent(a), e);
    OverMonotone(0.0, f as real, E9);
    OverAdd(0.0, 0.0, E9);
    TimesError(Div(Percent(a), e), x, Over(0.5, E20), e);
    OverTimes(Percent(a), e);
    OverTimes(a as real, E9);
    OverTimes(f as real, E9);
    var v := Times(Div(Percent(a), e), e);
    TimesError(v, Percent(a), Times(Over(0.5, E20), e), E9);
    assert Times(Times(Over(0.5, E20), e), E9) == Over(0.5, E20) * f as real;
    NearWhole(Times(v, E9), a);
  }

  lemma NearWhole(x: real, k: int)
    requires Abs(x - k as real) < 0.5
    ensures RoundHalfUp(x) == k
  {}

  // ---------- all holders ----------

  /** How far the percentage moved may be from the exact share: one half-unit of the mint, one
      of the ninth decimal, and the error of the division. */
  function RoundingSlack(mint: real): real
    requires mint > 0.0
  {
    Over(0.5, mint) + Over(0.5, E9)
  }

  lemma PulledError(equity: real, mint: real, allocation: real, free: real)
    requires mint > 0.0 && free > 0.0 && equity >= 0.0
    ensures Abs(Over(Pulled(Amount(equity, allocation, free), mint) as real, mint)
              - Times(Over(allocation, free), equity))
         <= RoundingSlack(mint) + Times(Over(0.5, E20), equity)
  {
    var a := Amount(equity, allocation, free);
    DivError(allocation, free);
    TimesError(Div(allocation, free), Over(allocation, free), Over(0.5, E20), equity);
    ToFixedError(Times(Div(allocation, free), equity), E9);
    RoundError(Times(a, mint));
    OverError(Pulled(a, mint) as real, Times(a, mint), 0.5, mint);
    OverTimes(a, mint);
  }

  function EquityTotal(bases: seq<nat>, mint: real, m: nat): real
    requires mint > 0.0 && m <= |bases|
  {
    if m == 0 then 0.0 else EquityTotal(bases, mint, m - 1) + Equity(bases[m - 1], mint)
  }

  function PulledTotal(bases: seq<nat>, mint: real, allocation: real, free: real, m: nat): int
    requires mint > 0.0 && free != 0.0 && m <= |bases|
  {
    if m == 0 then 0 else
    var last := Pulled(Amount(Equity(bases[m - 1], mint), allocation, free), mint);
    PulledTotal(bases, mint, allocation, free, m - 1) + last
  }

  lemma {:induction false} PulledTotalError(bases: seq<nat>, mint: real, allocation: real, free: real, m: nat)
    requires mint > 0.0 && free > 0.0 && m <= |bases|
    ensures Abs(Over(PulledTotal(bases, mint, allocation, free, m) as real, mint)
              - Times(Over(allocation, free), EquityTotal(bases, mint, m)))
         <= Times(m as real, RoundingSlack(mint)) + Times(Over(0.5, E20), EquityTotal(bases, mint, m))
  {
    var q, d, s := Over(allocation, free), Over(0.5, E20), RoundingSlack(mint);
    OverAdd(0.0, 0.0, mint);
    TimesAdd(0.0, 0.0, s);
    if m == 0 {
      assert Times(q, 0.0) == 0.0 && Times(d, 0.0) == 0.0;
    } else {
      var e, f := EquityTotal(bases, mint, m - 1), Equity(bases[m - 1], mint);
      PulledTotalError(bases, mint, allocation, free, m - 1);
      OverMonotone(0.0, bases[m - 1] as real, mint);
      PulledError(f, mint, allocation, free);
      OverAdd(PulledTotal(bases, mint, allocation, free, m - 1) as real,
        Pulled(Amount(f, allocation, free), mint) as real, mint);
      TimesAdd((m - 1) as real, 1.0, s);
      TimesSplit(q, e, f);
      TimesSplit(d, e, f);
    }
  }

  lemma TimesSplit(u: real, a: real, b: real)
    ensures Times(u, a + b) == Times(u, a) + Times(u, b)
  {}

  /** When the diluted holders own exactly the percentage that is not skipped, what is pulled
      from them together is the allocation, up to the rounding of each pull. */
  lemma AllocationIsPulled(bases: seq<nat>, mint: real, allocation: real, free: real)
    requires mint > 0.0 && free > 0.0 && EquityTotal(bases, mint, |bases|) == free
    ensures Abs(Over(PulledTotal(bases, mint, allocation, free, |bases|) as real, mint) - allocation)
         <= Times(|bases| as real, RoundingSlack(mint)) + Times(Over(0.5, E20), free)
  {
    PulledTotalError(bases, mint, allocation, free, |bases|);
    OverTimes(allocation, free);
  }

  // ---------- calculateEquity ----------

  function SkipIds(skip: seq<Skipped>): set<string>
  {
    (set s | s in skip && s.user.Some? :: s.user.value) + (set s | s in skip && s.orgUser.Some? :: s.orgUser.value)
  }

  function SkipAmount(skip: seq<Skipped>, m: nat): real
    requires m <= |skip|
  {
    if m == 0 then 0.0 else SkipAmount(skip, m - 1) + skip[m - 1].equityAmount
  }

  /** The base units a wallet holds on chain; an unknown account holds none. */
  function Owned(balances: map<string, int>, wallet: string): nat
  {
    if Balance(balances, wallet) > 0 then Balance(balances, wallet) else 0
  }

  /** The database query, and holders without equity are passed over. */
  predicate Pays(m: Member, self: Option<string>, skipIds: set<string>, balances: map<string, int>)
  {
    && !(m.user.Some? && m.user.value in skipIds)
    && !(m.orgUser.Some? && m.orgUser.value in skipIds)
    && self != Some(m.id)
    && Owned(balances, m.wallet) > 0
  }

  function Entries(members: seq<Member>, self: Option<string>, skipIds: set<string>, balances: map<string, int>,
      mint: real, allocation: real, free: real): seq<Entry>
    requires mint > 0.0 && free != 0.0
  {
    if members == [] then [] else
    var rest := Entries(members[..|members| - 1], self, skipIds, balances, mint, allocation, free);
    var m := members[|members| - 1];
    if Pays(m, self, skipIds, balances)
    then rest + [Entry(m.id, m.wallet, Amount(Equity(Owned(balances, m.wallet), mint), allocation, free), false, false)]
    else rest
  }

  /** The skipped percentages are added up. */
  lemma {:induction false} SkipAmountAdds(a: seq<Skipped>, b: seq<Skipped>, m: nat)
    requires m <= |b|
    ensures SkipAmount(a + b, |a| + m) == SkipAmount(a, |a|) + SkipAmount(b, m)
    ensures m == 1 ==> SkipAmount(b, m) == b[0].equityAmount
  {
    if m > 0 {
      SkipAmountAdds(a, b, m - 1);
    } else {
      SkipAmountOfFirst(a, b, |a|);
    }
  }

  lemma {:induction false} SkipAmountOfFirst(a: seq<Skipped>, b: seq<Skipped>, m: nat)
    requires m <= |a|
    ensures SkipAmount(a + b, m) == SkipAmount(a, m)
  {
    if m > 0 {
      SkipAmountOfFirst(a, b, m - 1);
    }
  }

  // ---------- who is diluted ----------

  /** The id of a recorded investor, be it a user or an organisation. */
  ghost predicate Recorded(skip: seq<Skipped>, id: Option<string>)
  {
    id.Some? && exists s :: s in skip && (s.user == id || s.orgUser == id)
  }

  /** A member that holds tokens, is no recorded investor, and is not the given member. */
  ghost predicate Diluted(m: Member, self: Option<string>, skip: seq<Skipped>, balances: map<string, int>)
  {
    && !Recorded(skip, m.user) && !Recorded(skip, m.orgUser)
    && self != Some(m.id)
    && Balance(balances, m.wallet) > 0
  }

  lemma DilutedPays(m: Member, self: Option<string>, skip: seq<Skipped>, balances: map<string, int>)
    ensures Pays(m, self, SkipIds(skip), balances) <==> Diluted(m, self, skip, balances)
  {
    SkipIdIsRecorded(skip, m.user);
    SkipIdIsRecorded(skip, m.orgUser);
  }

  lemma SkipIdIsRecorded(skip: seq<Skipped>, id: Option<string>)
    ensures id.Some? ==> (id.value in SkipIds(skip) <==> Recorded(skip, id))
  {
    if id.Some? && id.value in SkipIds(skip) {
      if s :| s in skip && s.user.Some? && s.user.value == id.value {
        assert s.user == id;
      } else {
        var s :| s in skip && s.orgUser.Some? && s.orgUser.value == id.value;
        assert s.orgUser == id;
      }
    }
    if Recorded(skip, id) {
      var s :| s in skip && (s.user == id || s.orgUser == id);
    }
  }

  /** How many of the first k members are diluted. */
  ghost function DilutedCount(members: seq<Member>, self: Option<string>, skip: seq<Skipped>,
      balances: map<string, int>, k: nat): nat
    requires k <= |members|
  {
    if k == 0 then 0
    else if Diluted(members[k - 1], self, skip, balances) then DilutedCount(members, self, skip, balances, k - 1) + 1
    else DilutedCount(members, self, skip, balances, k - 1)
  }

  /** What each member would be asked for. */
  function Amounts(members: seq<Member>, balances: map<string, int>, mint: real, allocation: real,
      free: real): (r: seq<real>)
    requires mint > 0.0 && free != 0.0
    ensures |r| == |members|
  {
    seq(|members|, k requires 0 <= k < |members| =>
      Amount(Equity(Owned(balances, members[k].wallet), mint), allocation, free))
  }

  /** One entry for each diluted member, in the order of the members, and no other. */
  ghost predicate OneEntryEach(entries: seq<Entry>, members: seq<Member>, self: Option<string>, skip: seq<Skipped>,
      balances: map<string, int>, amounts: seq<real>, n: nat)
    requires n <= |members| == |amounts|
  {
    && |entries| == DilutedCount(members, self, skip, balances, n)
    && forall k {:trigger HasEntry(entries, members, self, skip, balances, amounts, k)} ::
      0 <= k < n && Diluted(members[k], self, skip, balances) ==>
        HasEntry(entries, members, self, skip, balances, amounts, k)
  }

  ghost predicate HasEntry(entries: seq<Entry>, members: seq<Member>, self: Option<string>, skip: seq<Skipped>,
      balances: map<string, int>, amounts: seq<real>, k: nat)
    requires k < |members| == |amounts|
  {
    var i := DilutedCount(members, self, skip, balances, k);
    i < |entries| && entries[i] == Entry(members[k].id, members[k].wallet, amounts[k], false, false)
  }

  lemma OneMoreMember(before: seq<Entry>, entries: seq<Entry>, members: seq<Member>, self: Option<string>,
      skip: seq<Skipped>, balances: map<string, int>, amounts: seq<real>, n: nat)
    requires 0 < n <= |members| == |amounts| && OneEntryEach(before, members, self, skip, balances, amounts, n - 1)
    requires entries == if Diluted(members[n - 1], self, skip, balances)
      then before + [Entry(members[n - 1].id, members[n - 1].wallet, amounts[n - 1], false, false)]
      else before
    ensures OneEntryEach(entries, members, self, skip, balances, amounts, n)
  {
    forall k | 0 <= k < n && Diluted(members[k], self, skip, balances)
      ensures HasEntry(entries, members, self, skip, balances, amounts, k)
    {
      if k < n - 1 {
        assert HasEntry(before, members, self, skip, balances, amounts, k);
      }
    }
  }

  lemma {:induction false} EntriesAreOfDiluted(members: seq<Member>, self: Option<string>, skip: seq<Skipped>,
      balances: map<string, int>, mint: real, allocation: real, free: real, n: nat)
    requires mint > 0.0 && free != 0.0 && n <= |members|
    ensures OneEntryEach(Entries(members[..n], self, SkipIds(skip), balances, mint, allocation, free), members, self,
      skip, balances, Amounts(members, balances, mint, allocation, free), n)
  {
    if n > 0 {
      EntriesAreOfDiluted(members, self, skip, balances, mint, allocation, free, n - 1);
      DilutedPays(members[n - 1], self, skip, balances);
      assert members[..n][..n - 1] == members[..n - 1];
      OneMoreMember(Entries(members[..n - 1], self, SkipIds(skip), balances, mint, allocation, free),
        Entries(members[..n], self, SkipIds(skip), balances, mint, allocation, free), members, self, skip, balances,
        Amounts(members, balances, mint, allocation, free), n);
    }
  }

  ghost predicate UniqueIds(members: seq<Member>)
  {
    forall i, j :: 0 <= i < j < |members| ==> members[i].id != members[j].id
  }

  ghost predicate Listed(entries: seq<Entry>, id: string)
  {
    exists e :: e in entries && e.id == id
  }

  /** A member has an entry exactly when it is diluted: it holds tokens, no recorded investor is
      its user or its organisation, and it is not the given member. */
  lemma HasEntryIff(members: seq<Member>, self: Option<string>, skip: seq<Skipped>, balances: map<string, int>,
      mint: real, allocation: real, free: real, k: nat)
    requires mint > 0.0 && free != 0.0 && k < |members| && UniqueIds(members)
    ensures Listed(Entries(members, self, SkipIds(skip), balances, mint, allocation, free), members[k].id)
      <==> Diluted(members[k], self, skip, balances)
  {
    var entries := Entries(members, self, SkipIds(skip), balances, mint, allocation, free);
    EntriesAreOfDiluted(members, self, skip, balances, mint, allocation, free, |members|);
    assert members[..|members|] == members;
    if Diluted(members[k], self, skip, balances) {
      assert HasEntry(entries, members, self, skip, balances, Amounts(members, balances, mint, allocation, free), k);
      assert entries[DilutedCount(members, self, skip, balances, k)] in entries;
    }
    if e :| e in entries && e.id == members[k].id {
      var j :| 0 <= j < |entries| && entries[j] == e;
      var i := EntryOfMember(members, self, SkipIds(skip), balances, mint, allocation, free, j);
      assert i == k;
      DilutedPays(members[k], self, skip, balances);
    }
  }

  /** `calculateEquity`; None is the division by zero that big.js throws when everything is
      skipped. */
  method CalculateEquity(members: seq<Member>, self: Option<string>, skip: seq<Skipped>, balances: map<string, int>,
      mint: real, allocation: real) returns (memberDataMap: Option<seq<Entry>>)
    requires mint > 0.0
    ensures var free := 100.0 - SkipAmount(skip, |skip|);
      if free != 0.0 then
        && memberDataMap == Some(Entries(members, self, SkipIds(skip), balances, mint, allocation, free))
        && OneEntryEach(memberDataMap.value, members, self, skip, balances,
          Amounts(members, balances, mint, allocation, free), |members|)
      else if exists m :: m in members && Diluted(m, self, skip, balances) then memberDataMap == None
      else memberDataMap == Some([])
  {
    var skipIds, skipAmount := SkipIds(skip), 0.0;
    for i := 0 to |skip|
      invariant skipAmount == SkipAmount(skip, i)
    {
      skipAmount := skipAmount + skip[i].equityAmount;
    }
    var free := 100.0 - skipAmount;
    var entries := [];
    for i := 0 to |members|
      invariant free != 0.0 ==> entries == Entries(members[..i], self, skipIds, balances, mint, allocation, free)
      invariant free == 0.0 ==> entries == [] && forall k :: 0 <= k < i ==> !Diluted(members[k], self, skip, balances)
    {
      assert members[..i + 1][..i] == members[..i];
      var m := members[i];
      DilutedPays(m, self, skip, balances);
      if Pays(m, self, skipIds, balances) {
        if free == 0.0 {
          assert m in members;
          return None;
        }
        entries := entries + [Entry(m.id, m.wallet, Amount(Equity(Owned(balances, m.wallet), mint), allocation, free),
          false, false)];
      }
    }
    assert members[..|members|] == members;
    if free != 0.0 {
      EntriesAreOfDiluted(members, self, skip, balances, mint, allocation, free, |members|);
    }
    memberDataMap := Some(entries);
  }

  // ---------- collectEquity ----------

  function Pulls(entries: seq<Entry>, buyer: string, mint: real): (r: seq<Transfer<string>>)
    ensures |r| == |entries|
  {
    seq(|entries|, k requires 0 <= k < |entries| => Transfer(entries[k].wallet, buyer, Pulled(entries[k].amount, mint)))
  }

  function Marked(e: Entry, failed: bool): Entry
  {
    e.(processed := true, failed := e.failed || failed)
  }

  /** Entries from lo to hi marked, the others as they were. */
  function MarkedBetween(entries: seq<Entry>, lo: nat, hi: nat, failed: bool): (r: seq<Entry>)
    ensures |r| == |entries|
  {
    seq(|entries|, k requires 0 <= k < |entries| => if lo <= k < hi then Marked(entries[k], failed) else entries[k])
  }

  /** What the loop leaves of the first n entries: processed, with the error of their batch. */
  function Collected(entries: seq<Entry>, ok: Chain, n: nat): (r: seq<Entry>)
    ensures |r| == |entries|
  {
    seq(|entries|, k requires 0 <= k < |entries| => if k < n
        then Marked(entries[k], !ok([], k / BATCH_SIZE)) else entries[k])
  }

  lemma CollectedOneMore(entries: seq<Entry>, ok: Chain, i: nat)
    requires i * BATCH_SIZE <= |entries|
    ensures MarkedBetween(Collected(entries, ok, i * BATCH_SIZE), i * BATCH_SIZE, Upper(entries, i), !ok([], i))
         == Collected(entries, ok, Upper(entries, i))
  {}

  class EquityCollection {
    var memberDataMap: seq<Entry>
    var balances: map<string, int>

    method MarkBatch(lo: nat, hi: nat, failed: bool)
      requires lo <= hi <= |memberDataMap|
      modifies this`memberDataMap
      ensures memberDataMap == MarkedBetween(old(memberDataMap), lo, hi, failed)
    {
      for j := lo to hi
        invariant memberDataMap == MarkedBetween(old(memberDataMap), lo, j, failed)
      {
        memberDataMap := memberDataMap[j := Marked(memberDataMap[j], failed)];
      }
    }

    /** Pulls the amounts batch by batch; a failed batch is recorded and skipped. */
    method CollectEquity(buyer: string, mint: real, ok: Chain)
      modifies this
      ensures memberDataMap == Collected(old(memberDataMap), ok, |old(memberDataMap)|)
      ensures balances == Applied(old(balances),
        Delivered(Pulls(old(memberDataMap), buyer, mint), ok, [], |old(memberDataMap)|))
    {
      ghost var entries := memberDataMap;
      var pulls := Pulls(memberDataMap, buyer, mint);
      var n := |memberDataMap|;
      for i := 0 to NumBatches(n)
        invariant memberDataMap == Collected(entries, ok, if i == NumBatches(n) then n else i * BATCH_SIZE)
        invariant balances == Applied(old(balances),
          Delivered(pulls, ok, [], if i == NumBatches(n) then n else i * BATCH_SIZE))
      {
        OneBatch(pulls, ok, [], i);
        CollectedOneMore(entries, ok, i);
        if ok([], i) {
          AppliedInTurn(old(balances), Delivered(pulls, ok, [], i * BATCH_SIZE), Slice(pulls, i));
          balances := Applied(balances, Slice(pulls, i));
        }
        MarkBatch(i * BATCH_SIZE, Upper(pulls, i), !ok([], i));
      }
    }
  }

  // ---------- what a collection does, whichever batches fail ----------

  function PulledFrom(entries: seq<Entry>, mint: real, ok: Chain, n: nat): int
    requires n <= |entries|
  {
    if n == 0 then 0
    else if ok([], (n - 1) / BATCH_SIZE) then PulledFrom(entries, mint, ok, n - 1) + Pulled(entries[n - 1].amount, mint)
    else PulledFrom(entries, mint, ok, n - 1)
  }

  lemma {:induction false} BuyerReceives(entries: seq<Entry>, buyer: string, mint: real, ok: Chain, n: nat)
    requires n <= |entries| && forall k :: 0 <= k < |entries| ==> entries[k].wallet != buyer
    ensures var ts := Delivered(Pulls(entries, buyer, mint), ok, [], n);
      In(ts, buyer) == PulledFrom(entries, mint, ok, n) && Out(ts, buyer) == 0
  {
    if n > 0 {
      BuyerReceives(entries, buyer, mint, ok, n - 1);
    }
  }

  /** What entry k loses: its pull when its batch succeeds. */
  function Loss(entries: seq<Entry>, mint: real, ok: Chain, k: nat): int
    requires k < |entries|
  {
    if ok([], k / BATCH_SIZE) then Pulled(entries[k].amount, mint) else 0
  }

  lemma {:induction false} HolderPays(entries: seq<Entry>, buyer: string, mint: real, ok: Chain, k: nat, n: nat)
    requires k < |entries| && n <= |entries| && entries[k].wallet != buyer
    requires forall j :: 0 <= j < |entries| && j != k ==> entries[j].wallet != entries[k].wallet
    ensures var ts := Delivered(Pulls(entries, buyer, mint), ok, [], n);
      && In(ts, entries[k].wallet) == 0
      && Out(ts, entries[k].wallet) == if k < n then Loss(entries, mint, ok, k) else 0
  {
    if n > 0 {
      HolderPays(entries, buyer, mint, ok, k, n - 1);
    }
  }

  ghost predicate OneWalletEach(entries: seq<Entry>, buyer: string)
  {
    && (forall k :: 0 <= k < |entries| ==> entries[k].wallet != buyer)
    && (forall j, k :: 0 <= j < |entries| && 0 <= k < |entries| && j != k ==> entries[j].wallet != entries[k].wallet)
  }

  /** For any set of failing batches: the buyer gains exactly what the successful batches
      pull, each holder loses exactly its own pull if its batch succeeded and nothing
      otherwise, and no token is made or lost. */
  lemma CollectionIsExact(entries: seq<Entry>, buyer: string, mint: real, ok: Chain, b: map<string, int>,
      wallets: seq<string>)
    requires OneWalletEach(entries, buyer)
    requires Unique(wallets) && buyer in wallets && forall k :: 0 <= k < |entries| ==> entries[k].wallet in wallets
    ensures var after := Applied(b, Delivered(Pulls(entries, buyer, mint), ok, [], |entries|));
      && Balance(after, buyer) == Balance(b, buyer) + PulledFrom(entries, mint, ok, |entries|)
      && (forall k :: 0 <= k < |entries| ==>
          Balance(after, entries[k].wallet) == Balance(b, entries[k].wallet) - Loss(entries, mint, ok, k))
      && Supply(after, wallets) == Supply(b, wallets)
  {
    var n, ts := |entries|, Delivered(Pulls(entries, buyer, mint), ok, [], |entries|);
    BuyerReceives(entries, buyer, mint, ok, n);
    BalanceAfter(b, ts, buyer);
    forall k | 0 <= k < n
      ensures Balance(Applied(b, ts), entries[k].wallet) == Balance(b, entries[k].wallet) - Loss(entries, mint, ok, k)
    {
      HolderPays(entries, buyer, mint, ok, k, n);
      BalanceAfter(b, ts, entries[k].wallet);
    }
    DeliveredAmong(entries, buyer, mint, ok, wallets, n);
    SupplyIsConserved(b, ts, wallets);
  }

  /** Afterwards every entry is processed, and it is marked as failed exactly when its holder has
      lost nothing. */
  lemma MarkedAsCollected(entries: seq<Entry>, buyer: string, mint: real, ok: Chain, b: map<string, int>, k: nat)
    requires OneWalletEach(entries, buyer) && k < |entries| && !entries[k].failed
    ensures var after, e := Applied(b, Delivered(Pulls(entries, buyer, mint), ok, [], |entries|)),
        Collected(entries, ok, |entries|)[k];
      && e.processed && e == entries[k].(processed := true, failed := e.failed)
      && Balance(after, e.wallet) == Balance(b, e.wallet) - if e.failed then 0 else Pulled(e.amount, mint)
  {
    HolderPays(entries, buyer, mint, ok, k, |entries|);
    BalanceAfter(b, Delivered(Pulls(entries, buyer, mint), ok, [], |entries|), entries[k].wallet);
  }

  ghost predicate Among(ts: seq<Transfer<string>>, wallets: seq<string>)
  {
    forall k :: 0 <= k < |ts| ==> ts[k].from in wallets && ts[k].to in wallets
  }

  lemma {:induction false} DeliveredAmong(entries: seq<Entry>, buyer: string, mint: real, ok: Chain,
      wallets: seq<string>, n: nat)
    requires n <= |entries| && buyer in wallets && forall k :: 0 <= k < |entries| ==> entries[k].wallet in wallets
    ensures Among(Delivered(Pulls(entries, buyer, mint), ok, [], n), wallets)
  {
    if n > 0 {
      DeliveredAmong(entries, buyer, mint, ok, wallets, n - 1);
      assert entries[n - 1].wallet in wallets;
    }
  }

  // ---------- calculated, then collected ----------

  /** The base units the entries' holders own. */
  function Bases(entries: seq<Entry>, balances: map<string, int>): (r: seq<nat>)
    ensures |r| == |entries|
  {
    seq(|entries|, k requires 0 <= k < |entries| => Owned(balances, entries[k].wallet))
  }

  ghost predicate FromBalance(e: Entry, balances: map<string, int>, mint: real, allocation: real, free: real)
    requires mint > 0.0 && free != 0.0
  {
    && Owned(balances, e.wallet) > 0
    && e.amount == Amount(Equity(Owned(balances, e.wallet), mint), allocation, free)
  }

  ghost predicate AllFromBalances(entries: seq<Entry>, balances: map<string, int>, mint: real, allocation: real,
      free: real)
    requires mint > 0.0 && free != 0.0
  {
    forall k :: 0 <= k < |entries| ==> FromBalance(entries[k], balances, mint, allocation, free)
  }

  lemma {:induction false} EntriesFromBalances(members: seq<Member>, self: Option<string>, skipIds: set<string>,
      balances: map<string, int>, mint: real, allocation: real, free: real)
    requires mint > 0.0 && free != 0.0
    ensures AllFromBalances(Entries(members, self, skipIds, balances, mint, allocation, free), balances, mint,
      allocation, free)
  {
    if members != [] {
      EntriesFromBalances(members[..|members| - 1], self, skipIds, balances, mint, allocation, free);
    }
  }

  lemma {:induction false} AllPulled(entries: seq<Entry>, balances: map<string, int>, mint: real, allocation: real,
      free: real, ok: Chain, n: nat)
    requires mint > 0.0 && free != 0.0 && n <= |entries| && forall i :: ok([], i)
    requires AllFromBalances(entries, balances, mint, allocation, free)
    ensures PulledFrom(entries, mint, ok, n) == PulledTotal(Bases(entries, balances), mint, allocation, free, n)
  {
    if n > 0 {
      AllPulled(entries, balances, mint, allocation, free, ok, n - 1);
    }
  }

  /** The entries that `calculateEquity` makes take from no holder more than it has, given a
      ratio from 0 to 1; and when their holders own exactly the percentage that is not skipped
      and every batch succeeds, the buyer gets the allocation up to rounding. */
  lemma DilutionIsSound(members: seq<Member>, self: Option<string>, skipIds: set<string>, balances: map<string, int>,
      mint: real, r: nat, allocation: real, free: real, ok: Chain)
    requires mint > 0.0 && Times(r as real, mint) == E9 && free != 0.0
    ensures var entries := Entries(members, self, skipIds, balances, mint, allocation, free);
      && (0.0 <= Div(allocation, free) <= 1.0 ==> NobodyOverdrawn(entries, balances, mint))
      && (free > 0.0 && EquityTotal(Bases(entries, balances), mint, |entries|) == free && (forall i :: ok([], i)) ==>
          Abs(Over(PulledFrom(entries, mint, ok, |entries|) as real, mint) - allocation)
            <= Times(|entries| as real, RoundingSlack(mint)) + Times(Over(0.5, E20), free))
  {
    var entries := Entries(members, self, skipIds, balances, mint, allocation, free);
    EntriesFromBalances(members, self, skipIds, balances, mint, allocation, free);
    if 0.0 <= Div(allocation, free) <= 1.0 {
      forall k | 0 <= k < |entries| ensures 0 <= Pulled(entries[k].amount, mint) <= Owned(balances, entries[k].wallet) {
        assert FromBalance(entries[k], balances, mint, allocation, free);
        PulledWithinBalance(Owned(balances, entries[k].wallet), mint, r, Div(allocation, free));
      }
    }
    var bases := Bases(entries, balances);
    if free > 0.0 && EquityTotal(bases, mint, |entries|) == free && forall i :: ok([], i) {
      AllPulled(entries, balances, mint, allocation, free, ok, |entries|);
      AllocationIsPulled(bases, mint, allocation, free);
    }
  }

  ghost predicate NobodyOverdrawn(entries: seq<Entry>, balances: map<string, int>, mint: real)
  {
    forall k :: 0 <= k < |entries| ==> 0 <= Pulled(entries[k].amount, mint) <= Owned(balances, entries[k].wallet)
  }

  /** A dilution whose payers own exactly the percentage that is not skipped, u base units,
      overdraws none. */
  ghost predicate SafeDilution(members: seq<Member>, self: Option<string>, skipIds: set<string>,
      balances: map<string, int>, mint: real, allocation: real, u: nat)
    requires mint > 0.0 && Equity(u, mint) != 0.0
  {
    var entries := Entries(members, self, skipIds, balances, mint, allocation, Equity(u, mint));
    EquityTotal(Bases(entries, balances), mint, |entries|) == Equity(u, mint) ==>
      NobodyOverdrawn(entries, balances, mint)
  }

  function Units(bases: seq<nat>, m: nat): nat
    requires m <= |bases|
  {
    if m == 0 then 0 else Units(bases, m - 1) + bases[m - 1]
  }

  /** Percentages add up as base units do. */
  lemma {:induction false} UnitsArePercent(bases: seq<nat>, mint: real, m: nat)
    requires mint > 0.0 && m <= |bases|
    ensures EquityTotal(bases, mint, m) == Equity(Units(bases, m), mint)
  {
    if m == 0 {
      OverAdd(0.0, 0.0, mint);
    } else {
      UnitsArePercent(bases, mint, m - 1);
      OverAdd(Units(bases, m - 1) as real, bases[m - 1] as real, mint);
    }
  }

  lemma {:induction false} PartOfUnits(bases: seq<nat>, k: nat, m: nat)
    requires k < m <= |bases|
    ensures bases[k] <= Units(bases, m)
  {
    if k < m - 1 {
      PartOfUnits(bases, k, m - 1);
    }
  }

  /** Every dilution by this allocation is safe if and only if the allocation, rounded to base
      units, is at most what is not skipped. The code does not check it. */
  lemma SafeIffWithinFree(a: nat, u: nat, mint: real, r: nat)
    requires mint > 0.0 && Times(r as real, mint) == E9 && u > 0 && r * u < 100_000_000_000_000_000_000
    ensures Equity(u, mint) != 0.0
    ensures (forall members, self, skipIds, balances ::
        SafeDilution(members, self, skipIds, balances, mint, Percent(a), u))
      <==> Pulled(Percent(a), mint) <= u
  {
    SoleHolderPays(a, u, mint, r);
    PulledIsNotNegative(a, mint);
    if Pulled(Percent(a), mint) <= u {
      forall members, self, skipIds, balances
        ensures SafeDilution(members, self, skipIds, balances, mint, Percent(a), u)
      {
        SafeWithinFree(members, self, skipIds, balances, a, u, mint, r);
      }
    } else {
      SoleHolderIsOverdrawn(a, u, mint, r);
    }
  }

  lemma PulledIsNotNegative(a: nat, mint: real)
    requires mint > 0.0
    ensures Pulled(Percent(a), mint) >= 0
  {
    OverMonotone(0.0, a as real, E9);
    OverAdd(0.0, 0.0, E9);
    TimesMonotone(0.0, Percent(a), mint);
    TimesAdd(0.0, 0.0, mint);
    RoundMonotone(0.0, Times(Percent(a), mint));
  }

  lemma SafeWithinFree(members: seq<Member>, self: Option<string>, skipIds: set<string>, balances: map<string, int>,
      a: nat, u: nat, mint: real, r: nat)
    requires mint > 0.0 && Times(r as real, mint) == E9 && u > 0 && r * u < 100_000_000_000_000_000_000
    requires Equity(u, mint) != 0.0 && Pulled(Percent(a), mint) <= u
    ensures SafeDilution(members, self, skipIds, balances, mint, Percent(a), u)
  {
    var entries := Entries(members, self, skipIds, balances, mint, Percent(a), Equity(u, mint));
    var bases := Bases(entries, balances);
    SoleHolderPays(a, u, mint, r);
    PulledIsNotNegative(a, mint);
    AffordableIff(u, mint, r, Percent(a), Equity(u, mint));
    assert Affordable(u, mint, Percent(a), Equity(u, mint));
    EntriesFromBalances(members, self, skipIds, balances, mint, Percent(a), Equity(u, mint));
    if EquityTotal(bases, mint, |entries|) == Equity(u, mint) {
      UnitsArePercent(bases, mint, |entries|);
      OverTimes(Units(bases, |entries|) as real, mint);
      OverTimes(u as real, mint);
      forall k | 0 <= k < |entries| ensures 0 <= Pulled(entries[k].amount, mint) <= Owned(balances, entries[k].wallet) {
        PartOfUnits(bases, k, |entries|);
        assert FromBalance(entries[k], balances, mint, Percent(a), Equity(u, mint));
        assert Affordable(bases[k], mint, Percent(a), Equity(u, mint));
      }
    }
  }

  lemma SoleHolderIsOverdrawn(a: nat, u: nat, mint: real, r: nat)
    requires mint > 0.0 && Times(r as real, mint) == E9 && u > 0 && r * u < 100_000_000_000_000_000_000
    requires Equity(u, mint) != 0.0 && Pulled(Percent(a), mint) > u
    ensures !SafeDilution([Member("m", Some("u"), None, "w")], None, {}, map["w" := u], mint, Percent(a), u)
  {
    var ms, b, free := [Member("m", Some("u"), None, "w")], map["w" := u], Equity(u, mint);
    SoleHolderPays(a, u, mint, r);
    assert ms[..0] == [] && Owned(b, "w") == u;
    assert Entries(ms[..0], None, {}, b, mint, Percent(a), free) == [];
    var entries := Entries(ms, None, {}, b, mint, Percent(a), free);
    assert entries == [Entry("m", "w", Percent(a), false, false)];
    var bases := Bases(entries, b);
    assert EquityTotal(bases, mint, 1) == EquityTotal(bases, mint, 0) + Equity(u, mint);
    assert Pulled(entries[0].amount, mint) > u;
  }

  /** It happens, with the six decimals that tokens are made with: a member holding 90 percent
      invests for 20. It is skipped with all it holds, so the 20 percent are pulled from the
      other holder, who has 10. */
  lemma MajorityInvestorOverdraws()
    ensures var investor, other := Member("i", Some("i"), None, "wi"), Member("o", Some("o"), None, "wo");
      var skip, balances := [Skipped(Some("i"), None, 90.0)], map["wi" := 90_000_000, "wo" := 10_000_000];
      && 100.0 - SkipAmount(skip, 1) == 10.0
      && Entries([investor, other], Some("i"), SkipIds(skip), balances, E6, 20.0, 10.0)
        == [Entry("o", "wo", 20.0, false, false)]
      && Pulled(20.0, E6) == 2 * Owned(balances, "wo")
  {
    var investor, other := Member("i", Some("i"), None, "wi"), Member("o", Some("o"), None, "wo");
    var skip, balances := [Skipped(Some("i"), None, 90.0)], map["wi" := 90_000_000, "wo" := 10_000_000];
    assert SkipAmount(skip, 1) == SkipAmount(skip, 0) + 90.0;
    assert skip[0] in skip && SkipIds(skip) == {"i"};
    var ms := [investor, other];
    assert ms[..1] == [investor] && [investor][..0] == [];
    assert !Pays(investor, Some("i"), SkipIds(skip), balances) && Pays(other, Some("i"), SkipIds(skip), balances);
    assert Entries([], Some("i"), SkipIds(skip), balances, E6, 20.0, 10.0) == [];
    assert Entries([investor], Some("i"), SkipIds(skip), balances, E6, 20.0, 10.0) == [];
    assert Equity(10_000_000, E6) == 10.0;
    assert Div(20.0, 10.0) == 2.0;
    assert Amount(10.0, 20.0, 10.0) == 20.0;
    assert Times(20.0, E6) == 20_000_000.0;
  }

  // ---------- calculated entries, collected ----------

  ghost predicate DistinctWallets(members: seq<Member>)
  {
    forall i, j :: 0 <= i < j < |members| ==> members[i].wallet != members[j].wallet
  }

  lemma {:induction false} EntryOfMember(members: seq<Member>, self: Option<string>, skipIds: set<string>,
      balances: map<string, int>, mint: real, allocation: real, free: real, k: nat) returns (i: nat)
    requires mint > 0.0 && free != 0.0 && k < |Entries(members, self, skipIds, balances, mint, allocation, free)|
    ensures i < |members| && Pays(members[i], self, skipIds, balances)
    ensures members[i].wallet == Entries(members, self, skipIds, balances, mint, allocation, free)[k].wallet
    ensures members[i].id == Entries(members, self, skipIds, balances, mint, allocation, free)[k].id
  {
    var front := members[..|members| - 1];
    if k < |Entries(front, self, skipIds, balances, mint, allocation, free)| {
      i := EntryOfMember(front, self, skipIds, balances, mint, allocation, free, k);
    } else {
      i := |members| - 1;
    }
  }

  /** With one wallet per member, and the buyer's own membership left out by the query, the
      entries have one wallet each and none is the buyer's. */
  lemma {:induction false} EntriesHaveOneWalletEach(members: seq<Member>, self: Option<string>, skipIds: set<string>,
      balances: map<string, int>, mint: real, allocation: real, free: real, buyer: string)
    requires mint > 0.0 && free != 0.0 && DistinctWallets(members)
    requires forall m :: m in members && m.wallet == buyer ==> !Pays(m, self, skipIds, balances)
    ensures OneWalletEach(Entries(members, self, skipIds, balances, mint, allocation, free), buyer)
  {
    if members != [] {
      var front, last := members[..|members| - 1], members[|members| - 1];
      EntriesHaveOneWalletEach(front, self, skipIds, balances, mint, allocation, free, buyer);
      var rest := Entries(front, self, skipIds, balances, mint, allocation, free);
      forall k | 0 <= k < |rest| ensures rest[k].wallet != last.wallet {
        var i := EntryOfMember(front, self, skipIds, balances, mint, allocation, free, k);
        assert members[i].wallet != members[|front|].wallet;
      }
      assert last in members;
    }
  }

  /** The whole dilution, whichever batches fail: nobody ends below zero, the buyer gains what
      the successful batches pull, every payer loses its own pull or nothing, and the supply is
      conserved. */
  lemma DilutionIsCollected(members: seq<Member>, self: Option<string>, skipIds: set<string>, b: map<string, int>,
      mint: real, r: nat, allocation: real, free: real, buyer: string, ok: Chain, wallets: seq<string>)
    requires mint > 0.0 && Times(r as real, mint) == E9 && free != 0.0 && 0.0 <= Div(allocation, free) <= 1.0
    requires DistinctWallets(members) && forall m :: m in members && m.wallet == buyer ==> !Pays(m, self, skipIds, b)
    requires Unique(wallets) && buyer in wallets && forall m :: m in members ==> m.wallet in wallets
    ensures var entries := Entries(members, self, skipIds, b, mint, allocation, free);
      var after := Applied(b, Delivered(Pulls(entries, buyer, mint), ok, [], |entries|));
      && Balance(after, buyer) == Balance(b, buyer) + PulledFrom(entries, mint, ok, |entries|)
      && (forall k :: 0 <= k < |entries| ==>
          0 <= Balance(after, entries[k].wallet) == Balance(b, entries[k].wallet) - Loss(entries, mint, ok, k))
      && Supply(after, wallets) == Supply(b, wallets)
  {
    var entries := Entries(members, self, skipIds, b, mint, allocation, free);
    EntriesHaveOneWalletEach(members, self, skipIds, b, mint, allocation, free, buyer);
    DilutionIsSound(members, self, skipIds, b, mint, r, allocation, free, ok);
    forall k | 0 <= k < |entries| ensures entries[k].wallet in wallets && Owned(b, entries[k].wallet) > 0 {
      var i := EntryOfMember(members, self, skipIds, b, mint, allocation, free, k);
      assert members[i] in members;
    }
    CollectionIsExact(entries, buyer, mint, ok, b, wallets);
  }
}
