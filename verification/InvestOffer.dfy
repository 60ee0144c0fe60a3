/** A capped investment offer: `updateOfferStatus` and `updateInvestOfferStatus`, each request
    one atomic step on the stored offer. */
module InvestOffer {
  import opened Options
  import opened Decimal

  datatype Status = Pending | Approved | Declined

  datatype Account = Account(isUser: bool, id: string)

  datatype Prospect = Prospect(user: Option<string>, orgUser: Option<string>, invested: real, equityAllocation: real,
      equityAmount: real)

  /** cap is the amount sought, equity the percentage offered for it. */
  datatype Offer = Offer(status: Status, cap: real, equity: real, minimalInvestment: real, prospects: seq<Prospect>)

  datatype Reply = Accepted | Refused | Other

  /** A request with what the outside world answers: the account's balance, and whether all
      that follows the checks (transfers, equity collection, saving) completes. */
  datatype Request = Request(account: Account, reply: Reply, amount: real, balance: real, completes: bool)

  // ---------- the map of investors ----------

  function Field(p: Prospect, isUser: bool): Option<string>
  {
    if isUser then p.user else p.orgUser
  }

  /** A JavaScript Map: entries in insertion order, `set` overwrites in place. */
  type InvestorMap = seq<(string, Prospect)>

  function Set(m: InvestorMap, key: string, p: Prospect): InvestorMap
  {
    if m == [] then [(key, p)]
    else if m[0].0 == key then [(key, p)] + m[1..]
    else [m[0]] + Set(m[1..], key, p)
  }

  function MapSum(m: InvestorMap): real
  {
    if m == [] then 0.0 else m[0].1.invested + MapSum(m[1..])
  }

  /** Every prospect has a value in the field of this kind of account; the code throws on one
      that has none. */
  predicate AllOfKind(ps: seq<Prospect>, isUser: bool)
  {
    forall i :: 0 <= i < |ps| ==> Field(ps[i], isUser).Some?
  }

  function Investors(ps: seq<Prospect>, isUser: bool): InvestorMap
    requires AllOfKind(ps, isUser)
  {
    if ps == [] then [] else Set(Investors(ps[..|ps| - 1], isUser), Field(ps[|ps| - 1], isUser).value, ps[|ps| - 1])
  }

  function Invested(ps: seq<Prospect>): real
  {
    if ps == [] then 0.0 else Invested(ps[..|ps| - 1]) + ps[|ps| - 1].invested
  }

  ghost predicate OneEach(ps: seq<Prospect>, isUser: bool)
  {
    forall i, j :: 0 <= i < j < |ps| ==> Field(ps[i], isUser) != Field(ps[j], isUser)
  }

  lemma {:induction false} SetFresh(m: InvestorMap, key: string, p: Prospect)
    requires forall k :: 0 <= k < |m| ==> m[k].0 != key
    ensures Set(m, key, p) == m + [(key, p)]
    ensures MapSum(Set(m, key, p)) == MapSum(m) + p.invested
  {
    if m != [] {
      SetFresh(m[1..], key, p);
    }
  }

  /** With one prospect per account the Map holds the list, so its sum is the list's. */
  lemma {:induction false} MapSumIsListSum(ps: seq<Prospect>, isUser: bool)
    requires AllOfKind(ps, isUser) && OneEach(ps, isUser)
    ensures |Investors(ps, isUser)| == |ps|
    ensures forall k :: 0 <= k < |ps| ==> Investors(ps, isUser)[k].0 == Field(ps[k], isUser).value
    ensures MapSum(Investors(ps, isUser)) == Invested(ps)
  {
    if ps != [] {
      var front, last := ps[..|ps| - 1], ps[|ps| - 1];
      MapSumIsListSum(front, isUser);
      SetFresh(Investors(front, isUser), Field(last, isUser).value, last);
    }
  }

  // ---------- one step ----------

  function Allocation(o: Offer, amount: real): real
    requires o.cap != 0.0
  {
    ToFixed(Div(Times(amount, o.equity), o.cap), E9)
  }

  function NewProspect(account: Account, amount: real, allocation: real): Prospect
  {
    var id := Some(account.id);
    if account.isUser then Prospect(id, None, amount, allocation, allocation)
    else Prospect(None, id, amount, allocation, allocation)
  }

  function Grown(p: Prospect, amount: real, allocation: real): Prospect
  {
    p.(invested := p.invested + amount,
       equityAllocation := p.equityAllocation + allocation,
       equityAmount := p.equityAmount + allocation)
  }

  /** Position of the account's prospect, |ps| when it has none. */
  function Find(ps: seq<Prospect>, account: Account, m: nat): (i: nat)
    requires m <= |ps|
    ensures m <= i <= |ps|
    ensures i < |ps| ==> Field(ps[i], account.isUser) == Some(account.id)
    ensures forall k :: m <= k < i ==> Field(ps[k], account.isUser) != Some(account.id)
    decreases |ps| - m
  {
    if m == |ps| || Field(ps[m], account.isUser) == Some(account.id) then m else Find(ps, account, m + 1)
  }

  function Merged(ps: seq<Prospect>, account: Account, amount: real, allocation: real): seq<Prospect>
  {
    var i := Find(ps, account, 0);
    if i == |ps| then ps + [NewProspect(account, amount, allocation)]
    else ps[i := Grown(ps[i], amount, allocation)]
  }

  /** The checks that come before anything is moved. */
  predicate Admitted(o: Offer, r: Request)
  {
    && o.status == Pending
    && o.cap >= o.minimalInvestment
    && r.balance >= r.amount
    && AllOfKind(o.prospects, r.account.isUser)
    && o.cap >= MapSum(Investors(o.prospects, r.account.isUser)) + r.amount
    && o.cap != 0.0
  }

  predicate Accepts(o: Offer, r: Request)
  {
    Admitted(o, r) && r.reply == Accepted && r.completes
  }

  function Step(o: Offer, r: Request): Offer
  {
    if Accepts(o, r) then
      var total := MapSum(Investors(o.prospects, r.account.isUser)) + r.amount;
      o.(status := if total >= o.cap then Approved else o.status,
         prospects := Merged(o.prospects, r.account, r.amount, Allocation(o, r.amount)))
    else if Admitted(o, r) && r.reply == Refused && r.completes then o.(status := Declined)
    else o
  }

  function Run(o: Offer, rs: seq<Request>): Offer
  {
    if rs == [] then o else Step(Run(o, rs[..|rs| - 1]), rs[|rs| - 1])
  }

  // ---------- what every run keeps ----------

  ghost predicate Kind(ps: seq<Prospect>, isUser: bool)
  {
    forall i :: 0 <= i < |ps| ==> Field(ps[i], isUser).Some? && Field(ps[i], !isUser).None?
  }

  ghost predicate OnePerAccount(ps: seq<Prospect>, isUser: bool)
  {
    Kind(ps, isUser) && OneEach(ps, isUser)
  }

  ghost predicate Balanced(ps: seq<Prospect>)
  {
    forall i :: 0 <= i < |ps| ==> ps[i].equityAmount == ps[i].equityAllocation
  }

  ghost predicate Inv(o: Offer)
  {
    && o.cap > 0.0
    && (exists isUser :: OnePerAccount(o.prospects, isUser))
    && Balanced(o.prospects)
    && Invested(o.prospects) <= o.cap
    && (o.status == Pending ==> Invested(o.prospects) < o.cap)
    && (o.status == Approved ==> Invested(o.prospects) == o.cap)
  }

  lemma {:induction false} InvestedAfterUpdate(ps: seq<Prospect>, i: nat, p: Prospect)
    requires i < |ps|
    ensures Invested(ps[i := p]) == Invested(ps) - ps[i].invested + p.invested
  {
    var front := ps[..|ps| - 1];
    if i == |ps| - 1 {
      assert ps[i := p][..|ps| - 1] == front;
    } else {
      assert ps[i := p][..|ps| - 1] == front[i := p];
      InvestedAfterUpdate(front, i, p);
    }
  }

  lemma MergedInvests(ps: seq<Prospect>, account: Account, amount: real, allocation: real)
    ensures Invested(Merged(ps, account, amount, allocation)) == Invested(ps) + amount
  {
    var i := Find(ps, account, 0);
    if i == |ps| {
      assert (ps + [NewProspect(account, amount, allocation)])[..|ps|] == ps;
    } else {
      InvestedAfterUpdate(ps, i, Grown(ps[i], amount, allocation));
    }
  }

  /** Every stored prospect is of one kind, so only accounts of that kind are admitted. */
  lemma AdmittedKind(o: Offer, r: Request, isUser: bool)
    requires Kind(o.prospects, isUser) && AllOfKind(o.prospects, r.account.isUser)
    ensures o.prospects == [] || r.account.isUser == isUser
  {
    if o.prospects != [] {
      assert Field(o.prospects[0], r.account.isUser).Some? && Field(o.prospects[0], !isUser).None?;
    }
  }

  lemma MergedKind(ps: seq<Prospect>, account: Account, amount: real, allocation: real)
    requires OnePerAccount(ps, account.isUser) && Balanced(ps)
    ensures OnePerAccount(Merged(ps, account, amount, allocation), account.isUser)
    ensures Balanced(Merged(ps, account, amount, allocation))
  {}

  /** Admitted requests come from the stored kind, and the Map's sum is what is invested. */
  lemma AdmittedInvested(o: Offer, r: Request)
    requires Inv(o) && Admitted(o, r)
    ensures OnePerAccount(o.prospects, r.account.isUser)
    ensures MapSum(Investors(o.prospects, r.account.isUser)) == Invested(o.prospects)
  {
    var isUser :| OnePerAccount(o.prospects, isUser);
    AdmittedKind(o, r, isUser);
    MapSumIsListSum(o.prospects, r.account.isUser);
  }

  lemma StepKeepsInv(o: Offer, r: Request)
    requires Inv(o)
    ensures Inv(Step(o, r))
  {
    if Accepts(o, r) {
      AdmittedInvested(o, r);
      MergedInvests(o.prospects, r.account, r.amount, Allocation(o, r.amount));
      MergedKind(o.prospects, r.account, r.amount, Allocation(o, r.amount));
    }
  }

  /** Over every run of requests, by any accounts with any amounts: one prospect per account,
      never more invested than the cap, and Approved exactly when the cap is reached (unless
      declined). */
  lemma {:induction false} RunsStayWithinCap(o: Offer, rs: seq<Request>)
    requires o.cap > 0.0 && o.prospects == [] && o.status == Pending
    ensures Inv(Run(o, rs))
    ensures Run(o, rs).status != Declined ==>
      (Run(o, rs).status == Approved <==> Invested(Run(o, rs).prospects) == o.cap)
    ensures Run(o, rs).cap == o.cap && Run(o, rs).equity == o.equity
  {
    if rs == [] {
      assert OnePerAccount(o.prospects, true);
    } else {
      RunsStayWithinCap(o, rs[..|rs| - 1]);
      StepKeepsInv(Run(o, rs[..|rs| - 1]), rs[|rs| - 1]);
    }
  }

  // ---------- which requests are taken ----------

  /** What the handler asks of a request, in terms of what is invested. */
  ghost predicate Fits(o: Offer, r: Request)
  {
    && o.status == Pending && o.cap >= o.minimalInvestment && r.balance >= r.amount && r.completes
    && (forall p :: p in o.prospects ==> Field(p, r.account.isUser).Some?)
    && Invested(o.prospects) + r.amount <= o.cap
  }

  lemma FitsIsAdmitted(o: Offer, r: Request)
    requires Inv(o)
    ensures Fits(o, r) <==> Admitted(o, r) && r.completes
  {
    if AllOfKind(o.prospects, r.account.isUser) {
      var isUser :| OnePerAccount(o.prospects, isUser);
      AdmittedKind(o, r, isUser);
      MapSumIsListSum(o.prospects, r.account.isUser);
    }
  }

  /** An accepting request that fits is taken in full, and fills the offer exactly when it
      reaches the cap; one that does not fit changes nothing. */
  lemma AcceptingIsTakenIff(o: Offer, r: Request)
    requires Inv(o) && r.reply == Accepted
    ensures var total, after := Invested(o.prospects) + r.amount, Step(o, r);
      if Fits(o, r) then
        && Invested(after.prospects) == total
        && after.status == if total == o.cap then Approved else Pending
      else after == o
  {
    FitsIsAdmitted(o, r);
    if Fits(o, r) {
      AdmittedInvested(o, r);
      MergedInvests(o.prospects, r.account, r.amount, Allocation(o, r.amount));
    }
  }

  /** A refusing request that fits declines the offer and changes nothing else; any other request
      changes nothing. */
  lemma DecliningIsTakenIff(o: Offer, r: Request)
    requires Inv(o) && r.reply != Accepted
    ensures Step(o, r) == if Fits(o, r) && r.reply == Refused then o.(status := Declined) else o
  {
    FitsIsAdmitted(o, r);
  }

  /** So the invested sum changes exactly by accepting requests that fit. */
  lemma InvestedChangesIff(o: Offer, r: Request)
    requires Inv(o)
    ensures Invested(Step(o, r).prospects) != Invested(o.prospects)
      <==> Fits(o, r) && r.reply == Accepted && r.amount != 0.0
  {
    if r.reply == Accepted {
      AcceptingIsTakenIff(o, r);
    } else {
      DecliningIsTakenIff(o, r);
    }
  }

  /** What an account has invested, and what is allocated to it. */
  function InvestedBy(ps: seq<Prospect>, a: Account): real
  {
    var i := Find(ps, a, 0); if i < |ps| then ps[i].invested else 0.0
  }

  function AllocatedTo(ps: seq<Prospect>, a: Account): real
  {
    var i := Find(ps, a, 0); if i < |ps| then ps[i].equityAllocation else 0.0
  }

  lemma MergedRecord(ps: seq<Prospect>, account: Account, amount: real, allocation: real, a: Account)
    requires OnePerAccount(ps, account.isUser)
    ensures var after := Merged(ps, account, amount, allocation);
      && InvestedBy(after, a) == InvestedBy(ps, a) + (if a == account then amount else 0.0)
      && AllocatedTo(after, a) == AllocatedTo(ps, a) + (if a == account then allocation else 0.0)
  {
    var i, j, after := Find(ps, account, 0), Find(ps, a, 0), Merged(ps, account, amount, allocation);
    var k := Find(after, a, 0);
    if a == account {
      assert Field(after[i], a.isUser) == Some(a.id) && k == i;
    } else if j < |ps| {
      assert Field(after[j], a.isUser) == Some(a.id) && j != i && k == j;
    } else {
      assert k == |after|;
    }
  }

  /** A request that is taken is recorded for its own account, with its own allocation, and for no
      other. */
  lemma OnlyTheRequesterGrows(o: Offer, r: Request, a: Account)
    requires Inv(o)
    ensures var taken := Fits(o, r) && r.reply == Accepted && a == r.account;
      && InvestedBy(Step(o, r).prospects, a) == InvestedBy(o.prospects, a) + (if taken then r.amount else 0.0)
      && AllocatedTo(Step(o, r).prospects, a)
        == AllocatedTo(o.prospects, a) + (if taken then Allocation(o, r.amount) else 0.0)
  {
    FitsIsAdmitted(o, r);
    if Fits(o, r) && r.reply == Accepted {
      AdmittedInvested(o, r);
      MergedRecord(o.prospects, r.account, r.amount, Allocation(o, r.amount), a);
    }
  }

  /** The offer without its list of prospects: the first come are served as long as they fit, all
      by one kind of account. */
  datatype Till = Till(status: Status, total: real, kind: Option<bool>)

  predicate Serves(t: Till, cap: real, minimal: real, r: Request)
  {
    && t.status == Pending && cap >= minimal && r.balance >= r.amount && r.completes
    && (t.kind == None || t.kind == Some(r.account.isUser))
    && t.total + r.amount <= cap
  }

  function Serve(t: Till, cap: real, minimal: real, r: Request): Till
  {
    if !Serves(t, cap, minimal, r) || r.reply == Other then t
    else if r.reply == Refused then t.(status := Declined)
    else Till(if t.total + r.amount == cap then Approved else Pending, t.total + r.amount, Some(r.account.isUser))
  }

  function Served(cap: real, minimal: real, rs: seq<Request>): Till
  {
    if rs == [] then Till(Pending, 0.0, None)
    else Serve(Served(cap, minimal, rs[..|rs| - 1]), cap, minimal, rs[|rs| - 1])
  }

  /** What the served requests of one account add up to. */
  function ServedTo(cap: real, minimal: real, rs: seq<Request>, a: Account): real
  {
    if rs == [] then 0.0
    else if TakenFrom(Served(cap, minimal, rs[..|rs| - 1]), cap, minimal, rs[|rs| - 1], a)
    then ServedTo(cap, minimal, rs[..|rs| - 1], a) + rs[|rs| - 1].amount
    else ServedTo(cap, minimal, rs[..|rs| - 1], a)
  }

  predicate TakenFrom(t: Till, cap: real, minimal: real, r: Request, a: Account)
  {
    r.account == a && r.reply == Accepted && Serves(t, cap, minimal, r)
  }

  ghost predicate Abstracts(t: Till, o: Offer)
  {
    && t.status == o.status && t.total == Invested(o.prospects)
    && (t.kind == None <==> o.prospects == [])
    && (t.kind.Some? ==> Kind(o.prospects, t.kind.value))
  }

  lemma ServesIsFits(t: Till, o: Offer, r: Request)
    requires Inv(o) && Abstracts(t, o)
    ensures Serves(t, o.cap, o.minimalInvestment, r) <==> Fits(o, r)
  {
    if t.kind.Some? {
      assert o.prospects[0] in o.prospects;
    }
  }

  lemma ServedStep(t: Till, o: Offer, r: Request, a: Account)
    requires Inv(o) && Abstracts(t, o)
    ensures Abstracts(Serve(t, o.cap, o.minimalInvestment, r), Step(o, r))
    ensures InvestedBy(Step(o, r).prospects, a) == InvestedBy(o.prospects, a)
      + if TakenFrom(t, o.cap, o.minimalInvestment, r, a) then r.amount else 0.0
  {
    ServesIsFits(t, o, r);
    OnlyTheRequesterGrows(o, r, a);
    if r.reply != Accepted {
      DecliningIsTakenIff(o, r);
    } else {
      AcceptingIsTakenIff(o, r);
      if Fits(o, r) {
        TakenIsServed(t, o, r);
      }
    }
  }

  lemma TakenIsServed(t: Till, o: Offer, r: Request)
    requires Inv(o) && Abstracts(t, o) && Fits(o, r) && r.reply == Accepted
    ensures Abstracts(Serve(t, o.cap, o.minimalInvestment, r), Step(o, r))
  {
    ServesIsFits(t, o, r);
    AcceptingIsTakenIff(o, r);
    TakenKind(o, r);
  }

  lemma TakenKind(o: Offer, r: Request)
    requires Inv(o) && Fits(o, r) && r.reply == Accepted
    ensures Step(o, r).prospects != [] && Kind(Step(o, r).prospects, r.account.isUser)
  {
    FitsIsAdmitted(o, r);
    AdmittedInvested(o, r);
    MergedKind(o.prospects, r.account, r.amount, Allocation(o, r.amount));
  }

  lemma StepKeepsTerms(o: Offer, r: Request)
    ensures Step(o, r).cap == o.cap && Step(o, r).equity == o.equity
    ensures Step(o, r).minimalInvestment == o.minimalInvestment
  {}

  /** Over every run the stored document is that till: every request that fits is taken, none
      else, and each account has invested what its own taken requests add up to. */
  lemma {:induction false} RunsServeWhatFits(o: Offer, rs: seq<Request>, a: Account)
    requires o.cap > 0.0 && o.prospects == [] && o.status == Pending
    ensures Abstracts(Served(o.cap, o.minimalInvestment, rs), Run(o, rs))
    ensures InvestedBy(Run(o, rs).prospects, a) == ServedTo(o.cap, o.minimalInvestment, rs, a)
    ensures Run(o, rs).cap == o.cap && Run(o, rs).minimalInvestment == o.minimalInvestment
  {
    if rs != [] {
      var front, r := rs[..|rs| - 1], rs[|rs| - 1];
      RunsServeWhatFits(o, front, a);
      RunsStayWithinCap(o, front);
      StepKeepsTerms(Run(o, front), r);
      ServedStep(Served(o.cap, o.minimalInvestment, front), Run(o, front), r, a);
    }
  }

  // ---------- recorded allocations ----------

  function ExactShare(cap: real, equity: real, amount: real): real
    requires cap != 0.0
  {
    Over(Times(amount, equity), cap)
  }

  /** A recorded allocation is half a unit of the ninth decimal off at most, if and only if
      the division did not round its twentieth decimal up onto a tie of the ninth. */
  lemma HalfUnitIff(o: Offer, amount: real)
    requires o.cap != 0.0
    ensures Abs(Allocation(o, amount) - ExactShare(o.cap, o.equity, amount)) <= Over(0.5, E9)
      <==> !RoundsUpTwice(ExactShare(o.cap, o.equity, amount))
  {
    TwiceRoundedIff(ExactShare(o.cap, o.equity, amount));
  }

  /** How far one recorded allocation may be from its exact share: half a unit of the ninth
      decimal, and only after rounding up twice also half a unit of the twentieth. */
  function Slack(cap: real, equity: real, amount: real): real
    requires cap != 0.0
  {
    if RoundsUpTwice(ExactShare(cap, equity, amount)) then Over(0.5, E9) + Over(0.5, E20) else Over(0.5, E9)
  }

  lemma AllocationError(o: Offer, amount: real)
    requires o.cap != 0.0
    ensures Abs(Allocation(o, amount) - ExactShare(o.cap, o.equity, amount)) <= Slack(o.cap, o.equity, amount)
  {
    HalfUnitIff(o, amount);
    DivError(Times(amount, o.equity), o.cap);
    ToFixedError(Div(Times(amount, o.equity), o.cap), E9);
  }

  /** Such a tie exists, and half a unit is then exceeded. */
  lemma HalfUnitIsNotEnough(o: Offer)
    requires o.cap == 300_000_000_000_000_000_000.0 && o.equity == 1.0
    ensures Allocation(o, 149_999_999_999.0) - ExactShare(o.cap, o.equity, 149_999_999_999.0) > Over(0.5, E9)
  {
    var a := 149_999_999_999.0;
    assert Times(a, 1.0) == a;
    assert RoundHalfUp(Times(Over(a, o.cap), E20)) == 50_000_000_000;
    assert Div(a, o.cap) == 0.000_000_000_5;
    assert Times(0.000_000_000_5, E9) == 0.5 && RoundHalfUp(0.5) == 1;
  }

  /** The slack of all requests of this account that are accepted in a run. */
  function SlackInRun(o: Offer, rs: seq<Request>, account: Account): real
    requires o.cap != 0.0
  {
    if rs == [] then 0.0
    else if rs[|rs| - 1].account == account && Accepts(Run(o, rs[..|rs| - 1]), rs[|rs| - 1])
    then SlackInRun(o, rs[..|rs| - 1], account) + Slack(o.cap, o.equity, rs[|rs| - 1].amount)
    else SlackInRun(o, rs[..|rs| - 1], account)
  }

  /** How many requests of this account are accepted. */
  function Acceptances(o: Offer, rs: seq<Request>, account: Account): nat
  {
    if rs == [] then 0
    else if rs[|rs| - 1].account == account && Accepts(Run(o, rs[..|rs| - 1]), rs[|rs| - 1])
    then Acceptances(o, rs[..|rs| - 1], account) + 1
    else Acceptances(o, rs[..|rs| - 1], account)
  }

  /** No accepted amount of this account rounds up twice. */
  ghost predicate RoundsOnce(o: Offer, rs: seq<Request>, account: Account)
    requires o.cap != 0.0
  {
    forall k :: 0 <= k < |rs| && rs[k].account == account && Accepts(Run(o, rs[..k]), rs[k]) ==>
      !RoundsUpTwice(ExactShare(o.cap, o.equity, rs[k].amount))
  }

  lemma RoundsOnceBefore(o: Offer, rs: seq<Request>, account: Account)
    requires o.cap != 0.0 && rs != []
    ensures RoundsOnce(o, rs, account) ==> RoundsOnce(o, rs[..|rs| - 1], account)
    ensures var r := rs[|rs| - 1];
      RoundsOnce(o, rs, account) && r.account == account && Accepts(Run(o, rs[..|rs| - 1]), r) ==>
      !RoundsUpTwice(ExactShare(o.cap, o.equity, r.amount))
  {
    var front := rs[..|rs| - 1];
    assert forall k :: 0 <= k < |front| ==> front[k] == rs[k] && front[..k] == rs[..k];
  }

  /** The slack is one half-unit for each acceptance when none rounds up twice. */
  lemma {:induction false} SlackWhenRoundedOnce(o: Offer, rs: seq<Request>, account: Account)
    requires o.cap != 0.0 && RoundsOnce(o, rs, account)
    ensures SlackInRun(o, rs, account) == Times(Acceptances(o, rs, account) as real, Over(0.5, E9))
  {
    if rs == [] {
      TimesAdd(0.0, 0.0, Over(0.5, E9));
    } else {
      var front := rs[..|rs| - 1];
      RoundsOnceBefore(o, rs, account);
      SlackWhenRoundedOnce(o, front, account);
      TimesAdd(Acceptances(o, front, account) as real, 1.0, Over(0.5, E9));
    }
  }

  /** And it is never more than half a unit of the twentieth decimal above that. */
  lemma {:induction false} SlackPerAcceptance(o: Offer, rs: seq<Request>, account: Account)
    requires o.cap != 0.0
    ensures SlackInRun(o, rs, account) <= Times(Acceptances(o, rs, account) as real, Over(0.5, E9) + Over(0.5, E20))
  {
    if rs == [] {
      TimesAdd(0.0, 0.0, Over(0.5, E9) + Over(0.5, E20));
    } else {
      var front := rs[..|rs| - 1];
      SlackPerAcceptance(o, front, account);
      TimesAdd(Acceptances(o, front, account) as real, 1.0, Over(0.5, E9) + Over(0.5, E20));
    }
  }

  ghost predicate Near(cap: real, equity: real, p: Prospect, bound: real)
    requires cap != 0.0
  {
    Abs(p.equityAllocation - ExactShare(cap, equity, p.invested)) <= bound
  }

  lemma GrownNear(o: Offer, p: Prospect, bound: real, amount: real)
    requires o.cap != 0.0 && Near(o.cap, o.equity, p, bound)
    ensures Near(o.cap, o.equity, Grown(p, amount, Allocation(o, amount)), bound + Slack(o.cap, o.equity, amount))
  {
    AllocationError(o, amount);
    TimesAdd(p.invested, amount, o.equity);
    OverAdd(Times(p.invested, o.equity), Times(amount, o.equity), o.cap);
  }

  lemma NewNear(o: Offer, account: Account, amount: real)
    requires o.cap != 0.0
    ensures Near(o.cap, o.equity, NewProspect(account, amount, Allocation(o, amount)), Slack(o.cap, o.equity, amount))
  {
    AllocationError(o, amount);
  }

  /** Position i of the merged list belongs to the requesting account exactly when that is
      where the request was merged. */
  lemma SameAccount(o: Offer, r: Request, i: nat, account: Account)
    requires o.cap != 0.0 && OnePerAccount(o.prospects, r.account.isUser) && Balanced(o.prospects)
    requires var m := Merged(o.prospects, r.account, r.amount, Allocation(o, r.amount));
      i < |m| && Field(m[i], account.isUser) == Some(account.id)
    ensures account == r.account <==> i == Find(o.prospects, r.account, 0)
  {}

  /** Prospect i is within bound of its exact share; or there is none, and no slack yet. */
  ghost predicate NearOrNew(cap: real, equity: real, ps: seq<Prospect>, i: nat, bound: real)
    requires cap != 0.0
  {
    if i < |ps| then Near(cap, equity, ps[i], bound) else bound == 0.0
  }

  /** One accepted request keeps every prospect near its exact share. */
  lemma AcceptedStaysNear(o: Offer, r: Request, i: nat, account: Account, bound: real)
    requires Inv(o) && Accepts(o, r) && i < |Step(o, r).prospects|
    requires Field(Step(o, r).prospects[i], account.isUser) == Some(account.id)
    requires NearOrNew(o.cap, o.equity, o.prospects, i, bound)
    ensures NearOrNew(o.cap, o.equity, Step(o, r).prospects, i,
      if r.account == account then bound + Slack(o.cap, o.equity, r.amount) else bound)
  {
    AdmittedInvested(o, r);
    SameAccount(o, r, i, account);
    if i < |o.prospects| {
      GrownNear(o, o.prospects[i], bound, r.amount);
    } else {
      NewNear(o, account, r.amount);
    }
  }

  lemma AcceptedIsFound(o: Offer, r: Request, account: Account)
    requires Accepts(o, r)
    ensures r.account == account ==> Find(Step(o, r).prospects, account, 0) < |Step(o, r).prospects|
    ensures Find(o.prospects, account, 0) < |o.prospects| ==>
      Find(Step(o, r).prospects, account, 0) < |Step(o, r).prospects|
  {
    var before, after := o.prospects, Step(o, r).prospects;
    var i, j := Find(before, r.account, 0), Find(before, account, 0);
    assert Field(after[i], r.account.isUser) == Some(r.account.id);
    if j < |before| {
      assert Field(after[j], account.isUser) == Some(account.id);
    }
  }

  /** An account without a prospect has had no request accepted. */
  lemma {:induction false} NoneYet(o: Offer, rs: seq<Request>, account: Account)
    requires o.cap != 0.0 && Find(Run(o, rs).prospects, account, 0) == |Run(o, rs).prospects|
    ensures Acceptances(o, rs, account) == 0 && SlackInRun(o, rs, account) == 0.0
  {
    if rs != [] {
      var front, r := rs[..|rs| - 1], rs[|rs| - 1];
      if Accepts(Run(o, front), r) {
        AcceptedIsFound(Run(o, front), r, account);
      }
      NoneYet(o, front, account);
    }
  }

  /** What an account has invested is recorded with an allocation that is off by at most the
      slack of its accepted requests. */
  lemma {:induction false} AllocationsStayNear(o: Offer, rs: seq<Request>, i: nat, account: Account)
    requires o.cap > 0.0 && o.prospects == [] && o.status == Pending
    requires i < |Run(o, rs).prospects| && Field(Run(o, rs).prospects[i], account.isUser) == Some(account.id)
    ensures Near(o.cap, o.equity, Run(o, rs).prospects[i], SlackInRun(o, rs, account))
  {
    var front, r := rs[..|rs| - 1], rs[|rs| - 1];
    if Accepts(Run(o, front), r) {
      RunsStayWithinCap(o, front);
      AcceptedOwner(Run(o, front), r, i, account);
      if i < |Run(o, front).prospects| {
        AllocationsStayNear(o, front, i, account);
      } else {
        NoneYet(o, front, account);
      }
      var bound := SlackInRun(o, front, account);
      AcceptedStaysNear(Run(o, front), r, i, account, bound);
      assert SlackInRun(o, rs, account)
          == if r.account == account then bound + Slack(o.cap, o.equity, r.amount) else bound;
    } else {
      AllocationsStayNear(o, front, i, account);
    }
  }

  /** One half-unit for each acceptance, when no accepted amount rounds up twice. */
  lemma AllocationsWithinHalfUnits(o: Offer, rs: seq<Request>, i: nat, account: Account)
    requires o.cap > 0.0 && o.prospects == [] && o.status == Pending
    requires i < |Run(o, rs).prospects| && Field(Run(o, rs).prospects[i], account.isUser) == Some(account.id)
    requires RoundsOnce(o, rs, account)
    ensures Near(o.cap, o.equity, Run(o, rs).prospects[i], Times(Acceptances(o, rs, account) as real, Over(0.5, E9)))
  {
    AllocationsStayNear(o, rs, i, account);
    SlackWhenRoundedOnce(o, rs, account);
  }

  /** A prospect keeps its owner; a new one belongs to the requesting account, which had
      none. */
  lemma AcceptedOwner(o: Offer, r: Request, i: nat, account: Account)
    requires Inv(o) && Accepts(o, r) && i < |Step(o, r).prospects|
    requires Field(Step(o, r).prospects[i], account.isUser) == Some(account.id)
    ensures i < |o.prospects| ==> Field(o.prospects[i], account.isUser) == Some(account.id)
    ensures i >= |o.prospects| ==> account == r.account && Find(o.prospects, account, 0) == |o.prospects|
  {}

  // ---------- the handler ----------

  class OfferDocument {
    var status: Status
    var memberProspects: seq<Prospect>
    const cap: real
    const equity: real
    const minimalInvestment: real

    constructor (cap: real, equity: real, minimalInvestment: real)
      ensures State() == Offer(Pending, cap, equity, minimalInvestment, [])
    {
      this.cap, this.equity, this.minimalInvestment := cap, equity, minimalInvestment;
      status, memberProspects := Pending, [];
    }

    function State(): Offer
      reads this
    {
      Offer(status, cap, equity, minimalInvestment, memberProspects)
    }

    /** Fills the Map of investors; None is the TypeError for a prospect of the other kind. */
    method InvestedMembers(isUser: bool) returns (investedMembersMap: Option<InvestorMap>)
      ensures investedMembersMap.Some? <==> AllOfKind(memberProspects, isUser)
      ensures investedMembersMap.Some? ==> investedMembersMap.value == Investors(memberProspects, isUser)
    {
      var m: InvestorMap := [];
      for i := 0 to |memberProspects|
        invariant AllOfKind(memberProspects[..i], isUser) && m == Investors(memberProspects[..i], isUser)
      {
        assert memberProspects[..i + 1][..i] == memberProspects[..i];
        if Field(memberProspects[i], isUser).None? {
          return None;
        }
        m := Set(m, Field(memberProspects[i], isUser).value, memberProspects[i]);
      }
      assert memberProspects[..|memberProspects|] == memberProspects;
      investedMembersMap := Some(m);
    }

    method InvestedAmount(m: InvestorMap) returns (total: real)
      ensures total == MapSum(m)
    {
      total := 0.0;
      for i := 0 to |m|
        invariant total + MapSum(m[i..]) == MapSum(m)
      {
        total := total + m[i].1.invested;
      }
    }

    /** `updateOfferStatus` with `updateInvestOfferStatus`, as one atomic step. */
    method UpdateOfferStatus(r: Request)
      modifies this
      ensures State() == Step(old(State()), r)
    {
      if status != Pending || cap < minimalInvestment || r.balance < r.amount {
        return;
      }
      var investedMembersMap := InvestedMembers(r.account.isUser);
      if investedMembersMap.None? {
        return;
      }
      var investedAmount := InvestedAmount(investedMembersMap.value);
      if cap < investedAmount + r.amount || cap == 0.0 || !r.completes {
        return;
      }
      if r.reply == Accepted {
        var equityAllocation := ToFixed(Div(Times(r.amount, equity), cap), E9);
        if investedAmount + r.amount >= cap {
          status := Approved;
        }
        memberProspects := Merged(memberProspects, r.account, r.amount, equityAllocation);
      } else if r.reply == Refused {
        status := Declined;
      }
    }
  }
}
