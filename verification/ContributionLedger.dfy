/** The counters of one organisation over whole runs: contributions that are started, stopped,
    confirmed, failed or reverted, and transfers between members. */
module ContributionLedger {
  import opened Options
  import opened Decimal
  import opened ContributionSplit

  datatype TxnStatus = NoTxn | Processing | Confirmed | Failed | Reverted

  datatype Contribution = Contribution(id: string, member: string, createdAt: int, impactRatio: real, stopped: bool,
    txnStatus: TxnStatus, lamportsEarned: int, split: seq<Part>)

  datatype State = State(members: seq<Member>, lamportsMinted: int, contributions: seq<Contribution>)

  datatype Recipient = ToUser(id: string) | ToOrg(id: string) | Outside

  /** What minting a contribution ends with: nothing is thrown; an error is thrown; or nothing
      is recorded, because `undefined` is thrown and the catch block trips over its message, or
      because the confirmation has not ended. */
  datatype Outcome = Minted | Rejected | Unrecorded

  /** Requests, with the ids the database assigns and whether what lies outside (token
      creation, chain transfer, transaction) completes. */
  datatype Event =
    | Start(newId: string, memberId: string, account: string, now: int)
    | Stop(contributionId: string, account: string, now: int, completes: bool)
    | Finish(contributionId: string, outcome: Outcome, reversed: bool)
    | Send(account: string, recipient: Recipient, lamports: int, newMember: string, completes: bool)

  // ---------- lookups ----------

  function MemberAt(ms: seq<Member>, id: string, k: nat): (i: nat)
    requires k <= |ms|
    ensures k <= i <= |ms|
    ensures i < |ms| ==> ms[i].id == id
    ensures forall j :: k <= j < i ==> ms[j].id != id
    decreases |ms| - k
  {
    if k == |ms| || ms[k].id == id then k else MemberAt(ms, id, k + 1)
  }

  predicate HasMember(ms: seq<Member>, id: string) { MemberAt(ms, id, 0) < |ms| }

  function ContributionAt(cs: seq<Contribution>, id: string, k: nat): (i: nat)
    requires k <= |cs|
    ensures k <= i <= |cs|
    ensures i < |cs| ==> cs[i].id == id
    ensures forall j :: k <= j < i ==> cs[j].id != id
    decreases |cs| - k
  {
    if k == |cs| || cs[k].id == id then k else ContributionAt(cs, id, k + 1)
  }

  /** First member with this user, or this organisation. */
  function HeldBy(ms: seq<Member>, user: Option<string>, orgUser: Option<string>, k: nat): (i: nat)
    requires k <= |ms|
    ensures k <= i <= |ms|
    decreases |ms| - k
  {
    if k == |ms| || (user.Some? && ms[k].user == user) || (orgUser.Some? && ms[k].orgUser == orgUser) then k
    else HeldBy(ms, user, orgUser, k + 1)
  }

  function AccountOf(m: Member): Option<string> { if m.user.Some? then m.user else m.orgUser }

  // ---------- counters ----------

  /** `updateContributed`: adds to one member's counters; an unknown id changes nothing. */
  function Increment(ms: seq<Member>, id: string, amount: int, duration: real): (r: seq<Member>)
    ensures |r| == |ms|
  {
    var i := MemberAt(ms, id, 0);
    if i == |ms| then ms
    else ms[i := ms[i].(lamportsEarned := ms[i].lamportsEarned + amount, contributed := ms[i].contributed + duration)]
  }

  /** One increment per part. */
  function IncrementAll(ms: seq<Member>, parts: seq<Part>): (r: seq<Member>)
    ensures |r| == |ms|
  {
    if parts == [] then ms else
    var p := parts[|parts| - 1];
    Increment(IncrementAll(ms, parts[..|parts| - 1]), p.member, p.amount, p.duration)
  }

  /** The compensating parts of a reversal. */
  function Negated(parts: seq<Part>): (r: seq<Part>)
    ensures |r| == |parts|
  {
    seq(|parts|, k requires 0 <= k < |parts| => Part(parts[k].member, -parts[k].amount, -parts[k].duration))
  }

  // ---------- steps ----------

  function Hours(c: Contribution, now: int): real
  {
    Over((now - c.createdAt) as real, MS_PER_HOUR)
  }

  predicate Running(cs: seq<Contribution>, member: string)
  {
    exists i :: 0 <= i < |cs| && cs[i].member == member && !cs[i].stopped
  }

  predicate CanStart(s: State, memberId: string, account: string)
  {
    var i := MemberAt(s.members, memberId, 0);
    i < |s.members| && AccountOf(s.members[i]) == Some(account) && !Running(s.contributions, memberId)
  }

  predicate CanStop(s: State, contributionId: string, account: string)
  {
    var i := ContributionAt(s.contributions, contributionId, 0);
    && i < |s.contributions| && !s.contributions[i].stopped
    && var m := MemberAt(s.members, s.contributions[i].member, 0);
    && m < |s.members| && AccountOf(s.members[m]) == Some(account)
    && forall k :: 0 <= k < |s.members| && s.members[k].allocation.Some? ==> s.members[k].user.Some?
  }

  function StoppedContribution(s: State, c: Contribution, now: int): Contribution
  {
    var duration := Hours(c, now);
    var lamports := Lamports(duration, c.impactRatio);
    c.(stopped := true, txnStatus := Processing, lamportsEarned := lamports,
       split := Split(s.members, c.member, lamports, duration))
  }

  function StopStep(s: State, contributionId: string, account: string, now: int): State
    requires CanStop(s, contributionId, account)
  {
    var i := ContributionAt(s.contributions, contributionId, 0);
    var c := StoppedContribution(s, s.contributions[i], now);
    State(IncrementAll(s.members, c.split), s.lamportsMinted + c.lamportsEarned, s.contributions[i := c])
  }

  /** The outcome of minting, known once for each stopped contribution. */
  function FinishStep(s: State, i: nat, outcome: Outcome, reversed: bool): State
    requires i < |s.contributions|
  {
    var c := s.contributions[i];
    if outcome == Unrecorded then s
    else if outcome == Minted then s.(contributions := s.contributions[i := c.(txnStatus := Confirmed)])
    else if reversed then
      State(IncrementAll(s.members, Negated(c.split)), s.lamportsMinted - c.lamportsEarned,
        s.contributions[i := c.(txnStatus := Reverted)])
    else s.(contributions := s.contributions[i := c.(txnStatus := Failed)])
  }

  function Sender(s: State, account: string): nat
  {
    HeldBy(s.members, Some(account), Some(account), 0)
  }

  predicate CanSend(s: State, account: string, lamports: int)
  {
    Sender(s, account) < |s.members| && s.members[Sender(s, account)].lamportsEarned >= lamports
  }

  /** The members once the recipient, an existing or a new member, has been credited. */
  function Credited(ms: seq<Member>, recipient: Recipient, lamports: int, newMember: string): seq<Member>
  {
    match recipient
    case Outside => ms
    case ToUser(id) =>
      var i := HeldBy(ms, Some(id), None, 0);
      if i == |ms| then ms + [Member(newMember, Some(id), None, 1.0, None, lamports, 0.0)]
      else Increment(ms, ms[i].id, lamports, 0.0)
    case ToOrg(id) =>
      var i := HeldBy(ms, None, Some(id), 0);
      if i == |ms| then ms + [Member(newMember, None, Some(id), 1.0, None, lamports, 0.0)]
      else Increment(ms, ms[i].id, lamports, 0.0)
  }

  function SendStep(s: State, account: string, recipient: Recipient, lamports: int, newMember: string): State
    requires CanSend(s, account, lamports)
  {
    var sender := s.members[Sender(s, account)].id;
    s.(members := Increment(Credited(s.members, recipient, lamports, newMember), sender, -lamports, 0.0))
  }

  function Step(s: State, e: Event): State
  {
    match e
    case Start(newId, memberId, account, now) =>
      if CanStart(s, memberId, account) then
        var ratio := s.members[MemberAt(s.members, memberId, 0)].impactRatio;
        s.(contributions := s.contributions + [Contribution(newId, memberId, now, ratio, false, NoTxn, 0, [])])
      else s
    case Stop(contributionId, account, now, completes) =>
      if completes && CanStop(s, contributionId, account) then StopStep(s, contributionId, account, now) else s
    case Finish(contributionId, outcome, reversed) =>
      var i := ContributionAt(s.contributions, contributionId, 0);
      if i < |s.contributions| && s.contributions[i].txnStatus == Processing
      then FinishStep(s, i, outcome, reversed)
      else s
    case Send(account, recipient, lamports, newMember, completes) =>
      if completes && CanSend(s, account, lamports) then SendStep(s, account, recipient, lamports, newMember) else s
  }

  function Run(s: State, es: seq<Event>): State
  {
    if es == [] then s else Step(Run(s, es[..|es| - 1]), es[|es| - 1])
  }

  // ---------- what the counters consist of ----------

  function Earned(ms: seq<Member>, id: string): int
  {
    var i := MemberAt(ms, id, 0); if i < |ms| then ms[i].lamportsEarned else 0
  }

  function Contributed(ms: seq<Member>, id: string): real
  {
    var i := MemberAt(ms, id, 0); if i < |ms| then ms[i].contributed else 0.0
  }

  function PartAmount(parts: seq<Part>, id: string): int
  {
    if parts == [] then 0
    else if parts[|parts| - 1].member == id then PartAmount(parts[..|parts| - 1], id) + parts[|parts| - 1].amount
    else PartAmount(parts[..|parts| - 1], id)
  }

  function PartHours(parts: seq<Part>, id: string): real
  {
    if parts == [] then 0.0
    else if parts[|parts| - 1].member == id then PartHours(parts[..|parts| - 1], id) + parts[|parts| - 1].duration
    else PartHours(parts[..|parts| - 1], id)
  }

  /** Stopped and not reverted: only these count. */
  predicate Live(c: Contribution) { c.stopped && c.txnStatus != Reverted }

  function AmountIn(c: Contribution, id: string): int { if Live(c) then PartAmount(c.split, id) else 0 }
  function HoursIn(c: Contribution, id: string): real { if Live(c) then PartHours(c.split, id) else 0.0 }
  function MintedIn(c: Contribution): int { if Live(c) then c.lamportsEarned else 0 }

  function LiveAmount(cs: seq<Contribution>, id: string): int
  {
    if cs == [] then 0 else LiveAmount(cs[..|cs| - 1], id) + AmountIn(cs[|cs| - 1], id)
  }

  function LiveHours(cs: seq<Contribution>, id: string): real
  {
    if cs == [] then 0.0 else LiveHours(cs[..|cs| - 1], id) + HoursIn(cs[|cs| - 1], id)
  }

  function LiveMinted(cs: seq<Contribution>): int
  {
    if cs == [] then 0 else LiveMinted(cs[..|cs| - 1]) + MintedIn(cs[|cs| - 1])
  }

  /** What an accepted send moves to (or from) a member. */
  function Moved(s: State, e: Event, id: string): int
  {
    if !e.Send? || !e.completes || !CanSend(s, e.account, e.lamports) then 0 else
    (if Receiver(s, e) == Some(id) then e.lamports else 0)
      - (if s.members[Sender(s, e.account)].id == id then e.lamports else 0)
  }

  /** The member a send credits, which may be a new one. */
  function Receiver(s: State, e: Event): Option<string>
    requires e.Send?
  {
    match e.recipient
    case Outside => None
    case ToUser(u) =>
      var i := HeldBy(s.members, Some(u), None, 0); Some(if i == |s.members| then e.newMember else s.members[i].id)
    case ToOrg(o) =>
      var i := HeldBy(s.members, None, Some(o), 0); Some(if i == |s.members| then e.newMember else s.members[i].id)
  }

  function SentOutside(s: State, e: Event): int
  {
    if e.Send? && e.completes && CanSend(s, e.account, e.lamports) && e.recipient == Outside then e.lamports else 0
  }

  function TotalEarned(ms: seq<Member>): int
  {
    if ms == [] then 0 else TotalEarned(ms[..|ms| - 1]) + ms[|ms| - 1].lamportsEarned
  }

  // ---------- invariant ----------

  ghost predicate UniqueMembers(ms: seq<Member>)
  {
    forall i, j :: 0 <= i < j < |ms| ==> ms[i].id != ms[j].id
  }

  ghost predicate Known(ms: seq<Member>, parts: seq<Part>)
  {
    forall k :: 0 <= k < |parts| ==> HasMember(ms, parts[k].member)
  }

  ghost predicate Sane(s: State, c: Contribution)
  {
    && HasMember(s.members, c.member)
    && Known(s.members, c.split)
    && (c.stopped ==> Amounts(c.split) == c.lamportsEarned)
    && (c.txnStatus == Processing ==> c.stopped)
    && (c.txnStatus == Reverted ==> c.stopped)
  }

  ghost predicate AllSane(s: State)
  {
    forall i :: 0 <= i < |s.contributions| ==> Sane(s, s.contributions[i])
  }

  ghost predicate Inv(s: State)
  {
    && UniqueMembers(s.members)
    && AllSane(s)
    && OneRunning(s.contributions)
  }

  /** No member has two running contributions. */
  ghost predicate OneRunning(cs: seq<Contribution>)
  {
    forall i, j :: 0 <= i < j < |cs| && !cs[i].stopped && !cs[j].stopped ==> cs[i].member != cs[j].member
  }

  /** The ids the database assigns are new. */
  ghost predicate Fresh(s: State, e: Event)
  {
    e.Send? ==> !HasMember(s.members, e.newMember)
  }

  // ---------- counters under increments ----------

  ghost predicate SameIds(a: seq<Member>, b: seq<Member>)
  {
    |a| == |b| && forall k :: 0 <= k < |a| ==> a[k].id == b[k].id
  }

  lemma SamePlace(a: seq<Member>, b: seq<Member>, id: string, k: nat)
    requires SameIds(a, b) && k <= |a|
    ensures MemberAt(a, id, k) == MemberAt(b, id, k)
    decreases |a| - k
  {}

  lemma IncrementCounters(ms: seq<Member>, id: string, amount: int, duration: real, who: string)
    ensures SameIds(Increment(ms, id, amount, duration), ms)
    ensures Earned(Increment(ms, id, amount, duration), who)
         == Earned(ms, who) + if who == id && HasMember(ms, id) then amount else 0
    ensures Contributed(Increment(ms, id, amount, duration), who)
         == Contributed(ms, who) + if who == id && HasMember(ms, id) then duration else 0.0
  {}

  lemma {:induction false} TotalAfterUpdate(ms: seq<Member>, i: nat, m: Member)
    requires i < |ms|
    ensures TotalEarned(ms[i := m]) == TotalEarned(ms) - ms[i].lamportsEarned + m.lamportsEarned
  {
    var front := ms[..|ms| - 1];
    if i == |ms| - 1 {
      assert ms[i := m][..|ms| - 1] == front;
    } else {
      assert ms[i := m][..|ms| - 1] == front[i := m];
      TotalAfterUpdate(front, i, m);
    }
  }

  lemma IncrementTotal(ms: seq<Member>, id: string, amount: int, duration: real)
    ensures TotalEarned(Increment(ms, id, amount, duration))
      == TotalEarned(ms) + if HasMember(ms, id) then amount else 0
  {
    var i := MemberAt(ms, id, 0);
    if i < |ms| {
      TotalAfterUpdate(ms, i, Increment(ms, id, amount, duration)[i]);
    }
  }

  lemma {:induction false} IncrementAllCounters(ms: seq<Member>, parts: seq<Part>, who: string)
    requires Known(ms, parts)
    ensures SameIds(IncrementAll(ms, parts), ms)
    ensures Earned(IncrementAll(ms, parts), who) == Earned(ms, who) + PartAmount(parts, who)
    ensures Contributed(IncrementAll(ms, parts), who) == Contributed(ms, who) + PartHours(parts, who)
    ensures TotalEarned(IncrementAll(ms, parts)) == TotalEarned(ms) + Amounts(parts)
  {
    if parts != [] {
      var front, p := parts[..|parts| - 1], parts[|parts| - 1];
      IncrementAllCounters(ms, front, who);
      var before := IncrementAll(ms, front);
      assert HasMember(ms, parts[|parts| - 1].member);
      SamePlace(before, ms, p.member, 0);
      IncrementCounters(before, p.member, p.amount, p.duration, who);
      IncrementTotal(before, p.member, p.amount, p.duration);
    }
  }

  lemma {:induction false} NegatedParts(parts: seq<Part>, who: string)
    ensures PartAmount(Negated(parts), who) == -PartAmount(parts, who)
    ensures PartHours(Negated(parts), who) == -PartHours(parts, who)
    ensures Amounts(Negated(parts)) == -Amounts(parts)
  {
    if parts != [] {
      var front := parts[..|parts| - 1];
      NegatedParts(front, who);
      assert Negated(parts)[..|parts| - 1] == Negated(front);
    }
  }

  lemma {:induction false} LiveAfterUpdate(cs: seq<Contribution>, i: nat, c: Contribution, who: string)
    requires i < |cs|
    ensures LiveAmount(cs[i := c], who) == LiveAmount(cs, who) - AmountIn(cs[i], who) + AmountIn(c, who)
    ensures LiveHours(cs[i := c], who) == LiveHours(cs, who) - HoursIn(cs[i], who) + HoursIn(c, who)
    ensures LiveMinted(cs[i := c]) == LiveMinted(cs) - MintedIn(cs[i]) + MintedIn(c)
  {
    var front := cs[..|cs| - 1];
    if i == |cs| - 1 {
      assert cs[i := c][..|cs| - 1] == front;
    } else {
      assert cs[i := c][..|cs| - 1] == front[i := c];
      LiveAfterUpdate(front, i, c, who);
    }
  }

  // ---------- one step ----------

  /** Earned lamports that no live contribution accounts for. */
  function Gap(s: State, id: string): int { Earned(s.members, id) - LiveAmount(s.contributions, id) }
  function HoursGap(s: State, id: string): real { Contributed(s.members, id) - LiveHours(s.contributions, id) }
  function MintedGap(s: State): int { s.lamportsMinted - LiveMinted(s.contributions) }
  function Drift(s: State): int { TotalEarned(s.members) - s.lamportsMinted }

  /** What one step does to the ledger: only sends move unaccounted lamports, only sends to
      outside addresses change the sum of members' lamports less the minted ones. */
  ghost predicate Accounted(s: State, e: Event, id: string)
  {
    var t := Step(s, e);
    && Gap(t, id) == Gap(s, id) + Moved(s, e, id)
    && HoursGap(t, id) == HoursGap(s, id)
    && MintedGap(t) == MintedGap(s)
    && Drift(t) == Drift(s) - SentOutside(s, e)
  }

  lemma StartAccounted(s: State, e: Event, id: string)
    requires e.Start?
    ensures Accounted(s, e, id)
  {}

  lemma {:induction false} SharesAreKnown(ms: seq<Member>, all: seq<Member>, lamports: int)
    requires |ms| <= |all| && ms == all[..|ms|]
    ensures Known(all, InvestorParts(ms, lamports))
  {
    if ms != [] {
      SharesAreKnown(ms[..|ms| - 1], all, lamports);
      assert all[|ms| - 1] == ms[|ms| - 1];
      Present(all, |ms| - 1);
    }
  }

  lemma Present(ms: seq<Member>, k: nat)
    requires k < |ms|
    ensures HasMember(ms, ms[k].id)
  {}

  /** A step that leaves all of them as they are. */
  ghost predicate Unmoved(s: State, t: State, id: string)
  {
    && Gap(t, id) == Gap(s, id) && HoursGap(t, id) == HoursGap(s, id)
    && MintedGap(t) == MintedGap(s) && Drift(t) == Drift(s)
  }

  /** Replacing a contribution while the counters change by what it counts for. */
  lemma ReplacedUnmoved(s: State, t: State, i: nat, c: Contribution, id: string)
    requires i < |s.contributions| && t.contributions == s.contributions[i := c]
    requires Earned(t.members, id) - Earned(s.members, id) == AmountIn(c, id) - AmountIn(s.contributions[i], id)
    requires Contributed(t.members, id) - Contributed(s.members, id) == HoursIn(c, id) - HoursIn(s.contributions[i], id)
    requires t.lamportsMinted - s.lamportsMinted == MintedIn(c) - MintedIn(s.contributions[i])
    requires TotalEarned(t.members) - TotalEarned(s.members) == t.lamportsMinted - s.lamportsMinted
    ensures Unmoved(s, t, id)
  {
    LiveAfterUpdate(s.contributions, i, c, id);
  }

  lemma StopUnmoved(s: State, contributionId: string, account: string, now: int, id: string)
    requires Inv(s) && CanStop(s, contributionId, account)
    ensures Unmoved(s, StopStep(s, contributionId, account, now), id)
  {
    var i := ContributionAt(s.contributions, contributionId, 0);
    var c := StoppedContribution(s, s.contributions[i], now);
    assert Sane(s, s.contributions[i]);
    SplitIsKnown(s, s.contributions[i], now);
    IncrementAllCounters(s.members, c.split, id);
    ReplacedUnmoved(s, StopStep(s, contributionId, account, now), i, c, id);
  }

  lemma StopAccounted(s: State, e: Event, id: string)
    requires Inv(s) && e.Stop?
    ensures Accounted(s, e, id)
  {
    if e.completes && CanStop(s, e.contributionId, e.account) {
      StopUnmoved(s, e.contributionId, e.account, e.now, id);
    }
  }

  lemma SplitIsKnown(s: State, c: Contribution, now: int)
    requires HasMember(s.members, c.member)
    ensures Known(s.members, StoppedContribution(s, c, now).split)
    ensures Amounts(StoppedContribution(s, c, now).split) == StoppedContribution(s, c, now).lamportsEarned
  {
    var d := StoppedContribution(s, c, now);
    SharesAreKnown(s.members, s.members, d.lamportsEarned);
    SplitAddsUp(s.members, c.member, d.lamportsEarned, Hours(c, now));
  }

  lemma NegatedCounters(ms: seq<Member>, parts: seq<Part>, id: string)
    requires Known(ms, parts)
    ensures Earned(IncrementAll(ms, Negated(parts)), id) == Earned(ms, id) - PartAmount(parts, id)
    ensures Contributed(IncrementAll(ms, Negated(parts)), id) == Contributed(ms, id) - PartHours(parts, id)
    ensures TotalEarned(IncrementAll(ms, Negated(parts))) == TotalEarned(ms) - Amounts(parts)
  {
    forall k | 0 <= k < |parts| ensures HasMember(ms, Negated(parts)[k].member) {
      assert HasMember(ms, parts[k].member);
    }
    IncrementAllCounters(ms, Negated(parts), id);
    NegatedParts(parts, id);
  }

  lemma FinishUnmoved(s: State, i: nat, outcome: Outcome, reversed: bool, id: string)
    requires Inv(s) && i < |s.contributions| && s.contributions[i].txnStatus == Processing
    ensures Unmoved(s, FinishStep(s, i, outcome, reversed), id)
  {
    var t := FinishStep(s, i, outcome, reversed);
    assert Sane(s, s.contributions[i]);
    NegatedCounters(s.members, s.contributions[i].split, id);
    ReplacedUnmoved(s, t, i, t.contributions[i], id);
  }

  lemma FinishAccounted(s: State, e: Event, id: string)
    requires Inv(s) && e.Finish?
    ensures Accounted(s, e, id)
  {
    var i := ContributionAt(s.contributions, e.contributionId, 0);
    if i < |s.contributions| && s.contributions[i].txnStatus == Processing {
      FinishUnmoved(s, i, e.outcome, e.reversed, id);
    }
  }

  // ---------- sends ----------

  lemma {:induction false} AppendPlace(ms: seq<Member>, m: Member, id: string, k: nat)
    requires k <= |ms|
    ensures MemberAt(ms + [m], id, k)
         == if MemberAt(ms, id, k) < |ms| then MemberAt(ms, id, k) else if m.id == id then |ms| else |ms| + 1
    decreases |ms| - k
  {
    if k < |ms| {
      AppendPlace(ms, m, id, k + 1);
    }
  }

  /** A new member starts with the lamports sent to it. */
  lemma AppendCounters(ms: seq<Member>, m: Member, id: string)
    requires !HasMember(ms, m.id) && m.contributed == 0.0
    ensures HasMember(ms, id) ==> HasMember(ms + [m], id)
    ensures Earned(ms + [m], id) == Earned(ms, id) + if m.id == id then m.lamportsEarned else 0
    ensures Contributed(ms + [m], id) == Contributed(ms, id)
    ensures TotalEarned(ms + [m]) == TotalEarned(ms) + m.lamportsEarned
  {
    AppendPlace(ms, m, id, 0);
    assert (ms + [m])[..|ms|] == ms;
  }

  ghost predicate CreditedIn(s: State, e: Event, ms: seq<Member>, id: string)
    requires e.Send?
  {
    && Earned(ms, id) == Earned(s.members, id) + (if Receiver(s, e) == Some(id) then e.lamports else 0)
    && Contributed(ms, id) == Contributed(s.members, id)
    && TotalEarned(ms) == TotalEarned(s.members) + (if e.recipient == Outside then 0 else e.lamports)
  }

  ghost predicate SentIn(s: State, e: Event, ms: seq<Member>, id: string)
    requires e.Send? && Sender(s, e.account) < |s.members|
  {
    && Earned(ms, id) == Earned(s.members, id) + (if Receiver(s, e) == Some(id) then e.lamports else 0)
        - (if s.members[Sender(s, e.account)].id == id then e.lamports else 0)
    && Contributed(ms, id) == Contributed(s.members, id)
    && TotalEarned(ms) == TotalEarned(s.members) - (if e.recipient == Outside then e.lamports else 0)
  }

  lemma CreditedCounters(s: State, e: Event, id: string)
    requires e.Send? && Fresh(s, e)
    ensures CreditedIn(s, e, Credited(s.members, e.recipient, e.lamports, e.newMember), id)
  {
    var ms := s.members;
    if e.recipient != Outside {
      var user, orgUser := Some(e.recipient.id), Some(e.recipient.id);
      var i := if e.recipient.ToUser? then HeldBy(ms, user, None, 0) else HeldBy(ms, None, orgUser, 0);
      if i == |ms| {
        AppendCounters(ms, Credited(ms, e.recipient, e.lamports, e.newMember)[|ms|], id);
      } else {
        Present(ms, i);
        IncrementCounters(ms, ms[i].id, e.lamports, 0.0, id);
        IncrementTotal(ms, ms[i].id, e.lamports, 0.0);
        SamePlace(Increment(ms, ms[i].id, e.lamports, 0.0), ms, id, 0);
      }
    }
  }

  ghost predicate Extends(a: seq<Member>, b: seq<Member>)
  {
    |a| <= |b| && forall k :: 0 <= k < |a| ==> a[k].id == b[k].id
  }

  lemma StillPresent(a: seq<Member>, b: seq<Member>, id: string, k: nat)
    requires Extends(a, b) && k <= |a|
    ensures MemberAt(a, id, k) < |a| ==> MemberAt(b, id, k) < |b|
    decreases |a| - k
  {}

  lemma CreditedExtends(ms: seq<Member>, recipient: Recipient, lamports: int, newMember: string)
    ensures Extends(ms, Credited(ms, recipient, lamports, newMember))
  {}

  lemma DebitedCounters(s: State, e: Event, ms: seq<Member>, id: string)
    requires e.Send? && Sender(s, e.account) < |s.members| && CreditedIn(s, e, ms, id)
    requires HasMember(ms, s.members[Sender(s, e.account)].id)
    ensures SentIn(s, e, Increment(ms, s.members[Sender(s, e.account)].id, -e.lamports, 0.0), id)
  {
    IncrementCounters(ms, s.members[Sender(s, e.account)].id, -e.lamports, 0.0, id);
    IncrementTotal(ms, s.members[Sender(s, e.account)].id, -e.lamports, 0.0);
  }

  lemma SendAccounted(s: State, e: Event, id: string)
    requires e.Send? && Fresh(s, e)
    ensures Accounted(s, e, id)
  {
    if e.completes && CanSend(s, e.account, e.lamports) {
      SendCounters(s, e, id);
      SendIs(s, e);
    }
  }

  lemma SendCounters(s: State, e: Event, id: string)
    requires e.Send? && Fresh(s, e) && e.completes && CanSend(s, e.account, e.lamports)
    ensures SentIn(s, e, AfterSend(s, e), id)
  {
    SenderPresent(s, e);
    CreditedCounters(s, e, id);
    DebitedCounters(s, e, Credited(s.members, e.recipient, e.lamports, e.newMember), id);
  }

  lemma SendIs(s: State, e: Event)
    requires e.Send? && e.completes && CanSend(s, e.account, e.lamports)
    ensures Step(s, e) == s.(members := AfterSend(s, e))
  {}

  function AfterSend(s: State, e: Event): seq<Member>
    requires e.Send? && Sender(s, e.account) < |s.members|
  {
    Increment(Credited(s.members, e.recipient, e.lamports, e.newMember), s.members[Sender(s, e.account)].id,
      -e.lamports, 0.0)
  }

  /** The sender is still there once the recipient has been credited. */
  lemma SenderPresent(s: State, e: Event)
    requires e.Send? && Sender(s, e.account) < |s.members|
    ensures HasMember(Credited(s.members, e.recipient, e.lamports, e.newMember), s.members[Sender(s, e.account)].id)
  {
    var ms := Credited(s.members, e.recipient, e.lamports, e.newMember);
    Present(s.members, Sender(s, e.account));
    CreditedExtends(s.members, e.recipient, e.lamports, e.newMember);
    StillPresent(s.members, ms, s.members[Sender(s, e.account)].id, 0);
  }

  lemma StepAccounted(s: State, e: Event, id: string)
    requires Inv(s) && Fresh(s, e)
    ensures Accounted(s, e, id)
  {
    match e
    case Start(_, _, _, _) => StartAccounted(s, e, id);
    case Stop(_, _, _, _) => StopAccounted(s, e, id);
    case Finish(_, _, _) => FinishAccounted(s, e, id);
    case Send(_, _, _, _, _) => SendAccounted(s, e, id);
  }

  // ---------- the invariant is kept ----------

  lemma SaneInLonger(s: State, t: State, c: Contribution)
    requires Sane(s, c) && Extends(s.members, t.members)
    ensures Sane(t, c)
  {}

  lemma {:induction false} IncrementAllIds(ms: seq<Member>, parts: seq<Part>)
    ensures SameIds(IncrementAll(ms, parts), ms)
  {
    if parts != [] {
      IncrementAllIds(ms, parts[..|parts| - 1]);
    }
  }

  lemma CreditedUnique(ms: seq<Member>, recipient: Recipient, lamports: int, newMember: string)
    requires UniqueMembers(ms) && !HasMember(ms, newMember)
    ensures UniqueMembers(Credited(ms, recipient, lamports, newMember))
  {}

  /** Members keep their ids and are never removed; ids stay unique. */
  lemma MembersExtend(s: State, e: Event)
    requires UniqueMembers(s.members) && Fresh(s, e)
    ensures Extends(s.members, Step(s, e).members) && UniqueMembers(Step(s, e).members)
  {
    match e
    case Start(_, _, _, _) =>
    case Stop(contributionId, account, now, completes) =>
      if completes && CanStop(s, contributionId, account) {
        var i := ContributionAt(s.contributions, contributionId, 0);
        IncrementAllIds(s.members, StoppedContribution(s, s.contributions[i], now).split);
      }
    case Finish(contributionId, _, _) =>
      var i := ContributionAt(s.contributions, contributionId, 0);
      if i < |s.contributions| {
        IncrementAllIds(s.members, Negated(s.contributions[i].split));
      }
    case Send(account, recipient, lamports, newMember, completes) =>
      if completes && CanSend(s, account, lamports) {
        CreditedExtends(s.members, recipient, lamports, newMember);
        CreditedUnique(s.members, recipient, lamports, newMember);
        var sender := s.members[Sender(s, account)].id;
        SameIdsExtend(s.members, Credited(s.members, recipient, lamports, newMember), Step(s, e).members);
      }
  }

  lemma SameIdsExtend(a: seq<Member>, b: seq<Member>, c: seq<Member>)
    requires Extends(a, b) && UniqueMembers(b) && SameIds(c, b)
    ensures Extends(a, c) && UniqueMembers(c)
  {}

  lemma AllSaneInLonger(s: State, t: State)
    requires AllSane(s) && Extends(s.members, t.members) && t.contributions == s.contributions
    ensures AllSane(t)
  {}

  /** Replacing contribution i by a sane one that runs only if the old one did. */
  lemma ReplacedIsSane(s: State, t: State, i: nat, c: Contribution)
    requires AllSane(s) && OneRunning(s.contributions) && Extends(s.members, t.members) && i < |s.contributions|
    requires t.contributions == s.contributions[i := c] && Sane(t, c)
    requires c.stopped || (!s.contributions[i].stopped && c.member == s.contributions[i].member)
    ensures AllSane(t) && OneRunning(t.contributions)
  {
    forall k | 0 <= k < |t.contributions| ensures Sane(t, t.contributions[k]) {
      if k != i {
        SaneInLonger(s, t, s.contributions[k]);
      }
    }
  }

  lemma StopKeepsContributions(s: State, e: Event)
    requires Inv(s) && e.Stop? && e.completes && CanStop(s, e.contributionId, e.account)
    requires Extends(s.members, Step(s, e).members)
    ensures AllSane(Step(s, e)) && OneRunning(Step(s, e).contributions)
  {
    var i := ContributionAt(s.contributions, e.contributionId, 0);
    var c := StoppedContribution(s, s.contributions[i], e.now);
    assert Sane(s, s.contributions[i]);
    SplitIsKnown(s, s.contributions[i], e.now);
    SaneInLonger(s, Step(s, e), c);
    ReplacedIsSane(s, Step(s, e), i, c);
  }

  lemma FinishKeepsContributions(s: State, e: Event)
    requires Inv(s) && e.Finish? && Extends(s.members, Step(s, e).members)
    ensures AllSane(Step(s, e)) && OneRunning(Step(s, e).contributions)
  {
    var i, t := ContributionAt(s.contributions, e.contributionId, 0), Step(s, e);
    if i < |s.contributions| && s.contributions[i].txnStatus == Processing {
      assert Sane(s, s.contributions[i]);
      SaneInLonger(s, t, s.contributions[i]);
      ReplacedIsSane(s, t, i, t.contributions[i]);
    }
  }

  lemma StartKeepsContributions(s: State, e: Event)
    requires Inv(s) && e.Start?
    ensures AllSane(Step(s, e)) && OneRunning(Step(s, e).contributions)
  {}

  lemma StepKeepsInv(s: State, e: Event)
    requires Inv(s) && Fresh(s, e)
    ensures Inv(Step(s, e))
  {
    MembersExtend(s, e);
    match e
    case Start(_, _, _, _) => StartKeepsContributions(s, e);
    case Stop(contributionId, account, _, completes) =>
      if completes && CanStop(s, contributionId, account) {
        StopKeepsContributions(s, e);
      }
    case Finish(_, _, _) => FinishKeepsContributions(s, e);
    case Send(_, _, _, _, _) => AllSaneInLonger(s, Step(s, e));
  }

  // ---------- whole runs ----------

  ghost predicate FreshRun(s: State, es: seq<Event>)
  {
    es != [] ==> FreshRun(s, es[..|es| - 1]) && Fresh(Run(s, es[..|es| - 1]), es[|es| - 1])
  }

  function MovedInRun(s: State, es: seq<Event>, id: string): int
  {
    if es == [] then 0
    else MovedInRun(s, es[..|es| - 1], id) + Moved(Run(s, es[..|es| - 1]), es[|es| - 1], id)
  }

  function SentInRun(s: State, es: seq<Event>): int
  {
    if es == [] then 0
    else SentInRun(s, es[..|es| - 1]) + SentOutside(Run(s, es[..|es| - 1]), es[|es| - 1])
  }

  /** Over any run, a member's lamports less its parts of the live contributions change only by
      its sends; its hours and the minted lamports are explained by the live contributions
      alone; and members' lamports less minted ones drop by what is sent outside. */
  lemma {:induction false} LedgerOverRuns(s: State, es: seq<Event>, id: string)
    requires Inv(s) && FreshRun(s, es)
    ensures Inv(Run(s, es))
    ensures Gap(Run(s, es), id) == Gap(s, id) + MovedInRun(s, es, id)
    ensures HoursGap(Run(s, es), id) == HoursGap(s, id)
    ensures MintedGap(Run(s, es)) == MintedGap(s)
    ensures Drift(Run(s, es)) == Drift(s) - SentInRun(s, es)
  {
    if es != [] {
      var front, e := es[..|es| - 1], es[|es| - 1];
      LedgerOverRuns(s, front, id);
      StepKeepsInv(Run(s, front), e);
      StepAccounted(Run(s, front), e, id);
    }
  }

  // ---------- which requests are carried out ----------

  ghost predicate FirstWithId(cs: seq<Contribution>, id: string, i: nat)
  {
    i < |cs| && cs[i].id == id && forall j :: 0 <= j < i ==> cs[j].id != id
  }

  lemma MemberIs(ms: seq<Member>, i: nat)
    requires UniqueMembers(ms) && i < |ms|
    ensures MemberAt(ms, ms[i].id, 0) == i
  {}

  /** The account behind the member: its user, or its organisation when it has no user. */
  predicate IsOwn(m: Member, account: string)
  {
    if m.user.Some? then m.user.value == account else m.orgUser == Some(account)
  }

  ghost predicate StartedWith(s: State, e: Event, ratio: real)
    requires e.Start?
  {
    Step(s, e) == s.(contributions :=
      s.contributions + [Contribution(e.newId, e.memberId, e.now, ratio, false, NoTxn, 0, [])])
  }

  /** A contribution starts exactly for the account's own member that has none running, with that
      member's ratio. */
  lemma StartsIff(s: State, e: Event)
    requires UniqueMembers(s.members) && e.Start?
    ensures Step(s, e) != s
      <==> && (exists m :: m in s.members && m.id == e.memberId && IsOwn(m, e.account))
           && forall c :: c in s.contributions && c.member == e.memberId ==> c.stopped
    ensures Step(s, e) != s ==> exists m :: m in s.members && m.id == e.memberId && StartedWith(s, e, m.impactRatio)
  {
    forall i | 0 <= i < |s.members| ensures MemberAt(s.members, s.members[i].id, 0) == i {
      MemberIs(s.members, i);
    }
    assert Running(s.contributions, e.memberId) <==>
      exists c :: c in s.contributions && c.member == e.memberId && !c.stopped;
    if CanStart(s, e.memberId, e.account) {
      assert s.members[MemberAt(s.members, e.memberId, 0)] in s.members;
      assert |Step(s, e).contributions| == |s.contributions| + 1;
      assert StartedWith(s, e, s.members[MemberAt(s.members, e.memberId, 0)].impactRatio);
    }
  }

  /** A stop is carried out exactly when it completes, for the account's own contribution that is
      not yet stopped, and when every investor has a user. */
  lemma StopsIff(s: State, e: Event)
    requires UniqueMembers(s.members) && e.Stop?
    ensures Step(s, e) != s
      <==> && e.completes && (forall m :: m in s.members && m.allocation.Some? ==> m.user.Some?)
           && exists i: nat :: FirstWithId(s.contributions, e.contributionId, i) && !s.contributions[i].stopped
                && OwnedBy(s, s.contributions[i], e.account)
  {
    var i := ContributionAt(s.contributions, e.contributionId, 0);
    forall k | 0 <= k < |s.members| ensures MemberAt(s.members, s.members[k].id, 0) == k {
      MemberIs(s.members, k);
    }
    assert forall k: nat :: FirstWithId(s.contributions, e.contributionId, k) ==> k == i;
    assert i < |s.contributions| ==> FirstWithId(s.contributions, e.contributionId, i);
    if e.completes && CanStop(s, e.contributionId, e.account) {
      var m := MemberAt(s.members, s.contributions[i].member, 0);
      assert s.members[m] in s.members && OwnedBy(s, s.contributions[i], e.account);
      assert Step(s, e).contributions[i].stopped;
    }
  }

  ghost predicate OwnedBy(s: State, c: Contribution, account: string)
  {
    exists m :: m in s.members && m.id == c.member && IsOwn(m, account)
  }

  lemma {:induction false} InvestorPartOf(ms: seq<Member>, all: seq<Member>, lamports: int, i: nat)
    requires UniqueMembers(all) && |ms| <= |all| && ms == all[..|ms|] && i < |all|
    ensures PartAmount(InvestorParts(ms, lamports), all[i].id)
      == if i < |ms| && all[i].allocation.Some? then InvestorShare(lamports, all[i].allocation.value) else 0
    ensures PartHours(InvestorParts(ms, lamports), all[i].id) == 0.0
  {
    if ms != [] {
      var front, parts := ms[..|ms| - 1], InvestorParts(ms, lamports);
      InvestorPartOf(front, all, lamports, i);
      assert ms[|ms| - 1] == all[|ms| - 1];
      if all[|ms| - 1].allocation.Some? {
        assert parts[..|parts| - 1] == InvestorParts(front, lamports);
      }
    }
  }

  /** Every member's part of a split: an investor its percentage, the contributor what all of
      these leave, and the hours. */
  lemma PartOfMember(ms: seq<Member>, contributor: string, lamports: int, duration: real, i: nat)
    requires UniqueMembers(ms) && i < |ms|
    ensures var parts, m := Split(ms, contributor, lamports, duration), ms[i];
      && PartAmount(parts, m.id) == (if m.allocation.None? then 0 else InvestorShare(lamports, m.allocation.value))
          + (if m.id == contributor then lamports - Amounts(InvestorParts(ms, lamports)) else 0)
      && PartHours(parts, m.id) == if m.id == contributor then duration else 0.0
  {
    var parts := Split(ms, contributor, lamports, duration);
    InvestorPartOf(ms, ms, lamports, i);
    assert ms[..|ms|] == ms && parts[..|parts| - 1] == InvestorParts(ms, lamports);
  }

  /** Every member's counters once a split is applied: an investor is credited its percentage,
      the contributor what all of these leave, and the hours. */
  ghost predicate Credits(before: seq<Member>, after: seq<Member>, contributor: string, lamports: int, hours: real,
      m: Member)
  {
    && Earned(after, m.id) - Earned(before, m.id)
      == (if m.allocation.None? then 0 else InvestorShare(lamports, m.allocation.value))
        + (if m.id == contributor then lamports - Amounts(InvestorParts(before, lamports)) else 0)
    && Contributed(after, m.id) - Contributed(before, m.id) == if m.id == contributor then hours else 0.0
  }

  lemma SplitCredits(ms: seq<Member>, contributor: string, lamports: int, hours: real, i: nat)
    requires UniqueMembers(ms) && i < |ms| && Known(ms, Split(ms, contributor, lamports, hours))
    ensures Credits(ms, IncrementAll(ms, Split(ms, contributor, lamports, hours)), contributor, lamports, hours, ms[i])
  {
    IncrementAllCounters(ms, Split(ms, contributor, lamports, hours), ms[i].id);
    PartOfMember(ms, contributor, lamports, hours, i);
  }

  /** A stop credits every member with its part of the lamports that it mints. */
  lemma StopCredits(s: State, e: Event, i: nat, k: nat)
    requires Inv(s) && e.Stop? && e.completes && CanStop(s, e.contributionId, e.account)
    requires FirstWithId(s.contributions, e.contributionId, k) && i < |s.members|
    ensures var c, t := s.contributions[k], Step(s, e);
      Credits(s.members, t.members, c.member, t.lamportsMinted - s.lamportsMinted, Hours(c, e.now), s.members[i])
  {
    var lamports, hours := StopSplits(s, e, k);
    SplitCredits(s.members, s.contributions[k].member, lamports, hours, i);
  }

  lemma StopSplits(s: State, e: Event, k: nat) returns (lamports: int, hours: real)
    requires Inv(s) && e.Stop? && e.completes && CanStop(s, e.contributionId, e.account)
    requires FirstWithId(s.contributions, e.contributionId, k)
    ensures var parts, t := Split(s.members, s.contributions[k].member, lamports, hours), Step(s, e);
      && t.members == IncrementAll(s.members, parts) && Known(s.members, parts)
      && t.lamportsMinted - s.lamportsMinted == lamports && hours == Hours(s.contributions[k], e.now)
  {
    assert k == ContributionAt(s.contributions, e.contributionId, 0) && Sane(s, s.contributions[k]);
    SplitIsKnown(s, s.contributions[k], e.now);
    lamports := StoppedContribution(s, s.contributions[k], e.now).lamportsEarned;
    hours := Hours(s.contributions[k], e.now);
  }

  /** These are the elapsed time times the ratio, up to half a lamport. */
  lemma StopMints(s: State, e: Event, k: nat)
    requires e.Stop? && e.completes && CanStop(s, e.contributionId, e.account)
    requires FirstWithId(s.contributions, e.contributionId, k)
    ensures var c, minted := s.contributions[k], Step(s, e).lamportsMinted - s.lamportsMinted;
      && Times(Hours(c, e.now), MS_PER_HOUR) == (e.now - c.createdAt) as real
      && Abs(minted as real - Times(Times(Hours(c, e.now), c.impactRatio), LAMPORTS_PER_SOL)) <= 0.5
  {
    var c := s.contributions[k];
    assert k == ContributionAt(s.contributions, e.contributionId, 0);
    OverTimes((e.now - c.createdAt) as real, MS_PER_HOUR);
    RoundError(Times(Times(Hours(c, e.now), c.impactRatio), LAMPORTS_PER_SOL));
  }

  /** An investor's share is its percentage, up to half a lamport. */
  lemma InvestorsPercentage(lamports: int, allocation: real)
    ensures Abs(InvestorShare(lamports, allocation) as real - Times(Over(allocation, 100.0), lamports as real)) <= 0.5
  {
    RoundError(Times(Over(allocation, 100.0), lamports as real));
  }

  predicate BelongsTo(m: Member, user: Option<string>, orgUser: Option<string>)
  {
    (user.Some? && m.user == user) || (orgUser.Some? && m.orgUser == orgUser)
  }

  ghost predicate FirstOf(ms: seq<Member>, user: Option<string>, orgUser: Option<string>, i: nat)
  {
    i < |ms| && BelongsTo(ms[i], user, orgUser) && forall j :: 0 <= j < i ==> !BelongsTo(ms[j], user, orgUser)
  }

  lemma {:induction false} HeldByFirst(ms: seq<Member>, user: Option<string>, orgUser: Option<string>, k: nat)
    requires k <= |ms| && forall j :: 0 <= j < k ==> !BelongsTo(ms[j], user, orgUser)
    ensures var i := HeldBy(ms, user, orgUser, k);
      if i < |ms| then FirstOf(ms, user, orgUser, i) else forall j :: 0 <= j < |ms| ==> !BelongsTo(ms[j], user, orgUser)
    decreases |ms| - k
  {
    if k < |ms| && !BelongsTo(ms[k], user, orgUser) {
      HeldByFirst(ms, user, orgUser, k + 1);
    }
  }

  ghost predicate HasLamports(ms: seq<Member>, account: string, lamports: int, i: nat)
  {
    FirstOf(ms, Some(account), Some(account), i) && ms[i].lamportsEarned >= lamports
  }

  /** A send is possible exactly when the account's member has the lamports. */
  lemma CanSendIff(s: State, account: string, lamports: int)
    ensures CanSend(s, account, lamports)
      <==> exists i: nat :: HasLamports(s.members, account, lamports, i)
  {
    HeldByFirst(s.members, Some(account), Some(account), 0);
    var i := Sender(s, account);
    assert forall k: nat :: FirstOf(s.members, Some(account), Some(account), k) ==> k == i;
    assert CanSend(s, account, lamports) ==> HasLamports(s.members, account, lamports, i);
  }

  /** It credits the member of the recipient, or a new one. */
  lemma ReceiverIs(s: State, e: Event, i: nat)
    requires e.Send? && !e.recipient.Outside?
    ensures var user := if e.recipient.ToUser? then Some(e.recipient.id) else None;
      var orgUser := if e.recipient.ToOrg? then Some(e.recipient.id) else None;
      && (FirstOf(s.members, user, orgUser, i) ==> Receiver(s, e) == Some(s.members[i].id))
      && ((forall m :: m in s.members ==> !BelongsTo(m, user, orgUser)) ==> Receiver(s, e) == Some(e.newMember))
  {
    var user := if e.recipient.ToUser? then Some(e.recipient.id) else None;
    var orgUser := if e.recipient.ToOrg? then Some(e.recipient.id) else None;
    HeldByFirst(s.members, user, orgUser, 0);
    var k := HeldBy(s.members, user, orgUser, 0);
    assert FirstOf(s.members, user, orgUser, i) ==> i == k;
    assert k < |s.members| ==> s.members[k] in s.members;
  }

  lemma {:induction false} HeldByIncrement(ms: seq<Member>, id: string, amount: int, duration: real,
      user: Option<string>, orgUser: Option<string>, k: nat)
    requires k <= |ms|
    ensures HeldBy(Increment(ms, id, amount, duration), user, orgUser, k) == HeldBy(ms, user, orgUser, k)
    decreases |ms| - k
  {
    if k < |ms| {
      HeldByIncrement(ms, id, amount, duration, user, orgUser, k + 1);
    }
  }

  lemma {:induction false} HeldByAppend(ms: seq<Member>, m: Member, user: Option<string>, orgUser: Option<string>,
      k: nat)
    requires k <= |ms| && BelongsTo(m, user, orgUser)
    ensures HeldBy(ms + [m], user, orgUser, k) == HeldBy(ms, user, orgUser, k)
    decreases |ms| - k
  {
    if k < |ms| {
      HeldByAppend(ms, m, user, orgUser, k + 1);
    }
  }

  /** The member that a send makes is the recipient's: the next send to it finds it again. */
  lemma NewMemberIsFound(s: State, e: Event, lamports: int, newMember: string)
    requires e.Send? && e.completes && !e.recipient.Outside? && CanSend(s, e.account, e.lamports)
    ensures Receiver(Step(s, e), e.(lamports := lamports, newMember := newMember)) == Receiver(s, e)
  {
    var user := if e.recipient.ToUser? then Some(e.recipient.id) else None;
    var orgUser := if e.recipient.ToOrg? then Some(e.recipient.id) else None;
    var ms, credited := s.members, Credited(s.members, e.recipient, e.lamports, e.newMember);
    var i := HeldBy(ms, user, orgUser, 0);
    if i == |ms| {
      HeldByAppend(ms, credited[|ms|], user, orgUser, 0);
    } else {
      HeldByIncrement(ms, ms[i].id, e.lamports, 0.0, user, orgUser, 0);
    }
    SendIs(s, e);
    HeldByIncrement(credited, ms[Sender(s, e.account)].id, -e.lamports, 0.0, user, orgUser, 0);
  }

  /** It is no investor, has no hours, and contributes at the ratio of one. */
  lemma NewMemberIs(s: State, e: Event)
    requires e.Send? && e.completes && CanSend(s, e.account, e.lamports)
    ensures forall m :: m in Step(s, e).members[|s.members|..] ==>
      m.allocation == None && m.impactRatio == 1.0 && m.contributed == 0.0
  {
    SendIs(s, e);
  }

  /** No send takes a member below zero. */
  lemma SendsOnlyWhatItHas(s: State, e: Event, who: string)
    requires UniqueMembers(s.members) && e.Send? && Fresh(s, e) && e.lamports >= 0 && Earned(s.members, who) >= 0
    ensures Earned(Step(s, e).members, who) >= 0
  {
    if e.completes && CanSend(s, e.account, e.lamports) {
      SendCounters(s, e, who);
      SendIs(s, e);
      MemberIs(s.members, Sender(s, e.account));
    }
  }

  // ---------- which outcome ends how ----------

  /** The event records the outcome of this contribution. */
  predicate Records(e: Event, id: string)
  {
    e.Finish? && e.contributionId == id && e.outcome != Unrecorded
  }

  /** The first event of the run that does. */
  function FirstRecord(es: seq<Event>, id: string): Option<Event>
  {
    if es == [] then None
    else if FirstRecord(es[..|es| - 1], id).Some? then FirstRecord(es[..|es| - 1], id)
    else if Records(es[|es| - 1], id) then Some(es[|es| - 1])
    else None
  }

  /** What is recorded decides the status, and nothing else of the contribution changes. */
  ghost predicate EndsAs(before: Contribution, after: Contribution, record: Option<Event>)
  {
    && after == before.(txnStatus := after.txnStatus)
    && (after.txnStatus == Processing <==> record.None?)
    && (record.Some? ==> record.value.Finish? && Says(record.value, after.txnStatus))
  }

  ghost predicate Says(e: Event, status: TxnStatus)
    requires e.Finish?
  {
    && (status == Confirmed <==> e.outcome == Minted)
    && (status == Reverted <==> e.outcome == Rejected && e.reversed)
    && (status == Failed <==> e.outcome == Rejected && !e.reversed)
  }

  /** A step changes a stopped contribution only by recording its outcome, once. */
  lemma OneStepEnds(s: State, e: Event, i: nat)
    requires i < |s.contributions| && s.contributions[i].stopped
    requires ContributionAt(s.contributions, s.contributions[i].id, 0) == i
    ensures var c, t := s.contributions[i], Step(s, e);
      && i < |t.contributions| && ContributionAt(t.contributions, c.id, 0) == i
      && if c.txnStatus == Processing then EndsAs(c, t.contributions[i], if Records(e, c.id) then Some(e) else None)
         else t.contributions[i] == c
  {
    SameIdsAt(s.contributions, Step(s, e).contributions, s.contributions[i].id, 0);
  }

  /** Over any run, a stopped contribution ends as the first recorded outcome says: confirmed when
      it was minted, reverted or failed when it was rejected, and processing as long as nothing is
      recorded; whatever else happens, and whatever is recorded later. */
  lemma {:induction false} FirstRecordDecides(s: State, es: seq<Event>, i: nat)
    requires i < |s.contributions| && s.contributions[i].stopped && s.contributions[i].txnStatus == Processing
    requires ContributionAt(s.contributions, s.contributions[i].id, 0) == i
    ensures var c, cs := s.contributions[i], Run(s, es).contributions;
      i < |cs| && EndsAs(c, cs[i], FirstRecord(es, c.id)) && ContributionAt(cs, c.id, 0) == i
  {
    if es != [] {
      FirstRecordDecides(s, es[..|es| - 1], i);
      OneStepEnds(Run(s, es[..|es| - 1]), es[|es| - 1], i);
    }
  }

  lemma {:induction false} NothingRecorded(es: seq<Event>, id: string)
    requires forall k :: 0 <= k < |es| ==> !Records(es[k], id)
    ensures FirstRecord(es, id) == None
  {
    if es != [] {
      NothingRecorded(es[..|es| - 1], id);
    }
  }

  /** A stopped contribution whose outcome is not recorded stays processing, whatever else
      happens, and goes on counting for its members. */
  lemma UnrecordedStaysProcessing(s: State, es: seq<Event>, i: nat)
    requires AllSane(s) && i < |s.contributions| && s.contributions[i].txnStatus == Processing
    requires ContributionAt(s.contributions, s.contributions[i].id, 0) == i
    requires forall k :: 0 <= k < |es| && es[k].Finish? && es[k].contributionId == s.contributions[i].id ==>
      es[k].outcome == Unrecorded
    ensures var cs := Run(s, es).contributions; i < |cs| && cs[i] == s.contributions[i] && Live(cs[i])
  {
    assert Sane(s, s.contributions[i]);
    FirstRecordDecides(s, es, i);
    NothingRecorded(es, s.contributions[i].id);
  }

  /** Recording a rejected and reversed outcome takes from every member exactly its parts, and the
      earned lamports from the minted ones; any other outcome moves nothing. */
  lemma RecordMoves(s: State, e: Event, who: string)
    requires Inv(s) && e.Finish?
    ensures var i, t := ContributionAt(s.contributions, e.contributionId, 0), Step(s, e);
      if i < |s.contributions| && s.contributions[i].txnStatus == Processing && e.outcome == Rejected && e.reversed
      then
        && Earned(t.members, who) == Earned(s.members, who) - PartAmount(s.contributions[i].split, who)
        && Contributed(t.members, who) == Contributed(s.members, who) - PartHours(s.contributions[i].split, who)
        && t.lamportsMinted == s.lamportsMinted - s.contributions[i].lamportsEarned
      else t.members == s.members && t.lamportsMinted == s.lamportsMinted
  {
    var i := ContributionAt(s.contributions, e.contributionId, 0);
    if i < |s.contributions| {
      assert Sane(s, s.contributions[i]);
      NegatedCounters(s.members, s.contributions[i].split, who);
    }
  }

  predicate Ended(c: Contribution)
  {
    c.txnStatus == Confirmed || c.txnStatus == Reverted || c.txnStatus == Failed
  }

  /** Some event of the run recorded the outcome that this status stands for. */
  ghost predicate Said(es: seq<Event>, c: Contribution)
  {
    exists k :: 0 <= k < |es| && Records(es[k], c.id) && Says(es[k], c.txnStatus)
  }

  lemma EndedBy(s: State, e: Event, i: nat)
    requires i < |Step(s, e).contributions| && Ended(Step(s, e).contributions[i])
    ensures var c := Step(s, e).contributions[i];
      (i < |s.contributions| && s.contributions[i] == c) || (Records(e, c.id) && Says(e, c.txnStatus))
  {}

  /** No contribution is confirmed, reverted or failed without the event that says so. */
  lemma {:induction false} EndsAreSaid(s: State, es: seq<Event>, i: nat)
    requires s.contributions == [] && i < |Run(s, es).contributions| && Ended(Run(s, es).contributions[i])
    ensures Said(es, Run(s, es).contributions[i])
  {
    if es != [] {
      var front, e, c := es[..|es| - 1], es[|es| - 1], Run(s, es).contributions[i];
      EndedBy(Run(s, front), e, i);
      if !(Records(es[|front|], c.id) && Says(es[|front|], c.txnStatus)) {
        EndsAreSaid(s, front, i);
        var k :| 0 <= k < |front| && Records(front[k], c.id) && Says(front[k], c.txnStatus);
        assert es[k] == front[k];
      }
    }
  }

  lemma {:induction false} SameIdsAt(a: seq<Contribution>, b: seq<Contribution>, id: string, k: nat)
    requires k <= |a| <= |b| && forall j :: 0 <= j < |a| ==> a[j].id == b[j].id
    ensures ContributionAt(a, id, k) < |a| ==> ContributionAt(b, id, k) == ContributionAt(a, id, k)
    decreases |a| - k
  {
    if k < |a| {
      SameIdsAt(a, b, id, k + 1);
    }
  }

  /** Started from no contributions, the counters are exactly their first values, the sends,
      and the parts of contributions that are stopped and not reverted: a reverted one leaves
      nothing behind. */
  lemma CountersAreExplained(s: State, es: seq<Event>, id: string)
    requires UniqueMembers(s.members) && s.contributions == [] && FreshRun(s, es)
    ensures var t := Run(s, es);
      && Earned(t.members, id) == Earned(s.members, id) + MovedInRun(s, es, id) + LiveAmount(t.contributions, id)
      && Contributed(t.members, id) == Contributed(s.members, id) + LiveHours(t.contributions, id)
      && t.lamportsMinted == s.lamportsMinted + LiveMinted(t.contributions)
  {
    LedgerOverRuns(s, es, id);
  }
}
