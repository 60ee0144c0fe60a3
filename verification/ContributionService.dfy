/** The handlers that change the stored counters, each a transaction, proved against the steps
    of ContributionLedger. */
module ContributionService {
  import opened Options
  import opened ContributionSplit
  import opened ContributionLedger
  import opened Confirmation

  /** How minting ends. A thrown `undefined` has no message: the catch block fails on it before
      it records anything. */
  function OutcomeOf(submitted: Retried, rounds: seq<Round>, named: bool): Outcome
  {
    match submitted
    case Threw => Rejected
    case Sent(hash) =>
      if !Confirm(hash, None, rounds, 0).Returned? then Unrecorded else if named then Minted else Rejected
  }

  /** The first round that finds the transaction without error, before any that loses it. */
  ghost predicate ConfirmedAt(rounds: seq<Round>, n: nat)
  {
    && n < |rounds| && LookupAt(None, rounds, n) == Found(false)
    && forall k :: 0 <= k < n ==> GoesOn(None, rounds, k)
  }

  /** Minted means submitted, confirmed and announced; rejected, that submitting threw, or that
      announcing a confirmed mint did; everything else goes unrecorded. */
  lemma OutcomeIff(submitted: Retried, rounds: seq<Round>, named: bool)
    ensures OutcomeOf(submitted, rounds, named) == Minted
      <==> submitted.Sent? && named && exists n: nat :: ConfirmedAt(rounds, n)
    ensures OutcomeOf(submitted, rounds, named) == Rejected
      <==> submitted.Threw? || (!named && exists n: nat :: ConfirmedAt(rounds, n))
  {
    if submitted.Sent? {
      ConfirmEnds(submitted.hash, None, rounds, 0);
      var e := EndsAt(None, rounds, 0);
      forall n: nat | ConfirmedAt(rounds, n) ensures n == e {
        assert !GoesOn(None, rounds, n);
      }
      assert e < |rounds| && LookupAt(None, rounds, e) == Found(false) ==> ConfirmedAt(rounds, e);
    }
  }

  /** The notification reads the nickname of each member's user. */
  predicate Named(ms: seq<Member>, split: seq<Part>)
  {
    forall k :: 0 <= k < |split| ==> HasUser(ms, split[k].member)
  }

  predicate HasUser(ms: seq<Member>, id: string)
  {
    MemberAt(ms, id, 0) < |ms| && ms[MemberAt(ms, id, 0)].user.Some?
  }

  predicate NamedFor(s: State, contributionId: string)
  {
    var i := ContributionAt(s.contributions, contributionId, 0);
    i < |s.contributions| && Named(s.members, s.contributions[i].split)
  }

  ghost predicate HasUserAmong(ms: seq<Member>, id: string)
  {
    exists m :: m in ms && m.id == id && m.user.Some?
  }

  lemma UserIsFound(ms: seq<Member>, id: string)
    requires UniqueMembers(ms)
    ensures HasUser(ms, id) <==> HasUserAmong(ms, id)
  {
    if HasUser(ms, id) {
      assert ms[MemberAt(ms, id, 0)] in ms;
    }
    if HasUserAmong(ms, id) {
      var k :| 0 <= k < |ms| && ms[k].id == id && ms[k].user.Some?;
      MemberIs(ms, k);
    }
  }

  /** A confirmed mint is recorded as confirmed exactly when every member of its split has a user.
      A contributor that is an organisation has none: announcing its tokens throws, and the catch
      block takes them from the counters again. */
  lemma ConfirmedMintIsRecordedIff(s: State, i: nat, hash: string, rounds: seq<Round>, n: nat)
    requires Inv(s) && i < |s.contributions| && s.contributions[i].txnStatus == Processing
    requires ContributionAt(s.contributions, s.contributions[i].id, 0) == i && ConfirmedAt(rounds, n)
    ensures Confirm(hash, None, rounds, 0).Returned?
    ensures var c := s.contributions[i];
      var t := Step(s, Finish(c.id, OutcomeOf(Sent(hash), rounds, NamedFor(s, c.id)), true));
      if forall k :: 0 <= k < |c.split| ==> HasUserAmong(s.members, c.split[k].member) then
        t.contributions[i].txnStatus == Confirmed && t.lamportsMinted == s.lamportsMinted
      else t.contributions[i].txnStatus == Reverted && t.lamportsMinted == s.lamportsMinted - c.lamportsEarned
  {
    var c := s.contributions[i];
    OutcomeIff(Sent(hash), rounds, NamedFor(s, c.id));
    OutcomeIff(Sent(hash), rounds, true);
    assert Sane(s, c);
    forall k | 0 <= k < |c.split| ensures HasUser(s.members, c.split[k].member)
      <==> HasUserAmong(s.members, c.split[k].member)
    {
      UserIsFound(s.members, c.split[k].member);
    }
    RecordMoves(s, Finish(c.id, OutcomeOf(Sent(hash), rounds, NamedFor(s, c.id)), true), c.member);
  }

  /** When a submission is lost although its resubmission succeeds, nothing is reverted: the
      contribution stays processing and its members keep what it gave them. */
  lemma LostSubmissionIsNotReverted(s: State, es: seq<Event>, i: nat, hash: string, rounds: seq<Round>, named: bool,
      reversed: bool, n: nat)
    requires AllSane(s) && i < |s.contributions| && s.contributions[i].txnStatus == Processing
    requires ContributionAt(s.contributions, s.contributions[i].id, 0) == i
    requires n < |rounds| && LostAt(None, rounds, n)
    requires forall k :: 0 <= k < |es| ==> !es[k].Finish? || es[k].contributionId != s.contributions[i].id
    ensures var finish := Finish(s.contributions[i].id, OutcomeOf(Sent(hash), rounds, named), reversed);
      var t := ContributionLedger.Run(s, [finish] + es);
      i < |t.contributions| && t.contributions[i] == s.contributions[i] && Live(t.contributions[i])
  {
    ThrowsIff(hash, None, rounds);
    UnrecordedStaysProcessing(s, [Finish(s.contributions[i].id, OutcomeOf(Sent(hash), rounds, named), reversed)] + es,
      i);
  }

  datatype Reply = Ok | NotFound | Forbidden | Unauthorized | BadRequest | Failure

  class OrgStore {
    var members: seq<Member>
    var lamportsMinted: int
    var contributions: seq<Contribution>

    constructor (members: seq<Member>)
      ensures Current() == State(members, 0, [])
    {
      this.members, lamportsMinted, contributions := members, 0, [];
    }

    function Current(): State
      reads this
    {
      State(members, lamportsMinted, contributions)
    }

    /** `updateContributed`. */
    method UpdateContributed(memberId: string, duration: real, lamportsEarned: int)
      modifies this`members
      ensures members == Increment(old(members), memberId, lamportsEarned, duration)
    {
      var i := MemberAt(members, memberId, 0);
      if i < |members| {
        var m := members[i];
        members := members[i := m.(lamportsEarned := m.lamportsEarned + lamportsEarned,
          contributed := m.contributed + duration)];
      }
    }

    method UpdateAll(split: seq<Part>)
      modifies this`members
      ensures members == IncrementAll(old(members), split)
    {
      for k := 0 to |split|
        invariant members == IncrementAll(old(members), split[..k])
      {
        assert split[..k + 1][..k] == split[..k];
        UpdateContributed(split[k].member, split[k].duration, split[k].amount);
      }
      assert split[..|split|] == split;
    }

    method StartContribution(newId: string, memberId: string, account: string, now: int) returns (reply: Reply)
      modifies this`contributions
      ensures Current() == Step(old(Current()), Start(newId, memberId, account, now))
      ensures reply == Ok <==> CanStart(old(Current()), memberId, account)
      ensures reply == NotFound <==> !HasMember(members, memberId)
      ensures reply == Forbidden ==> Running(old(contributions), memberId)
      ensures reply in {Ok, NotFound, Forbidden, Unauthorized}
    {
      var i := MemberAt(members, memberId, 0);
      if i == |members| {
        return NotFound;
      }
      if AccountOf(members[i]) != Some(account) {
        return Unauthorized;
      }
      if Running(contributions, memberId) {
        return Forbidden;
      }
      contributions := contributions
        + [Contribution(newId, memberId, now, members[i].impactRatio, false, NoTxn, 0, [])];
      reply := Ok;
    }

    method CheckStop(contributionId: string, account: string) returns (reply: Reply)
      ensures reply == Ok <==> CanStop(Current(), contributionId, account)
      ensures var i := ContributionAt(contributions, contributionId, 0);
        && (reply == NotFound <==> i == |contributions|)
        && (reply == Forbidden <==> i < |contributions| && contributions[i].stopped)
    {
      var i := ContributionAt(contributions, contributionId, 0);
      if i == |contributions| {
        return NotFound;
      }
      if contributions[i].stopped {
        return Forbidden;
      }
      var m := MemberAt(members, contributions[i].member, 0);
      if m == |members| || AccountOf(members[m]) != Some(account) {
        return Unauthorized;
      }
      if exists k :: 0 <= k < |members| && members[k].allocation.Some? && members[k].user.None? {
        return Failure;
      }
      reply := Ok;
    }

    /** Splits what was earned, stores the split and increments the counters. */
    method RecordStop(i: nat, now: int)
      requires i < |contributions|
      modifies this
      ensures var c := StoppedContribution(old(Current()), old(contributions)[i], now);
        Current() == State(IncrementAll(old(members), c.split), old(lamportsMinted) + c.lamportsEarned,
          old(contributions)[i := c])
    {
      var contribution := contributions[i];
      var duration := Hours(contribution, now);
      var lamportsEarned := Lamports(duration, contribution.impactRatio);
      var split, total := InvestorsShares(members, lamportsEarned);
      split := split + [Part(contribution.member, lamportsEarned - total, duration)];
      contributions := contributions[i := contribution.(stopped := true, txnStatus := Processing,
        lamportsEarned := lamportsEarned, split := split)];
      UpdateAll(split);
      lamportsMinted := lamportsMinted + lamportsEarned;
    }

    /** The transaction of `stopContribution`; completes is false when the token cannot be
        created or the transaction is aborted. */
    method StopContribution(contributionId: string, account: string, now: int, completes: bool) returns (reply: Reply)
      modifies this
      ensures Current() == Step(old(Current()), Stop(contributionId, account, now, completes))
      ensures reply == Ok <==> completes && CanStop(old(Current()), contributionId, account)
    {
      if !completes {
        return Failure;
      }
      reply := CheckStop(contributionId, account);
      if reply == Ok {
        RecordStop(ContributionAt(contributions, contributionId, 0), now);
      }
    }

    /** `mintAndConfirmWithRetryAndReverse`: submitted is the first answer of the mint function,
        rounds what the chain and later submissions answer, reversed whether the compensating
        transaction commits. */
    method MintAndConfirm(contributionId: string, submitted: Retried, rounds: seq<Round>, reversed: bool)
      modifies this
      ensures Current() == Step(old(Current()),
        Finish(contributionId, OutcomeOf(submitted, rounds, NamedFor(old(Current()), contributionId)), reversed))
    {
      var i := ContributionAt(contributions, contributionId, 0);
      if i == |contributions| || contributions[i].txnStatus != Processing {
        return;
      }
      var contribution := contributions[i];
      var outcome := Rejected;
      match submitted {
        case Threw =>
        case Sent(hash) =>
          var result := ConfirmTxnWithRetry(hash, None, rounds, 0);
          if !result.Returned? {
            return;
          }
          outcome := if Named(members, contribution.split) then Minted else Rejected;
      }
      if outcome == Minted {
        contribution := contribution.(txnStatus := Confirmed);
      } else {
        contribution := contribution.(txnStatus := Failed);
        if reversed {
          UpdateAll(Negated(contribution.split));
          lamportsMinted := lamportsMinted - contribution.lamportsEarned;
          contribution := contribution.(txnStatus := Reverted);
        }
      }
      contributions := contributions[i := contribution];
    }

    /** `sendAssets`: the recipient is credited, or becomes a member, before the sender is
        debited; completes covers the recipient's lookup and the chain transfer. */
    method SendAssets(account: string, recipient: Recipient, lamports: int, newMember: string, completes: bool)
      returns (reply: Reply)
      modifies this`members
      ensures Current() == Step(old(Current()), Send(account, recipient, lamports, newMember, completes))
      ensures reply == Ok <==> completes && CanSend(old(Current()), account, lamports)
      ensures reply == NotFound <==> HeldBy(old(members), Some(account), Some(account), 0) == |old(members)|
      ensures reply == Failure <==> !completes && CanSend(old(Current()), account, lamports)
    {
      var s := HeldBy(members, Some(account), Some(account), 0);
      if s == |members| {
        return NotFound;
      }
      if members[s].lamportsEarned < lamports {
        return BadRequest;
      }
      if !completes {
        return Failure;
      }
      var sender := members[s].id;
      match recipient {
        case Outside =>
        case ToUser(id) =>
          var i := HeldBy(members, Some(id), None, 0);
          if i == |members| {
            members := members + [Member(newMember, Some(id), None, 1.0, None, lamports, 0.0)];
          } else {
            UpdateContributed(members[i].id, 0.0, lamports);
          }
        case ToOrg(id) =>
          var i := HeldBy(members, None, Some(id), 0);
          if i == |members| {
            members := members + [Member(newMember, None, Some(id), 1.0, None, lamports, 0.0)];
          } else {
            UpdateContributed(members[i].id, 0.0, lamports);
          }
      }
      UpdateContributed(sender, 0.0, -lamports);
      reply := Ok;
    }
  }
}
