/** The token of an organisation: `createToken`, `ensureMint` and `updateOrg` as interleaved
    steps on one stored document. Between two steps of a task any other task may run. */
module MintLifecycle {

  datatype Mint = NoMint | NullMint | Minted(address: string)

  datatype MintStatus = NoStatus | InProgress | Failed | Success

  /** The two stored fields; NoMint and NoStatus mean that the document has no such field. */
  datatype Doc = Doc(mint: Mint, mintStatus: MintStatus)

  /** Where a task stands; what it read is what it will act on. */
  datatype Task =
    | CreateToken(hasInitialMint: bool)
    | CreateMinting(hasInitialMint: bool)
    | CreateInitialMint(address: string)
    | EnsureMint(retries: nat)
    | EnsureReading
    | EnsureMinting
    | UpdateOrg
    | UpdateWriting(read: Doc)
    | Done

  datatype State = State(doc: Doc, tasks: seq<Task>)

  /** The answer of the chain, the database or a confirmation to one step. */
  datatype Answer = Ok(address: string) | Error

  datatype Event = Begin(task: Task) | Advance(i: nat, answer: Answer)

  const MINT_STATUS_RETRIES: nat := 5

  predicate Begins(t: Task)
  {
    t.CreateToken? || t == EnsureMint(MINT_STATUS_RETRIES) || t == UpdateOrg
  }

  /** `$set` of a whole document: fields that it does not have are not written. */
  function Written(doc: Doc, stale: Doc): Doc
  {
    Doc(if stale.mint == NoMint then doc.mint else stale.mint,
        if stale.mintStatus == NoStatus then doc.mintStatus else stale.mintStatus)
  }

  function StepOf(doc: Doc, t: Task, answer: Answer): (Doc, Task)
  {
    match t
    case CreateToken(initial) =>
      if answer.Ok? then (Doc(NullMint, InProgress), CreateMinting(initial)) else (Doc(NullMint, Failed), Done)
    case CreateMinting(initial) =>
      if answer.Error? then (Doc(NullMint, Failed), Done)
      else if initial then (doc, CreateInitialMint(answer.address))
      else (Doc(Minted(answer.address), Success), Done)
    case CreateInitialMint(address) =>
      if answer.Ok? then (Doc(Minted(address), Success), Done) else (doc, Done)
    case EnsureMint(retries) =>
      (doc, if doc.mintStatus == InProgress && retries > 0 then EnsureMint(retries - 1) else EnsureReading)
    case EnsureReading =>
      (doc, if doc.mint.Minted? && doc.mint.address != "" then Done else EnsureMinting)
    case EnsureMinting =>
      // the failing branch builds its write without executing it
      if answer.Ok? then (Doc(Minted(answer.address), Success), Done) else (doc, Done)
    case UpdateOrg => (doc, UpdateWriting(doc))
    case UpdateWriting(read) => (Written(doc, read), Done)
    case Done => (doc, Done)
  }

  function Step(s: State, e: Event): State
  {
    match e
    case Begin(task) => if Begins(task) then s.(tasks := s.tasks + [task]) else s
    case Advance(i, answer) =>
      if i < |s.tasks| then
        var (doc, task) := StepOf(s.doc, s.tasks[i], answer);
        State(doc, s.tasks[i := task])
      else s
  }

  function Run(s: State, es: seq<Event>): State
  {
    if es == [] then s else Step(Run(s, es[..|es| - 1]), es[|es| - 1])
  }

  /** There is a mint exactly when the status is `success`, and either both fields are stored
      or none. */
  ghost predicate Consistent(d: Doc)
  {
    && (d.mint.Minted? <==> d.mintStatus == Success)
    && (d.mint.NoMint? <==> d.mintStatus == NoStatus)
  }

  ghost predicate Inv(s: State)
  {
    && Consistent(s.doc)
    && forall k :: 0 <= k < |s.tasks| && s.tasks[k].UpdateWriting? ==> Consistent(s.tasks[k].read)
  }

  lemma StepKeepsInv(s: State, e: Event)
    requires Inv(s)
    ensures Inv(Step(s, e))
  {}

  /** In every interleaving, also with stale whole-document writes, the stored mint and status
      agree. */
  lemma {:induction false} MintAgreesWithStatus(s: State, es: seq<Event>)
    requires Inv(s)
    ensures Inv(Run(s, es))
  {
    if es != [] {
      MintAgreesWithStatus(s, es[..|es| - 1]);
      StepKeepsInv(Run(s, es[..|es| - 1]), es[|es| - 1]);
    }
  }

  // ---------- how a stored mint is lost ----------

  /** A pending write of a document that was read with another status. */
  predicate Stale(t: Task)
  {
    t.UpdateWriting? && t.read.mintStatus != Success && t.read.mintStatus != NoStatus
  }

  /** The step of a `createToken` that starts over or fails. */
  predicate Disturbs(s: State, e: Event)
  {
    && e.Advance? && e.i < |s.tasks|
    && (s.tasks[e.i].CreateToken? || (s.tasks[e.i].CreateMinting? && e.answer.Error?))
  }

  /** The event goes on with an update that was already stale in s. */
  predicate Resumes(s: State, e: Event)
  {
    e.Advance? && e.i < |s.tasks| && Stale(s.tasks[e.i])
  }

  ghost predicate Lost(s: State, es: seq<Event>)
  {
    exists n :: 0 <= n <= |es| && Run(s, es[..n]).doc.mintStatus != Success
  }

  /** The success of s is still stored in t, with the same stale updates pending. */
  ghost predicate Holds(s: State, t: State)
  {
    && t.doc.mintStatus == Success && |s.tasks| <= |t.tasks|
    && (forall i :: 0 <= i < |s.tasks| && Stale(s.tasks[i]) ==> t.tasks[i] == s.tasks[i])
    && (forall i :: 0 <= i < |t.tasks| && Stale(t.tasks[i]) ==> i < |s.tasks| && Stale(s.tasks[i]))
  }

  lemma StepHolds(s: State, t: State, e: Event)
    requires Holds(s, t) && !Disturbs(t, e) && !Resumes(s, e)
    ensures Holds(s, Step(t, e))
  {}

  /** Event k of the run goes on with an update that was stale at its start, or belongs to a
      `createToken` that starts over or fails. */
  ghost predicate Threatens(s: State, es: seq<Event>, k: nat)
    requires k < |es|
  {
    Resumes(s, es[k]) || Disturbs(Run(s, es[..k]), es[k])
  }

  /** Until then the success stays stored, and no update becomes stale. */
  lemma {:induction false} KeptUntilThreatened(s: State, es: seq<Event>, n: nat)
    requires s.doc.mintStatus == Success && n <= |es| && forall k :: 0 <= k < n ==> !Threatens(s, es, k)
    ensures Holds(s, Run(s, es[..n]))
  {
    if n > 0 {
      KeptUntilThreatened(s, es, n - 1);
      assert !Threatens(s, es, n - 1);
      assert es[..n][..n - 1] == es[..n - 1];
      StepHolds(s, Run(s, es[..n - 1]), es[n - 1]);
    }
  }

  lemma {:induction false} FirstThreat(s: State, es: seq<Event>, n: nat) returns (k: nat)
    requires n <= |es|
    ensures k <= n && (k < n ==> Threatens(s, es, k)) && forall j :: 0 <= j < k ==> !Threatens(s, es, j)
  {
    if n == 0 {
      k := 0;
    } else {
      k := FirstThreat(s, es, n - 1);
      if k == n - 1 && !Threatens(s, es, k) {
        k := n;
      }
    }
  }

  lemma ThreatenedIsLost(s: State, t: State, e: Event)
    requires Holds(s, t) && (Resumes(s, e) || Disturbs(t, e))
    ensures Step(t, e).doc.mintStatus != Success
  {}

  /** Once the mint is stored, it is lost if and only if an update goes on that had read the
      document before, or a `createToken` that runs beside it starts over or fails. A failing
      `ensureMint` takes nothing away. */
  lemma SuccessIsLostIff(s: State, es: seq<Event>)
    requires s.doc.mintStatus == Success
    ensures Lost(s, es) <==> exists k :: 0 <= k < |es| && Threatens(s, es, k)
  {
    var k := FirstThreat(s, es, |es|);
    KeptUntilThreatened(s, es, k);
    if k < |es| {
      assert es[..k + 1][..k] == es[..k];
      ThreatenedIsLost(s, Run(s, es[..k]), es[k]);
    } else {
      forall n | 0 <= n <= |es| ensures Run(s, es[..n]).doc.mintStatus == Success {
        KeptUntilThreatened(s, es, n);
      }
    }
  }

  // ---------- which token is stored ----------

  /** The event goes on with a token that was being made in s, or with an update that had read
      another document. */
  predicate Overwrites(s: State, e: Event)
  {
    && e.Advance? && e.i < |s.tasks|
    && match s.tasks[e.i]
       case CreateMinting(_) => e.answer.Ok?
       case CreateInitialMint(_) => e.answer.Ok?
       case EnsureMinting => e.answer.Ok?
       case UpdateWriting(read) => Written(s.doc, read) != s.doc
       case _ => false
  }

  /** Going on with it changes nothing while a token is stored. */
  predicate Harmless(d: Doc, t: Task)
  {
    t.CreateToken? || t.EnsureMint? || t.EnsureReading? || t.UpdateOrg? || t == UpdateWriting(d) || t.Done?
  }

  ghost predicate Keeps(s: State, t: State)
  {
    && t.doc == s.doc && |s.tasks| <= |t.tasks|
    && forall i :: 0 <= i < |t.tasks| ==> Harmless(s.doc, t.tasks[i]) || (i < |s.tasks| && t.tasks[i] == s.tasks[i])
  }

  lemma StepKeeps(s: State, t: State, e: Event)
    requires s.doc.mint.Minted? && s.doc.mint.address != "" && Keeps(s, t) && !Overwrites(s, e) && !Disturbs(t, e)
    ensures Keeps(s, Step(t, e))
  {}

  /** A stored token stays the stored one: no `ensureMint` that looks at the document afterwards
      makes another. It is replaced only by a token that was already being made, by an update that
      had read another document, or when a `createToken` starts over or fails. */
  lemma {:induction false} TokenIsKept(s: State, es: seq<Event>, n: nat)
    requires s.doc.mint.Minted? && s.doc.mint.address != "" && n <= |es|
    requires forall k :: 0 <= k < n ==> !Overwrites(s, es[k]) && !Disturbs(Run(s, es[..k]), es[k])
    ensures Keeps(s, Run(s, es[..n]))
  {
    if n > 0 {
      TokenIsKept(s, es, n - 1);
      assert es[..n][..n - 1] == es[..n - 1];
      StepKeeps(s, Run(s, es[..n - 1]), es[n - 1]);
    }
  }

  /** The first task goes on n times, each time with this answer. */
  function GoOn(s: State, answer: Answer, n: nat): State
  {
    if n == 0 then s else Step(GoOn(s, answer, n - 1), Advance(0, answer))
  }

  /** Left alone, `ensureMint` looks again as often as it is told to while another creation is in
      progress; then it makes a token exactly when none is stored. */
  lemma {:induction false} EnsureMintAlone(doc: Doc, retries: nat, address: string, n: nat)
    requires n <= if doc.mintStatus == InProgress then retries else 0
    ensures GoOn(State(doc, [EnsureMint(retries)]), Ok(address), n) == State(doc, [EnsureMint(retries - n)])
  {
    if n > 0 {
      EnsureMintAlone(doc, retries, address, n - 1);
    }
  }

  lemma EnsureMintEnds(doc: Doc, retries: nat, address: string)
    ensures var waits := if doc.mintStatus == InProgress then retries else 0;
      GoOn(State(doc, [EnsureMint(retries)]), Ok(address), waits + 3)
        == State(if doc.mint.Minted? && doc.mint.address != "" then doc else Doc(Minted(address), Success), [Done])
  {
    var waits := if doc.mintStatus == InProgress then retries else 0;
    var s, answer := State(doc, [EnsureMint(retries)]), Ok(address);
    var made := doc.mint.Minted? && doc.mint.address != "";
    EnsureMintAlone(doc, retries, address, waits);
    GoOnOnce(s, answer, waits, EnsureMint(retries - waits), doc, EnsureReading);
    GoOnOnce(s, answer, waits + 1, EnsureReading, doc, if made then Done else EnsureMinting);
    GoOnOnce(s, answer, waits + 2, if made then Done else EnsureMinting,
      if made then doc else Doc(Minted(address), Success), Done);
  }

  lemma GoOnOnce(s: State, answer: Answer, n: nat, task: Task, doc: Doc, next: Task)
    requires |GoOn(s, answer, n).tasks| == 1 && GoOn(s, answer, n).tasks == [task]
    requires StepOf(GoOn(s, answer, n).doc, task, answer) == (doc, next)
    ensures GoOn(s, answer, n + 1) == State(doc, [next])
  {}

  /** And `createToken` stores the token that it makes. */
  lemma CreateTokenEnds(doc: Doc, initial: bool, address: string)
    ensures GoOn(State(doc, [CreateToken(initial)]), Ok(address), 3) == State(Doc(Minted(address), Success), [Done])
  {
    var s := State(doc, [CreateToken(initial)]);
    assert GoOn(s, Ok(address), 0) == s;
    assert GoOn(s, Ok(address), 1) == State(Doc(NullMint, InProgress), [CreateMinting(initial)]);
  }

  /** What a pending write holds is what was stored at some moment before. */
  lemma {:induction false} ReadsAreOlder(s: State, es: seq<Event>, i: nat)
    requires forall k :: 0 <= k < |s.tasks| ==> !s.tasks[k].UpdateWriting?
    requires i < |Run(s, es).tasks| && Run(s, es).tasks[i].UpdateWriting?
    ensures exists j :: 0 <= j < |es| && Run(s, es[..j]).doc == Run(s, es).tasks[i].read
  {
    if es != [] {
      var front, e := es[..|es| - 1], es[|es| - 1];
      var before := Run(s, front);
      if i < |before.tasks| && before.tasks[i] == Run(s, es).tasks[i] {
        ReadsAreOlder(s, front, i);
        var j :| 0 <= j < |front| && Run(s, front[..j]).doc == before.tasks[i].read;
        assert front[..j] == es[..j];
      } else {
        assert Run(s, es[..|front|]).doc == Run(s, es).tasks[i].read;
      }
    }
  }

  /** Over a whole run: a stored success is lost again if and only if, after it, an update goes
      on that had read an older document before the success, or a `createToken` starts over or
      fails. */
  lemma LostToAnOlderTask(s: State, made: seq<Event>, es: seq<Event>)
    requires forall k :: 0 <= k < |s.tasks| ==> !s.tasks[k].UpdateWriting?
    requires Run(s, made).doc.mintStatus == Success
    ensures Lost(Run(s, made), es) <==> exists k :: 0 <= k < |es| && ThreatensMade(s, made, es, k)
  {
    var t := Run(s, made);
    SuccessIsLostIff(t, es);
    forall k | 0 <= k < |es| ensures Threatens(t, es, k) <==> ThreatensMade(s, made, es, k) {
      if Resumes(t, es[k]) {
        ReadsAreOlder(s, made, es[k].i);
      }
    }
  }

  ghost predicate ThreatensMade(s: State, made: seq<Event>, es: seq<Event>, k: nat)
    requires k < |es|
  {
    ResumesOlderRead(s, made, es[k]) || Disturbs(Run(Run(s, made), es[..k]), es[k])
  }

  ghost predicate ResumesOlderRead(s: State, made: seq<Event>, e: Event)
  {
    && Resumes(Run(s, made), e)
    && exists j :: 0 <= j < |made| && Run(s, made[..j]).doc == Run(s, made).tasks[e.i].read
  }

  /** And a stale write does: an update that read before the token was made and writes after
      puts `inProgress` back, with nobody left to finish it. */
  lemma StaleWriteUndoesSuccess(address: string)
    ensures var s := State(Doc(NullMint, InProgress), [CreateMinting(false), UpdateOrg]);
      var t := Run(s, [Advance(1, Error), Advance(0, Ok(address)), Advance(1, Error)]);
      && Run(s, [Advance(1, Error), Advance(0, Ok(address))]).doc == Doc(Minted(address), Success)
      && t == State(Doc(NullMint, InProgress), [Done, Done])
  {
    var s := State(Doc(NullMint, InProgress), [CreateMinting(false), UpdateOrg]);
    var e1, e2, e3 := Advance(1, Error), Advance(0, Ok(address)), Advance(1, Error);
    assert [e1, e2, e3][..2] == [e1, e2] && [e1, e2][..1] == [e1] && [e1][..0] == [];
    assert Run(s, [e1]) == Step(s, e1);
    assert Run(s, [e1, e2]) == Step(Run(s, [e1]), e2);
  }

  /** So does a token creation: an `ensureMint` that has stopped waiting makes the token and
      stores it; then the creation beside it fails, and its catch block writes `null` over it. */
  lemma FailedCreationUndoesSuccess(address: string, initial: bool)
    ensures var s := State(Doc(NullMint, InProgress), [CreateMinting(initial), EnsureMinting]);
      && Run(s, [Advance(1, Ok(address))]).doc == Doc(Minted(address), Success)
      && Run(s, [Advance(1, Ok(address)), Advance(0, Error)]) == State(Doc(NullMint, Failed), [Done, Done])
  {
    var s := State(Doc(NullMint, InProgress), [CreateMinting(initial), EnsureMinting]);
    var e1, e2 := Advance(1, Ok(address)), Advance(0, Error);
    assert [e1, e2][..1] == [e1] && [e1][..0] == [];
    assert Run(s, [e1]) == Step(s, e1);
  }
}
