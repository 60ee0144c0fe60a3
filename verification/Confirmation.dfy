/** `confirmTxnWithRetry` and `getParsedTransaction` against scripted answers of the chain and
    of the retry function. */
module Confirmation {
  import opened Options

  /** One lookup: nothing yet (or the call threw), or a transaction with or without error. */
  datatype Lookup = Missing | Found(failed: bool)

  /** What the retry function answers: a new hash, or it throws. */
  datatype Retried = Sent(hash: string) | Threw

  // ---------- getParsedTransaction ----------

  /** Asks again while there is nothing and retries are left. */
  function Parsed(answers: nat -> Lookup, at: nat, retries: nat): Lookup
    decreases retries
  {
    if answers(at) == Missing && retries > 0 then Parsed(answers, at + 1, retries - 1) else answers(at)
  }

  function Lookups(answers: nat -> Lookup, at: nat, retries: nat): nat
    decreases retries
  {
    if answers(at) == Missing && retries > 0 then 1 + Lookups(answers, at + 1, retries - 1) else 1
  }

  /** At most retries + 1 lookups are made; the answer is that of the last one, all before it
      were empty, and it is empty only after all of them. */
  lemma {:induction false} LookupsAreBounded(answers: nat -> Lookup, at: nat, retries: nat)
    ensures var n := Lookups(answers, at, retries);
      && 1 <= n <= retries + 1
      && Parsed(answers, at, retries) == answers(at + n - 1)
      && (forall k :: at <= k < at + n - 1 ==> answers(k) == Missing)
      && (answers(at + n - 1) == Missing ==> n == retries + 1)
    decreases retries
  {
    if answers(at) == Missing && retries > 0 {
      LookupsAreBounded(answers, at + 1, retries - 1);
    }
  }

  method GetParsedTransaction(answers: nat -> Lookup, at: nat, retries: nat) returns (txn: Lookup, asked: nat)
    ensures txn == Parsed(answers, at, retries) && asked == Lookups(answers, at, retries)
    decreases retries
  {
    txn := answers(at);
    asked := 1;
    if txn == Missing && retries > 0 {
      var more;
      txn, more := GetParsedTransaction(answers, at + 1, retries - 1);
      asked := 1 + more;
    }
  }

  // ---------- confirmTxnWithRetry ----------

  /** One round: the lookups of the current hash, then, if needed, one retry. */
  datatype Round = Round(answers: nat -> Lookup, retried: Retried)

  /** Pending: the script of answers ended while the code was still retrying. */
  datatype Result = Returned(hash: string) | Thrown(err: Option<string>) | Pending

  const RETRIES: nat := 5

  /** How many retries a round's lookup gets. The recursive call passes the decremented
      counter in the place of the lookup's own retries, and itself starts again at five. */
  function LookupRetries(first: Option<nat>, round: nat): nat
  {
    if round > 0 then RETRIES - 1 else if first.Some? then first.value else RETRIES
  }

  /** While nothing is found, the first round looks six times, or once more than it was told to,
      and every later one five times. */
  lemma EmptyLookups(answers: nat -> Lookup, first: Option<nat>, round: nat)
    requires forall k :: answers(k) == Missing
    ensures Lookups(answers, 0, LookupRetries(first, round))
      == if round > 0 then 5 else if first.Some? then first.value + 1 else 6
  {
    LookupsAreBounded(answers, 0, LookupRetries(first, round));
  }

  function Confirm(hash: string, first: Option<nat>, rounds: seq<Round>, round: nat): Result
    requires round <= |rounds|
    decreases |rounds| - round
  {
    if round == |rounds| then Pending else
    var txn := Parsed(rounds[round].answers, 0, LookupRetries(first, round));
    if txn == Found(false) then Returned(hash)
    else match rounds[round].retried
      case Sent(next) => if txn.Found? then Confirm(next, first, rounds, round + 1) else Thrown(None)
      case Threw => Confirm(hash, first, rounds, round + 1)
  }

  /** The hash that is looked up in a given round. */
  function HashAt(hash: string, rounds: seq<Round>, round: nat): string
    requires round <= |rounds|
  {
    if round == 0 then hash
    else match rounds[round - 1].retried
      case Sent(next) => next
      case Threw => HashAt(hash, rounds, round - 1)
  }

  function LookupAt(first: Option<nat>, rounds: seq<Round>, round: nat): Lookup
    requires round < |rounds|
  {
    Parsed(rounds[round].answers, 0, LookupRetries(first, round))
  }

  /** Round k neither returns nor throws. */
  predicate GoesOn(first: Option<nat>, rounds: seq<Round>, k: nat)
    requires k < |rounds|
  {
    LookupAt(first, rounds, k) != Found(false) && (LookupAt(first, rounds, k) == Missing ==> rounds[k].retried == Threw)
  }

  /** The first round that ends the loop, |rounds| when none does. */
  function EndsAt(first: Option<nat>, rounds: seq<Round>, k: nat): (n: nat)
    requires k <= |rounds|
    ensures k <= n <= |rounds|
    ensures forall j :: k <= j < n ==> GoesOn(first, rounds, j)
    ensures n < |rounds| ==> !GoesOn(first, rounds, n)
    decreases |rounds| - k
  {
    if k == |rounds| || !GoesOn(first, rounds, k) then k else EndsAt(first, rounds, k + 1)
  }

  /** The whole outcome in terms of the round that ends the loop. */
  lemma {:induction false} ConfirmEnds(hash: string, first: Option<nat>, rounds: seq<Round>, k: nat)
    requires k <= |rounds|
    ensures var n := EndsAt(first, rounds, k);
      Confirm(HashAt(hash, rounds, k), first, rounds, k) ==
        if n == |rounds| then Pending
        else if LookupAt(first, rounds, n) == Found(false) then Returned(HashAt(hash, rounds, n))
        else Thrown(None)
    decreases |rounds| - k
  {
    if k < |rounds| && GoesOn(first, rounds, k) {
      ConfirmEnds(hash, first, rounds, k + 1);
    }
  }

  /** A returned hash is the first one or one the retry function produced, and it was looked
      up and found without error. */
  lemma ReturnedIsConfirmed(hash: string, first: Option<nat>, rounds: seq<Round>)
    requires Confirm(hash, first, rounds, 0).Returned?
    ensures var n, r := EndsAt(first, rounds, 0), Confirm(hash, first, rounds, 0).hash;
      && n < |rounds| && r == HashAt(hash, rounds, n) && LookupAt(first, rounds, n) == Found(false)
      && (r == hash || exists k :: 0 <= k < n && rounds[k].retried == Sent(r))
  {
    ConfirmEnds(hash, first, rounds, 0);
    HashComesFrom(hash, rounds, EndsAt(first, rounds, 0));
  }

  lemma {:induction false} HashComesFrom(hash: string, rounds: seq<Round>, n: nat)
    requires n <= |rounds|
    ensures HashAt(hash, rounds, n) == hash
      || exists k :: 0 <= k < n && rounds[k].retried == Sent(HashAt(hash, rounds, n))
  {
    if n > 0 {
      HashComesFrom(hash, rounds, n - 1);
    }
  }

  /** Round n is reached, finds nothing, and its resubmission succeeds. */
  ghost predicate LostAt(first: Option<nat>, rounds: seq<Round>, n: nat)
    requires n < |rounds|
  {
    && LookupAt(first, rounds, n) == Missing && rounds[n].retried.Sent?
    && forall k :: 0 <= k < n ==> GoesOn(first, rounds, k)
  }

  /** It throws exactly when, before any success, a transaction is not found although its
      resubmission succeeds. What is thrown is then undefined. */
  lemma ThrowsIff(hash: string, first: Option<nat>, rounds: seq<Round>)
    ensures Confirm(hash, first, rounds, 0).Thrown? <==> exists n :: 0 <= n < |rounds| && LostAt(first, rounds, n)
    ensures Confirm(hash, first, rounds, 0).Thrown? ==> Confirm(hash, first, rounds, 0).err == None
  {
    ConfirmEnds(hash, first, rounds, 0);
    var e := EndsAt(first, rounds, 0);
    if n :| 0 <= n < |rounds| && LostAt(first, rounds, n) {
      assert !GoesOn(first, rounds, n);
      assert n == e;
    }
    if e < |rounds| && LookupAt(first, rounds, e) == Missing {
      assert LostAt(first, rounds, e);
    }
  }

  /** The retry budget is never spent: a transaction that keeps failing is retried for as many
      rounds as it fails, however many. */
  lemma FailingIsRetriedForever(hash: string, first: Option<nat>, rounds: seq<Round>)
    requires forall k :: 0 <= k < |rounds| ==> LookupAt(first, rounds, k) == Found(true)
    ensures Confirm(hash, first, rounds, 0) == Pending
  {
    ConfirmEnds(hash, first, rounds, 0);
    var e := EndsAt(first, rounds, 0);
    assert e < |rounds| ==> GoesOn(first, rounds, e);
  }

  /** The recursion itself, as it rebinds its hash and its error. */
  method ConfirmTxnWithRetry(hash: string, first: Option<nat>, rounds: seq<Round>, round: nat) returns (result: Result)
    requires round <= |rounds|
    ensures result == Confirm(hash, first, rounds, round)
    decreases |rounds| - round
  {
    if round == |rounds| {
      return Pending;
    }
    var txn, asked := GetParsedTransaction(rounds[round].answers, 0, LookupRetries(first, round));
    var txnHash, txnError := hash, txn == Found(true);
    if txn.Found? && !txnError {
      return Returned(txnHash);
    }
    match rounds[round].retried {
      case Sent(next) => txnHash := next;
      case Threw => txnError := true;
    }
    if txnError {
      result := ConfirmTxnWithRetry(txnHash, first, rounds, round + 1);
    } else {
      result := Thrown(None);
    }
  }
}
