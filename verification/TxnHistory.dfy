/** What a transaction did to one token account: the two `_getTxnAmount` readers against a
    replay of the instructions on a ledger. */
module TxnHistory {
  import opened Ledger

  /** A parsed instruction; fields it does not have are empty, as the readers default them. */
  datatype Ix = Ix(ixType: string, source: string, destination: string, account: string, amount: int)

  datatype Item = Item(amount: int, description: string)

  predicate Sent(ix: Ix, a: string) { ix.source == a }
  predicate Received(ix: Ix, a: string) { ix.destination == a }
  predicate Commission(ix: Ix, a: string, root: string) { ix.destination == root && ix.source == a }
  predicate Deposited(ix: Ix, a: string) { ix.ixType == "mintTo" && ix.account == a }
  predicate Burnt(ix: Ix, a: string) { ix.ixType == "burn" && ix.account == a }

  predicate Relevant(ix: Ix, a: string)
  {
    Sent(ix, a) || Received(ix, a) || Deposited(ix, a) || Burnt(ix, a)
  }

  // ---------- the account's reader ----------

  function Movement(ix: Ix, a: string): int
  {
    if !Relevant(ix, a) then 0
    else if Sent(ix, a) == Burnt(ix, a) then ix.amount
    else -ix.amount
  }

  /** The label after an instruction; a received transfer keeps the label before it. */
  function Label(ix: Ix, a: string, root: string, withdrawn: bool, before: string): string
  {
    if Burnt(ix, a) then if withdrawn then "Withdrawn" else "Burnt"
    else if Deposited(ix, a) then "Deposited"
    else if Commission(ix, a, root) then "Commission"
    else if Sent(ix, a) then "Sent"
    else before
  }

  predicate HasTransfer(ixs: seq<Ix>)
  {
    exists k :: 0 <= k < |ixs| && ixs[k].ixType == "transfer"
  }

  function LabelAfter(ixs: seq<Ix>, a: string, root: string, withdrawn: bool): string
  {
    if ixs == [] then "Received"
    else Label(ixs[|ixs| - 1], a, root, withdrawn, LabelAfter(ixs[..|ixs| - 1], a, root, withdrawn))
  }

  /** The non-zero movements, oldest first. */
  function Items(ixs: seq<Ix>, a: string, root: string, withdrawn: bool): seq<Item>
  {
    if ixs == [] then [] else
    var items, amount := Items(ixs[..|ixs| - 1], a, root, withdrawn), Movement(ixs[|ixs| - 1], a);
    if amount == 0 then items else items + [Item(amount, LabelAfter(ixs, a, root, withdrawn))]
  }

  function Reversed<T>(s: seq<T>): (r: seq<T>)
    ensures |r| == |s|
  {
    if s == [] then [] else [s[|s| - 1]] + Reversed(s[..|s| - 1])
  }

  /** One turn of the loop for an instruction that concerns the account. */
  method ReadInstruction(ix: Ix, a: string, root: string, hasTransfer: bool, before: string)
    returns (amount: int, description: string)
    requires a != "" && Relevant(ix, a)
    ensures amount == Movement(ix, a) && description == Label(ix, a, root, hasTransfer, before)
  {
    amount, description := ix.amount, before;
    if Commission(ix, a, root) {
      amount, description := -amount, "Commission";
    }
    if !Commission(ix, a, root) && Sent(ix, a) {
      amount, description := -amount, "Sent";
    }
    if Deposited(ix, a) {
      description := "Deposited";
    }
    if Burnt(ix, a) {
      amount, description := -amount, "Burnt";
      if hasTransfer {
        description := "Withdrawn";
      }
    }
  }

  /** `_getTxnAmount` of the account service. */
  method GetTxnAmount(ixs: seq<Ix>, a: string, root: string) returns (history: seq<Item>)
    requires a != ""
    ensures history == Reversed(Items(ixs, a, root, HasTransfer(ixs)))
  {
    var description := "Received";
    var historyItem := [];
    for i := 0 to |ixs|
      invariant description == LabelAfter(ixs[..i], a, root, HasTransfer(ixs))
      invariant historyItem == Items(ixs[..i], a, root, HasTransfer(ixs))
    {
      assert ixs[..i + 1][..i] == ixs[..i];
      var ix := ixs[i];
      if Sent(ix, a) || Received(ix, a) || Commission(ix, a, root) || Deposited(ix, a) || Burnt(ix, a) {
        var amount;
        amount, description := ReadInstruction(ix, a, root, HasTransfer(ixs), description);
        if amount != 0 {
          historyItem := historyItem + [Item(amount, description)];
        }
      }
    }
    assert ixs[..|ixs|] == ixs;
    history := Reversed(historyItem);
  }

  // ---------- replay ----------

  /** A transfer, mint or burn of the mint at hand, or an instruction that touches none of its
      accounts. */
  predicate WellFormed(ix: Ix)
  {
    && ix.amount >= 0
    && (ix.ixType in ["transfer", "transferChecked"] ==> ix.account == "")
    && (ix.ixType !in ["transfer", "transferChecked"] ==> ix.source == "" && ix.destination == "")
  }

  function Replayed(b: map<string, int>, ix: Ix): map<string, int>
  {
    if ix.ixType in ["transfer", "transferChecked"] then Moved(b, Transfer(ix.source, ix.destination, ix.amount))
    else if ix.ixType == "mintTo" then b[ix.account := Balance(b, ix.account) + ix.amount]
    else if ix.ixType == "burn" then b[ix.account := Balance(b, ix.account) - ix.amount]
    else b
  }

  function Replay(b: map<string, int>, ixs: seq<Ix>): map<string, int>
  {
    if ixs == [] then b else Replayed(Replay(b, ixs[..|ixs| - 1]), ixs[|ixs| - 1])
  }

  function Total(items: seq<Item>): int
  {
    if items == [] then 0 else Total(items[..|items| - 1]) + items[|items| - 1].amount
  }

  /** What the account transfers to itself; the reader counts it as sent. */
  function SelfTransfers(ixs: seq<Ix>, a: string): int
  {
    if ixs == [] then 0
    else if Sent(ixs[|ixs| - 1], a) && Received(ixs[|ixs| - 1], a)
    then SelfTransfers(ixs[..|ixs| - 1], a) + ixs[|ixs| - 1].amount
    else SelfTransfers(ixs[..|ixs| - 1], a)
  }

  ghost predicate AllWellFormed(ixs: seq<Ix>)
  {
    forall k :: 0 <= k < |ixs| ==> WellFormed(ixs[k])
  }

  lemma OneInstruction(b: map<string, int>, ix: Ix, a: string)
    requires WellFormed(ix) && a != ""
    ensures Balance(Replayed(b, ix), a) - Balance(b, a)
         == Movement(ix, a) + if Sent(ix, a) && Received(ix, a) then ix.amount else 0
  {}

  /** The amounts add up to the account's net change, less what it transferred to itself. */
  lemma {:induction false} AmountsAreNetChange(b: map<string, int>, ixs: seq<Ix>, a: string, root: string,
      withdrawn: bool)
    requires AllWellFormed(ixs) && a != ""
    ensures Total(Items(ixs, a, root, withdrawn)) == Balance(Replay(b, ixs), a) - Balance(b, a) - SelfTransfers(ixs, a)
  {
    if ixs != [] {
      var front, ix := ixs[..|ixs| - 1], ixs[|ixs| - 1];
      AmountsAreNetChange(b, front, a, root, withdrawn);
      OneInstruction(Replay(b, front), ix, a);
      var items := Items(ixs, a, root, withdrawn);
      assert Movement(ix, a) != 0 ==> items[..|items| - 1] == Items(front, a, root, withdrawn);
    }
  }

  lemma {:induction false} NoSelfTransfers(ixs: seq<Ix>, a: string)
    requires AllWellFormed(ixs)
    ensures SelfTransfers(ixs, a) >= 0
    ensures SelfTransfers(ixs, a) == 0 <==> forall k :: 0 <= k < |ixs| && Sent(ixs[k], a) && Received(ixs[k], a) ==>
      ixs[k].amount == 0
  {
    if ixs != [] {
      var front := ixs[..|ixs| - 1];
      NoSelfTransfers(front, a);
      assert forall k :: 0 <= k < |front| ==> front[k] == ixs[k];
    }
  }

  /** The history is exactly the net change if and only if the account moved nothing to
      itself. */
  lemma HistoryIsNetChangeIff(b: map<string, int>, ixs: seq<Ix>, a: string, root: string)
    requires AllWellFormed(ixs) && a != ""
    ensures Total(Reversed(Items(ixs, a, root, HasTransfer(ixs)))) == Balance(Replay(b, ixs), a) - Balance(b, a)
      <==> forall k :: 0 <= k < |ixs| && Sent(ixs[k], a) && Received(ixs[k], a) ==> ixs[k].amount == 0
  {
    AmountsAreNetChange(b, ixs, a, root, HasTransfer(ixs));
    NoSelfTransfers(ixs, a);
    TotalOfReversed(Items(ixs, a, root, HasTransfer(ixs)));
  }

  lemma {:induction false} TotalOfFirst(x: Item, items: seq<Item>)
    ensures Total([x] + items) == x.amount + Total(items)
  {
    if items == [] {
      assert [x] + items == [x] && [x][..0] == [];
    } else {
      assert ([x] + items)[..|items|] == [x] + items[..|items| - 1];
      TotalOfFirst(x, items[..|items| - 1]);
    }
  }

  lemma {:induction false} TotalOfReversed(items: seq<Item>)
    ensures Total(Reversed(items)) == Total(items)
  {
    if items != [] {
      TotalOfReversed(items[..|items| - 1]);
      TotalOfFirst(items[|items| - 1], Reversed(items[..|items| - 1]));
    }
  }

  // ---------- the user's reader ----------

  /** The first non-zero transfer to or from the account, zero when there is none. */
  function FirstMovement(ixs: seq<Ix>, a: string): int
  {
    if ixs == [] then 0
    else if Sent(ixs[0], a) && ixs[0].amount != 0 then -ixs[0].amount
    else if Received(ixs[0], a) && ixs[0].amount != 0 then ixs[0].amount
    else FirstMovement(ixs[1..], a)
  }

  /** `_getTxnAmount` of the users service. */
  method GetUserTxnAmount(ixs: seq<Ix>, a: string) returns (amount: int)
    ensures amount == FirstMovement(ixs, a)
  {
    amount := 0;
    var i := 0;
    while i < |ixs|
      invariant 0 <= i <= |ixs|
      invariant FirstMovement(ixs, a) == if amount != 0 then amount else FirstMovement(ixs[i..], a)
    {
      if amount != 0 {
        break;
      }
      var ix := ixs[i];
      if Sent(ix, a) || Received(ix, a) {
        amount := ix.amount;
        if Sent(ix, a) {
          amount := -amount;
        }
      }
      i := i + 1;
    }
  }

  /** The first item is the first non-zero movement. */
  lemma {:induction false} FirstItem(ixs: seq<Ix>, a: string, root: string, withdrawn: bool, k: nat)
    requires k < |ixs| && Movement(ixs[k], a) != 0 && forall j :: 0 <= j < k ==> Movement(ixs[j], a) == 0
    ensures Items(ixs, a, root, withdrawn) != [] && Items(ixs, a, root, withdrawn)[0].amount == Movement(ixs[k], a)
  {
    if k < |ixs| - 1 {
      FirstItem(ixs[..|ixs| - 1], a, root, withdrawn, k);
    } else {
      NoItems(ixs[..k], a, root, withdrawn);
    }
  }

  lemma {:induction false} NoItems(ixs: seq<Ix>, a: string, root: string, withdrawn: bool)
    requires forall j :: 0 <= j < |ixs| ==> Movement(ixs[j], a) == 0
    ensures Items(ixs, a, root, withdrawn) == []
  {
    if ixs != [] {
      NoItems(ixs[..|ixs| - 1], a, root, withdrawn);
    }
  }

  lemma {:induction false} FirstMovementAt(ixs: seq<Ix>, a: string, k: nat)
    requires forall j :: 0 <= j < |ixs| ==> !Deposited(ixs[j], a) && !Burnt(ixs[j], a)
    requires k <= |ixs| && (k < |ixs| ==> Movement(ixs[k], a) != 0) && forall j :: 0 <= j < k ==>
      Movement(ixs[j], a) == 0
    ensures FirstMovement(ixs, a) == if k < |ixs| then Movement(ixs[k], a) else 0
  {
    if k > 0 {
      FirstMovementAt(ixs[1..], a, k - 1);
    }
  }

  lemma {:induction false} FirstNonZero(ixs: seq<Ix>, a: string) returns (k: nat)
    ensures k <= |ixs| && (k < |ixs| ==> Movement(ixs[k], a) != 0)
    ensures forall j :: 0 <= j < k ==> Movement(ixs[j], a) == 0
  {
    if ixs == [] || Movement(ixs[0], a) != 0 {
      k := 0;
    } else {
      var l := FirstNonZero(ixs[1..], a);
      k := l + 1;
      forall j | 0 <= j < k ensures Movement(ixs[j], a) == 0 {
        if j > 0 {
          assert ixs[j] == ixs[1..][j - 1];
        }
      }
    }
  }

  lemma {:induction false} LastOfReversed<T>(s: seq<T>)
    requires s != []
    ensures Reversed(s)[|s| - 1] == s[0]
  {
    if |s| > 1 {
      LastOfReversed(s[..|s| - 1]);
    }
  }

  /** Without mints and burns both readers agree: the user's amount is the last entry of the
      account's (newest first) list. */
  lemma ReadersAgree(ixs: seq<Ix>, a: string, root: string)
    requires forall j :: 0 <= j < |ixs| ==> !Deposited(ixs[j], a) && !Burnt(ixs[j], a)
    ensures var history := Reversed(Items(ixs, a, root, HasTransfer(ixs)));
      FirstMovement(ixs, a) == if history == [] then 0 else history[|history| - 1].amount
  {
    var k := FirstNonZero(ixs, a);
    FirstMovementAt(ixs, a, k);
    if k < |ixs| {
      FirstItem(ixs, a, root, HasTransfer(ixs), k);
      LastOfReversed(Items(ixs, a, root, HasTransfer(ixs)));
    } else {
      NoItems(ixs, a, root, HasTransfer(ixs));
    }
  }

  // ---------- the items one by one ----------

  lemma {:induction false} ReversedAt<T>(s: seq<T>, k: nat)
    requires k < |s|
    ensures Reversed(s)[k] == s[|s| - 1 - k]
  {
    if k > 0 {
      ReversedAt(s[..|s| - 1], k - 1);
    }
  }

  /** How many of the instructions move the account's tokens. */
  function Movements(ixs: seq<Ix>, a: string): nat
  {
    if ixs == [] then 0 else Movements(ixs[..|ixs| - 1], a) + if Movement(ixs[|ixs| - 1], a) == 0 then 0 else 1
  }

  ghost predicate ListsMovement(items: seq<Item>, ixs: seq<Ix>, a: string, root: string, withdrawn: bool, k: nat)
    requires k < |ixs|
  {
    var i := Movements(ixs[..k], a);
    i < |items| && items[i] == Item(Movement(ixs[k], a), LabelAfter(ixs[..k + 1], a, root, withdrawn))
  }

  /** Every movement has one item, in order, with its amount and the label it leaves. */
  lemma {:induction false} EachMovementIsListed(ixs: seq<Ix>, a: string, root: string, withdrawn: bool)
    ensures |Items(ixs, a, root, withdrawn)| == Movements(ixs, a)
    ensures forall k :: 0 <= k < |ixs| && Movement(ixs[k], a) != 0 ==>
      ListsMovement(Items(ixs, a, root, withdrawn), ixs, a, root, withdrawn, k)
  {
    if ixs != [] {
      var front := ixs[..|ixs| - 1];
      EachMovementIsListed(front, a, root, withdrawn);
      forall k | 0 <= k < |ixs| && Movement(ixs[k], a) != 0
        ensures ListsMovement(Items(ixs, a, root, withdrawn), ixs, a, root, withdrawn, k)
      {
        if k < |front| {
          assert ListsMovement(Items(front, a, root, withdrawn), front, a, root, withdrawn, k);
          assert front[k] == ixs[k] && front[..k] == ixs[..k] && front[..k + 1] == ixs[..k + 1];
        } else {
          assert ixs[..k + 1] == ixs && ixs[..k] == front;
        }
      }
    }
  }

  /** The instruction that decides the label after k of them: the last one sent, minted or burnt. */
  ghost predicate Decides(ixs: seq<Ix>, a: string, j: nat)
  {
    && j < |ixs| && (Sent(ixs[j], a) || Deposited(ixs[j], a) || Burnt(ixs[j], a))
    && forall k :: j < k < |ixs| ==> !Sent(ixs[k], a) && !Deposited(ixs[k], a) && !Burnt(ixs[k], a)
  }

  /** The label says what the last instruction did that was sent, minted or burnt: a burn is a
      withdrawal when the transaction has a transfer too. */
  lemma {:induction false} LabelSays(ixs: seq<Ix>, a: string, root: string, withdrawn: bool, j: nat)
    requires Decides(ixs, a, j)
    ensures var text, ix := LabelAfter(ixs, a, root, withdrawn), ixs[j];
      && (text == "Withdrawn" <==> Burnt(ix, a) && withdrawn)
      && (text == "Burnt" <==> Burnt(ix, a) && !withdrawn)
      && (text == "Deposited" <==> Deposited(ix, a))
      && (text == "Commission" <==> !Burnt(ix, a) && !Deposited(ix, a) && ix.destination == root)
      && (text == "Sent" <==> !Burnt(ix, a) && !Deposited(ix, a) && ix.destination != root)
  {
    if j < |ixs| - 1 {
      assert ixs[..|ixs| - 1][j] == ixs[j];
      LabelSays(ixs[..|ixs| - 1], a, root, withdrawn, j);
    }
  }

  /** A burn is listed as a withdrawal exactly when the transaction has a plain transfer. */
  lemma BurnIsWithdrawnIff(ixs: seq<Ix>, a: string, root: string, k: nat)
    requires k < |ixs| && Burnt(ixs[k], a) && Movement(ixs[k], a) != 0
    ensures var items, i := Items(ixs, a, root, HasTransfer(ixs)), Movements(ixs[..k], a);
      && i < |items|
      && items[i].description == if exists ix :: ix in ixs && ix.ixType == "transfer" then "Withdrawn" else "Burnt"
  {
    EachMovementIsListed(ixs, a, root, HasTransfer(ixs));
    assert ListsMovement(Items(ixs, a, root, HasTransfer(ixs)), ixs, a, root, HasTransfer(ixs), k);
    assert Decides(ixs[..k + 1], a, k);
    LabelSays(ixs[..k + 1], a, root, HasTransfer(ixs), k);
  }

  // ---------- labels ----------

  /** A received transfer is labelled `Received` exactly when nothing before it was sent,
      minted or burnt: the label is kept from one instruction to the next. */
  lemma {:induction false} ReceivedLabelIff(ixs: seq<Ix>, a: string, root: string, withdrawn: bool)
    ensures LabelAfter(ixs, a, root, withdrawn) == "Received"
      <==> forall k :: 0 <= k < |ixs| ==> !Sent(ixs[k], a) && !Deposited(ixs[k], a) && !Burnt(ixs[k], a)
  {
    if ixs != [] {
      var front := ixs[..|ixs| - 1];
      ReceivedLabelIff(front, a, root, withdrawn);
      assert forall k :: 0 <= k < |front| ==> front[k] == ixs[k];
    }
  }
}
