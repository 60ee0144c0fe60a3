/** `finalCalculations`: the in-place nested loops over the airdrop rows, proved against the
    value-level matcher of AirdropMatching. */
module AirdropService {
  import opened Sorting
  import opened AirdropMatching

  class AirdropDto {
    const transactionDate: int
    const typeTransaction: Kind
    const wallet: string
    const transaction: string
    var amount: nat
    var holderOfDays: int
    var currentBalance: int
    var balanceCheck: int
    var finalAmount: int
    var error: bool

    constructor (date: int, kind: Kind, wallet: string, transaction: string)
      ensures transactionDate == date && typeTransaction == kind
      ensures this.wallet == wallet && this.transaction == transaction
      ensures amount == 0 && holderOfDays == 0 && currentBalance == 0 && balanceCheck == 0
      ensures finalAmount == 0 && !error
    {
      transactionDate, typeTransaction := date, kind;
      this.wallet, this.transaction := wallet, transaction;
      amount, holderOfDays, currentBalance, balanceCheck, finalAmount, error := 0, 0, 0, 0, 0, false;
    }

    function View(): Tx
      reads this
    {
      Tx(typeTransaction, transactionDate, amount, holderOfDays)
    }
  }

  const RowDate: AirdropDto -> int := (t: AirdropDto) => t.transactionDate

  function Views(rows: seq<AirdropDto>): (r: seq<Tx>)
    reads rows
    ensures |r| == |rows|
  {
    seq(|rows|, i requires 0 <= i < |rows| reads rows => rows[i].View())
  }

  ghost predicate Distinct(rows: seq<AirdropDto>)
  {
    forall i, j :: 0 <= i < j < |rows| ==> rows[i] != rows[j]
  }

  lemma {:induction false} InsertViews(s: seq<AirdropDto>, x: AirdropDto)
    ensures Views(Insert(s, x, RowDate)) == Insert(Views(s), x.View(), DateOf)
  {
    if s != [] && RowDate(s[|s| - 1]) > RowDate(x) {
      InsertViews(s[..|s| - 1], x);
      assert Views(s)[..|s| - 1] == Views(s[..|s| - 1]);
    }
  }

  /** Sorting the row objects by date sorts their values by date. */
  lemma {:induction false} SortViews(s: seq<AirdropDto>)
    ensures Views(StableSort(s, RowDate)) == StableSort(Views(s), DateOf)
  {
    if s != [] {
      SortViews(s[..|s| - 1]);
      assert Views(s)[..|s| - 1] == Views(s[..|s| - 1]);
      InsertViews(StableSort(s[..|s| - 1], RowDate), s[|s| - 1]);
    }
  }

  lemma DistinctSorted(s: seq<AirdropDto>)
    requires Distinct(s)
    ensures Distinct(StableSort(s, RowDate))
    ensures forall k :: 0 <= k < |StableSort(s, RowDate)| ==> StableSort(s, RowDate)[k] in s
  {
    StableSortIsStable(s, RowDate);
    var r := StableSort(s, RowDate);
    forall k | 0 <= k < |r| ensures r[k] in s {
      assert r[k] in multiset(r);
    }
    DistinctIsOnce(s);
    forall i, j | 0 <= i < j < |r| ensures r[i] != r[j] {
      if r[i] == r[j] {
        CountedTwice(r, i, j);
      }
    }
  }

  lemma CountedTwice(r: seq<AirdropDto>, i: nat, j: nat)
    requires i < j < |r| && r[i] == r[j]
    ensures multiset(r)[r[i]] >= 2
  {
    assert r == r[..i] + [r[i]] + r[i + 1..j] + [r[j]] + r[j + 1..];
  }

  lemma {:induction false} DistinctIsOnce(s: seq<AirdropDto>)
    requires Distinct(s)
    ensures forall t :: multiset(s)[t] <= 1
  {
    if s != [] {
      var front := s[..|s| - 1];
      DistinctIsOnce(front);
      assert s == front + [s[|s| - 1]];
      assert s[|s| - 1] !in front;
    }
  }

  /** The row objects hold exactly the values rows. */
  ghost predicate Holds(ts: seq<AirdropDto>, rows: seq<Tx>)
    reads ts
  {
    |ts| == |rows| && forall k :: 0 <= k < |ts| ==> ts[k].View() == rows[k]
  }

  /** The inner loop: takes one debit out of the strictly earlier credits, oldest first,
      overwriting the amounts on both sides. */
  method TakeFromEarlier(ts: seq<AirdropDto>, i: nat, ghost rows: seq<Tx>)
    requires Holds(ts, rows) && Distinct(ts)
    requires i < |ts| && ts[i].typeTransaction == DEBIT
    modifies ts`amount
    ensures forall k {:trigger ts[k].amount} :: 0 <= k < |ts| && k != i ==>
      ts[k].amount == AmountAfter(rows, rows[i].date, rows[i].amount, |ts|, k)
    ensures ts[i].amount == Rest(rows, rows[i].date, rows[i].amount)
  {
    var t := ts[i];
    ghost var date, d := t.transactionDate, t.amount;
    var j := 0;
    while j < |ts|
      invariant 0 <= j <= |ts|
      invariant t.amount == if d <= Offered(rows, date, j) then 0 else d - Offered(rows, date, j)
      invariant forall k {:trigger ts[k].amount} :: 0 <= k < |ts| && k != i ==>
        ts[k].amount == AmountAfter(rows, date, d, j, k)
    {
      var p := ts[j];
      if p.typeTransaction == CREDIT && p.transactionDate < t.transactionDate {
        if t.amount <= p.amount {
          p.amount := p.amount - t.amount;
          t.amount := 0;
          break;
        } else {
          t.amount := t.amount - p.amount;
          p.amount := 0;
        }
      }
      j := j + 1;
    }
    if j < |ts| {
      PaidInFull(rows, date, d, j + 1);
    }
  }

  lemma HoldsAfterDebit(ts: seq<AirdropDto>, rows: seq<Tx>, i: nat)
    requires |ts| == |rows| && i < |ts|
    requires forall k :: 0 <= k < |ts| ==> ts[k].View() == rows[k].(amount := ts[k].amount)
    requires forall k :: 0 <= k < |ts| && k != i ==>
      ts[k].amount == AmountAfter(rows, rows[i].date, rows[i].amount, |ts|, k)
    requires ts[i].amount == Rest(rows, rows[i].date, rows[i].amount)
    ensures Holds(ts, DebitInPlace(rows, i))
  {}

  /** One turn of the first loop: the running balance, and a debit matched. */
  method VisitRow(ts: seq<AirdropDto>, i: nat, balance: int, ghost now: seq<Tx>) returns (balanceCheck: int)
    requires Holds(ts, now) && Distinct(ts) && i < |ts|
    modifies ts`amount, {ts[i]}`balanceCheck
    ensures forall k {:trigger ts[k].balanceCheck} :: 0 <= k < |ts| && k != i ==>
      ts[k].balanceCheck == old(ts[k].balanceCheck)
    ensures Holds(ts, if now[i].kind == DEBIT then DebitInPlace(now, i) else now)
    ensures balanceCheck == balance + Signed(now[i]) && ts[i].balanceCheck == balanceCheck
  {
    balanceCheck := balance;
    var t := ts[i];
    assert t.View() == now[i];
    if t.typeTransaction == CREDIT {
      balanceCheck := balanceCheck + t.amount;
    }
    if t.typeTransaction == DEBIT {
      balanceCheck := balanceCheck - t.amount;
      TakeFromEarlier(ts, i, now);
      HoldsAfterDebit(ts, now, i);
    }
    t.balanceCheck := balanceCheck;
  }

  /** The running balances of the first k rows. */
  ghost function Balances(rows: seq<Tx>, k: nat): (r: seq<int>)
    requires k <= |rows|
    ensures |r| == k && forall l :: 0 <= l < k ==> r[l] == Net(rows, l + 1)
  {
    if k == 0 then [] else Balances(rows, k - 1) + [Net(rows, k)]
  }

  ghost predicate Checked(ts: seq<AirdropDto>, balances: seq<int>)
    reads ts
  {
    |balances| <= |ts| && forall k {:trigger balances[k]} :: 0 <= k < |balances| ==> ts[k].balanceCheck == balances[k]
  }

  /** The first loop over the rows. */
  method MatchAll(ts: seq<AirdropDto>, ghost rows: seq<Tx>) returns (balanceCheck: int)
    requires Holds(ts, rows) && Distinct(ts) && Dated(rows)
    modifies ts`amount, ts`balanceCheck
    ensures Holds(ts, InPlace(rows, |rows|))
    ensures balanceCheck == Net(rows, |rows|)
    ensures Checked(ts, Balances(rows, |rows|))
  {
    balanceCheck := 0;
    ghost var balances := [];
    for i := 0 to |ts|
      invariant Holds(ts, InPlace(rows, i))
      invariant balanceCheck == Net(rows, i)
      invariant balances == Balances(rows, i) && Checked(ts, balances)
    {
      NotYetTouched(rows, i);
      balanceCheck := VisitRow(ts, i, balanceCheck, InPlace(rows, i));
      balances := balances + [balanceCheck];
    }
  }

  /** The rows with a non-zero amount, in order. */
  function Kept(ts: seq<AirdropDto>): (r: seq<AirdropDto>)
    reads ts
    ensures forall k :: 0 <= k < |r| ==> r[k] in ts
  {
    if ts == [] then []
    else if ts[|ts| - 1].amount == 0 then Kept(ts[..|ts| - 1])
    else Kept(ts[..|ts| - 1]) + [ts[|ts| - 1]]
  }

  lemma {:induction false} KeptViews(ts: seq<AirdropDto>, rows: seq<Tx>)
    requires Holds(ts, rows)
    ensures Holds(Kept(ts), Keep(rows))
  {
    if ts != [] {
      KeptViews(ts[..|ts| - 1], rows[..|rows| - 1]);
    }
  }

  /** The second loop: the day-weighted total and the rows to store. */
  method Collect(ts: seq<AirdropDto>, ghost rows: seq<Tx>)
    returns (resultTransactions: seq<AirdropDto>, finalAmount: int)
    requires Holds(ts, rows)
    ensures resultTransactions == Kept(ts)
    ensures finalAmount == Weighted(rows, |rows|)
  {
    resultTransactions, finalAmount := [], 0;
    for i := 0 to |ts|
      invariant resultTransactions == Kept(ts[..i])
      invariant finalAmount == Weighted(rows, i)
    {
      var t := ts[i];
      assert t.View() == rows[i];
      assert ts[..i + 1][..i] == ts[..i];
      if t.amount != 0 {
        finalAmount := finalAmount + t.amount * t.holderOfDays;
        resultTransactions := resultTransactions + [t];
      }
    }
    assert ts[..|ts|] == ts;
  }

  /** The result list: empty, or the kept rows followed by one RESULT row. */
  ghost predicate Results(results: seq<AirdropDto>, kept: seq<AirdropDto>, finalAmount: int, balanceCheck: int)
    reads results, kept
  {
    if kept == [] then results == []
    else
      && |results| == |kept| + 1 && results[..|kept|] == kept
      && IsResultFor(results[|kept|], kept[|kept| - 1])
      && results[|kept|].finalAmount == finalAmount
      && results[|kept|].balanceCheck == balanceCheck
  }

  method AddResult(kept: seq<AirdropDto>, finalAmount: int, balanceCheck: int) returns (results: seq<AirdropDto>)
    ensures Results(results, kept, finalAmount, balanceCheck)
    ensures |kept| < |results| ==> fresh(results[|kept|])
  {
    results := kept;
    if |results| > 0 {
      var last := results[|results| - 1];
      var result := new AirdropDto(0, RESULT, last.wallet, last.transaction);
      result.finalAmount := finalAmount;
      result.balanceCheck := balanceCheck;
      result.currentBalance := last.currentBalance;
      if last.currentBalance != balanceCheck {
        result.error := true;
      }
      results := results + [result];
    }
  }

  method SortRows(transactions: seq<AirdropDto>) returns (sorted: seq<AirdropDto>)
    requires Distinct(transactions)
    ensures sorted == StableSort(transactions, RowDate)
    ensures Distinct(sorted) && forall k :: 0 <= k < |sorted| ==> sorted[k] in transactions
    ensures Dated(StableSort(Views(transactions), DateOf))
    ensures Holds(sorted, StableSort(Views(transactions), DateOf))
  {
    sorted := StableSort(transactions, RowDate);
    SortViews(transactions);
    DistinctSorted(transactions);
    StableSortIsStable(Views(transactions), DateOf);
  }

  /** Everything `finalCalculations` leaves behind for date-sorted rows. */
  ghost predicate Calculated(ts: seq<AirdropDto>, results: seq<AirdropDto>, rows: seq<Tx>)
    reads ts, results
  {
    && Holds(ts, Matched(rows))
    && Checked(ts, Balances(rows, |rows|))
    && Holds(Kept(ts), Keep(Matched(rows)))
    && Results(results, Kept(ts), Weighted(Matched(rows), |rows|), Net(rows, |rows|))
  }

  /** The second loop and the RESULT row, on already matched rows. */
  method CollectResults(ts: seq<AirdropDto>, balanceCheck: int, ghost matched: seq<Tx>)
    returns (results: seq<AirdropDto>)
    requires Holds(ts, matched)
    ensures Holds(ts, matched) && Holds(Kept(ts), Keep(matched))
    ensures Results(results, Kept(ts), Weighted(matched, |matched|), balanceCheck)
  {
    KeptViews(ts, matched);
    var finalAmount;
    results, finalAmount := Collect(ts, matched);
    results := AddResult(results, finalAmount, balanceCheck);
  }

  /** The two loops and the RESULT row. */
  method Calculate(ts: seq<AirdropDto>, ghost rows: seq<Tx>) returns (results: seq<AirdropDto>)
    requires Holds(ts, rows) && Distinct(ts) && Dated(rows)
    modifies ts`amount, ts`balanceCheck
    ensures Calculated(ts, results, rows)
  {
    var balanceCheck := MatchAll(ts, rows);
    InPlaceIsMatchedAll(rows);
    results := CollectResults(ts, balanceCheck, Matched(rows));
  }

  /** `finalCalculations`. Rows of kind RESULT carry no date, so the source's comparator does
      not order them. */
  method FinalCalculations(transactions: seq<AirdropDto>) returns (sorted: seq<AirdropDto>, results: seq<AirdropDto>)
    requires Distinct(transactions)
    requires forall t :: t in transactions ==> t.typeTransaction != RESULT
    modifies transactions`amount, transactions`balanceCheck
    ensures sorted == StableSort(transactions, RowDate)
    ensures forall k :: 0 <= k < |sorted| ==> sorted[k] in transactions
    ensures Calculated(sorted, results, StableSort(old(Views(transactions)), DateOf))
  {
    ghost var rows := StableSort(Views(transactions), DateOf);
    sorted := SortRows(transactions);
    results := Calculate(sorted, rows);
  }

  /** A RESULT row carries the wallet, transaction and current balance of the last kept row,
      and an error exactly when that balance is not the recomputed one. */
  ghost predicate IsResultFor(r: AirdropDto, last: AirdropDto)
    reads r, last
  {
    && r.typeTransaction == RESULT
    && r.wallet == last.wallet && r.transaction == last.transaction
    && r.currentBalance == last.currentBalance
    && (r.error <==> r.currentBalance != r.balanceCheck)
  }
}
