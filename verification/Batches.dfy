/** Transactions go out in batches of five; a batch is applied completely or not at all, and
    a failed batch does not stop the following ones. */
module Batches {

  const BATCH_SIZE: nat := 5

  /** Whether batch number i of the call at this path is applied; calls are named by the
      positions that lead to them. */
  type Chain = (seq<nat>, nat) -> bool

  /** What the batches that succeed deliver of the first n items: item k is in batch k / 5. */
  function Delivered<T>(xs: seq<T>, ok: Chain, path: seq<nat>, n: nat): seq<T>
    requires n <= |xs|
  {
    if n == 0 then []
    else if ok(path, (n - 1) / BATCH_SIZE) then Delivered(xs, ok, path, n - 1) + [xs[n - 1]]
    else Delivered(xs, ok, path, n - 1)
  }

  /** JavaScript's `slice(i * 5, (i + 1) * 5)`. */
  function Slice<T>(xs: seq<T>, i: nat): seq<T>
    requires i * BATCH_SIZE <= |xs|
  {
    xs[i * BATCH_SIZE..Upper(xs, i)]
  }

  function Upper<T>(xs: seq<T>, i: nat): (u: nat)
    ensures u <= |xs| && (i * BATCH_SIZE <= |xs| ==> i * BATCH_SIZE <= u)
  {
    if (i + 1) * BATCH_SIZE <= |xs| then (i + 1) * BATCH_SIZE else |xs|
  }

  function NumBatches(n: nat): nat
  {
    (n + BATCH_SIZE - 1) / BATCH_SIZE
  }

  lemma InBatch(i: nat, k: nat)
    requires i * BATCH_SIZE <= k < (i + 1) * BATCH_SIZE
    ensures k / BATCH_SIZE == i
  {}

  lemma {:induction false} DeliveredWithin<T>(xs: seq<T>, ok: Chain, path: seq<nat>, i: nat, n: nat)
    requires i * BATCH_SIZE <= n <= Upper(xs, i)
    ensures Delivered(xs, ok, path, n)
         == Delivered(xs, ok, path, i * BATCH_SIZE) + if ok(path, i) then xs[i * BATCH_SIZE..n] else []
  {
    if i * BATCH_SIZE < n {
      DeliveredWithin(xs, ok, path, i, n - 1);
      InBatch(i, n - 1);
      assert xs[i * BATCH_SIZE..n] == xs[i * BATCH_SIZE..n - 1] + [xs[n - 1]];
    }
  }

  /** One more batch delivers its whole slice or nothing. */
  lemma OneBatch<T>(xs: seq<T>, ok: Chain, path: seq<nat>, i: nat)
    requires i < NumBatches(|xs|)
    ensures i * BATCH_SIZE < |xs|
    ensures var before := Delivered(xs, ok, path, i * BATCH_SIZE);
      Delivered(xs, ok, path, Upper(xs, i)) == if ok(path, i) then before + Slice(xs, i) else before
    ensures Upper(xs, i) == if i + 1 == NumBatches(|xs|) then |xs| else (i + 1) * BATCH_SIZE
  {
    DeliveredWithin(xs, ok, path, i, Upper(xs, i));
  }

  /** Every item is in exactly one of the slices that are sent. */
  lemma InOneBatch<T>(xs: seq<T>, k: nat, i: nat)
    requires k < |xs| && i < NumBatches(|xs|)
    ensures k / BATCH_SIZE < NumBatches(|xs|)
    ensures i * BATCH_SIZE <= k < Upper(xs, i) <==> i == k / BATCH_SIZE
  {}
}
