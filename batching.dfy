/**
 * How `saveData` writes the patient list: inline with the rest of the data
 * when there are few patients, otherwise in batches of at most 500 records,
 * the database's limit for one batched write.
 */
module Batching {
  /** Above this many patients they go to their own collection. */
  const SubcollectionThreshold: nat := 100

  const BatchSize: nat := 500

  datatype SavePlan<T> = Inline(all: seq<T>) | InBatches(batches: seq<seq<T>>)

  function Min(a: int, b: int): int {
    if a <= b then a else b
  }

  function Flatten<T>(bs: seq<seq<T>>): seq<T> {
    if bs == [] then [] else Flatten(bs[..|bs| - 1]) + bs[|bs| - 1]
  }

  /** The `k`-th batch: `slice(k · 500, min(k · 500 + 500, n))`. */
  ghost predicate IsBatchOf<T>(b: seq<T>, xs: seq<T>, k: nat)
    requires k * BatchSize < |xs|
  {
    b == xs[k * BatchSize..Min(k * BatchSize + BatchSize, |xs|)]
  }

  /**
   * The save step of `saveData` for the patient list: at most 100 patients
   * are written with the rest of the data; more are cut into consecutive
   * batches by the index loop.
   */
  method PlanPatientSave<T>(pacientes: seq<T>) returns (plan: SavePlan<T>)
    ensures plan.Inline? <==> |pacientes| <= SubcollectionThreshold
    ensures plan.Inline? ==> plan.all == pacientes
    ensures plan.InBatches? ==>
              && Flatten(plan.batches) == pacientes
              && |plan.batches| == (|pacientes| + BatchSize - 1) / BatchSize
              && forall k :: 0 <= k < |plan.batches| ==> k * BatchSize < |pacientes| && IsBatchOf(plan.batches[k], pacientes, k)
  {
    if |pacientes| <= SubcollectionThreshold {
      return Inline(pacientes);
    }
    var n := |pacientes|;
    var batches: seq<seq<T>> := [];
    var i := 0;
    while i < n
      invariant i == |batches| * BatchSize
      invariant i <= n || (n < i && i - BatchSize < n)
      invariant Flatten(batches) == pacientes[..Min(i, n)]
      invariant forall k :: 0 <= k < |batches| ==> k * BatchSize < n && IsBatchOf(batches[k], pacientes, k)
    {
      var lote := pacientes[i..Min(i + BatchSize, n)];
      assert pacientes[..i] + lote == pacientes[..Min(i + BatchSize, n)];
      assert (batches + [lote])[..|batches|] == batches;
      batches := batches + [lote];
      i := i + BatchSize;
    }
    assert pacientes[..n] == pacientes;
    return InBatches(batches);
  }

  /** Every batch holds between 1 and 500 records, and all but the last exactly 500. */
  lemma BatchSizes<T>(xs: seq<T>, batches: seq<seq<T>>)
    requires forall k :: 0 <= k < |batches| ==> k * BatchSize < |xs| && IsBatchOf(batches[k], xs, k)
    ensures forall k :: 0 <= k < |batches| ==> 1 <= |batches[k]| <= BatchSize
    ensures forall k :: 0 <= k < |batches| - 1 ==> |batches[k]| == BatchSize
  {
    forall k | 0 <= k < |batches| - 1 ensures |batches[k]| == BatchSize {
      assert (k + 1) * BatchSize < |xs|;
    }
  }
}
