/**
 * The FIFO stock-batch controller: creating a batch, and allocating a requested quantity of one
 * ration item of one godown across its batches, oldest arrival first.
 */
module FIFOStockAllocationController {
  import opened BatchModel
  import opened Wrappers
  import opened Store

  // ---------------------------------------------------------------------------------------------
  // createFIFOStockBatch
  // ---------------------------------------------------------------------------------------------

  /**
   * createFIFOStockBatch: the new batch has nothing allocated; a batch number already on file breaks
   * the unique index and the request fails with 500.
   */
  method CreateFifoStockBatch(batches: Batches, batchNumber: string, rationItem: string, godown: string,
                              arrivalDate: int, totalQuantity: int)
    returns (r: Response<Batch>)
    requires batches.Valid()
    modifies batches
    ensures batches.Valid()
    ensures batchNumber in old(batches.docs) ==> r == Err(500) && unchanged(batches)
    ensures batchNumber !in old(batches.docs) ==>
              && r == Ok(201, Batch(batchNumber, rationItem, godown, arrivalDate, 0, totalQuantity))
              && batches.docs == old(batches.docs)[batchNumber := r.value]
  {
    if batchNumber in batches.docs {
      return Err(500);
    }
    var batch := Batch(batchNumber, rationItem, godown, arrivalDate, 0, totalQuantity);
    batches.docs := batches.docs[batchNumber := batch];
    r := Ok(201, batch);
  }

  // ---------------------------------------------------------------------------------------------
  // allocateStockFIFO
  // ---------------------------------------------------------------------------------------------

  /** One entry of the reply: how much was taken from which batch. */
  datatype Allocation = Allocation(batchNumber: string, amount: int)

  /** The state of an allocation run: the batches, the entries so far and the quantity still wanted. */
  datatype Run = Run(docs: map<string, Batch>, allocations: seq<Allocation>, remaining: int)

  function Min(a: int, b: int): int {
    if a <= b then a else b
  }

  /** What a batch can still give. */
  function Available(b: Batch): int {
    b.totalQuantity - b.allocatedQuantity
  }

  /** Every key of `keys` appears in it once. */
  predicate Distinct(keys: seq<string>)
    decreases |keys|
  {
    |keys| == 0 || (Distinct(keys[..|keys| - 1]) && keys[|keys| - 1] !in keys[..|keys| - 1])
  }

  /**
   * `find({ godown, rationItem }).sort({ arrivalDate: 1 })` answered `order`: the keys of exactly the
   * matching batches, each once, by non-decreasing arrival date (ties in the database's order).
   */
  ghost predicate FindsBatchesInArrivalOrder(docs: map<string, Batch>, godown: string, item: string, order: seq<string>) {
    && Distinct(order)
    && (forall i :: 0 <= i < |order| ==> order[i] in docs && docs[order[i]].godown == godown && docs[order[i]].rationItem == item)
    && (forall k | k in docs && docs[k].godown == godown && docs[k].rationItem == item :: k in order)
    && (forall i, j :: 0 <= i < j < |order| ==> docs[order[i]].arrivalDate <= docs[order[j]].arrivalDate)
  }

  /**
   * One turn of the loop on batch `k`: once nothing remains the loop has stopped; otherwise the batch
   * gives what it has, up to what remains, and the entry is recorded even when that is nothing. (The
   * query only returns stored batches, so `k` is always on file.)
   */
  function Step(s: Run, k: string): Run {
    if s.remaining <= 0 || k !in s.docs then s
    else
      var b := s.docs[k];
      var now := Min(Available(b), s.remaining);
      Run(s.docs[k := b.(allocatedQuantity := b.allocatedQuantity + now)],
          s.allocations + [Allocation(b.batchNumber, now)],
          s.remaining - now)
  }

  /** The run over the batches `order`, starting with `requested` units wanted. */
  function Allocate(docs: map<string, Batch>, order: seq<string>, requested: int): Run
    decreases |order|
  {
    if |order| == 0 then Run(docs, [], requested)
    else Step(Allocate(docs, order[..|order| - 1], requested), order[|order| - 1])
  }

  /** The quantity handed out by a list of entries. */
  function Total(a: seq<Allocation>): int
    decreases |a|
  {
    if |a| == 0 then 0 else Total(a[..|a| - 1]) + a[|a| - 1].amount
  }

  /**
   * allocateStockFIFO, given the batches in arrival order. Every visited batch is saved as it is
   * visited, so a request that cannot be met returns 400 with the partial allocations kept.
   */
  method AllocateStockFifo(batches: Batches, godown: string, item: string, requested: int, order: seq<string>)
    returns (r: Response<seq<Allocation>>)
    requires batches.Valid()
    requires FindsBatchesInArrivalOrder(batches.docs, godown, item, order)
    modifies batches
    ensures batches.Valid()
    ensures var run := Allocate(old(batches.docs), order, requested);
            && batches.docs == run.docs
            && r == (if run.remaining > 0 then Err(400) else Ok(200, run.allocations))
  {
    var remaining := requested;
    var allocations: seq<Allocation> := [];
    var i := 0;
    while i < |order|
      invariant 0 <= i <= |order|
      invariant batches.docs.Keys == old(batches.docs).Keys
      invariant Allocate(old(batches.docs), order[..i], requested) == Run(batches.docs, allocations, remaining)
    {
      if remaining <= 0 {
        break;
      }
      assert order[..i + 1][..i] == order[..i];
      assert Allocate(old(batches.docs), order[..i + 1], requested)
          == Step(Run(batches.docs, allocations, remaining), order[i]);
      var batch := batches.docs[order[i]];
      var availableInBatch := batch.totalQuantity - batch.allocatedQuantity;
      var allocatedNow := if availableInBatch <= remaining then availableInBatch else remaining;
      batches.docs := batches.docs[order[i] := batch.(allocatedQuantity := batch.allocatedQuantity + allocatedNow)];
      remaining := remaining - allocatedNow;
      allocations := allocations + [Allocation(batch.batchNumber, allocatedNow)];
      i := i + 1;
    }
    AllocateStops(old(batches.docs), order, i, requested);
    assert order[..|order|] == order;
    AllocateKeepsWellFormed(old(batches.docs), order, requested);
    if remaining > 0 {
      return Err(400);
    }
    r := Ok(200, allocations);
  }

  /** Once nothing remains the loop may stop: the remaining batches would change nothing. */
  lemma {:induction false} AllocateStops(docs: map<string, Batch>, order: seq<string>, i: nat, requested: int)
    requires i <= |order|
    requires i < |order| ==> Allocate(docs, order[..i], requested).remaining <= 0
    ensures Allocate(docs, order, requested) == Allocate(docs, order[..i], requested)
    decreases |order| - i
  {
    if i < |order| {
      var s := Allocate(docs, order[..i], requested);
      assert order[..i + 1][..i] == order[..i];
      assert Allocate(docs, order[..i + 1], requested) == Step(s, order[i]) == s;
      AllocateStops(docs, order, i + 1, requested);
    } else {
      assert order[..i] == order;
    }
  }

  /** Nothing is lost: the units handed out and the units still wanted add up to the request. */
  lemma {:induction false} AllocateConserves(docs: map<string, Batch>, order: seq<string>, requested: int)
    ensures var run := Allocate(docs, order, requested);
            && requested == run.remaining + Total(run.allocations)
            && (requested >= 0 ==> run.remaining >= 0)
    decreases |order|
  {
    if |order| > 0 {
      var s := Allocate(docs, order[..|order| - 1], requested);
      AllocateConserves(docs, order[..|order| - 1], requested);
      var run := Step(s, order[|order| - 1]);
      if s.remaining > 0 && order[|order| - 1] in s.docs {
        assert run.allocations[..|run.allocations| - 1] == s.allocations;
      }
    }
  }

  /** No batch is ever allocated more than it holds: the collection invariant is kept. */
  lemma {:induction false} AllocateKeepsWellFormed(docs: map<string, Batch>, order: seq<string>, requested: int)
    requires BatchesWellFormed(docs)
    ensures BatchesWellFormed(Allocate(docs, order, requested).docs)
    decreases |order|
  {
    if |order| > 0 {
      AllocateKeepsWellFormed(docs, order[..|order| - 1], requested);
    }
  }

  /** A batch that starts with `0 <= allocated <= total` keeps those bounds. */
  lemma {:induction false} AllocateKeepsBounds(docs: map<string, Batch>, order: seq<string>, requested: int, k: string)
    requires k in docs && 0 <= docs[k].allocatedQuantity <= docs[k].totalQuantity
    ensures var run := Allocate(docs, order, requested);
            k in run.docs && 0 <= run.docs[k].allocatedQuantity <= run.docs[k].totalQuantity
    decreases |order|
  {
    if |order| > 0 {
      AllocateKeepsBounds(docs, order[..|order| - 1], requested, k);
    }
  }

  /**
   * A run visits a prefix of `order`, one entry per visited batch, and it visits fewer than all of
   * them only when it stopped with nothing remaining.
   */
  lemma {:induction false} AllocateCount(docs: map<string, Batch>, order: seq<string>, requested: int)
    requires forall i :: 0 <= i < |order| ==> order[i] in docs
    ensures var run := Allocate(docs, order, requested);
            && |run.allocations| <= |order|
            && (|run.allocations| < |order| ==> run.remaining <= 0)
    decreases |order|
  {
    if |order| > 0 {
      AllocateCount(docs, order[..|order| - 1], requested);
      AllocateKeepsKeys(docs, order[..|order| - 1], requested);
    }
  }

  /** Each entry was made while something still remained of the request. */
  lemma {:induction false} AllocateEntriesWanted(docs: map<string, Batch>, order: seq<string>, requested: int)
    ensures var run := Allocate(docs, order, requested);
            forall j :: 0 <= j < |run.allocations| ==> requested - Total(run.allocations[..j]) > 0
    decreases |order|
  {
    if |order| > 0 {
      var s := Allocate(docs, order[..|order| - 1], requested);
      AllocateEntriesWanted(docs, order[..|order| - 1], requested);
      AllocateConserves(docs, order[..|order| - 1], requested);
      var run := Step(s, order[|order| - 1]);
      if s.remaining > 0 {
        forall j | 0 <= j < |run.allocations|
          ensures requested - Total(run.allocations[..j]) > 0
        {
          if j < |s.allocations| {
            assert run.allocations[..j] == s.allocations[..j];
          } else {
            assert run.allocations[..j] == s.allocations;
          }
        }
      }
    }
  }

  /**
   * Only the batches of the requested godown and item are considered: every other batch is left as
   * it was.
   */
  lemma AllocateTouchesOnlyMatching(docs: map<string, Batch>, godown: string, item: string, order: seq<string>,
                                    requested: int, k: string)
    requires FindsBatchesInArrivalOrder(docs, godown, item, order)
    requires k in docs && !(docs[k].godown == godown && docs[k].rationItem == item)
    ensures k in Allocate(docs, order, requested).docs && Allocate(docs, order, requested).docs[k] == docs[k]
  {
    AllocateUntouched(docs, order, requested, k);
  }

  /** A run keeps the batches on file. */
  lemma {:induction false} AllocateKeepsKeys(docs: map<string, Batch>, order: seq<string>, requested: int)
    ensures Allocate(docs, order, requested).docs.Keys == docs.Keys
    decreases |order|
  {
    if |order| > 0 {
      AllocateKeepsKeys(docs, order[..|order| - 1], requested);
    }
  }

  /** A batch outside `order` is untouched. */
  lemma {:induction false} AllocateUntouched(docs: map<string, Batch>, order: seq<string>, requested: int, k: string)
    requires k in docs && k !in order
    ensures k in Allocate(docs, order, requested).docs && Allocate(docs, order, requested).docs[k] == docs[k]
    decreases |order|
  {
    if |order| > 0 {
      assert k !in order[..|order| - 1];
      AllocateUntouched(docs, order[..|order| - 1], requested, k);
    }
  }

  /**
   * The `j`-th entry of a run names the `j`-th batch of `order`, whose allocation grew by exactly
   * that entry.
   */
  lemma {:induction false} AllocateVisited(docs: map<string, Batch>, order: seq<string>, requested: int, j: nat)
    requires forall i :: 0 <= i < |order| ==> order[i] in docs
    requires Distinct(order)
    requires BatchesWellFormed(docs)
    requires j < |order| && j < |Allocate(docs, order, requested).allocations|
    ensures var run := Allocate(docs, order, requested);
            && run.allocations[j].batchNumber == order[j]
            && order[j] in run.docs
            && run.docs[order[j]] == docs[order[j]].(allocatedQuantity := docs[order[j]].allocatedQuantity + run.allocations[j].amount)
    decreases |order|
  {
    var n := |order| - 1;
    var prefix := order[..n];
    var s := Allocate(docs, prefix, requested);
    var run := Step(s, order[n]);
    AllocateCount(docs, prefix, requested);
    AllocateKeepsKeys(docs, prefix, requested);
    assert order[n] !in prefix;
    if s.remaining > 0 {
      assert |s.allocations| == n;
      if j < n {
        AllocateVisited(docs, prefix, requested, j);
        assert prefix[j] == order[j];
      } else {
        AllocateUntouched(docs, prefix, requested, order[n]);
      }
    } else {
      AllocateVisited(docs, prefix, requested, j);
      assert prefix[j] == order[j];
    }
  }

  /** A batch of `order` past the entries of a run is untouched. */
  lemma {:induction false} AllocateUnvisited(docs: map<string, Batch>, order: seq<string>, requested: int, j: nat)
    requires forall i :: 0 <= i < |order| ==> order[i] in docs
    requires Distinct(order)
    requires |Allocate(docs, order, requested).allocations| <= j < |order|
    ensures var run := Allocate(docs, order, requested);
            order[j] in run.docs && run.docs[order[j]] == docs[order[j]]
    decreases |order|
  {
    var n := |order| - 1;
    var prefix := order[..n];
    var s := Allocate(docs, prefix, requested);
    AllocateKeepsKeys(docs, prefix, requested);
    if j < n {
      assert prefix[j] == order[j] && order[j] != order[n];
      AllocateUnvisited(docs, prefix, requested, j);
    } else {
      assert order[n] !in prefix;
      AllocateCount(docs, prefix, requested);
      AllocateUntouched(docs, prefix, requested, order[n]);
    }
  }

  /** A step keeps the entries made before it. */
  lemma StepKeepsEntries(s: Run, k: string, j: nat)
    requires j < |s.allocations|
    ensures var r := Step(s, k);
            j < |r.allocations| && r.allocations[j] == s.allocations[j] && r.allocations[..j] == s.allocations[..j]
  {
  }

  /** The entry made by the last step of a run. */
  lemma AllocateLastAmount(docs: map<string, Batch>, order: seq<string>, requested: int)
    requires forall i :: 0 <= i < |order| ==> order[i] in docs
    requires |order| > 0 && order[|order| - 1] !in order[..|order| - 1]
    requires |Allocate(docs, order[..|order| - 1], requested).allocations| < |Allocate(docs, order, requested).allocations|
    ensures var n := |Allocate(docs, order[..|order| - 1], requested).allocations|;
            var run := Allocate(docs, order, requested);
            n < |order| && run.allocations[n].amount == Min(Available(docs[order[n]]), requested - Total(run.allocations[..n]))
  {
    var n := |order| - 1;
    var prefix := order[..n];
    var s := Allocate(docs, prefix, requested);
    AllocateCount(docs, prefix, requested);
    assert order[n] !in prefix;
    AllocateUntouched(docs, prefix, requested, order[n]);
    AllocateConserves(docs, prefix, requested);
    var run := Step(s, order[n]);
    assert s.remaining > 0 && order[n] in s.docs;
    assert |s.allocations| == n;
    assert s.docs[order[n]] == docs[order[n]];
    assert run.allocations == s.allocations + [Allocation(docs[order[n]].batchNumber, Min(Available(docs[order[n]]), s.remaining))];
    assert run.allocations[..n] == s.allocations;
    assert s.remaining == requested - Total(s.allocations);
    assert run == Allocate(docs, order, requested);
  }

  /**
   * Each visited batch was given what it had available, up to what still remained of the request
   * after the entries before it.
   */
  lemma {:induction false} AllocateAmount(docs: map<string, Batch>, order: seq<string>, requested: int, j: nat)
    requires forall i :: 0 <= i < |order| ==> order[i] in docs
    requires Distinct(order)
    requires j < |order| && j < |Allocate(docs, order, requested).allocations|
    ensures var run := Allocate(docs, order, requested);
            run.allocations[j].amount == Min(Available(docs[order[j]]), requested - Total(run.allocations[..j]))
    decreases |order|
  {
    var n := |order| - 1;
    var prefix := order[..n];
    var s := Allocate(docs, prefix, requested);
    AllocateCount(docs, prefix, requested);
    if j < |s.allocations| {
      AllocateAmount(docs, prefix, requested, j);
      assert prefix[j] == order[j];
      StepKeepsEntries(s, order[n], j);
    } else {
      assert order[n] !in prefix;
      AllocateLastAmount(docs, order, requested);
    }
  }

  /**
   * First in, first out: every visited batch except the last one visited ends fully allocated, so a
   * later batch is drawn on only once every earlier one is exhausted.
   */
  lemma AllocateExhaustsEarlier(docs: map<string, Batch>, order: seq<string>, requested: int, j: nat)
    requires forall i :: 0 <= i < |order| ==> order[i] in docs
    requires Distinct(order)
    requires BatchesWellFormed(docs)
    requires j + 1 < |Allocate(docs, order, requested).allocations|
    ensures j < |order|
    ensures var run := Allocate(docs, order, requested);
            order[j] in run.docs && run.docs[order[j]].allocatedQuantity == run.docs[order[j]].totalQuantity
  {
    var run := Allocate(docs, order, requested);
    AllocateCount(docs, order, requested);
    AllocateVisited(docs, order, requested, j);
    AllocateAmount(docs, order, requested, j);
    AllocateEntriesWanted(docs, order, requested);
    assert run.allocations[..j + 1] == run.allocations[..j] + [run.allocations[j]];
    assert run.allocations[..j + 1][..j] == run.allocations[..j];
  }
}
