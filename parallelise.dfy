/**
 * get_places/google_places_wrapper/parallelise.py, run sequentially.
 * Processes and threads are replaced by loops in their start order; the
 * process-shared `Manager().dict()` is a `ResultStore` object.
 */
module Parallelise {
  import opened DekaTypes
  import opened Merge
  import opened Misc

  /** The shared result dictionary; `publications` counts calls to `update`. */
  class ResultStore {
    var entries: ResultSet
    var publications: nat

    constructor ()
      ensures entries == map[] && publications == 0
    {
      entries := map[];
      publications := 0;
    }

    /** `result_store.update(m)` */
    method Update(m: ResultSet)
      modifies this
      ensures entries == old(entries) + m
      ensures publications == old(publications) + 1
    {
      entries := entries + m;
      publications := publications + 1;
    }
  }

  /** The dictionaries `query` returns for `circles`, in order. */
  function Results(query: Circle -> ResultSet, circles: seq<Circle>): (rs: seq<ResultSet>)
    ensures |rs| == |circles|
    ensures forall i :: 0 <= i < |circles| ==> rs[i] == query(circles[i])
  {
    seq(|circles|, i requires 0 <= i < |circles| => query(circles[i]))
  }

  lemma ResultsAppend(query: Circle -> ResultSet, a: seq<Circle>, b: seq<Circle>)
    ensures Results(query, a + b) == Results(query, a) + Results(query, b)
  {
  }

  /** The batches a worker process survives: `len(batch) // 30` must not be 0. */
  function LongBatches(batches: seq<seq<Circle>>): seq<seq<Circle>>
  {
    if batches == [] then []
    else
      var last := batches[|batches| - 1];
      LongBatches(batches[..|batches| - 1]) + (if |last| >= 30 then [last] else [])
  }

  lemma {:induction false} LongBatchesOfLong(batches: seq<seq<Circle>>)
    requires forall i :: 0 <= i < |batches| ==> |batches[i]| >= 30
    ensures LongBatches(batches) == batches
  {
    if batches != [] {
      LongBatchesOfLong(batches[..|batches| - 1]);
    }
  }

  lemma {:induction false} LongBatchesAppend(a: seq<seq<Circle>>, b: seq<seq<Circle>>)
    ensures LongBatches(a + b) == LongBatches(a) + LongBatches(b)
    decreases |b|
  {
    if b == [] {
      assert a + b == a;
    } else {
      var front := b[..|b| - 1];
      LongBatchesAppend(a, front);
      assert (a + b)[..|a + b| - 1] == a + front;
      assert (a + b)[|a + b| - 1] == b[|b| - 1];
    }
  }

  /** Batches of fewer than 30 circles are all dropped. */
  lemma {:induction false} ShortBatchesAllDropped(batches: seq<seq<Circle>>, n: nat)
    requires n < 30
    requires forall i :: 0 <= i < |batches| ==> |batches[i]| <= n
    ensures LongBatches(batches) == []
  {
    if batches != [] {
      ShortBatchesAllDropped(batches[..|batches| - 1], n);
    }
  }

  /**
   * `sub_batch`: one thread queries its circles one after the other, folds the
   * answers with `update` and publishes the fold once.
   */
  method SubBatch(miniBatch: seq<Circle>, query: Circle -> ResultSet, store: ResultStore)
    returns (calls: seq<Circle>)
    modifies store
    ensures calls == miniBatch
    ensures store.entries == old(store.entries) + UpdateAll(Results(query, miniBatch))
    ensures store.publications == old(store.publications) + 1
  {
    calls := [];
    var listOfPlaces: seq<ResultSet> := [];
    for i := 0 to |miniBatch|
      invariant calls == miniBatch[..i]
      invariant listOfPlaces == Results(query, miniBatch[..i])
    {
      calls := calls + [miniBatch[i]];
      listOfPlaces := listOfPlaces + [query(miniBatch[i])];
    }
    assert miniBatch[..|miniBatch|] == miniBatch;
    var threadResult: ResultSet := map[];
    for i := 0 to |listOfPlaces|
      invariant threadResult == UpdateAll(listOfPlaces[..i])
    {
      assert listOfPlaces[..i + 1][..i] == listOfPlaces[..i];
      threadResult := threadResult + listOfPlaces[i];
    }
    assert listOfPlaces[..|listOfPlaces|] == listOfPlaces;
    store.Update(threadResult);
  }

  /**
   * `_query_batch` as written: a worker splits its batch into sub-batches of
   * `len(batch) // 30` circles and runs one thread per sub-batch. A batch of
   * fewer than 30 circles makes `split_to_batches` raise inside the worker,
   * which then dies without querying anything.
   */
  method QueryBatch(batch: seq<Circle>, query: Circle -> ResultSet, store: ResultStore)
    returns (calls: seq<Circle>)
    modifies store
    ensures |batch| < 30 ==>
              calls == [] && store.entries == old(store.entries) && store.publications == old(store.publications)
    ensures |batch| >= 30 ==> calls == batch
    ensures |batch| >= 30 ==> store.publications == old(store.publications) + |SplitToBatches(batch, |batch| / 30)|
    ensures store.entries == old(store.entries) + UpdateAll(Results(query, calls))
  {
    calls := [];
    var itemsPerBatch := |batch| / 30;
    if itemsPerBatch == 0 {
      return;
    }
    calls := RunSubBatches(batch, itemsPerBatch, query, store);
  }

  /**
   * `_query_batch` with the sub-batch size kept at 1 or more, so that every
   * circle of every batch is queried.
   */
  method QueryBatchCorrected(batch: seq<Circle>, query: Circle -> ResultSet, store: ResultStore)
    returns (calls: seq<Circle>)
    modifies store
    ensures calls == batch
    ensures store.entries == old(store.entries) + UpdateAll(Results(query, batch))
  {
    var itemsPerBatch := if |batch| / 30 == 0 then 1 else |batch| / 30;
    calls := RunSubBatches(batch, itemsPerBatch, query, store);
  }

  /** Starting one thread per chunk of `split_to_batches(batch, n)`. */
  method RunSubBatches(batch: seq<Circle>, n: nat, query: Circle -> ResultSet, store: ResultStore)
    returns (calls: seq<Circle>)
    requires n > 0
    modifies store
    ensures calls == batch
    ensures store.entries == old(store.entries) + UpdateAll(Results(query, batch))
    ensures store.publications == old(store.publications) + |SplitToBatches(batch, n)|
  {
    var subBatches := SplitToBatches(batch, n);
    ghost var start := store.entries;
    ghost var published := store.publications;
    calls := [];
    for i := 0 to |subBatches|
      invariant calls == Flatten(subBatches[..i])
      invariant store.entries == start + UpdateAll(Results(query, calls))
      invariant store.publications == published + i
    {
      ChunkStep(query, subBatches, i);
      var c := SubBatch(subBatches[i], query, store);
      MapPlusAssoc(start, UpdateAll(Results(query, calls)), UpdateAll(Results(query, c)));
      calls := calls + c;
    }
    assert subBatches[..|subBatches|] == subBatches;
  }

  /** Adding the i-th chunk to the circles and answers seen so far. */
  lemma ChunkStep(query: Circle -> ResultSet, chunks: seq<seq<Circle>>, i: nat)
    requires i < |chunks|
    ensures Flatten(chunks[..i + 1]) == Flatten(chunks[..i]) + chunks[i]
    ensures UpdateAll(Results(query, Flatten(chunks[..i]) + chunks[i]))
         == UpdateAll(Results(query, Flatten(chunks[..i]))) + UpdateAll(Results(query, chunks[i]))
  {
    assert chunks[..i + 1] == chunks[..i] + [chunks[i]];
    FlattenAppend(chunks[..i], [chunks[i]]);
    assert Flatten([chunks[i]]) == chunks[i] + Flatten([]);
    ResultsAppend(query, Flatten(chunks[..i]), chunks[i]);
    UpdateAllAppend(Results(query, Flatten(chunks[..i])), Results(query, chunks[i]));
  }

  lemma MapPlusAssoc(a: ResultSet, b: ResultSet, c: ResultSet)
    ensures a + b + c == a + (b + c)
  {
  }

  /**
   * `parallelise`: one worker per batch, all publishing into one store. The
   * returned dictionary is a merge of the answers to exactly the circles that
   * were queried; since publication order across threads is not fixed, only
   * the key set and the origin of each value are promised.
   */
  method Parallelise(batches: seq<seq<Circle>>, query: Circle -> ResultSet)
    returns (result: ResultSet, calls: seq<Circle>)
    ensures calls == Flatten(LongBatches(batches))
    ensures MergeOf(result, Results(query, calls))
  {
    var store := new ResultStore();
    calls := [];
    for i := 0 to |batches|
      invariant calls == Flatten(LongBatches(batches[..i]))
      invariant store.entries == UpdateAll(Results(query, calls))
    {
      var done := calls;
      var c := QueryBatch(batches[i], query, store);
      calls := calls + c;
      assert batches[..i + 1][..i] == batches[..i];
      assert batches[..i + 1][i] == batches[i];
      var tail := if |batches[i]| >= 30 then [batches[i]] else [];
      assert LongBatches(batches[..i + 1]) == LongBatches(batches[..i]) + tail;
      FlattenAppend(LongBatches(batches[..i]), tail);
      assert Flatten(tail) == c;
      ResultsAppend(query, done, c);
      UpdateAllAppend(Results(query, done), Results(query, c));
    }
    assert batches[..|batches|] == batches;
    result := store.entries;
    UpdateAllIsMerge(Results(query, calls));
  }

  /** `parallelise` with workers that run `QueryBatchCorrected`: every circle of every batch is queried. */
  method ParalleliseCorrected(batches: seq<seq<Circle>>, query: Circle -> ResultSet)
    returns (result: ResultSet, calls: seq<Circle>)
    ensures calls == Flatten(batches)
    ensures MergeOf(result, Results(query, calls))
  {
    var store := new ResultStore();
    calls := [];
    for i := 0 to |batches|
      invariant calls == Flatten(batches[..i])
      invariant store.entries == UpdateAll(Results(query, calls))
    {
      var done := calls;
      var c := QueryBatchCorrected(batches[i], query, store);
      calls := calls + c;
      assert batches[..i + 1] == batches[..i] + [batches[i]];
      FlattenAppend(batches[..i], [batches[i]]);
      assert Flatten([batches[i]]) == batches[i] + Flatten([]);
      ResultsAppend(query, done, c);
      UpdateAllAppend(Results(query, done), Results(query, c));
    }
    assert batches[..|batches|] == batches;
    result := store.entries;
    UpdateAllIsMerge(Results(query, calls));
  }
}
