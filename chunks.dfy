/** Sequential batch processing that tolerates partial failure: the items are
    cut into consecutive chunks of a fixed size, one backend request is made
    per chunk, and a failed chunk is counted as wholly failed while the later
    chunks are still sent. The backend's answers are an input: `failures`
    maps the index of each chunk whose request failed to its error message. */
module Chunks {

  /** A failed chunk as reported: its index and the backend's message. */
  datatype ChunkError = ChunkError(index: nat, message: string)

  /** The items of the successful chunks, the items of the failed chunks
      and one error per failed chunk, each in chunk order. */
  datatype Tally<T> = Tally(succeeded: seq<T>, failedItems: seq<T>, errors: seq<ChunkError>)

  function Then<T>(a: Tally<T>, b: Tally<T>): Tally<T> {
    Tally(a.succeeded + b.succeeded, a.failedItems + b.failedItems, a.errors + b.errors)
  }

  function NumChunks(n: nat, size: nat): nat
    requires size > 0
  {
    (n + size - 1) / size
  }

  /** The outcome of sending `items` chunk by chunk, the first chunk having
      index `k`. */
  function Run<T>(items: seq<T>, size: nat, k: nat, failures: map<nat, string>): (t: Tally<T>)
    requires size > 0
    ensures |t.succeeded| + |t.failedItems| == |items|
    decreases |items|
  {
    if items == [] then Tally([], [], [])
    else
      var len := if |items| < size then |items| else size;
      var rest := Run(items[len..], size, k + 1, failures);
      assert items == items[..len] + items[len..];
      if k in failures then
        Tally(rest.succeeded, items[..len] + rest.failedItems, [ChunkError(k, failures[k])] + rest.errors)
      else
        Tally(items[..len] + rest.succeeded, rest.failedItems, rest.errors)
  }

  /** Without any failing request every item succeeds and nothing is
      reported. */
  lemma {:induction false} RunAllSucceed<T>(items: seq<T>, size: nat, k: nat, failures: map<nat, string>)
    requires size > 0
    requires forall j :: j in failures ==> j < k
    ensures Run(items, size, k, failures) == Tally(items, [], [])
    decreases |items|
  {
    if items != [] {
      var len := if |items| < size then |items| else size;
      RunAllSucceed(items[len..], size, k + 1, failures);
      assert items == items[..len] + items[len..];
    }
  }

  /** The first chunk's outcome followed by the rest's. */
  lemma RunUnfold<T>(items: seq<T>, size: nat, k: nat, failures: map<nat, string>, hi: nat)
    requires size > 0 && items != []
    requires hi == if |items| < size then |items| else size
    ensures Run(items, size, k, failures)
      == Then(ChunkTally(items[..hi], k, failures), Run(items[hi..], size, k + 1, failures))
  {
  }

  /** The position of the first item of the chunk `m` places after the
      first one, i.e. `m * size`. */
  function ChunkStart(m: nat, size: nat): nat {
    if m == 0 then 0 else ChunkStart(m - 1, size) + size
  }

  /** The expected tally when only the chunk starting at `lo` fails. */
  function OneFailureTally<T>(items: seq<T>, size: nat, lo: nat, j: nat, message: string): Tally<T>
    requires lo < |items|
  {
    var hi := if |items| < lo + size then |items| else lo + size;
    Tally(items[..lo] + items[hi..], items[lo..hi], [ChunkError(j, message)])
  }

  /** When exactly chunk `j` fails, exactly its items fail, every other item
      (before and after it) succeeds, and one error is reported; `lo` is the
      position of that chunk's first item. */
  lemma {:induction false} RunOneFailure<T>(items: seq<T>, size: nat, k: nat, j: nat, lo: nat, message: string)
    requires size > 0 && k <= j && lo == ChunkStart(j - k, size) && lo < |items|
    ensures Run(items, size, k, map[j := message]) == OneFailureTally(items, size, lo, j, message)
    decreases |items|
  {
    var f := map[j := message];
    if k == j {
      FirstChunkFails(items, size, k, message);
    } else {
      var rest := items[size..];
      var lo' := ChunkStart(j - (k + 1), size);
      assert lo == lo' + size;
      assert ChunkTally(items[..size], k, f) == Tally(items[..size], [], []);
      RunUnfold(items, size, k, f, size);
      RunOneFailure(rest, size, k + 1, j, lo', message);
      ShiftOneFailure(items, size, lo, j, message);
    }
  }

  /** The base case: the first chunk is the failing one. */
  lemma FirstChunkFails<T>(items: seq<T>, size: nat, k: nat, message: string)
    requires size > 0 && 0 < |items|
    ensures Run(items, size, k, map[k := message]) == OneFailureTally(items, size, 0, k, message)
  {
    var len := if |items| < size then |items| else size;
    var f := map[k := message];
    var rest := items[len..];
    assert Run(items, size, k, f) == Then(ChunkTally(items[..len], k, f), Run(rest, size, k + 1, f)) by {
      RunUnfold(items, size, k, f, len);
    }
    assert Run(rest, size, k + 1, f) == Tally(rest, [], []) by {
      RunAllSucceed(rest, size, k + 1, f);
    }
    assert items[..0] + items[len..] == items[len..];
  }

  /** The expected tally of a failure past the first chunk: the first chunk
      succeeds and the rest is as for the remaining items. */
  lemma ShiftOneFailure<T>(items: seq<T>, size: nat, lo: nat, j: nat, message: string)
    requires 0 < size <= lo < |items|
    ensures OneFailureTally(items, size, lo, j, message)
         == Then(Tally(items[..size], [], []), OneFailureTally(items[size..], size, lo - size, j, message))
  {
    var rest := items[size..];
    var lo' := lo - size;
    var hi' := if |rest| < lo' + size then |rest| else lo' + size;
    var hi := if |items| < lo + size then |items| else lo + size;
    assert hi == size + hi';
    assert items[..size] + (rest[..lo'] + rest[hi'..]) == items[..lo] + items[hi..];
    assert rest[lo'..hi'] == items[lo..hi];
  }

  lemma ThenAssoc<T>(a: Tally<T>, b: Tally<T>, c: Tally<T>)
    ensures Then(Then(a, b), c) == Then(a, Then(b, c))
  {
    assert (a.succeeded + b.succeeded) + c.succeeded == a.succeeded + (b.succeeded + c.succeeded);
    assert (a.failedItems + b.failedItems) + c.failedItems == a.failedItems + (b.failedItems + c.failedItems);
    assert (a.errors + b.errors) + c.errors == a.errors + (b.errors + c.errors);
  }

  /** The tally of one chunk on its own. */
  function ChunkTally<T>(batch: seq<T>, k: nat, failures: map<nat, string>): Tally<T> {
    if k in failures then Tally([], batch, [ChunkError(k, failures[k])]) else Tally(batch, [], [])
  }

  /** The run from position `i` is the chunk `items[i..hi]` followed by the
      run from `hi`. */
  lemma RunFrom<T>(items: seq<T>, size: nat, k: nat, failures: map<nat, string>, i: nat, hi: nat)
    requires size > 0 && i < |items|
    requires hi == if i + size <= |items| then i + size else |items|
    ensures Run(items[i..], size, k, failures)
         == Then(ChunkTally(items[i..hi], k, failures), Run(items[hi..], size, k + 1, failures))
  {
    var rest := items[i..];
    RunUnfold(rest, size, k, failures, hi - i);
    assert rest[hi - i..] == items[hi..];
    assert rest[..hi - i] == items[i..hi];
  }

  /** One turn of the loop below: sending the chunk `items[i..hi]` moves its
      tally from the pending part to the done part. */
  lemma SendStep<T>(items: seq<T>, size: nat, k: nat, failures: map<nat, string>,
                    i: nat, hi: nat, done: Tally<T>, whole: Tally<T>)
    requires size > 0 && i < |items|
    requires hi == if i + size <= |items| then i + size else |items|
    requires Then(done, Run(items[i..], size, k, failures)) == whole
    ensures Then(Then(done, ChunkTally(items[i..hi], k, failures)), Run(items[hi..], size, k + 1, failures)) == whole
  {
    RunFrom(items, size, k, failures, i, hi);
    ThenAssoc(done, ChunkTally(items[i..hi], k, failures), Run(items[hi..], size, k + 1, failures));
  }

  /** The accumulating loop of the bulk operations; `size` items per request. */
  method SendInChunks<T>(items: seq<T>, size: nat, failures: map<nat, string>)
      returns (successCount: nat, failCount: nat, errors: seq<ChunkError>)
    requires size > 0
    ensures successCount == |Run(items, size, 0, failures).succeeded|
    ensures failCount == |Run(items, size, 0, failures).failedItems|
    ensures errors == Run(items, size, 0, failures).errors
    ensures successCount + failCount == |items|
  {
    successCount, failCount, errors := 0, 0, [];
    ghost var done: Tally<T> := Tally([], [], []);
    ghost var whole := Run(items, size, 0, failures);
    var i, k := 0, 0;
    assert items[0..] == items;
    while i < |items|
      invariant 0 <= i <= |items|
      invariant successCount == |done.succeeded| && failCount == |done.failedItems|
      invariant errors == done.errors
      invariant Then(done, Run(items[i..], size, k, failures)) == whole
    {
      var hi := if i + size <= |items| then i + size else |items|;
      var batch := items[i..hi];
      SendStep(items, size, k, failures, i, hi, done, whole);
      if k in failures {
        failCount := failCount + |batch|;
        errors := errors + [ChunkError(k, failures[k])];
      } else {
        successCount := successCount + |batch|;
      }
      done := Then(done, ChunkTally(batch, k, failures));
      i, k := hi, k + 1;
    }
    assert items[i..] == [];
    assert Then(done, Tally([], [], [])) == done;
  }
}
