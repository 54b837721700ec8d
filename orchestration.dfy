/** Running the backtester over every chunk of a test run and merging the
    per-worker result lists (src/main.rs, test_handler). The backtester of the
    external strategy_backtester crate is the parameter `evaluate`: one result
    per strategy. */
module Orchestration {
  import opened Partition

  /** The strategies a worker receives: the `len` items from `start` on
      (src/main.rs:155). */
  function Slice<S>(strategies: seq<S>, c: Chunk): (chunk: seq<S>)
    requires End(c) <= |strategies|
    ensures |chunk| == c.len
    ensures forall k :: 0 <= k < c.len ==> chunk[k] == strategies[c.start + k]
  {
    strategies[c.start..][..c.len]
  }

  /** The results one worker thread returns for its chunk. */
  function BacktestChunk<S, R>(evaluate: S -> R, chunk: seq<S>): (rs: seq<R>)
    ensures |rs| == |chunk|
    ensures forall k :: 0 <= k < |chunk| ==> rs[k] == evaluate(chunk[k])
  {
    seq(|chunk|, k requires 0 <= k < |chunk| => evaluate(chunk[k]))
  }

  /** Concatenation of a list of lists, in order. */
  function Flatten<T>(xss: seq<seq<T>>): seq<T>
  {
    if xss == [] then [] else xss[0] + Flatten(xss[1..])
  }

  function SumLengths<T>(xss: seq<seq<T>>): nat
  {
    if xss == [] then 0 else |xss[0]| + SumLengths(xss[1..])
  }

  lemma {:induction false} FlattenSnoc<T>(xss: seq<seq<T>>, xs: seq<T>)
    ensures Flatten(xss + [xs]) == Flatten(xss) + xs
    decreases |xss|
  {
    if xss != [] {
      assert (xss + [xs])[1..] == xss[1..] + [xs];
      FlattenSnoc(xss[1..], xs);
    }
  }

  /** The merged list is as long as all per-worker lists together. */
  lemma {:induction false} FlattenLength<T>(xss: seq<seq<T>>)
    ensures |Flatten(xss)| == SumLengths(xss)
    decreases |xss|
  {
    if xss != [] {
      FlattenLength(xss[1..]);
    }
  }

  /** The join loop: appends each worker's results in spawn order. */
  method MergeResults<R>(threadResults: seq<seq<R>>) returns (results: seq<R>)
    ensures results == Flatten(threadResults)
    ensures |results| == SumLengths(threadResults)
  {
    results := [];
    for w := 0 to |threadResults|
      invariant results == Flatten(threadResults[..w])
    {
      FlattenSnoc(threadResults[..w], threadResults[w]);
      assert threadResults[..w + 1] == threadResults[..w] + [threadResults[w]];
      results := results + threadResults[w];
    }
    assert threadResults[..|threadResults|] == threadResults;
    FlattenLength(threadResults);
  }

  /** Every chunk lies inside a list of `n` items. */
  ghost predicate InBounds(chunks: seq<Chunk>, n: nat)
  {
    forall k :: 0 <= k < |chunks| ==> End(chunks[k]) <= n
  }

  /** The chunk each worker receives, in spawn order. */
  function Slices<S>(strategies: seq<S>, chunks: seq<Chunk>): (slices: seq<seq<S>>)
    requires InBounds(chunks, |strategies|)
    ensures |slices| == |chunks|
    ensures forall k :: 0 <= k < |chunks| ==> slices[k] == Slice(strategies, chunks[k])
  {
    seq(|chunks|, k requires 0 <= k < |chunks| => Slice(strategies, chunks[k]))
  }

  /** Each worker's result list, for the list of chunks `slices`. */
  function BacktestEach<S, R>(evaluate: S -> R, slices: seq<seq<S>>): (perWorker: seq<seq<R>>)
    ensures |perWorker| == |slices|
    ensures forall k :: 0 <= k < |slices| ==> perWorker[k] == BacktestChunk(evaluate, slices[k])
  {
    seq(|slices|, k requires 0 <= k < |slices| => BacktestChunk(evaluate, slices[k]))
  }

  /** The per-worker result lists, in spawn order. */
  function Dispatch<S, R>(evaluate: S -> R, strategies: seq<S>, chunks: seq<Chunk>): (perWorker: seq<seq<R>>)
    requires InBounds(chunks, |strategies|)
    ensures |perWorker| == |chunks|
    ensures forall k :: 0 <= k < |chunks| ==>
              |perWorker[k]| == chunks[k].len &&
              forall m :: 0 <= m < chunks[k].len ==> perWorker[k][m] == evaluate(strategies[chunks[k].start + m])
  {
    BacktestEach(evaluate, Slices(strategies, chunks))
  }

  lemma BacktestAppend<S, R>(evaluate: S -> R, a: seq<S>, b: seq<S>)
    ensures BacktestChunk(evaluate, a + b) == BacktestChunk(evaluate, a) + BacktestChunk(evaluate, b)
  {
  }

  /** Backtesting the chunks one by one and merging the results is
      backtesting their concatenation. */
  lemma {:induction false} BacktestFlatten<S, R>(evaluate: S -> R, slices: seq<seq<S>>)
    ensures Flatten(BacktestEach(evaluate, slices)) == BacktestChunk(evaluate, Flatten(slices))
    decreases |slices|
  {
    if slices != [] {
      BacktestFlatten(evaluate, slices[1..]);
      assert BacktestEach(evaluate, slices)[1..] == BacktestEach(evaluate, slices[1..]);
      BacktestAppend(evaluate, slices[0], Flatten(slices[1..]));
    }
  }

  lemma TilesInBounds(chunks: seq<Chunk>, from: nat, to: nat, n: nat)
    requires Tiles(chunks, from, to) && to <= n
    ensures from <= to && InBounds(chunks, n)
  {
    TilesFacts(chunks, from, to);
  }

  /** Chunks that tile [from, to) reassemble, slice by slice, into
      strategies[from..to]. */
  lemma {:induction false} SlicesReassemble<S>(strategies: seq<S>, chunks: seq<Chunk>, from: nat, to: nat)
    requires Tiles(chunks, from, to) && from <= to <= |strategies|
    requires InBounds(chunks, |strategies|)
    ensures Flatten(Slices(strategies, chunks)) == strategies[from..to]
    decreases |chunks|
  {
    TilesFacts(chunks, from, to);
    if chunks != [] {
      var mid := End(chunks[0]);
      TilesInBounds(chunks[1..], mid, to, |strategies|);
      SlicesReassemble(strategies, chunks[1..], mid, to);
      assert Slices(strategies, chunks)[1..] == Slices(strategies, chunks[1..]);
      assert strategies[from..to] == strategies[from..mid] + strategies[mid..to];
    }
  }

  /** Concatenating the chunks of the plan in worker order reproduces the
      strategy list. */
  lemma PlanReassembles<S>(strategies: seq<S>)
    ensures InBounds(Plan(|strategies|), |strategies|)
    ensures Flatten(Slices(strategies, Plan(|strategies|))) == strategies
  {
    PlanTiles(|strategies|);
    TilesInBounds(Plan(|strategies|), 0, |strategies|, |strategies|);
    SlicesReassemble(strategies, Plan(|strategies|), 0, |strategies|);
    assert strategies[0..|strategies|] == strategies;
  }

  /** Results of chunks that tile [from, to), merged, are the results of
      strategies[from..to] in order. */
  lemma DispatchMerges<S, R>(evaluate: S -> R, strategies: seq<S>, chunks: seq<Chunk>, from: nat, to: nat)
    requires Tiles(chunks, from, to) && from <= to <= |strategies|
    requires InBounds(chunks, |strategies|)
    ensures Flatten(Dispatch(evaluate, strategies, chunks)) == BacktestChunk(evaluate, strategies[from..to])
  {
    SlicesReassemble(strategies, chunks, from, to);
    BacktestFlatten(evaluate, Slices(strategies, chunks));
  }

  /** A whole test run: partition, one backtest per chunk, merge in join
      order. Every strategy gets exactly one result, at its own position. */
  method RunBacktests<S, R>(evaluate: S -> R, strategies: seq<S>) returns (results: seq<R>)
    ensures |results| == |strategies|
    ensures forall k :: 0 <= k < |strategies| ==> results[k] == evaluate(strategies[k])
  {
    var chunks := SplitWork(|strategies|);
    PlanTiles(|strategies|);
    TilesInBounds(chunks, 0, |strategies|, |strategies|);
    DispatchMerges(evaluate, strategies, chunks, 0, |strategies|);
    var threadResults := Dispatch(evaluate, strategies, chunks);
    results := MergeResults(threadResults);
    assert strategies[0..|strategies|] == strategies;
  }
}
