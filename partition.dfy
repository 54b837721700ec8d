/** Splitting the strategy list of one test run into the chunks handed to the
    worker threads (src/main.rs, test_handler). */
module Partition {

  /** Number of worker threads a test run is split across. */
  const WORKERS: nat := 8

  /** The contiguous slice [start, start + len) of the strategy list given to one worker. */
  datatype Chunk = Chunk(start: nat, len: nat)

  function End(c: Chunk): nat { c.start + c.len }

  /** ceil(n / WORKERS), computed as the source does. */
  function ChunkSize(n: nat): (cs: nat)
    ensures WORKERS * cs >= n
    ensures n > 0 ==> cs >= 1
    ensures WORKERS * (cs - 1) < n
  {
    (n + WORKERS - 1) / WORKERS
  }

  function Min(a: nat, b: nat): nat { if a <= b then a else b }

  /** Reference definition: from worker i on, whose range starts at
      `start` (that is, i * cs), each worker owns [start, min(start + cs, n))
      until the range is empty or the workers run out. */
  function ChunksFrom(n: nat, cs: nat, i: nat, start: nat): seq<Chunk>
    requires i <= WORKERS
    decreases WORKERS - i
  {
    if i == WORKERS || start >= n then []
    else [Chunk(start, Min(cs, n - start))] + ChunksFrom(n, cs, i + 1, start + cs)
  }

  /** The chunks a run over `n` strategies spawns, in worker order. */
  function Plan(n: nat): seq<Chunk>
  {
    ChunksFrom(n, ChunkSize(n), 0, 0)
  }

  /** `chunks` are non-empty, contiguous, in increasing order, and exactly
      tile the index range [from, to). */
  ghost predicate Tiles(chunks: seq<Chunk>, from: nat, to: nat)
    decreases |chunks|
  {
    if chunks == [] then from == to
    else chunks[0].start == from && chunks[0].len >= 1 && Tiles(chunks[1..], End(chunks[0]), to)
  }

  function SumLens(chunks: seq<Chunk>): nat
  {
    if chunks == [] then 0 else chunks[0].len + SumLens(chunks[1..])
  }

  /** i * cs, by repeated addition: where worker i's range starts. */
  function Offset(i: nat, cs: nat): nat
  {
    if i == 0 then 0 else Offset(i - 1, cs) + cs
  }

  /** Worker i + 1 starts chunk_size items after worker i. */
  lemma NextOffset(cs: nat, i: nat)
    ensures Offset(i + 1, cs) == Offset(i, cs) + cs
  {
  }

  /** Offset is the product `i * chunk_size` the source computes. */
  lemma {:induction false} OffsetIsProduct(i: nat, cs: nat)
    ensures Offset(i, cs) == i * cs
  {
    if i > 0 {
      OffsetIsProduct(i - 1, cs);
    }
  }

  /** The last worker's range ends at WORKERS * chunk_size. */
  lemma LastWorker(cs: nat, i: nat)
    requires i == WORKERS - 1
    ensures Offset(i, cs) + cs == WORKERS * cs
  {
    OffsetIsProduct(i, cs);
  }

  /** The partition loop of test_handler: returns the (start, num_elements)
      pairs of the workers it spawns, with the same branches and early breaks. */
  method SplitWork(n: nat) returns (chunks: seq<Chunk>)
    ensures chunks == Plan(n)
  {
    chunks := SpawnChunks(n, ChunkSize(n));
  }

  /** The loop of test_handler, for a chunk size that leaves no item beyond
      the last worker. Worker i's start `i * chunk_size` is computed as
      Offset(i, chunkSize), equal to it by OffsetIsProduct. */
  method SpawnChunks(n: nat, chunkSize: nat) returns (chunks: seq<Chunk>)
    requires WORKERS * chunkSize >= n
    ensures chunks == ChunksFrom(n, chunkSize, 0, 0)
  {
    chunks := [];
    ghost var offset: nat := 0;
    for i := 0 to WORKERS
      invariant offset == Offset(i, chunkSize)
      invariant chunks + ChunksFrom(n, chunkSize, i, offset) == ChunksFrom(n, chunkSize, 0, 0)
    {
      var start := Offset(i, chunkSize);
      var numElements: nat;
      if i < WORKERS - 1 {
        numElements := chunkSize;
      } else if start <= n {
        LastWorker(chunkSize, i);
        numElements := n - start;
      } else {
        NoMoreChunks(chunks, n, chunkSize, i, start, ChunksFrom(n, chunkSize, 0, 0));
        break;
      }
      if start >= n {
        NoMoreChunks(chunks, n, chunkSize, i, start, ChunksFrom(n, chunkSize, 0, 0));
        break;
      } else if start + numElements >= n {
        numElements := n - start;
      }
      ghost var before := chunks;
      chunks := chunks + [Chunk(start, numElements)];
      offset := start + chunkSize;
      SpawnStep(before, chunks, n, chunkSize, i, start, numElements, ChunksFrom(n, chunkSize, 0, 0));
      NextOffset(chunkSize, i);
    }
  }

  /** Spawning worker i, whose range starts before n, with the reference
      chunk advances the plan by one worker. */
  lemma SpawnStep(before: seq<Chunk>, after: seq<Chunk>, n: nat, cs: nat, i: nat, start: nat, numElements: nat, plan: seq<Chunk>)
    requires i < WORKERS && start < n && numElements == Min(cs, n - start)
    requires before + ChunksFrom(n, cs, i, start) == plan
    requires after == before + [Chunk(start, numElements)]
    ensures after + ChunksFrom(n, cs, i + 1, start + cs) == plan
  {
    assert ChunksFrom(n, cs, i, start) == [Chunk(start, numElements)] + ChunksFrom(n, cs, i + 1, start + cs);
  }

  /** A worker whose range starts at or past n ends the plan. */
  lemma NoMoreChunks(chunks: seq<Chunk>, n: nat, cs: nat, i: nat, start: nat, plan: seq<Chunk>)
    requires i <= WORKERS && start >= n
    requires chunks + ChunksFrom(n, cs, i, start) == plan
    ensures chunks == plan
  {
    assert chunks + [] == chunks;
  }

  /** Workers i .. WORKERS - 1, the first starting at `start`, have room for
      everything from `start` to n; their chunks then tile [start, n). */
  lemma {:induction false} ChunksFromTiles(n: nat, cs: nat, i: nat, start: nat)
    requires i <= WORKERS && start <= n
    requires start + (WORKERS - i) * cs >= n
    ensures Tiles(ChunksFrom(n, cs, i, start), start, n)
    decreases WORKERS - i
  {
    if i == WORKERS || start >= n {
    } else if cs <= n - start {
      assert (WORKERS - i) * cs == (WORKERS - (i + 1)) * cs + cs;
      ChunksFromTiles(n, cs, i + 1, start + cs);
    } else {
      assert ChunksFrom(n, cs, i + 1, start + cs) == [];
    }
  }

  /** The spawned chunks tile [0, n): they start at 0, are non-empty,
      each starts where the previous one ends, and the last ends at n. */
  lemma PlanTiles(n: nat)
    ensures Tiles(Plan(n), 0, n)
  {
    ChunksFromTiles(n, ChunkSize(n), 0, 0);
  }

  lemma {:induction false} TilesFacts(chunks: seq<Chunk>, from: nat, to: nat)
    requires Tiles(chunks, from, to)
    ensures from <= to
    ensures SumLens(chunks) == to - from
    ensures forall k :: 0 <= k < |chunks| ==> from <= chunks[k].start && End(chunks[k]) <= to && chunks[k].len >= 1
    ensures forall k :: 0 <= k < |chunks| - 1 ==> chunks[k + 1].start == End(chunks[k])
    ensures chunks != [] ==> chunks[0].start == from && End(chunks[|chunks| - 1]) == to
    decreases |chunks|
  {
    if chunks != [] {
      TilesFacts(chunks[1..], End(chunks[0]), to);
      assert forall k :: 1 <= k < |chunks| ==> chunks[k] == chunks[1..][k - 1];
    }
  }

  /** Contiguity implies that earlier chunks end before later ones start. */
  lemma {:induction false} TilesDisjoint(chunks: seq<Chunk>, from: nat, to: nat, k: nat, l: nat)
    requires Tiles(chunks, from, to)
    requires k < l < |chunks|
    ensures End(chunks[k]) <= chunks[l].start
    decreases l - k
  {
    TilesFacts(chunks, from, to);
    if k + 1 < l {
      TilesDisjoint(chunks, from, to, k + 1, l);
    }
  }

  /** Exact cover, contiguity, pairwise disjointness and bounds of the
      spawned chunks: every slice taken at src/main.rs:155 is in range. */
  lemma PlanCovers(n: nat)
    ensures SumLens(Plan(n)) == n
    ensures Plan(n) != [] ==> Plan(n)[0].start == 0 && End(Plan(n)[|Plan(n)| - 1]) == n
    ensures forall k :: 0 <= k < |Plan(n)| ==> Plan(n)[k].len >= 1 && End(Plan(n)[k]) <= n
    ensures forall k :: 0 <= k < |Plan(n)| - 1 ==> Plan(n)[k + 1].start == End(Plan(n)[k])
    ensures forall k, l :: 0 <= k < l < |Plan(n)| ==> End(Plan(n)[k]) <= Plan(n)[l].start
  {
    PlanTiles(n);
    TilesFacts(Plan(n), 0, n);
    forall k, l | 0 <= k < l < |Plan(n)|
      ensures End(Plan(n)[k]) <= Plan(n)[l].start
    {
      TilesDisjoint(Plan(n), 0, n, k, l);
    }
  }

  lemma {:induction false} ChunksFromShape(n: nat, cs: nat, i: nat, start: nat)
    requires i <= WORKERS
    ensures |ChunksFrom(n, cs, i, start)| <= WORKERS - i
    ensures forall k :: 0 <= k < |ChunksFrom(n, cs, i, start)| ==>
              ChunksFrom(n, cs, i, start)[k].start == start + k * cs && ChunksFrom(n, cs, i, start)[k].len <= cs
    ensures forall k :: 0 <= k < |ChunksFrom(n, cs, i, start)| - 1 ==> ChunksFrom(n, cs, i, start)[k].len == cs
    decreases WORKERS - i
  {
    if i < WORKERS && start < n {
      ChunksFromShape(n, cs, i + 1, start + cs);
      var rest := ChunksFrom(n, cs, i + 1, start + cs);
      var all := ChunksFrom(n, cs, i, start);
      assert all == [Chunk(start, Min(cs, n - start))] + rest;
      if rest != [] {
        assert start + cs < n;
      }
      forall k | 1 <= k < |all|
        ensures all[k].start == start + k * cs
      {
        assert all[k] == rest[k - 1];
        assert k * cs == (k - 1) * cs + cs;
      }
    }
  }

  /** At most WORKERS chunks; chunk k starts at k * chunk_size; every chunk
      but the last has exactly chunk_size items and the last between 1 and
      chunk_size. */
  lemma PlanShape(n: nat)
    ensures |Plan(n)| <= WORKERS
    ensures forall k :: 0 <= k < |Plan(n)| ==> Plan(n)[k].start == k * ChunkSize(n)
    ensures forall k :: 0 <= k < |Plan(n)| - 1 ==> Plan(n)[k].len == ChunkSize(n)
    ensures Plan(n) != [] ==> 1 <= Plan(n)[|Plan(n)| - 1].len <= ChunkSize(n)
  {
    ChunksFromShape(n, ChunkSize(n), 0, 0);
    PlanCovers(n);
  }

  /** With no strategies no worker is spawned; with fewer strategies than
      workers, exactly one worker per strategy is spawned. */
  lemma SmallPlans(n: nat)
    requires n < WORKERS
    ensures |Plan(n)| == n
    ensures forall k :: 0 <= k < n ==> Plan(n)[k] == Chunk(k, 1)
  {
    PlanShape(n);
    PlanCovers(n);
    if n > 0 {
      assert ChunkSize(n) == 1;
    }
  }

  /** The example of 37 strategies: seven chunks of 5 and one of 2. */
  lemma ThirtySevenStrategies()
    ensures Plan(37) == [Chunk(0, 5), Chunk(5, 5), Chunk(10, 5), Chunk(15, 5),
                         Chunk(20, 5), Chunk(25, 5), Chunk(30, 5), Chunk(35, 2)]
  {
    assert ChunkSize(37) == 5;
  }
}
