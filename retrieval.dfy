/** The kline retrieval loop of a download job (src/main.rs,
    retreive_test_data) and the server time it starts from (kline_dl_manager).
    Times are u64 milliseconds; arithmetic that leaves the u64 range panics,
    as Rust's checked arithmetic does. The Binance calls are oracles. */
module Retrieval {
  import opened Wrappers

  const U64_MAX: nat := 0xFFFF_FFFF_FFFF_FFFF
  type U64 = x: nat | x <= U64_MAX

  const MINUTE_MS: nat := 60 * 1000
  /** Width of one requested window: 1000 minutes. */
  const WINDOW_MS: nat := 60 * 1000 * 1000
  /** The countdown `i` starts here; it bounds the number of batches kept. */
  const MAX_BATCHES: nat := 100
  /** How far before the server time the first window starts. */
  const LOOKBACK_MS: nat := MAX_BATCHES * WINDOW_MS

  /** The server time used for a job: the answer of the time lookup, or 0
      when the lookup failed. */
  function ServerTimeOrZero(lookup: Option<U64>): (t: U64)
    ensures lookup.Some? ==> t == lookup.value
    ensures lookup.None? ==> t == 0
  {
    match lookup
    case Some(t) => t
    case None => 0
  }

  /** [startTime, endTime] passed to one get_klines call. */
  datatype Window = Window(startTime: nat, endTime: nat)

  /** What one get_klines call gives back: a batch of klines, another kind of
      summary (nothing is appended), or an error (the loop stops). */
  datatype FetchOutcome<K> = AllKlines(batch: seq<K>) | OtherSummary | FetchFailed

  /** The arithmetic that aborts the loop: the first window's subtraction
      below 0, or an addition above U64_MAX. */
  datatype Panic = SubtractOverflow | AddOverflow

  datatype Retrieved<K> = Retrieved(requests: seq<Window>, klines: seq<K>, batches: nat)

  datatype Outcome<K> = Completed(retrieved: Retrieved<K>) | Panicked(panic: Panic)

  /** The answer to the k-th get_klines call; calls past the oracle fail. */
  function FetchAt<K>(fetch: seq<FetchOutcome<K>>, k: nat): FetchOutcome<K>
  {
    if k < |fetch| then fetch[k] else FetchFailed
  }

  /** The first window: [server_time - 100 * WINDOW_MS, server_time - 99 * WINDOW_MS]. */
  function FirstWindow(serverTime: nat): (w: Window)
    requires serverTime >= LOOKBACK_MS
    ensures w.startTime + MAX_BATCHES * WINDOW_MS == serverTime
    ensures w.endTime + (MAX_BATCHES - 1) * WINDOW_MS == serverTime
    ensures w.endTime - w.startTime == WINDOW_MS
  {
    Window(serverTime - LOOKBACK_MS, serverTime - LOOKBACK_MS + WINDOW_MS)
  }

  /** The window after `w`: it starts one minute after `w` ends and lasts WINDOW_MS. */
  function NextWindow(w: Window): (next: Window)
    ensures next.startTime == w.endTime + MINUTE_MS && next.startTime > w.endTime
    ensures next.endTime - next.startTime == WINDOW_MS
  {
    Window(w.endTime + MINUTE_MS, w.endTime + MINUTE_MS + WINDOW_MS)
  }

  /** The k-th window the loop requests. */
  function WindowAt(serverTime: nat, k: nat): Window
    requires serverTime >= LOOKBACK_MS
  {
    if k == 0 then FirstWindow(serverTime) else NextWindow(WindowAt(serverTime, k - 1))
  }

  /** Distance between the starts of two consecutive windows. */
  const STRIDE_MS: nat := WINDOW_MS + MINUTE_MS

  /** Closed form of the k-th window. */
  lemma {:induction false} WindowAtClosedForm(serverTime: nat, k: nat)
    requires serverTime >= LOOKBACK_MS
    ensures WindowAt(serverTime, k).startTime == serverTime - LOOKBACK_MS + k * STRIDE_MS
    ensures WindowAt(serverTime, k).endTime == WindowAt(serverTime, k).startTime + WINDOW_MS
  {
    if k > 0 {
      WindowAtClosedForm(serverTime, k - 1);
      assert k * STRIDE_MS == (k - 1) * STRIDE_MS + STRIDE_MS;
    }
  }

  /** Later windows end later. */
  lemma {:induction false} WindowEndsGrow(serverTime: nat, k: nat, m: nat)
    requires serverTime >= LOOKBACK_MS && k <= m
    ensures WindowAt(serverTime, k).endTime <= WindowAt(serverTime, m).endTime
    ensures k < m ==> WindowAt(serverTime, k).endTime < WindowAt(serverTime, m).endTime
    decreases m - k
  {
    if k < m {
      WindowEndsGrow(serverTime, k, m - 1);
    }
  }

  /** Number of batches kept when calls from the k-th on are still to be
      examined: the loop keeps a batch per successful call and stops at the
      first failed call or after MAX_BATCHES batches. */
  function BatchesFrom<K>(fetch: seq<FetchOutcome<K>>, k: nat): (b: nat)
    requires k <= MAX_BATCHES
    ensures k <= b <= MAX_BATCHES
    ensures forall m :: k <= m < b ==> !FetchAt(fetch, m).FetchFailed?
    ensures b < MAX_BATCHES ==> FetchAt(fetch, b).FetchFailed?
    decreases MAX_BATCHES - k
  {
    if k == MAX_BATCHES || FetchAt(fetch, k).FetchFailed? then k
    else BatchesFrom(fetch, k + 1)
  }

  function Batches<K>(fetch: seq<FetchOutcome<K>>): nat
  {
    BatchesFrom(fetch, 0)
  }

  /** The klines of the first `b` calls, in call order. */
  function Collected<K>(fetch: seq<FetchOutcome<K>>, b: nat): seq<K>
  {
    if b == 0 then []
    else Collected(fetch, b - 1) + (if FetchAt(fetch, b - 1).AllKlines? then FetchAt(fetch, b - 1).batch else [])
  }

  /** The first `n` windows, in request order. */
  function Requested(serverTime: nat, n: nat): seq<Window>
    requires serverTime >= LOOKBACK_MS
  {
    if n == 0 then [] else Requested(serverTime, n - 1) + [WindowAt(serverTime, n - 1)]
  }

  lemma {:induction false} RequestedAt(serverTime: nat, n: nat)
    requires serverTime >= LOOKBACK_MS
    ensures |Requested(serverTime, n)| == n
    ensures forall k :: 0 <= k < n ==> Requested(serverTime, n)[k] == WindowAt(serverTime, k)
  {
    if n > 0 {
      RequestedAt(serverTime, n - 1);
    }
  }

  /** What retreive_test_data does for a server time and the answers of the
      market-data service. Windows 0 .. b are computed when b batches are
      kept, so the last of them decides whether an addition overflowed. */
  function RetrieveSpec<K>(serverTime: U64, fetch: seq<FetchOutcome<K>>): (r: Outcome<K>)
    ensures r == Panicked(SubtractOverflow) <==> serverTime < LOOKBACK_MS
  {
    if serverTime < LOOKBACK_MS then Panicked(SubtractOverflow)
    else
      var b := Batches(fetch);
      if WindowAt(serverTime, b).endTime > U64_MAX then Panicked(AddOverflow)
      else Completed(Retrieved(Requested(serverTime, b + 1), Collected(fetch, b), b))
  }

  /** A completed retrieval makes one call more than the batches it keeps,
      at most MAX_BATCHES batches; every window lasts WINDOW_MS and stays in
      the u64 range; each next window starts one minute after the previous
      end; and the loop stopped at the first failed call or after
      MAX_BATCHES batches. */
  lemma RetrievalShape<K>(serverTime: U64, fetch: seq<FetchOutcome<K>>)
    requires RetrieveSpec(serverTime, fetch).Completed?
    ensures var got := RetrieveSpec(serverTime, fetch).retrieved;
              && got.batches <= MAX_BATCHES
              && |got.requests| == got.batches + 1
              && got.requests[0] == FirstWindow(serverTime)
              && (forall k :: 0 <= k < |got.requests| ==>
                    got.requests[k].endTime == got.requests[k].startTime + WINDOW_MS &&
                    got.requests[k].endTime <= U64_MAX)
              && (forall k :: 0 <= k < |got.requests| - 1 ==>
                    got.requests[k + 1].startTime == got.requests[k].endTime + MINUTE_MS)
              && (forall k :: 0 <= k < got.batches ==> !FetchAt(fetch, k).FetchFailed?)
              && (got.batches < MAX_BATCHES ==> FetchAt(fetch, got.batches).FetchFailed?)
  {
    var b := Batches(fetch);
    var ws := Requested(serverTime, b + 1);
    RequestedAt(serverTime, b + 1);
    forall k | 0 <= k < |ws|
      ensures ws[k].endTime == ws[k].startTime + WINDOW_MS && ws[k].endTime <= U64_MAX
    {
      WindowEndsGrow(serverTime, k, b);
      WindowAtClosedForm(serverTime, k);
    }
  }

  /** An addition that overflows while window j + 1 is computed, after the
      j-th call succeeded, is the overflow RetrieveSpec reports. */
  lemma OverflowAfterSuccess<K>(serverTime: U64, fetch: seq<FetchOutcome<K>>, j: nat)
    requires serverTime >= LOOKBACK_MS
    requires j < MAX_BATCHES && j <= Batches(fetch) && !FetchAt(fetch, j).FetchFailed?
    requires WindowAt(serverTime, j + 1).endTime > U64_MAX
    ensures RetrieveSpec(serverTime, fetch) == Panicked(AddOverflow)
  {
    WindowEndsGrow(serverTime, j + 1, Batches(fetch));
  }

  /** A loop that stops at call j with every window so far in range has
      kept Batches(fetch) batches. */
  lemma CompletedAt<K>(serverTime: U64, fetch: seq<FetchOutcome<K>>, j: nat, requests: seq<Window>)
    requires serverTime >= LOOKBACK_MS
    requires j <= Batches(fetch) && (j == MAX_BATCHES || FetchAt(fetch, j).FetchFailed?)
    requires WindowAt(serverTime, j).endTime <= U64_MAX
    requires requests == Requested(serverTime, j + 1)
    ensures RetrieveSpec(serverTime, fetch) == Completed(Retrieved(requests, Collected(fetch, j), j))
  {
    assert j == Batches(fetch);
  }

  /** A successful call before the countdown ends means one more batch is kept. */
  lemma KeepsGoing<K>(fetch: seq<FetchOutcome<K>>, j: nat)
    requires j < MAX_BATCHES && j <= Batches(fetch) && !FetchAt(fetch, j).FetchFailed?
    ensures j + 1 <= Batches(fetch)
  {
  }

  /** The retrieval loop of retreive_test_data with its countdown `i`, batch
      counter `j` and window bounds; the k-th get_klines call gets fetch[k].
      The file written at the end is not modelled. */
  method RetrieveTestData<K>(serverTime: U64, fetch: seq<FetchOutcome<K>>) returns (outcome: Outcome<K>)
    ensures outcome == RetrieveSpec(serverTime, fetch)
  {
    var i: nat := MAX_BATCHES;
    var j: nat := 0;
    if serverTime < i * WINDOW_MS {
      return Panicked(SubtractOverflow);
    }
    var startTime: nat := serverTime - i * WINDOW_MS;
    var endTime: nat := serverTime - (i - 1) * WINDOW_MS;
    assert Window(startTime, endTime) == FirstWindow(serverTime);
    var klines: seq<K> := [];
    var requests: seq<Window> := [];
    while true
      invariant serverTime >= LOOKBACK_MS
      invariant i + j == MAX_BATCHES
      invariant j <= Batches(fetch)
      invariant Window(startTime, endTime) == WindowAt(serverTime, j)
      invariant endTime <= U64_MAX
      invariant requests == Requested(serverTime, j)
      invariant klines == Collected(fetch, j)
      decreases i
    {
      requests := requests + [Window(startTime, endTime)];
      var reply := FetchAt(fetch, j);
      if reply.FetchFailed? {
        CompletedAt(serverTime, fetch, j, requests);
        break;
      }
      if i == 0 {
        CompletedAt(serverTime, fetch, j, requests);
        break;
      }
      KeepsGoing(fetch, j);
      if reply.AllKlines? {
        klines := klines + reply.batch;
      }
      if endTime + MINUTE_MS > U64_MAX {
        OverflowAfterSuccess(serverTime, fetch, j);
        return Panicked(AddOverflow);
      }
      startTime := endTime + MINUTE_MS;
      if startTime + WINDOW_MS > U64_MAX {
        OverflowAfterSuccess(serverTime, fetch, j);
        return Panicked(AddOverflow);
      }
      endTime := startTime + WINDOW_MS;
      i := i - 1;
      j := j + 1;
    }
    outcome := Completed(Retrieved(requests, klines, j));
  }

  /** When the time lookup fails the fallback time 0 makes the very first
      subtraction underflow, whatever the market-data service answers. */
  lemma FallbackTimeUnderflows<K>(fetch: seq<FetchOutcome<K>>)
    ensures RetrieveSpec(ServerTimeOrZero(None), fetch) == Panicked(SubtractOverflow)
  {
  }

  /** For any real server time far enough from both ends of the u64 range the
      loop completes, keeping the batches of all successful calls up to the
      first failure, at most MAX_BATCHES of them. */
  lemma {:induction false} RealisticTimesComplete<K>(serverTime: U64, fetch: seq<FetchOutcome<K>>)
    requires LOOKBACK_MS <= serverTime <= U64_MAX - 2 * WINDOW_MS
    ensures RetrieveSpec(serverTime, fetch).Completed?
    ensures RetrieveSpec(serverTime, fetch).retrieved.klines == Collected(fetch, Batches(fetch))
  {
    var b := Batches(fetch);
    WindowAtClosedForm(serverTime, b);
    assert b * STRIDE_MS <= MAX_BATCHES * STRIDE_MS;
  }

  /** The klines kept are the batches of the successful calls, concatenated
      in call order: their count is the sum of the batch sizes. */
  lemma {:induction false} CollectedLength<K>(fetch: seq<FetchOutcome<K>>, b: nat)
    ensures |Collected(fetch, b)| == BatchSizes(fetch, b)
    decreases b
  {
    if b > 0 {
      CollectedLength(fetch, b - 1);
    }
  }

  function BatchSizes<K>(fetch: seq<FetchOutcome<K>>, b: nat): nat
  {
    if b == 0 then 0
    else BatchSizes(fetch, b - 1) + (if FetchAt(fetch, b - 1).AllKlines? then |FetchAt(fetch, b - 1).batch| else 0)
  }

  /** When every call succeeds the loop makes 101 calls and keeps 100
      batches: the answer to the last call is discarded. */
  lemma AllSucceedKeepsHundred<K>(serverTime: U64, fetch: seq<FetchOutcome<K>>)
    requires LOOKBACK_MS <= serverTime <= U64_MAX - 2 * WINDOW_MS
    requires forall k :: 0 <= k < |fetch| ==> !fetch[k].FetchFailed?
    requires |fetch| >= MAX_BATCHES + 1
    ensures RetrieveSpec(serverTime, fetch).Completed?
    ensures RetrieveSpec(serverTime, fetch).retrieved.batches == MAX_BATCHES
    ensures |RetrieveSpec(serverTime, fetch).retrieved.requests| == MAX_BATCHES + 1
    ensures RetrieveSpec(serverTime, fetch).retrieved.klines == Collected(fetch, MAX_BATCHES)
  {
    RealisticTimesComplete(serverTime, fetch);
    RetrievalShape(serverTime, fetch);
  }
}
