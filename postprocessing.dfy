/** What test_handler does with the merged results (src/main.rs): it keeps the
    "affined" results, those with more than 100 closed trades, in a separate
    vector, and empties the money evolution of each result in place before the
    second copy of each list is written. */
module PostProcessing {

  /** One StrategyResult of the strategy_backtester crate: the closed-trade
      count, the equity curve, and the remaining fields as `details`. */
  datatype StrategyResult<D> = StrategyResult(totalClosed: int, moneyEvolution: seq<real>, details: D)

  /** Results with more closed trades than this are affined. */
  const AFFINED_MIN_CLOSED: int := 100

  predicate IsAffined<D>(r: StrategyResult<D>)
  {
    r.totalClosed > AFFINED_MIN_CLOSED
  }

  /** The affined copy of the results (src/main.rs:176-180): the results
      with more than 100 closed trades, in their order. */
  function Affined<D>(results: seq<StrategyResult<D>>): (affined: seq<StrategyResult<D>>)
    ensures |affined| <= |results|
    ensures forall k :: 0 <= k < |affined| ==> IsAffined(affined[k])
    ensures multiset(affined) <= multiset(results)
  {
    if results == [] then []
    else
      assert results == [results[0]] + results[1..];
      (if IsAffined(results[0]) then [results[0]] else []) + Affined(results[1..])
  }

  /** `sub` is `s` with some elements dropped and the rest in their order. */
  ghost predicate IsSubsequence<T>(sub: seq<T>, s: seq<T>)
    decreases |s|
  {
    if s == [] then sub == []
    else (sub != [] && sub[0] == s[0] && IsSubsequence(sub[1..], s[1..])) || IsSubsequence(sub, s[1..])
  }

  /** The filter distributes over concatenation; with its value on a single
      element this determines it completely. */
  lemma {:induction false} AffinedAppend<D>(a: seq<StrategyResult<D>>, b: seq<StrategyResult<D>>)
    ensures Affined(a + b) == Affined(a) + Affined(b)
    decreases |a|
  {
    if a != [] {
      assert (a + b)[1..] == a[1..] + b;
      AffinedAppend(a[1..], b);
    } else {
      assert a + b == b;
    }
  }

  lemma AffinedSingleton<D>(r: StrategyResult<D>)
    ensures Affined([r]) == if IsAffined(r) then [r] else []
  {
    assert [r][1..] == [];
  }

  /** The affined results keep the order of the full results. */
  lemma {:induction false} AffinedIsSubsequence<D>(results: seq<StrategyResult<D>>)
    ensures IsSubsequence(Affined(results), results)
    decreases |results|
  {
    if results != [] {
      AffinedIsSubsequence(results[1..]);
      if IsAffined(results[0]) {
        assert Affined(results)[1..] == Affined(results[1..]);
      } else {
        assert Affined(results) == Affined(results[1..]);
      }
    }
  }

  /** A result is affined exactly when it is a result over the threshold. */
  lemma {:induction false} AffinedMembership<D>(results: seq<StrategyResult<D>>, r: StrategyResult<D>)
    ensures r in Affined(results) <==> r in results && IsAffined(r)
    decreases |results|
  {
    if results != [] {
      AffinedMembership(results[1..], r);
      assert results == [results[0]] + results[1..];
    }
  }

  /** A list whose every result is affined passes the filter unchanged. */
  lemma {:induction false} AffinedKeepsAllAffined<D>(results: seq<StrategyResult<D>>)
    requires forall k :: 0 <= k < |results| ==> IsAffined(results[k])
    ensures Affined(results) == results
    decreases |results|
  {
    if results != [] {
      AffinedKeepsAllAffined(results[1..]);
    }
  }

  /** Filtering the affined results again changes nothing. */
  lemma AffinedIdempotent<D>(results: seq<StrategyResult<D>>)
    ensures Affined(Affined(results)) == Affined(results)
  {
    AffinedKeepsAllAffined(Affined(results));
  }

  /** One result with its money evolution emptied (src/main.rs:191, 209). */
  function Cleared<D>(r: StrategyResult<D>): (c: StrategyResult<D>)
    ensures c.moneyEvolution == []
    ensures c.totalClosed == r.totalClosed && c.details == r.details
    ensures IsAffined(c) <==> IsAffined(r)
  {
    r.(moneyEvolution := [])
  }

  /** Every result with its money evolution emptied, every other field and the
      order kept. */
  function ClearedAll<D>(results: seq<StrategyResult<D>>): (cleared: seq<StrategyResult<D>>)
    ensures |cleared| == |results|
    ensures forall k :: 0 <= k < |results| ==>
              cleared[k].moneyEvolution == [] &&
              cleared[k].totalClosed == results[k].totalClosed &&
              cleared[k].details == results[k].details
  {
    seq(|results|, k requires 0 <= k < |results| => Cleared(results[k]))
  }

  /** Clearing never changes which results are affined: filtering then
      clearing equals clearing then filtering. */
  lemma {:induction false} ClearCommutesWithAffined<D>(results: seq<StrategyResult<D>>)
    ensures Affined(ClearedAll(results)) == ClearedAll(Affined(results))
    decreases |results|
  {
    if results != [] {
      ClearCommutesWithAffined(results[1..]);
      assert ClearedAll(results) == [Cleared(results[0])] + ClearedAll(results[1..]);
      assert ClearedAll(results)[1..] == ClearedAll(results[1..]);
      if IsAffined(results[0]) {
        assert ClearedAll(Affined(results)) == [Cleared(results[0])] + ClearedAll(Affined(results[1..]));
      }
    }
  }

  /** Empties the money evolution of every result of the vector in place,
      one element after the other (src/main.rs:191, 207-209). */
  method ClearMoneyEvolution<D>(a: array<StrategyResult<D>>)
    modifies a
    ensures a[..] == ClearedAll(old(a[..]))
  {
    for k := 0 to a.Length
      invariant a[..k] == ClearedAll(old(a[..]))[..k]
      invariant a[k..] == old(a[..])[k..]
    {
      assert a[k] == old(a[..])[k];
      a[k] := Cleared(a[k]);
      assert a[..k + 1] == a[..k] + [a[k]];
    }
  }

  /** Contents of the four result files one test run writes, in the order
      they are written. */
  datatype ResultFiles<D> = ResultFiles(
    fullWithEvolution: seq<StrategyResult<D>>,
    full: seq<StrategyResult<D>>,
    affinedWithEvolution: seq<StrategyResult<D>>,
    affined: seq<StrategyResult<D>>)

  /** The post-processing of test_handler: build the affined copy, write the
      full results, clear them in place, write again, then the same for the
      affined copy. The affined vector is a separate copy, so clearing the
      full results does not reach it. */
  method WriteResults<D>(merged: seq<StrategyResult<D>>) returns (files: ResultFiles<D>)
    ensures files.fullWithEvolution == merged
    ensures files.full == ClearedAll(merged)
    ensures files.affinedWithEvolution == Affined(merged)
    ensures files.affined == ClearedAll(Affined(merged))
  {
    var results := new StrategyResult<D>[|merged|](k requires 0 <= k < |merged| => merged[k]);
    var kept := Affined(results[..]);
    var affinedResults := new StrategyResult<D>[|kept|](k requires 0 <= k < |kept| => kept[k]);
    var first := results[..];
    ClearMoneyEvolution(results);
    var second := results[..];
    var third := affinedResults[..];
    ClearMoneyEvolution(affinedResults);
    files := ResultFiles(first, second, third, affinedResults[..]);
  }
}
