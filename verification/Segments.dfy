/** Alignment maps grouped into contiguous runs (providers/semblend.py). */
module Segments {
  import opened Blocks
  import opened StableSort
  import opened SemanticSpan

  /** One aligned position: the donor's token at `donor` sits at `target` in the prompt. */
  datatype Pair = Pair(donorId: string, donor: int, target: int)

  function TargetPosition(p: Pair): int { p.target }

  function Zip(donorIds: seq<string>, donors: seq<int>, targets: seq<int>): (r: seq<Pair>)
    requires |donorIds| == |donors| == |targets|
    ensures |r| == |donors|
    ensures forall i | 0 <= i < |r| :: r[i] == Pair(donorIds[i], donors[i], targets[i])
  {
    seq(|donors|, i requires 0 <= i < |donors| => Pair(donorIds[i], donors[i], targets[i]))
  }

  /** The positions one segment stands for. */
  function Positions(s: Run): (r: seq<Pair>)
    ensures |r| == Max(s.length, 0)
    ensures forall i | 0 <= i < |r| :: r[i] == Pair(s.donorId, s.donorStart + i, s.targetStart + i)
  {
    seq(Max(s.length, 0), i => Pair(s.donorId, s.donorStart + i, s.targetStart + i))
  }

  function Expand(segments: seq<Run>): seq<Pair>
  {
    if segments == [] then []
    else Expand(segments[..|segments| - 1]) + Positions(segments[|segments| - 1])
  }

  lemma {:induction false} ExpandHolds(segments: seq<Run>, s: Run, i: int)
    requires s in segments && 0 <= i < s.length
    ensures Pair(s.donorId, s.donorStart + i, s.targetStart + i) in Expand(segments)
  {
    var last := segments[|segments| - 1];
    if s == last {
      assert Positions(last)[i] == Pair(s.donorId, s.donorStart + i, s.targetStart + i);
    } else {
      ExpandHolds(segments[..|segments| - 1], s, i);
    }
  }

  predicate Follows(a: Pair, b: Pair)
  {
    b == Pair(a.donorId, a.donor + 1, a.target + 1)
  }

  function LastOf(s: Run): Pair
  {
    Pair(s.donorId, s.donorStart + s.length - 1, s.targetStart + s.length - 1)
  }

  function FirstOf(s: Run): Pair { Pair(s.donorId, s.donorStart, s.targetStart) }

  /** Non-empty segments, no two neighbours of which could have been one. */
  ghost predicate Maximal(segments: seq<Run>)
  {
    (forall i | 0 <= i < |segments| :: segments[i].length >= 1) &&
    (forall i | 0 < i < |segments| :: !Follows(LastOf(segments[i - 1]), FirstOf(segments[i])))
  }

  /** pairs[from..to] is one unbroken run. */
  ghost predicate Unbroken(pairs: seq<Pair>, from: int, to: int)
  {
    0 <= from <= to <= |pairs| && forall i | from < i < to :: Follows(pairs[i - 1], pairs[i])
  }

  lemma {:induction false} UnbrokenIsSegment(pairs: seq<Pair>, from: int, to: int)
    requires Unbroken(pairs, from, to) && from < to
    ensures pairs[from..to] == Positions(Run(pairs[from].donorId, pairs[from].donor, pairs[from].target, to - from))
    decreases (to)
  {
    if from + 1 < to {
      UnbrokenIsSegment(pairs, from, to - 1);
      var s := Positions(Run(pairs[from].donorId, pairs[from].donor, pairs[from].target, to - 1 - from));
      assert pairs[from..to - 1][to - 2 - from] == pairs[to - 2] == s[to - 2 - from];
      assert pairs[from..to] == pairs[from..to - 1] + [pairs[to - 1]];
    }
  }

  /** What both builders do when a run ends at position `to`: append its segment. */
  lemma {:induction false} CloseRun(pairs: seq<Pair>, segments: seq<Run>, from: int, to: int, s: Run)
    requires Unbroken(pairs, from, to) && from < to
    requires Maximal(segments) && Expand(segments) == pairs[..from]
    requires segments != [] ==> from > 0 && LastOf(segments[|segments| - 1]) == pairs[from - 1]
    requires segments != [] ==> !Follows(pairs[from - 1], pairs[from])
    requires s == Run(pairs[from].donorId, pairs[from].donor, pairs[from].target, to - from)
    ensures Maximal(segments + [s]) && Expand(segments + [s]) == pairs[..to]
    ensures LastOf(s) == pairs[to - 1]
  {
    UnbrokenIsSegment(pairs, from, to);
    assert (segments + [s])[..|segments|] == segments;
    assert pairs[..to] == pairs[..from] + pairs[from..to];
    assert pairs[from..to][to - 1 - from] == pairs[to - 1];
  }

  /** The segments so far encode exactly the first n pairs. */
  ghost predicate Closed(pairs: seq<Pair>, segments: seq<Run>, n: int)
  {
    && 0 <= n <= |pairs|
    && Maximal(segments) && Expand(segments) == pairs[..n]
    && (segments == [] <==> n == 0)
    && (segments != [] ==> LastOf(segments[|segments| - 1]) == pairs[n - 1])
  }

  lemma {:induction false} ExtendClosed(pairs: seq<Pair>, segments: seq<Run>, from: int, to: int, s: Run)
    requires Closed(pairs, segments, from) && Unbroken(pairs, from, to) && from < to
    requires from > 0 ==> !Follows(pairs[from - 1], pairs[from])
    requires s == Run(pairs[from].donorId, pairs[from].donor, pairs[from].target, to - from)
    ensures Closed(pairs, segments + [s], to)
  {
    CloseRun(pairs, segments, from, to, s);
  }

  // ------------------------------------------------------------ position map

  datatype PositionMap = PositionMap(donors: seq<int>, targets: seq<int>)

  function Same(donorId: string, n: nat): seq<string> { seq(n, _ => donorId) }

  /** Group a single donor's aligned pairs into runs: None when there is nothing to
      group, otherwise a lossless and maximal run encoding of every pair. */
  method FromPositionMap(donorId: string, pmap: Option<PositionMap>) returns (result: Option<seq<Run>>)
    ensures result.None? <==> pmap.None? || pmap.value.donors == [] || |pmap.value.donors| != |pmap.value.targets|
    ensures result.Some? ==> Maximal(result.value)
    ensures result.Some? ==>
      Expand(result.value) == Zip(Same(donorId, |pmap.value.donors|), pmap.value.donors, pmap.value.targets)
  {
    if pmap.None? || pmap.value.donors == [] || |pmap.value.donors| != |pmap.value.targets| {
      return None;
    }
    var donors, targets := pmap.value.donors, pmap.value.targets;
    var segments := GroupContiguous(donorId, donors, targets, Zip(Same(donorId, |donors|), donors, targets));
    return Some(segments);
  }

  method GroupContiguous(donorId: string, donors: seq<int>, targets: seq<int>, ghost pairs: seq<Pair>)
    returns (segments: seq<Run>)
    requires 0 < |donors| == |targets| == |pairs|
    requires forall i | 0 <= i < |pairs| :: pairs[i] == Pair(donorId, donors[i], targets[i])
    ensures Closed(pairs, segments, |pairs|)
    ensures Maximal(segments) && Expand(segments) == pairs
  {
    segments := [];
    var runStart := 0;
    for i := 1 to |donors| + 1
      invariant 0 <= runStart <= i - 1 <= |donors| && Closed(pairs, segments, runStart)
      invariant if i <= |donors| then runStart < i && Unbroken(pairs, runStart, i) else runStart == |donors|
      invariant 0 < runStart < |donors| ==> !Follows(pairs[runStart - 1], pairs[runStart])
    {
      if i == |donors| || donors[i] - donors[i - 1] != 1 || targets[i] - targets[i - 1] != 1 {
        assert i < |donors| ==> !Follows(pairs[i - 1], pairs[i]);
        var s := Run(donorId, donors[runStart], targets[runStart], i - runStart);
        ExtendClosed(pairs, segments, runStart, i, s);
        segments := segments + [s];
        runStart := i;
      } else {
        assert Follows(pairs[i - 1], pairs[i]);
      }
    }
    assert pairs[..|donors|] == pairs;
  }

  // --------------------------------------------------------- multi-donor map

  datatype MultiDonorMap = MultiDonorMap(donorIds: seq<string>, donors: seq<int>, targets: seq<int>)

  /** The donor holds exactly the prompt's token at this pair. */
  predicate Identical(p: Pair, store: map<string, seq<int>>, prompt: seq<int>)
  {
    && p.donorId in store && 0 <= p.donor < |store[p.donorId]| && 0 <= p.target < |prompt|
    && store[p.donorId][p.donor] == prompt[p.target]
  }

  function Tokens(store: map<string, seq<int>>, donorId: string): seq<int>
  {
    if donorId in store then store[donorId] else []
  }

  function KeepIdentical(pairs: seq<Pair>, store: map<string, seq<int>>, prompt: seq<int>): seq<Pair>
  {
    if pairs == [] then [] else
      var last := pairs[|pairs| - 1];
      KeepIdentical(pairs[..|pairs| - 1], store, prompt) + (if Identical(last, store, prompt) then [last] else [])
  }

  function Usable(m: Option<MultiDonorMap>): bool
  {
    m.Some? && m.value.donors != [] && |m.value.donorIds| == |m.value.donors| == |m.value.targets|
  }

  /** The pairs a multi-donor map serves: the token-identical ones in target order. */
  function Served(m: MultiDonorMap, store: map<string, seq<int>>, prompt: seq<int>): seq<Pair>
    requires |m.donorIds| == |m.donors| == |m.targets|
  {
    KeepIdentical(SortBy(Zip(m.donorIds, m.donors, m.targets), TargetPosition), store, prompt)
  }

  /** The identical pairs of `order`, read through a per-donor token cache. */
  method CollectIdentical(order: seq<Pair>, store: map<string, seq<int>>, prompt: seq<int>) returns (kept: seq<Pair>)
    ensures kept == KeepIdentical(order, store, prompt)
  {
    var tokenCache: map<string, seq<int>> := map[];
    kept := [];
    for i := 0 to |order|
      invariant kept == KeepIdentical(order[..i], store, prompt)
      invariant forall d | d in tokenCache :: tokenCache[d] == Tokens(store, d)
    {
      var p := order[i];
      if p.donorId !in tokenCache {
        tokenCache := tokenCache[p.donorId := Tokens(store, p.donorId)];
      }
      var tokens := tokenCache[p.donorId];
      if 0 <= p.donor < |tokens| && 0 <= p.target < |prompt| && tokens[p.donor] == prompt[p.target] {
        kept := kept + [p];
      }
      assert order[..i + 1][..i] == order[..i];
    }
    assert order[..|order|] == order;
  }

  method FromMultiDonorMap(m: Option<MultiDonorMap>, store: map<string, seq<int>>, prompt: seq<int>)
    returns (result: Option<seq<Run>>)
    ensures result.None? <==>
      || m.None? || m.value.donors == []
      || |m.value.donorIds| != |m.value.donors| || |m.value.donors| != |m.value.targets|
      || Served(m.value, store, prompt) == []
    ensures result.Some? ==> Maximal(result.value) && Expand(result.value) == Served(m.value, store, prompt)
  {
    if !Usable(m) {
      return None;
    }
    var order := SortBy(Zip(m.value.donorIds, m.value.donors, m.value.targets), TargetPosition);
    var kept := CollectIdentical(order, store, prompt);
    result := GroupRuns(kept);
  }

  /** Python iterates over kept + [None]: the last turn only closes the open run. */
  method GroupRuns(kept: seq<Pair>) returns (result: Option<seq<Run>>)
    ensures result.None? <==> kept == []
    ensures result.Some? ==> Maximal(result.value) && Expand(result.value) == kept
  {
    var segments: seq<Run> := [];
    var run: seq<Pair> := [];
    ghost var start := 0;
    for i := 0 to |kept|
      invariant 0 <= start <= i && run == kept[start..i] && (start == i <==> i == 0)
      invariant Closed(kept, segments, start) && Unbroken(kept, start, i)
      invariant start > 0 ==> !Follows(kept[start - 1], kept[start])
    {
      if run != [] && !Follows(run[|run| - 1], kept[i]) {
        segments := Close(kept, segments, run, start, i);
        run, start := [], i;
      }
      run := run + [kept[i]];
    }
    if run != [] {
      segments := Close(kept, segments, run, start, |kept|);
    }
    assert kept[..|kept|] == kept;
    return if segments == [] then None else Some(segments);
  }

  method Close(kept: seq<Pair>, segments: seq<Run>, run: seq<Pair>, ghost start: int, i: int)
    returns (out: seq<Run>)
    requires 0 <= start < i <= |kept| && run == kept[start..i]
    requires Unbroken(kept, start, i) && Closed(kept, segments, start)
    requires start > 0 ==> !Follows(kept[start - 1], kept[start])
    ensures out != [] && Closed(kept, out, i)
  {
    var first := run[0];
    var s := Run(first.donorId, first.donor, first.target, |run|);
    ExtendClosed(kept, segments, start, i, s);
    out := segments + [s];
  }

  lemma {:induction false} KeepIdenticalCounts(
      pairs: seq<Pair>, store: map<string, seq<int>>, prompt: seq<int>, p: Pair)
    ensures multiset(KeepIdentical(pairs, store, prompt))[p]
            == if Identical(p, store, prompt) then multiset(pairs)[p] else 0
  {
    if pairs != [] {
      var n := |pairs| - 1;
      KeepIdenticalCounts(pairs[..n], store, prompt, p);
      assert pairs == pairs[..n] + [pairs[n]];
    }
  }

  lemma {:induction false} KeepIdenticalOrdered(pairs: seq<Pair>, store: map<string, seq<int>>, prompt: seq<int>)
    requires Ordered(pairs, TargetPosition)
    ensures Ordered(KeepIdentical(pairs, store, prompt), TargetPosition)
    ensures forall p | p in KeepIdentical(pairs, store, prompt) :: p in pairs
  {
    if pairs != [] {
      var n := |pairs| - 1;
      KeepIdenticalOrdered(pairs[..n], store, prompt);
      forall p | p in KeepIdentical(pairs[..n], store, prompt)
        ensures TargetPosition(p) <= TargetPosition(pairs[n])
      {
        var i :| 0 <= i < n && pairs[..n][i] == p;
      }
    }
  }

  lemma {:induction false} WithKeyLast(pairs: seq<Pair>, last: Pair, k: int)
    ensures WithKey(pairs + [last], TargetPosition, k) ==
            WithKey(pairs, TargetPosition, k) + if last.target == k then [last] else []
  {
    if pairs == [] {
      assert pairs + [last] == [last] && [last][1..] == [];
    } else {
      assert (pairs + [last])[1..] == pairs[1..] + [last];
      WithKeyLast(pairs[1..], last, k);
    }
  }

  lemma {:induction false} KeepLast(pairs: seq<Pair>, last: Pair, store: map<string, seq<int>>, prompt: seq<int>)
    ensures KeepIdentical(pairs + [last], store, prompt) ==
            KeepIdentical(pairs, store, prompt) + if Identical(last, store, prompt) then [last] else []
  {
    assert (pairs + [last])[..|pairs|] == pairs;
  }

  lemma {:induction false} KeepingCommutes(pairs: seq<Pair>, store: map<string, seq<int>>, prompt: seq<int>, k: int)
    ensures WithKey(KeepIdentical(pairs, store, prompt), TargetPosition, k)
            == KeepIdentical(WithKey(pairs, TargetPosition, k), store, prompt)
  {
    if pairs != [] {
      var init, last := pairs[..|pairs| - 1], pairs[|pairs| - 1];
      assert pairs == init + [last];
      KeepingCommutes(init, store, prompt, k);
      WithKeyLast(init, last, k);
      var mine, kept := WithKey(init, TargetPosition, k), KeepIdentical(init, store, prompt);
      KeepLast(mine, last, store, prompt);
      WithKeyLast(kept, last, k);
      assert mine + [] == mine && kept + [] == kept;
      assert KeepIdentical(mine, store, prompt) + [] == KeepIdentical(mine, store, prompt);
    }
  }

  /** Exactly the token-identical pairs of the map, each as often as it occurs, by ascending
      target, and those at one target in the map's own order; so every position a segment
      stands for has equal donor and prompt tokens. */
  lemma {:induction false} ServedIsExact(m: MultiDonorMap, store: map<string, seq<int>>, prompt: seq<int>)
    requires |m.donorIds| == |m.donors| == |m.targets|
    ensures var served := Served(m, store, prompt);
            forall i, j | 0 <= i < j < |served| :: served[i].target <= served[j].target
    ensures forall p :: multiset(Served(m, store, prompt))[p] ==
              if Identical(p, store, prompt) then multiset(Zip(m.donorIds, m.donors, m.targets))[p] else 0
    ensures forall p | p in Served(m, store, prompt) :: Identical(p, store, prompt)
    ensures forall t :: WithKey(Served(m, store, prompt), TargetPosition, t) ==
              KeepIdentical(WithKey(Zip(m.donorIds, m.donors, m.targets), TargetPosition, t), store, prompt)
  {
    var pairs := Zip(m.donorIds, m.donors, m.targets);
    SortIsStable(pairs, TargetPosition);
    var sorted := SortBy(pairs, TargetPosition);
    KeepIdenticalOrdered(sorted, store, prompt);
    var served := Served(m, store, prompt);
    forall i, j | 0 <= i < j < |served|
      ensures served[i].target <= served[j].target
    {
      assert TargetPosition(served[i]) <= TargetPosition(served[j]);
    }
    forall p
      ensures multiset(served)[p] == if Identical(p, store, prompt) then multiset(pairs)[p] else 0
    {
      KeepIdenticalCounts(sorted, store, prompt, p);
    }
    forall p | p in served
      ensures Identical(p, store, prompt)
    {
      assert multiset(served)[p] > 0;
    }
    forall t
      ensures WithKey(served, TargetPosition, t) == KeepIdentical(WithKey(pairs, TargetPosition, t), store, prompt)
    {
      KeepingCommutes(sorted, store, prompt, t);
    }
  }

  // -------------------------------------------------------------- uniqueness

  lemma {:induction false} ExpandEnds(segments: seq<Run>)
    requires Maximal(segments) && segments != []
    ensures var e := Expand(segments); e != [] && e[|e| - 1] == LastOf(segments[|segments| - 1])
    ensures |Expand(segments)| >= segments[|segments| - 1].length
  {
  }

  /** Where the last segment begins, the positions do not follow on. */
  lemma {:induction false} BreakBeforeLast(a: seq<Run>)
    requires Maximal(a) && a != []
    ensures var e, n := Expand(a), |Expand(a)| - a[|a| - 1].length;
            n >= 0 && (n > 0 ==> !Follows(e[n - 1], e[n]))
  {
    var a', x := a[..|a| - 1], a[|a| - 1];
    var e := Expand(a);
    var n := |Expand(a')|;
    assert Maximal(a');
    if a' != [] {
      ExpandEnds(a');
      assert e[n - 1] == Expand(a')[n - 1] == LastOf(a[|a| - 2]);
    }
    assert e[n] == Positions(x)[0] == FirstOf(x);
  }

  /** Inside one segment, every position follows on from the one before. */
  lemma {:induction false} NoBreakInsideLast(b: seq<Run>, n: int)
    requires Maximal(b) && b != []
    requires |Expand(b)| - b[|b| - 1].length < n < |Expand(b)|
    ensures |Expand(b)| >= b[|b| - 1].length && Follows(Expand(b)[n - 1], Expand(b)[n])
  {
    var y := b[|b| - 1];
    var m := |Expand(b[..|b| - 1])|;
    assert Expand(b)[n - 1] == Positions(y)[n - 1 - m];
    assert Expand(b)[n] == Positions(y)[n - m];
  }

  lemma {:induction false} LastNotLonger(a: seq<Run>, b: seq<Run>)
    requires Maximal(a) && Maximal(b) && a != [] && b != [] && Expand(a) == Expand(b)
    ensures b[|b| - 1].length <= a[|a| - 1].length
  {
    BreakBeforeLast(a);
    ExpandEnds(b);
    if a[|a| - 1].length < b[|b| - 1].length {
      NoBreakInsideLast(b, |Expand(a)| - a[|a| - 1].length);
    }
  }

  lemma {:induction false} WithoutLast(a: seq<Run>)
    requires Maximal(a) && a != []
    ensures Maximal(a[..|a| - 1]) && |Expand(a)| >= a[|a| - 1].length
    ensures Expand(a[..|a| - 1]) == Expand(a)[..|Expand(a)| - a[|a| - 1].length]
  {
  }

  lemma {:induction false} SameLast(a: seq<Run>, b: seq<Run>)
    requires Maximal(a) && Maximal(b) && a != [] && b != [] && Expand(a) == Expand(b)
    ensures a[|a| - 1] == b[|b| - 1]
  {
    LastNotLonger(a, b);
    LastNotLonger(b, a);
    var x, y := a[|a| - 1], b[|b| - 1];
    assert LastOf(x) == LastOf(y) by {
      ExpandEnds(a);
      ExpandEnds(b);
    }
  }

  /** A lossless maximal encoding is the only one: two segment lists that stand for the
      same positions are the same list. */
  lemma {:induction false} MaximalIsCanonical(a: seq<Run>, b: seq<Run>)
    requires Maximal(a) && Maximal(b) && Expand(a) == Expand(b)
    ensures a == b
  {
    if a == [] {
      if b != [] { ExpandEnds(b); }
    } else if b == [] {
      ExpandEnds(a);
    } else {
      SameLast(a, b);
      WithoutLast(a);
      WithoutLast(b);
      MaximalIsCanonical(a[..|a| - 1], b[..|b| - 1]);
      assert a == a[..|a| - 1] + [a[|a| - 1]];
      assert b == b[..|b| - 1] + [b[|b| - 1]];
    }
  }
}
