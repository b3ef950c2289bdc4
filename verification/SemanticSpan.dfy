/** Block-aligned spans and the greedy multi-donor chain (semantic_span.py). */
module SemanticSpan {
  import opened Blocks
  import opened StableSort

  /** A token-identity-verified run: target positions [targetStart, End()) hold the
      donor's tokens from donorStart on. */
  datatype Run = Run(donorId: string, donorStart: int, targetStart: int, length: int) {
    function End(): int { targetStart + length }
    predicate Covers(p: int) { targetStart <= p < End() }
  }

  /** A donor span snapped to block edges in the target frame. */
  datatype BlockSpan = BlockSpan(targetStart: int, targetEnd: int, donorStart: int)

  /** One donor's contribution to a span assembled from several donors. */
  datatype Piece = Piece(donorId: string, donorStart: int, targetStart: int, tokenCount: int) {
    function End(): int { targetStart + tokenCount }
  }

  function TargetOf(r: Run): int { r.targetStart }

  // ------------------------------------------------------------ block spans

  function Snap(r: Run, bs: int): BlockSpan
    requires bs > 0
  {
    var s := CeilTo(r.targetStart, bs);
    BlockSpan(s, FloorTo(r.End(), bs), r.donorStart + (s - r.targetStart))
  }

  predicate Kept(r: Run, cursor: int, bs: int, minSpan: int)
    requires bs > 0
  {
    var s := Snap(r, bs);
    s.targetStart >= cursor && s.targetEnd - s.targetStart >= Max(minSpan, 1)
  }

  function AlignFrom(runs: seq<Run>, cursor: int, bs: int, minSpan: int): seq<BlockSpan>
    requires bs > 0
  {
    if runs == [] then []
    else if Kept(runs[0], cursor, bs, minSpan) then
      [Snap(runs[0], bs)] + AlignFrom(runs[1..], Snap(runs[0], bs).targetEnd, bs, minSpan)
    else AlignFrom(runs[1..], cursor, bs, minSpan)
  }

  method BlockAlignSpans(spans: seq<Run>, bs: int, minSpan: int) returns (out: seq<BlockSpan>)
    requires bs > 0
    ensures out == AlignFrom(SortBy(spans, TargetOf), 0, bs, minSpan)
  {
    var sorted := SortBy(spans, TargetOf);
    out := [];
    var cursor := 0;
    for i := 0 to |sorted|
      invariant out + AlignFrom(sorted[i..], cursor, bs, minSpan) == AlignFrom(sorted, 0, bs, minSpan)
    {
      var raw := sorted[i];
      assert sorted[i..][0] == raw && sorted[i..][1..] == sorted[i + 1..];
      var snapped := Snap(raw, bs);
      if snapped.targetStart < cursor {
        continue;
      }
      if snapped.targetEnd - snapped.targetStart < Max(minSpan, 1) {
        continue;
      }
      out := out + [snapped];
      cursor := snapped.targetEnd;
    }
  }

  function Aligned(spans: seq<Run>, bs: int, minSpan: int): seq<BlockSpan>
    requires bs > 0
  {
    AlignFrom(SortBy(spans, TargetOf), 0, bs, minSpan)
  }

  /** s is the whole aligned interior of r, at r's own donor-target offset: block edges
      inside r, less than a block from its ends. */
  ghost predicate InteriorOf(s: BlockSpan, r: Run, bs: int)
    requires bs > 0
  {
    && s.targetStart % bs == 0 && s.targetEnd % bs == 0
    && r.targetStart <= s.targetStart < r.targetStart + bs && r.End() - bs < s.targetEnd <= r.End()
    && s.donorStart - s.targetStart == r.donorStart - r.targetStart
  }

  ghost predicate WellPlaced(out: seq<BlockSpan>, cursor: int, bs: int, minSpan: int)
    requires bs > 0
  {
    (forall i | 0 <= i < |out| ::
      cursor <= out[i].targetStart && out[i].targetEnd - out[i].targetStart >= Max(minSpan, 1) &&
      out[i].targetStart % bs == 0 && out[i].targetEnd % bs == 0) &&
    (forall i, j | 0 <= i < j < |out| :: out[i].targetEnd <= out[j].targetStart)
  }

  lemma {:induction false} AlignFromPlaces(runs: seq<Run>, cursor: int, bs: int, minSpan: int)
    requires bs > 0
    ensures WellPlaced(AlignFrom(runs, cursor, bs, minSpan), cursor, bs, minSpan)
    ensures forall s | s in AlignFrom(runs, cursor, bs, minSpan) :: exists r :: r in runs && InteriorOf(s, r, bs)
  {
    if runs != [] {
      var s0 := Snap(runs[0], bs);
      SnapIsInterior(runs[0], bs);
      if Kept(runs[0], cursor, bs, minSpan) {
        AlignFromPlaces(runs[1..], s0.targetEnd, bs, minSpan);
        assert InteriorOf(s0, runs[0], bs);
      } else {
        AlignFromPlaces(runs[1..], cursor, bs, minSpan);
      }
    }
  }

  /** Nothing servable is dropped without cause: a run that is long enough once snapped
      is served, or it starts before the cursor, or an earlier served span reaches into it. */
  lemma {:induction false} AlignFromDropsOnlyOverlaps(
      runs: seq<Run>, cursor: int, bs: int, minSpan: int, k: nat)
    requires bs > 0 && k < |runs|
    requires Kept(runs[k], Snap(runs[k], bs).targetStart, bs, minSpan)
    ensures var out := AlignFrom(runs, cursor, bs, minSpan);
            Snap(runs[k], bs) in out || Snap(runs[k], bs).targetStart < cursor ||
            exists s :: s in out && s.targetEnd > Snap(runs[k], bs).targetStart &&
              exists j :: 0 <= j < k && s == Snap(runs[j], bs)
  {
    var out := AlignFrom(runs, cursor, bs, minSpan);
    var s0 := Snap(runs[0], bs);
    var kept := Kept(runs[0], cursor, bs, minSpan);
    if k == 0 {
      assert kept ==> out[0] == s0;
    } else {
      var next := if kept then s0.targetEnd else cursor;
      AlignFromDropsOnlyOverlaps(runs[1..], next, bs, minSpan, k - 1);
      var rest := AlignFrom(runs[1..], next, bs, minSpan);
      assert runs[1..][k - 1] == runs[k];
      assert forall s | s in rest :: s in out;
      if exists s :: s in rest && s.targetEnd > Snap(runs[k], bs).targetStart &&
          exists j :: 0 <= j < k - 1 && s == Snap(runs[1..][j], bs) {
        var s :| s in rest && s.targetEnd > Snap(runs[k], bs).targetStart &&
          exists j :: 0 <= j < k - 1 && s == Snap(runs[1..][j], bs);
        var j :| 0 <= j < k - 1 && s == Snap(runs[1..][j], bs);
        assert runs[1..][j] == runs[j + 1];
      } else if kept && Snap(runs[k], bs).targetStart < s0.targetEnd {
        assert out[0] == s0;
      }
    }
  }

  /** The span planner's output: sorted, disjoint, aligned, long enough, and every span is
      the aligned interior of a raw run at that run's own offset. */
  lemma {:induction false} AlignedSpansAreSound(spans: seq<Run>, bs: int, minSpan: int)
    requires bs > 0
    ensures WellPlaced(Aligned(spans, bs, minSpan), 0, bs, minSpan)
    ensures forall s | s in Aligned(spans, bs, minSpan) :: exists r :: r in spans && InteriorOf(s, r, bs)
  {
    var sorted := SortBy(spans, TargetOf);
    AlignFromPlaces(sorted, 0, bs, minSpan);
    SortIsStable(spans, TargetOf);
    forall s | s in Aligned(spans, bs, minSpan)
      ensures exists r :: r in spans && InteriorOf(s, r, bs)
    {
      var r :| r in sorted && InteriorOf(s, r, bs);
      assert r in multiset(sorted);
    }
  }

  /** s serves q, which starts no later than r, and reaches past r's first block edge. */
  ghost predicate Shadows(s: BlockSpan, q: Run, r: Run, bs: int)
    requires bs > 0
  {
    InteriorOf(s, q, bs) && q.targetStart <= r.targetStart && s.targetEnd > CeilTo(r.targetStart, bs)
  }

  lemma {:induction false} SnapIsInterior(r: Run, bs: int)
    requires bs > 0
    ensures InteriorOf(Snap(r, bs), r, bs)
  {
  }

  lemma {:induction false} EarlierInSortedShadows(
      spans: seq<Run>, sorted: seq<Run>, bs: int, k: nat, j: nat, s: BlockSpan)
    requires bs > 0 && j < k < |sorted| && Ordered(sorted, TargetOf) && multiset(sorted) == multiset(spans)
    requires s == Snap(sorted[j], bs) && s.targetEnd > Snap(sorted[k], bs).targetStart
    ensures sorted[j] in spans && Shadows(s, sorted[j], sorted[k], bs)
  {
    assert sorted[j] in multiset(sorted);
    assert TargetOf(sorted[j]) <= TargetOf(sorted[k]);
    SnapIsInterior(sorted[j], bs);
  }

  /** And it is complete: a raw run whose aligned interior is long enough is served by that
      interior, or it starts below zero, or an earlier-starting served span overlaps it. */
  lemma {:induction false} AlignedSpansAreComplete(spans: seq<Run>, bs: int, minSpan: int, r: Run)
    requires bs > 0 && r in spans
    requires FloorTo(r.End(), bs) - CeilTo(r.targetStart, bs) >= Max(minSpan, 1)
    ensures var out := Aligned(spans, bs, minSpan);
            || (exists s :: s in out && InteriorOf(s, r, bs))
            || CeilTo(r.targetStart, bs) < 0
            || exists s, q :: s in out && q in spans && Shadows(s, q, r, bs)
  {
    var sorted := SortBy(spans, TargetOf);
    SortIsStable(spans, TargetOf);
    assert r in multiset(sorted);
    var k :| 0 <= k < |sorted| && sorted[k] == r;
    AlignFromDropsOnlyOverlaps(sorted, 0, bs, minSpan, k);
    var out := AlignFrom(sorted, 0, bs, minSpan);
    if Snap(r, bs) in out {
      SnapIsInterior(r, bs);
    } else if Snap(r, bs).targetStart >= 0 {
      var s, j :| s in out && s.targetEnd > Snap(r, bs).targetStart && 0 <= j < k && s == Snap(sorted[j], bs);
      EarlierInSortedShadows(spans, sorted, bs, k, j, s);
    }
  }

  // ------------------------------------------------------ supply at boundary

  ghost predicate Supplies(s: BlockSpan, from: int, r: (int, Option<int>))
  {
    s.targetStart <= from && s.targetEnd == from + r.0 && r.1 == Some(s.donorStart + (from - s.targetStart))
  }

  /** (tokens, donor start) servable from the boundary's block edge, (0, None) when no
      span contains that edge. */
  function SupplyFrom(spans: seq<BlockSpan>, usableFrom: int): (r: (int, Option<int>))
    ensures r.0 >= 0 && (r.0 > 0 <==> r.1.Some?)
    ensures r.0 > 0 ==> exists s :: s in spans && Supplies(s, usableFrom, r)
    ensures r.0 == 0 ==> forall s | s in spans :: !(s.targetStart <= usableFrom < s.targetEnd)
  {
    if spans == [] then (0, None)
    else if spans[0].targetStart <= usableFrom < spans[0].targetEnd then
      assert spans[0] in spans;
      (spans[0].targetEnd - usableFrom, Some(spans[0].donorStart + (usableFrom - spans[0].targetStart)))
    else SupplyFrom(spans[1..], usableFrom)
  }

  function SupplyAtBoundary(spans: seq<BlockSpan>, boundary: int, bs: int): (int, Option<int>)
    requires bs > 0
  {
    SupplyFrom(spans, CeilTo(boundary, bs))
  }

  // ------------------------------------------------------------------- chain

  ghost predicate Covered(runs: seq<Run>, p: int) { exists r :: r in runs && r.Covers(p) }

  /** No run before the i-th covers p and reaches as far. */
  ghost predicate FirstToReach(runs: seq<Run>, p: int, i: nat)
    requires i < |runs|
  {
    forall j | 0 <= j < i && runs[j].Covers(p) :: runs[j].End() < runs[i].End()
  }

  /** The run covering p that reaches furthest; the first such one. */
  function Best(runs: seq<Run>, p: int): (b: Option<Run>)
    ensures b.Some? ==> b.value in runs && b.value.Covers(p)
    ensures b.Some? ==> forall r | r in runs && r.Covers(p) :: r.End() <= b.value.End()
    ensures b.None? ==> forall r | r in runs :: !r.Covers(p)
    ensures b.Some? ==> exists i :: 0 <= i < |runs| && runs[i] == b.value && FirstToReach(runs, p, i)
  {
    if runs == [] then None
    else
      var last := runs[|runs| - 1];
      var init := runs[..|runs| - 1];
      var b := Best(init, p);
      assert forall r | r in runs :: r == last || r in init;
      assert forall i | 0 <= i < |init| :: init[i] == runs[i] && init[i] in init;
      if last.Covers(p) && (b.None? || last.End() > b.value.End()) then Some(last) else b
  }

  method FindBest(runs: seq<Run>, p: int) returns (best: Option<Run>)
    ensures best == Best(runs, p)
  {
    best := None;
    for i := 0 to |runs|
      invariant best == Best(runs[..i], p)
    {
      assert runs[..i + 1][..i] == runs[..i];
      if runs[i].Covers(p) && (best.None? || runs[i].End() > best.value.End()) {
        best := Some(runs[i]);
      }
    }
    assert runs[..|runs|] == runs;
  }

  function Furthest(runs: seq<Run>): (e: int)
    ensures forall r | r in runs :: r.End() <= e
  {
    if runs == [] then 0 else Max(runs[0].End(), Furthest(runs[1..]))
  }

  function PieceOf(r: Run, p: int): Piece
  {
    Piece(r.donorId, r.donorStart + (p - r.targetStart), p, r.End() - p)
  }

  /** The greedy pieces from p on, before trimming. */
  function Greedy(runs: seq<Run>, p: int): seq<Piece>
    decreases Furthest(runs) - p
  {
    match Best(runs, p)
    case None => []
    case Some(r) => [PieceOf(r, p)] + Greedy(runs, r.End())
  }

  function Reach(runs: seq<Run>, p: int): int
    decreases Furthest(runs) - p
  {
    match Best(runs, p)
    case None => p
    case Some(r) => Reach(runs, r.End())
  }

  function TrimPieces(pieces: seq<Piece>, end: int): seq<Piece>
  {
    if pieces == [] then []
    else
      var count := Min(pieces[0].tokenCount, end - pieces[0].targetStart);
      (if count > 0 then [pieces[0].(tokenCount := count)] else []) + TrimPieces(pieces[1..], end)
  }

  lemma {:induction false} TrimFrom(pieces: seq<Piece>, i: nat, end: int)
    requires i < |pieces|
    ensures var count := Min(pieces[i].tokenCount, end - pieces[i].targetStart);
            TrimPieces(pieces[i..], end) ==
              (if count > 0 then [pieces[i].(tokenCount := count)] else []) + TrimPieces(pieces[i + 1..], end)
  {
    assert pieces[i..][0] == pieces[i] && pieces[i..][1..] == pieces[i + 1..];
  }

  method Trim(pieces: seq<Piece>, end: int) returns (out: seq<Piece>)
    ensures out == TrimPieces(pieces, end)
  {
    out := [];
    ghost var rest := TrimPieces(pieces, end);
    assert pieces[0..] == pieces;
    for i := 0 to |pieces|
      invariant rest == TrimPieces(pieces[i..], end)
      invariant out + rest == TrimPieces(pieces, end)
    {
      TrimFrom(pieces, i, end);
      rest := TrimPieces(pieces[i + 1..], end);
      var count := Min(pieces[i].tokenCount, end - pieces[i].targetStart);
      if count > 0 {
        assert out + ([pieces[i].(tokenCount := count)] + rest) == out + [pieces[i].(tokenCount := count)] + rest;
        out := out + [pieces[i].(tokenCount := count)];
      }
    }
  }

  function Chain(runs: seq<Run>, boundary: int, bs: int): seq<Piece>
    requires bs > 0
  {
    var start := CeilTo(boundary, bs);
    TrimPieces(Greedy(runs, start), FloorTo(Reach(runs, start), bs))
  }

  /** The greedy loop terminates: the position moves strictly towards the furthest end. */
  method ChainAtBoundary(runs: seq<Run>, boundary: int, bs: int) returns (pieces: seq<Piece>)
    requires bs > 0
    ensures pieces == Chain(runs, boundary, bs)
  {
    var start := CeilTo(boundary, bs);
    var position := start;
    pieces := [];
    while true
      invariant pieces + Greedy(runs, position) == Greedy(runs, start)
      invariant Reach(runs, position) == Reach(runs, start)
      decreases Furthest(runs) - position
    {
      var best := FindBest(runs, position);
      if best.None? {
        break;
      }
      pieces := pieces + [PieceOf(best.value, position)];
      position := best.value.End();
    }
    assert Greedy(runs, position) == [] && Reach(runs, position) == position;
    assert pieces + [] == pieces;
    pieces := Trim(pieces, FloorTo(position, bs));
  }

  // ------------------------------------------------------- chain properties

  /** The pieces cover [from, to) back to back, none of them empty. */
  ghost predicate Tiles(pieces: seq<Piece>, from: int, to: int)
  {
    if pieces == [] then from == to
    else
      && pieces[0].targetStart == from
      && pieces[0].tokenCount > 0
      && Tiles(pieces[1..], pieces[0].End(), to)
  }

  /** The piece is a stretch of one run, at that run's donor and offset. */
  ghost predicate Within(piece: Piece, r: Run)
  {
    piece.donorId == r.donorId && r.targetStart <= piece.targetStart && piece.End() <= r.End() &&
    piece.donorStart - piece.targetStart == r.donorStart - r.targetStart
  }

  ghost predicate DrawnFrom(pieces: seq<Piece>, runs: seq<Run>)
  {
    forall piece | piece in pieces :: exists r :: r in runs && Within(piece, r)
  }

  lemma {:induction false} DrawnTail(pieces: seq<Piece>, runs: seq<Run>)
    requires DrawnFrom(pieces, runs) && pieces != []
    ensures DrawnFrom(pieces[1..], runs)
  {
    forall piece | piece in pieces[1..]
      ensures exists r :: r in runs && Within(piece, r)
    {
      assert piece in pieces;
    }
  }

  lemma {:induction false} GreedyTiles(runs: seq<Run>, p: int)
    ensures Reach(runs, p) >= p
    ensures Tiles(Greedy(runs, p), p, Reach(runs, p))
    ensures DrawnFrom(Greedy(runs, p), runs)
    decreases Furthest(runs) - p
  {
    match Best(runs, p)
    case None =>
    case Some(r) =>
      GreedyTiles(runs, r.End());
      var g := Greedy(runs, r.End());
      assert Within(PieceOf(r, p), r);
      assert Greedy(runs, p)[1..] == g;
  }

  /** Before trimming, the chain reaches exactly the first position at or after its start
      that no run covers. */
  lemma {:induction false} ReachIsFirstGap(runs: seq<Run>, p: int)
    ensures Reach(runs, p) >= p && !Covered(runs, Reach(runs, p))
    ensures forall q | p <= q < Reach(runs, p) :: Covered(runs, q)
    decreases Furthest(runs) - p
  {
    match Best(runs, p)
    case None =>
    case Some(r) =>
      ReachIsFirstGap(runs, r.End());
      forall q | p <= q < Reach(runs, p)
        ensures Covered(runs, q)
      {
        if q < r.End() { assert r in runs && r.Covers(q); }
      }
  }

  lemma {:induction false} TilesAdvance(pieces: seq<Piece>, from: int, to: int)
    requires Tiles(pieces, from, to)
    ensures from <= to && (from == to <==> pieces == [])
  {
    if pieces != [] { TilesAdvance(pieces[1..], pieces[0].End(), to); }
  }

  /** No chain of any runs' stretches reaches past the greedy one. */
  lemma {:induction false} NoChainReachesFurther(runs: seq<Run>, p: int, qs: seq<Piece>, from: int, e: int)
    requires Tiles(qs, from, e) && DrawnFrom(qs, runs) && p <= from <= Reach(runs, p)
    ensures e <= Reach(runs, p)
  {
    if qs != [] {
      assert qs[0] in qs;
      var r :| r in runs && Within(qs[0], r);
      TilesAdvance(qs[1..], qs[0].End(), e);
      DrawnTail(qs, runs);
      ReachIsFirstGap(runs, p);
      var gap := Reach(runs, p);
      if qs[0].End() > gap { assert r.Covers(gap); }
      NoChainReachesFurther(runs, p, qs[1..], qs[0].End(), e);
    }
  }

  ghost predicate Shortens(t: Piece, piece: Piece)
  {
    0 < t.tokenCount <= piece.tokenCount && t == piece.(tokenCount := t.tokenCount)
  }

  lemma {:induction false} TrimPast(pieces: seq<Piece>, from: int, to: int, end: int)
    requires Tiles(pieces, from, to) && end <= from
    ensures TrimPieces(pieces, end) == []
  {
    if pieces != [] { TrimPast(pieces[1..], pieces[0].End(), to, end); }
  }

  /** Trimming a tiling at `end` tiles what is left, with each piece shortened in place. */
  lemma {:induction false} TrimTiles(pieces: seq<Piece>, from: int, to: int, end: int)
    requires Tiles(pieces, from, to) && from <= end
    ensures Tiles(TrimPieces(pieces, end), from, Min(to, end))
    ensures forall t | t in TrimPieces(pieces, end) :: exists piece :: piece in pieces && Shortens(t, piece)
  {
    if pieces != [] {
      var head := pieces[0];
      TilesAdvance(pieces[1..], head.End(), to);
      if end <= head.End() {
        TrimPast(pieces[1..], head.End(), to, end);
        var t := head.(tokenCount := end - from);
        assert TrimPieces(pieces, end) == if end == from then [] else [t];
        assert end > from ==> head in pieces && Shortens(t, head);
      } else {
        TrimTiles(pieces[1..], head.End(), to, end);
        assert TrimPieces(pieces, end)[1..] == TrimPieces(pieces[1..], end);
        assert head in pieces && Shortens(head, head);
      }
    }
  }

  lemma {:induction false} TrimStaysDrawn(pieces: seq<Piece>, runs: seq<Run>, from: int, to: int, end: int)
    requires Tiles(pieces, from, to) && from <= end && DrawnFrom(pieces, runs)
    ensures DrawnFrom(TrimPieces(pieces, end), runs)
  {
    TrimTiles(pieces, from, to, end);
    forall t | t in TrimPieces(pieces, end)
      ensures exists r :: r in runs && Within(t, r)
    {
      var piece :| piece in pieces && Shortens(t, piece);
      var r :| r in runs && Within(piece, r);
      assert Within(t, r);
    }
  }

  /** Where the trimmed chain ends: the last block edge the greedy reach clears. */
  function ChainEnd(runs: seq<Run>, boundary: int, bs: int): int
    requires bs > 0
  {
    FloorTo(Reach(runs, CeilTo(boundary, bs)), bs)
  }

  /** The chain tiles its aligned window exactly, each piece cut from one verified run. */
  lemma {:induction false} ChainTiles(runs: seq<Run>, boundary: int, bs: int)
    requires bs > 0
    ensures CeilTo(boundary, bs) <= ChainEnd(runs, boundary, bs)
    ensures Tiles(Chain(runs, boundary, bs), CeilTo(boundary, bs), ChainEnd(runs, boundary, bs))
    ensures DrawnFrom(Chain(runs, boundary, bs), runs)
  {
    var start := CeilTo(boundary, bs);
    GreedyTiles(runs, start);
    AlignedBounds(start, Reach(runs, start), bs);
    TrimTiles(Greedy(runs, start), start, Reach(runs, start), ChainEnd(runs, boundary, bs));
    TrimStaysDrawn(Greedy(runs, start), runs, start, Reach(runs, start), ChainEnd(runs, boundary, bs));
  }

  /** Greedy stays ahead: any tiling that starts no later and reaches e needs at least as
      many pieces as the greedy chain cut at e. */
  lemma {:induction false} GreedyStaysAhead(runs: seq<Run>, p: int, qs: seq<Piece>, from: int, e: int)
    requires Tiles(qs, from, e) && DrawnFrom(qs, runs) && from <= p
    ensures |TrimPieces(Greedy(runs, p), e)| <= |qs|
    decreases |qs|
  {
    GreedyTiles(runs, p);
    if e <= p {
      TrimPast(Greedy(runs, p), p, Reach(runs, p), e);
    } else {
      TilesAdvance(qs, from, e);
      assert qs[0] in qs;
      DrawnTail(qs, runs);
      var x := qs[0].End();
      var r :| r in runs && Within(qs[0], r);
      if x <= p {
        GreedyStaysAhead(runs, p, qs[1..], x, e);
      } else {
        assert r.Covers(p);
        var b := Best(runs, p).value;
        assert r.End() <= b.End();
        assert Greedy(runs, p)[1..] == Greedy(runs, b.End());
        GreedyStaysAhead(runs, b.End(), qs[1..], x, e);
      }
    }
  }

  /** The trimmed chain uses the fewest pieces of any chain that reaches the same end. */
  lemma {:induction false} ChainIsShortest(runs: seq<Run>, boundary: int, bs: int, qs: seq<Piece>)
    requires bs > 0 && DrawnFrom(qs, runs)
    requires Tiles(qs, CeilTo(boundary, bs), ChainEnd(runs, boundary, bs))
    ensures |Chain(runs, boundary, bs)| <= |qs|
  {
    GreedyStaysAhead(runs, CeilTo(boundary, bs), qs, CeilTo(boundary, bs), ChainEnd(runs, boundary, bs));
  }

  /** And it serves the most: no chain from the same edge ends on a later block edge. */
  lemma {:induction false} ChainIsLongest(runs: seq<Run>, boundary: int, bs: int, qs: seq<Piece>, e: int)
    requires bs > 0 && DrawnFrom(qs, runs) && Tiles(qs, CeilTo(boundary, bs), e) && e % bs == 0
    ensures e <= ChainEnd(runs, boundary, bs)
  {
    var start := CeilTo(boundary, bs);
    GreedyTiles(runs, start);
    NoChainReachesFurther(runs, start, qs, start, e);
    AlignedBounds(e, Reach(runs, start), bs);
  }

  /** On the same runs and boundary the chain never serves fewer tokens than the
      single-span path. */
  lemma {:induction false} ChainServesAtLeastSpan(runs: seq<Run>, boundary: int, bs: int, minSpan: int)
    requires bs > 0
    ensures ChainEnd(runs, boundary, bs) - CeilTo(boundary, bs)
            >= SupplyAtBoundary(Aligned(runs, bs, minSpan), boundary, bs).0
  {
    ChainTiles(runs, boundary, bs);
    var start := CeilTo(boundary, bs);
    var out := Aligned(runs, bs, minSpan);
    AlignedSpansAreSound(runs, bs, minSpan);
    var n := SupplyAtBoundary(out, boundary, bs).0;
    if n > 0 {
      var s :| s in out && Supplies(s, start, SupplyAtBoundary(out, boundary, bs));
      var r :| r in runs && InteriorOf(s, r, bs);
      var q := OneRunServes(runs, r, start, n);
      ChainIsLongest(runs, boundary, bs, [q], start + n);
    }
  }

  /** A stretch of one run is a chain of one piece. */
  lemma {:induction false} OneRunServes(runs: seq<Run>, r: Run, start: int, n: int) returns (q: Piece)
    requires r in runs && r.targetStart <= start && start + n <= r.End() && n > 0
    ensures Tiles([q], start, start + n) && DrawnFrom([q], runs)
  {
    q := Piece(r.donorId, r.donorStart + (start - r.targetStart), start, n);
    assert Within(q, r);
    assert Tiles([q][1..], start + n, start + n);
  }
}
