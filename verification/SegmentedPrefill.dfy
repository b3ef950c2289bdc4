/** Segmented prefill: compute to the next reusable run, load it, and go on. */
module SegmentedPrefill {
  import opened Blocks
  import opened SemanticSpan
  import opened LoadPlan

  /** The block edge a run offers to a prefill that has computed up to `from`. */
  function Edge(r: Run, bs: nat): int
    requires bs > 0
  {
    CeilTo(r.targetStart, bs)
  }

  predicate Usable(r: Run, from: int, floor: int, bs: nat)
    requires bs > 0
  {
    Edge(r, bs) > from && Edge(r, bs) + floor <= r.End()
  }

  /** The smallest usable edge of the first n runs. */
  function BestEdge(runs: seq<Run>, from: int, floor: int, bs: nat): (best: Option<int>)
    requires bs > 0
    ensures best.Some? ==> exists r :: r in runs && Usable(r, from, floor, bs) && Edge(r, bs) == best.value
    ensures best.Some? ==> forall r | r in runs && Usable(r, from, floor, bs) :: best.value <= Edge(r, bs)
    ensures best.None? ==> forall r | r in runs :: !Usable(r, from, floor, bs)
  {
    if runs == [] then None
    else
      var last := runs[|runs| - 1];
      var init := runs[..|runs| - 1];
      var best := BestEdge(init, from, floor, bs);
      assert forall r :: r in runs <==> r == last || r in init;
      if Usable(last, from, floor, bs) && (best.None? || Edge(last, bs) < best.value) then Some(Edge(last, bs))
      else best
  }

  /** The admission lookup's runs, cut to what is published now. */
  function SegmentRuns(cfg: Config, found: Option<Lookup>, stored: Published): Option<seq<Run>>
  {
    if cfg.mode != SemanticSpanMode || found.None? || found.value.segments == [] then None
    else Some(UsableRuns(found.value.segments, stored))
  }

  function LimitEdge(cfg: Config, found: Option<Lookup>, stored: Published, from: int): Option<int>
    requires Sane(cfg)
  {
    var runs := SegmentRuns(cfg, found, stored);
    if runs.None? then None else BestEdge(runs.value, from, cfg.minMidPrefill, cfg.bs)
  }

  /** e is the segment's first block edge, ahead of `from`, and the segment serves the floor's
      worth of published tokens from there. */
  ghost predicate Offers(cfg: Config, s: Run, stored: Published, from: int, e: int)
    requires Sane(cfg)
  {
    var published := if s.donorId in stored then stored[s.donorId] else 0;
    && from < e && e % cfg.bs == 0 && s.targetStart <= e < s.targetStart + cfg.bs
    && e + cfg.minMidPrefill <= s.targetStart + s.length
    && s.donorStart + (e + cfg.minMidPrefill - s.targetStart) <= published
  }

  /** A load may begin at e, ahead of `from`. */
  ghost predicate Reusable(cfg: Config, found: Option<Lookup>, stored: Published, from: int, e: int)
    requires Sane(cfg)
  {
    cfg.mode == SemanticSpanMode && found.Some? && exists s :: s in found.value.segments && Offers(cfg, s, stored, from, e)
  }

  lemma {:induction false} UsableCutOffers(cfg: Config, r: Run, s: Run, stored: Published, from: int)
    requires Sane(cfg) && CutOf(r, s, stored) && Usable(r, from, cfg.minMidPrefill, cfg.bs)
    ensures Offers(cfg, s, stored, from, Edge(r, cfg.bs))
  {
  }

  lemma {:induction false} OfferIsUsable(cfg: Config, s: Run, stored: Published, from: int, e: int) returns (r: Run)
    requires Sane(cfg) && Offers(cfg, s, stored, from, e)
    ensures CutOf(r, s, stored) && Usable(r, from, cfg.minMidPrefill, cfg.bs) && Edge(r, cfg.bs) == e
  {
    var published := if s.donorId in stored then stored[s.donorId] else 0;
    r := s.(length := Min(s.length, published - s.donorStart));
    AlignedBounds(e, s.targetStart, cfg.bs);
    AlignedSum(e, CeilTo(s.targetStart, cfg.bs), cfg.bs);
    var d := e - CeilTo(s.targetStart, cfg.bs);
    Unique(d, cfg.bs, 0, d);
  }

  /** The limit is the nearest edge a load may begin at; there is none when no load may. */
  lemma {:induction false} LimitIsNearest(cfg: Config, found: Option<Lookup>, stored: Published, from: int, e: int)
    requires Sane(cfg)
    ensures var limit := LimitEdge(cfg, found, stored, from);
            && (limit.Some? ==> Reusable(cfg, found, stored, from, limit.value))
            && (Reusable(cfg, found, stored, from, e) ==> limit.Some? && limit.value <= e)
  {
    var limit := LimitEdge(cfg, found, stored, from);
    if limit.Some? {
      var r :| r in UsableRuns(found.value.segments, stored) &&
        Usable(r, from, cfg.minMidPrefill, cfg.bs) && Edge(r, cfg.bs) == limit.value;
      var s :| s in found.value.segments && CutOf(r, s, stored);
      UsableCutOffers(cfg, r, s, stored, from);
    }
    if Reusable(cfg, found, stored, from, e) {
      var s :| s in found.value.segments && Offers(cfg, s, stored, from, e);
      var r := OfferIsUsable(cfg, s, stored, from, e);
      assert r in UsableRuns(found.value.segments, stored);
    }
  }

  method FindBestEdge(runs: seq<Run>, from: int, floor: int, bs: nat) returns (best: Option<int>)
    requires bs > 0
    ensures best == BestEdge(runs, from, floor, bs)
  {
    best := None;
    for i := 0 to |runs|
      invariant best == BestEdge(runs[..i], from, floor, bs)
    {
      assert runs[..i + 1][..i] == runs[..i];
      var edge := CeilTo(runs[i].targetStart, bs);
      if edge <= from || edge + floor > runs[i].End() {
        continue;
      }
      if best.None? || edge < best.value {
        best := Some(edge);
      }
    }
    assert runs[..|runs|] == runs;
  }

  /** How far to compute before the next reusable run. */
  method GetPrefillComputeLimit(cfg: Config, found: Option<Lookup>, stored: Published, from: int)
    returns (limit: Option<int>)
    requires Sane(cfg)
    ensures var edge := LimitEdge(cfg, found, stored, from);
            limit == if edge.None? then None else Some(edge.value - from)
    ensures limit.Some? ==> Reusable(cfg, found, stored, from, from + limit.value)
    ensures forall e | Reusable(cfg, found, stored, from, e) :: limit.Some? && from + limit.value <= e
  {
    forall e: int
      ensures var edge := LimitEdge(cfg, found, stored, from);
              && (edge.Some? ==> Reusable(cfg, found, stored, from, edge.value))
              && (Reusable(cfg, found, stored, from, e) ==> edge.Some? && edge.value <= e)
    {
      LimitIsNearest(cfg, found, stored, from, e);
    }
    var runs := SegmentRuns(cfg, found, stored);
    if runs.None? {
      return None;
    }
    var best := FindBestEdge(runs.value, from, cfg.minMidPrefill, cfg.bs);
    return if best.None? then None else Some(best.value - from);
  }

  // --------------------------------------------------------------- the walk

  /** One leg: compute up to `edge`, then load `count` tokens there (0 when declined). */
  datatype Leg = Leg(edge: nat, count: nat)

  function LoadCount(cfg: Config, promptLen: nat, position: nat, found: Option<Lookup>, stored: Published): nat
    requires Sane(cfg)
  {
    var plan := MidPrefill(cfg, promptLen, position, found, stored);
    MidPrefillPromise(cfg, promptLen, position, found, stored);
    if plan.None? then 0 else plan.value.count
  }

  lemma {:induction false} LimitInsideSegments(cfg: Config, found: Option<Lookup>, stored: Published, from: int)
    requires Sane(cfg)
    ensures var edge := LimitEdge(cfg, found, stored, from);
            edge.Some? ==>
              && from < edge.value && edge.value % cfg.bs == 0
              && edge.value < Furthest(found.value.segments)
  {
    var edge := LimitEdge(cfg, found, stored, from);
    if edge.Some? {
      var runs := UsableRuns(found.value.segments, stored);
      var r :| r in runs && Usable(r, from, cfg.minMidPrefill, cfg.bs) && Edge(r, cfg.bs) == edge.value;
      var s :| s in found.value.segments && CutOf(r, s, stored);
      assert s.End() <= Furthest(found.value.segments);
    }
  }

  /** The two hooks as the scheduler meets them. What is published may change between any
      two consultations: the i-th one sees published(i). */
  type LimitHook = (nat, int) -> Option<int>
  type LoadHook = (nat, nat) -> nat

  function LimitHookOf(cfg: Config, found: Option<Lookup>, published: nat -> Published): LimitHook
    requires Sane(cfg)
  {
    (i: nat, from: int) => LimitEdge(cfg, found, published(i), from)
  }

  function LoadHookOf(cfg: Config, promptLen: nat, found: Option<Lookup>, published: nat -> Published): LoadHook
    requires Sane(cfg)
  {
    (i: nat, position: nat) => LoadCount(cfg, promptLen, position, found, published(i))
  }

  /** Every limit lies strictly ahead, on a block edge, below the bound. */
  ghost predicate LimitsAhead(limit: LimitHook, bound: int, bs: nat)
    requires bs > 0
  {
    forall i: nat, from: int | limit(i, from).Some? ::
      from < limit(i, from).value < bound && limit(i, from).value % bs == 0
  }

  /** Compute and load alternate until no run is left ahead. The walk terminates because
      every leg ends further towards the bound. */
  ghost function WalkOf(limit: LimitHook, load: LoadHook, bound: int, bs: nat, from: nat, i: nat): seq<Leg>
    requires bs > 0 && LimitsAhead(limit, bound, bs)
    decreases bound - from
  {
    var edge := limit(i, from);
    if edge.None? then []
    else
      var leg := Leg(edge.value, load(i + 1, edge.value));
      [leg] + WalkOf(limit, load, bound, bs, leg.edge + leg.count, i + 2)
  }

  lemma {:induction false} HooksStayAhead(cfg: Config, found: Option<Lookup>, published: nat -> Published)
    requires Sane(cfg) && found.Some?
    ensures LimitsAhead(LimitHookOf(cfg, found, published), Furthest(found.value.segments), cfg.bs)
  {
    var limit := LimitHookOf(cfg, found, published);
    forall i: nat, from: int | limit(i, from).Some?
      ensures from < limit(i, from).value < Furthest(found.value.segments) && limit(i, from).value % cfg.bs == 0
    {
      LimitInsideSegments(cfg, found, published(i), from);
    }
  }

  /** The walk of one request from a position, given its admission lookup. */
  ghost function Walk(cfg: Config, promptLen: nat, from: nat, found: Option<Lookup>, published: nat -> Published): seq<Leg>
    requires Sane(cfg)
  {
    if found.None? then []
    else
      HooksStayAhead(cfg, found, published);
      WalkOf(LimitHookOf(cfg, found, published), LoadHookOf(cfg, promptLen, found, published),
             Furthest(found.value.segments), cfg.bs, from, 0)
  }

  ghost predicate InOrder(legs: seq<Leg>, from: int)
  {
    (legs != [] ==> from < legs[0].edge) &&
    forall j, k | 0 <= j < k < |legs| :: legs[j].edge + legs[j].count < legs[k].edge
  }

  /** A whole number of blocks from a block edge; when anything is loaded, it clears the
      floor and leaves the prompt a token to compute. */
  predicate LegOk(leg: Leg, cfg: Config, promptLen: nat)
    requires Sane(cfg)
  {
    && leg.edge % cfg.bs == 0 && leg.count % cfg.bs == 0
    && (leg.count > 0 ==> leg.count >= cfg.minMidPrefill && leg.edge + leg.count < promptLen)
  }

  lemma {:induction false} LegAhead(leg: Leg, rest: seq<Leg>, from: int)
    requires from < leg.edge && InOrder(rest, leg.edge + leg.count)
    ensures InOrder([leg] + rest, from)
  {
    var legs := [leg] + rest;
    forall k | 0 < k < |legs|
      ensures leg.edge + leg.count < legs[k].edge
    {
      if k > 1 { assert rest[0].edge + rest[0].count < rest[k - 1].edge; }
    }
  }

  lemma {:induction false} LoadCountOk(
      cfg: Config, promptLen: nat, position: nat, found: Option<Lookup>, stored: Published)
    requires Sane(cfg) && position % cfg.bs == 0
    ensures LegOk(Leg(position, LoadCount(cfg, promptLen, position, found, stored)), cfg, promptLen)
  {
    MidPrefillPromise(cfg, promptLen, position, found, stored);
    Product(0, cfg.bs);
  }

  lemma {:induction false} LegsAdvance(
      limit: LimitHook, load: LoadHook, bound: int, cfg: Config, promptLen: nat, from: nat, i: nat)
    requires Sane(cfg) && LimitsAhead(limit, bound, cfg.bs)
    requires forall j: nat, p: nat | p % cfg.bs == 0 :: LegOk(Leg(p, load(j, p)), cfg, promptLen)
    ensures InOrder(WalkOf(limit, load, bound, cfg.bs, from, i), from)
    ensures forall leg | leg in WalkOf(limit, load, bound, cfg.bs, from, i) :: LegOk(leg, cfg, promptLen)
    decreases bound - from
  {
    var edge := limit(i, from);
    if edge.Some? {
      var leg := Leg(edge.value, load(i + 1, edge.value));
      LegsAdvance(limit, load, bound, cfg, promptLen, leg.edge + leg.count, i + 2);
      LegAhead(leg, WalkOf(limit, load, bound, cfg.bs, leg.edge + leg.count, i + 2), from);
    }
  }

  /** However records come and go, the legs strictly advance and their loads are disjoint,
      ordered, whole blocks that clear the floor and stay inside the prompt. */
  lemma {:induction false} WalkAdvances(
      cfg: Config, promptLen: nat, from: nat, found: Option<Lookup>, published: nat -> Published)
    requires Sane(cfg)
    ensures InOrder(Walk(cfg, promptLen, from, found, published), from)
    ensures forall leg | leg in Walk(cfg, promptLen, from, found, published) :: LegOk(leg, cfg, promptLen)
  {
    if found.Some? {
      HooksStayAhead(cfg, found, published);
      var load := LoadHookOf(cfg, promptLen, found, published);
      forall j: nat, p: nat | p % cfg.bs == 0
        ensures LegOk(Leg(p, load(j, p)), cfg, promptLen)
      {
        LoadCountOk(cfg, promptLen, p, found, published(j));
      }
      LegsAdvance(LimitHookOf(cfg, found, published), load, Furthest(found.value.segments), cfg, promptLen, from, 0);
    }
  }

  // ------------------------------------------------------- the floor at a limit

  /** When the limit's edge leaves room for the floor, the load planned there is served. */
  ghost predicate LimitIsServed(cfg: Config, promptLen: nat, from: nat, found: Option<Lookup>, stored: Published)
    requires Sane(cfg)
  {
    var edge := LimitEdge(cfg, found, stored, from);
    edge.Some? && edge.value + cfg.minMidPrefill <= CacheablePrefix(promptLen, cfg.bs) ==>
      LoadCount(cfg, promptLen, edge.value, found, stored) >= cfg.minMidPrefill
  }

  /** A whole-block floor that is offered at an edge with room behind it may be served there. */
  lemma {:induction false} OfferMayBeServed(
      cfg: Config, promptLen: nat, from: nat, edge: nat, found: Option<Lookup>, stored: Published)
    requires Sane(cfg) && cfg.minMidPrefill % cfg.bs == 0 && Reusable(cfg, found, stored, from, edge)
    requires edge + cfg.minMidPrefill <= CacheablePrefix(promptLen, cfg.bs)
    ensures MayServeRunning(cfg, promptLen, edge, found, stored, cfg.minMidPrefill)
  {
    var s :| s in found.value.segments && Offers(cfg, s, stored, from, edge);
    forall p | edge <= p < edge + cfg.minMidPrefill
      ensures ServedAt(found.value.segments, stored, p)
    {
      assert Serves(s, stored, p);
    }
  }

  lemma {:induction false} AlignedFloorIsServed(
      cfg: Config, promptLen: nat, from: nat, found: Option<Lookup>, stored: Published)
    requires Sane(cfg) && cfg.minMidPrefill % cfg.bs == 0
    ensures LimitIsServed(cfg, promptLen, from, found, stored)
  {
    var limit := LimitEdge(cfg, found, stored, from);
    if limit.Some? && limit.value + cfg.minMidPrefill <= CacheablePrefix(promptLen, cfg.bs) {
      LimitIsNearest(cfg, found, stored, from, limit.value);
      OfferMayBeServed(cfg, promptLen, from, limit.value, found, stored);
      MidPrefillServesMost(cfg, promptLen, limit.value, found, stored, cfg.minMidPrefill);
    }
  }

  /** The chain over one run of a ragged length ends on the block edge before the run's end. */
  lemma {:induction false} RaggedChainFallsShort(run: Run, floor: int, bs: int)
    requires bs > 0 && floor >= 1 && floor % bs != 0 && run == Run("d", 0, bs, floor)
    requires bs % bs == 0 && CeilTo(bs, bs) == bs
    ensures ChainEnd([run], bs, bs) < bs + floor
  {
    var runs := [run];
    assert Best(runs, bs) == Some(run);
    assert Best(runs, bs + floor).None?;
    assert Reach(runs, bs) == Reach(runs, bs + floor) == bs + floor;
    var end := ChainEnd(runs, bs, bs);
    if end == bs + floor {
      AlignedSum(end, bs, bs);
    }
  }

  /** A floor that is not a whole number of blocks can be advertised and then declined:
      one run of exactly floor tokens from a block edge. */
  lemma {:induction false} RaggedFloorIsDeclined(cfg: Config)
    returns (promptLen: nat, found: Option<Lookup>, stored: Published)
    requires Sane(cfg) && cfg.mode == SemanticSpanMode && cfg.minMidPrefill % cfg.bs != 0
    ensures !LimitIsServed(cfg, promptLen, 0, found, stored)
  {
    var bs, floor := cfg.bs, cfg.minMidPrefill;
    var run := Run("d", 0, bs, floor);
    found := Some(Lookup("d", SpanLoad, 0, [], false, [run]));
    stored := map["d" := CeilTo(floor, bs) as nat];
    promptLen := bs + floor + 2 * bs + 2;
    var runs := UsableRuns([run], stored);
    assert CutToStored(run, stored) == run;
    assert UsableRuns([run][1..], stored) == [];
    assert runs == [run];
    Unique(bs, bs, 1, 0);
    FloorFixed(bs, bs);
    assert run in runs && Usable(run, 0, floor, bs) && Edge(run, bs) == bs;
    assert LimitEdge(cfg, found, stored, 0) == Some(bs);
    AlignedSum(bs, CeilTo(floor, bs), bs);
    CacheableIsLargest(promptLen, bs, bs + CeilTo(floor, bs));
    RaggedChainFallsShort(run, floor, bs);
    HeadroomAligned(promptLen, bs, bs);
    ChainPromise(cfg, bs, [run], stored, Headroom(promptLen, bs, bs), floor, promptLen);
  }

  /** So the floor is honoured at every limit exactly when it is a block multiple. */
  lemma {:induction false} FloorServedIffBlockMultiple(cfg: Config)
    requires Sane(cfg) && cfg.mode == SemanticSpanMode
    ensures (forall promptLen, from, found, stored :: LimitIsServed(cfg, promptLen, from, found, stored)) <==>
            cfg.minMidPrefill % cfg.bs == 0
  {
    if cfg.minMidPrefill % cfg.bs == 0 {
      forall promptLen, from, found, stored
        ensures LimitIsServed(cfg, promptLen, from, found, stored)
      {
        AlignedFloorIsServed(cfg, promptLen, from, found, stored);
      }
    } else {
      var promptLen, found, stored := RaggedFloorIsDeclined(cfg);
    }
  }
}
