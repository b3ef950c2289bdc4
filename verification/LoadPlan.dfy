/** The scheduler role's load decisions: what the match hooks advertise and record. */
module LoadPlan {
  import opened Blocks
  import opened Segments
  import opened SemanticSpan

  datatype Mode = DiscoveryMode | ExactPrefixMode | RequestOnlyMode | SegmentedMode | SemanticSpanMode

  datatype Kind = DiscoveryOnly | ExactPrefix | RequestOnly | SpanLoad | Segmented

  datatype Config = Config(
    mode: Mode, bs: nat, minPrompt: nat, exactRatio: real, minBoundary: nat,
    minSpan: int, minMidPrefill: int, maxMaterialized: int,
    multiDonor: bool, allowNonIdentical: bool)

  /** The settings the connector is configured with: real blocks and floors of at least one. */
  predicate Sane(cfg: Config) { cfg.bs > 0 && cfg.minSpan >= 1 && cfg.minMidPrefill >= 1 }

  datatype Lookup = Lookup(
    donorId: string, kind: Kind, reusable: int, donorTokens: seq<int>, hasBlockRefs: bool, segments: seq<Run>)

  /** A recorded decision. Request-only loads carry no donor or target start. */
  datatype Plan = Plan(
    donorId: string, count: int, kind: Kind, boundary: nat,
    donorStart: Option<int>, targetStart: Option<int>, pieces: seq<Piece>)

  /** Published donor lengths; an unpublished donor counts for nothing. */
  type Published = map<string, nat>

  function StoredTokens(stored: Published, donorId: string): nat
  {
    if donorId in stored then stored[donorId] else 0
  }

  // ---------------------------------------------------------- what is usable

  /** A segment cut to what its donor has published. */
  function CutToStored(seg: Run, stored: Published): Run
  {
    seg.(length := Min(seg.length, StoredTokens(stored, seg.donorId) - seg.donorStart))
  }

  /** r is what is left of s: a prefix of it, inside the donor's record and cut nowhere short
      of it. */
  ghost predicate CutOf(r: Run, s: Run, stored: Published)
  {
    var published := if s.donorId in stored then stored[s.donorId] else 0;
    && r == s.(length := r.length) && 0 < r.length <= s.length && r.donorStart + r.length <= published
    && (r.length == s.length || r.donorStart + r.length == published)
  }

  function UsableRuns(segments: seq<Run>, stored: Published): (runs: seq<Run>)
    ensures forall r | r in runs :: exists s :: s in segments && CutOf(r, s, stored)
    ensures forall s, r | s in segments && CutOf(r, s, stored) :: r in runs
  {
    if segments == [] then []
    else
      var cut := CutToStored(segments[0], stored);
      assert segments[0] in segments && segments == [segments[0]] + segments[1..];
      var rest := UsableRuns(segments[1..], stored);
      if cut.length > 0 then [cut] + rest else rest
  }

  function OfDonor(segments: seq<Run>, donorId: string): (r: seq<Run>)
    ensures forall s :: s in r <==> s in segments && s.donorId == donorId
  {
    if segments == [] then []
    else (if segments[0].donorId == donorId then [segments[0]] else []) + OfDonor(segments[1..], donorId)
  }

  function DonorIds(segments: seq<Run>): set<string> { set s | s in segments :: s.donorId }

  function Headroom(promptLen: nat, boundary: nat, bs: nat): int
    requires bs > 0
  {
    Max(0, CacheablePrefix(promptLen, bs) - boundary)
  }

  // --------------------------------------------------------------- decisions

  function Sum(pieces: seq<Piece>): int
  {
    if pieces == [] then 0 else pieces[0].tokenCount + Sum(pieces[1..])
  }

  /** A plan for the chain's pieces, when they clear the floor. */
  function ChainPlan(pieces: seq<Piece>, boundary: nat, floor: int): Option<Plan>
    requires floor >= 1
  {
    if Sum(pieces) < floor then None
    else
      Some(Plan(pieces[0].donorId, Sum(pieces), SpanLoad, boundary,
                Some(pieces[0].donorStart), Some(boundary), pieces))
  }

  function MultiDonorSpan(cfg: Config, promptLen: nat, boundary: nat, segments: seq<Run>, stored: Published): Option<Plan>
    requires Sane(cfg)
  {
    var pieces := Chain(UsableRuns(segments, stored), boundary, cfg.bs);
    var cap := Min(FloorTo(cfg.maxMaterialized, cfg.bs), Headroom(promptLen, boundary, cfg.bs));
    ChainPlan(TrimPieces(pieces, boundary + cap), boundary, cfg.minSpan)
  }

  function SingleDonorSpan(cfg: Config, promptLen: nat, boundary: nat, result: Lookup, stored: Published): Option<Plan>
    requires Sane(cfg)
  {
    var raw := UsableRuns(OfDonor(result.segments, result.donorId), stored);
    var (supply, donorStart) := SupplyAtBoundary(Aligned(raw, cfg.bs, cfg.minSpan), boundary, cfg.bs);
    var count := Min(Min(supply, FloorTo(cfg.maxMaterialized, cfg.bs)), Headroom(promptLen, boundary, cfg.bs));
    if 0 < count < cfg.minSpan then None
    else if count > 0 && donorStart.Some? then
      Some(Plan(result.donorId, count, SpanLoad, boundary, donorStart, Some(CeilTo(boundary, cfg.bs)), []))
    else None
  }

  function SemanticSpanPlan(cfg: Config, promptLen: nat, boundary: nat, result: Lookup, stored: Published): Option<Plan>
    requires Sane(cfg)
  {
    if boundary % cfg.bs != 0 then None
    else if cfg.multiDonor && |DonorIds(result.segments)| > 1 then
      MultiDonorSpan(cfg, promptLen, boundary, result.segments, stored)
    else SingleDonorSpan(cfg, promptLen, boundary, result, stored)
  }

  function CommonPrefix(a: seq<int>, b: seq<int>): (n: nat)
    ensures n <= |a| && n <= |b| && a[..n] == b[..n]
    ensures n < |a| && n < |b| ==> a[n] != b[n]
  {
    if a == [] || b == [] || a[0] != b[0] then 0
    else
      var n := CommonPrefix(a[1..], b[1..]);
      assert a[..n + 1] == [a[0]] + a[1..][..n] && b[..n + 1] == [b[0]] + b[1..][..n];
      n + 1
  }

  function RequestOnlyPlan(cfg: Config, prompt: seq<int>, result: Lookup, stored: Published): Option<Plan>
    requires Sane(cfg)
  {
    var most := Min(Min(|prompt|, |result.donorTokens|), Min(StoredTokens(stored, result.donorId), cfg.maxMaterialized));
    var candidate := if cfg.allowNonIdentical then most else Min(most, CommonPrefix(result.donorTokens, prompt));
    var count := CacheablePrefix(candidate, cfg.bs);
    if count > 0 then Some(Plan(result.donorId, count, RequestOnly, 0, None, None, [])) else None
  }

  /** How far an exact match can be served: whole matched blocks, one prompt token held back. */
  function ExactEnd(cfg: Config, promptLen: nat, result: Lookup): int
    requires Sane(cfg)
  {
    Min(FloorTo(Min(result.reusable, promptLen), cfg.bs), CacheablePrefix(promptLen, cfg.bs))
  }

  function ExactPrefixPlan(cfg: Config, promptLen: nat, boundary: nat, result: Lookup): Option<Plan>
    requires Sane(cfg)
  {
    var reach := Max(0, ExactEnd(cfg, promptLen, result) - boundary);
    var count := FloorTo(Min(reach, cfg.maxMaterialized), cfg.bs);
    if count <= 0 then None
    else Some(Plan(result.donorId, count, result.kind, boundary, Some(boundary), Some(boundary), []))
  }

  /** The exits above the lookup that are decided from lengths alone. */
  predicate Gated(cfg: Config, promptLen: nat, boundary: nat)
  {
    || promptLen == 0 || promptLen < cfg.minPrompt
    || boundary as real / Max(promptLen, 1) as real >= cfg.exactRatio
    || boundary < cfg.minBoundary
    || (cfg.mode == SemanticSpanMode && Max(0, promptLen - boundary) < cfg.minSpan)
  }

  /** The plan a lookup result leads to, None for every declining exit. */
  function Decide(cfg: Config, prompt: seq<int>, boundary: nat, found: Option<Lookup>, stored: Published): Option<Plan>
    requires Sane(cfg)
  {
    if found.None? || cfg.mode == DiscoveryMode then None
    else
      var result := found.value;
      if cfg.mode == SemanticSpanMode && result.segments != [] then
        SemanticSpanPlan(cfg, |prompt|, boundary, result, stored)
      else if cfg.mode == RequestOnlyMode && result.donorTokens != [] && result.donorId in stored && boundary == 0 then
        RequestOnlyPlan(cfg, prompt, result, stored)
      else if result.kind == DiscoveryOnly then None
      else if cfg.mode == ExactPrefixMode && result.kind == ExactPrefix && result.hasBlockRefs && result.reusable > 0 then
        ExactPrefixPlan(cfg, |prompt|, boundary, result)
      else None
  }

  function MidPrefillPieces(cfg: Config, promptLen: nat, position: nat, segments: seq<Run>, stored: Published): seq<Piece>
    requires Sane(cfg)
  {
    TrimPieces(Chain(UsableRuns(segments, stored), position, cfg.bs),
               position + Headroom(promptLen, position, cfg.bs))
  }

  /** The load planned at a running prefill's position. */
  function MidPrefill(cfg: Config, promptLen: nat, position: nat, found: Option<Lookup>, stored: Published): Option<Plan>
    requires Sane(cfg)
  {
    if position % cfg.bs != 0 || cfg.mode != SemanticSpanMode || found.None? || found.value.segments == [] then None
    else ChainPlan(MidPrefillPieces(cfg, promptLen, position, found.value.segments, stored), position, cfg.minMidPrefill)
  }

  // ------------------------------------------------------------ load promise

  /** The plan as the pieces the worker will be handed. */
  function AsPieces(plan: Plan): seq<Piece>
  {
    if plan.pieces != [] then plan.pieces
    else
      var d := if plan.donorStart.Some? then plan.donorStart.value else 0;
      var t := if plan.targetStart.Some? then plan.targetStart.value else 0;
      [Piece(plan.donorId, d, t, plan.count)]
  }

  /** The pieces' donor windows lie inside what their donors have published. */
  ghost predicate WindowsPublished(pieces: seq<Piece>, stored: Published)
  {
    forall p | p in pieces ::
      0 <= p.donorStart && p.donorStart + p.tokenCount <= (if p.donorId in stored then stored[p.donorId] else 0)
  }

  /** What every positive answer at a boundary promises. */
  ghost predicate Promised(plan: Plan, cfg: Config, promptLen: nat, boundary: nat)
    requires Sane(cfg)
  {
    && plan.boundary == boundary
    && plan.count > 0 && plan.count % cfg.bs == 0
    && boundary + plan.count < promptLen
    && Tiles(AsPieces(plan), boundary, boundary + plan.count)
  }

  lemma {:induction false} TilesSum(pieces: seq<Piece>, from: int, to: int)
    requires Tiles(pieces, from, to)
    ensures Sum(pieces) == to - from
  {
    if pieces != [] { TilesSum(pieces[1..], pieces[0].End(), to); }
  }

  lemma {:induction false} SingletonTiles(p: Piece)
    requires p.tokenCount > 0
    ensures Tiles([p], p.targetStart, p.End())
  {
    assert [p][1..] == [];
  }

  /** Non-negative segment positions, as alignment produces them. */
  ghost predicate NonNegative(segments: seq<Run>)
  {
    forall s | s in segments :: s.donorStart >= 0 && s.targetStart >= 0
  }

  /** Pieces cut from usable runs are stretches of the segments themselves, at the segments'
      own donors and offsets, and inside the donors' records. */
  lemma {:induction false} DrawnWindows(pieces: seq<Piece>, segments: seq<Run>, stored: Published)
    requires DrawnFrom(pieces, UsableRuns(segments, stored))
    ensures DrawnFrom(pieces, segments)
    ensures NonNegative(segments) ==> WindowsPublished(pieces, stored)
  {
    forall p | p in pieces
      ensures exists s :: s in segments && Within(p, s)
      ensures NonNegative(segments) ==>
        0 <= p.donorStart && p.donorStart + p.tokenCount <= (if p.donorId in stored then stored[p.donorId] else 0)
    {
      var r :| r in UsableRuns(segments, stored) && Within(p, r);
      var s :| s in segments && CutOf(r, s, stored);
      assert Within(p, s);
    }
  }

  /** Where a chain cut `cap` tokens past its boundary ends. */
  function CutEnd(runs: seq<Run>, boundary: int, bs: int, cap: int): int
    requires bs > 0
  {
    Min(ChainEnd(runs, boundary, bs), boundary + Max(cap, 0))
  }

  lemma {:induction false} CutEndIsAligned(runs: seq<Run>, boundary: int, bs: int, cap: int)
    requires bs > 0 && boundary % bs == 0 && cap % bs == 0
    ensures boundary <= CutEnd(runs, boundary, bs, cap) && CutEnd(runs, boundary, bs, cap) % bs == 0
  {
    FloorFixed(boundary, bs);
    ChainTiles(runs, boundary, bs);
    AlignedSum(boundary, cap, bs);
  }

  lemma {:induction false} CutChainTiles(chain: seq<Piece>, runs: seq<Run>, boundary: int, end: int, cap: int)
    requires boundary <= end && Tiles(chain, boundary, end) && DrawnFrom(chain, runs)
    ensures var pieces := TrimPieces(chain, boundary + cap);
            Tiles(pieces, boundary, Min(end, boundary + Max(cap, 0))) && DrawnFrom(pieces, runs)
  {
    if cap < 0 {
      TrimPast(chain, boundary, end, boundary + cap);
    } else {
      TrimTiles(chain, boundary, end, boundary + cap);
      TrimStaysDrawn(chain, runs, boundary, end, boundary + cap);
    }
  }

  lemma {:induction false} CutTiles(runs: seq<Run>, boundary: int, bs: int, cap: int)
    requires bs > 0 && boundary % bs == 0 && cap % bs == 0
    ensures var pieces, end := TrimPieces(Chain(runs, boundary, bs), boundary + cap), CutEnd(runs, boundary, bs, cap);
            boundary <= end && end % bs == 0 && Tiles(pieces, boundary, end) && DrawnFrom(pieces, runs)
  {
    CutEndIsAligned(runs, boundary, bs, cap);
    FloorFixed(boundary, bs);
    ChainTiles(runs, boundary, bs);
    CutChainTiles(Chain(runs, boundary, bs), runs, boundary, ChainEnd(runs, boundary, bs), cap);
  }

  lemma {:induction false} TiledPlan(
      pieces: seq<Piece>, boundary: nat, end: int, floor: int, cfg: Config, promptLen: nat)
    requires Sane(cfg) && floor >= 1 && boundary % cfg.bs == 0 && end % cfg.bs == 0
    requires Tiles(pieces, boundary, end) && end - boundary <= Headroom(promptLen, boundary, cfg.bs)
    ensures ChainPlan(pieces, boundary, floor).Some? <==> end - boundary >= floor
    ensures var plan := ChainPlan(pieces, boundary, floor);
            plan.Some? ==>
              && Promised(plan.value, cfg, promptLen, boundary) && plan.value.count == end - boundary
              && AsPieces(plan.value) == pieces && plan.value.kind == SpanLoad
  {
    TilesSum(pieces, boundary, end);
    AlignedSum(end, boundary, cfg.bs);
    HeadroomAligned(promptLen, boundary, cfg.bs);
    TilesAdvance(pieces, boundary, end);
  }

  /** What a span plan is held to: the promise, its path's floor, and pieces that are published
      stretches of the lookup's segments. */
  ghost predicate SpanHolds(
      plan: Plan, cfg: Config, promptLen: nat, boundary: nat, floor: int, segments: seq<Run>, stored: Published)
    requires Sane(cfg)
  {
    && Promised(plan, cfg, promptLen, boundary) && plan.count >= floor
    && DrawnFrom(AsPieces(plan), segments)
    && (NonNegative(segments) ==> WindowsPublished(AsPieces(plan), stored))
  }

  /** The chain paths' promise: the plan exists exactly when the cut chain clears the floor. */
  lemma {:induction false} ChainPromise(
      cfg: Config, boundary: nat, segments: seq<Run>, stored: Published, cap: int, floor: int, promptLen: nat)
    requires Sane(cfg) && boundary % cfg.bs == 0 && cap % cfg.bs == 0 && floor >= 1
    requires cap <= Headroom(promptLen, boundary, cfg.bs)
    ensures var runs := UsableRuns(segments, stored);
            var plan := ChainPlan(TrimPieces(Chain(runs, boundary, cfg.bs), boundary + cap), boundary, floor);
            && (plan.Some? <==> CutEnd(runs, boundary, cfg.bs, cap) - boundary >= floor)
            && (plan.Some? ==>
                  && SpanHolds(plan.value, cfg, promptLen, boundary, floor, segments, stored)
                  && plan.value.count == CutEnd(runs, boundary, cfg.bs, cap) - boundary)
  {
    var runs := UsableRuns(segments, stored);
    var pieces := TrimPieces(Chain(runs, boundary, cfg.bs), boundary + cap);
    CutTiles(runs, boundary, cfg.bs, cap);
    TiledPlan(pieces, boundary, CutEnd(runs, boundary, cfg.bs, cap), floor, cfg, promptLen);
    DrawnWindows(pieces, segments, stored);
  }

  lemma {:induction false} HeadroomAligned(promptLen: nat, boundary: nat, bs: nat)
    requires bs > 0 && boundary % bs == 0
    ensures Headroom(promptLen, boundary, bs) % bs == 0
    ensures Headroom(promptLen, boundary, bs) > 0 ==> boundary + Headroom(promptLen, boundary, bs) < promptLen
  {
    AlignedSum(CacheablePrefix(promptLen, bs), boundary, bs);
    Product(0, bs);
  }

  lemma {:induction false} OneWindowPromise(cfg: Config, promptLen: nat, boundary: nat, plan: Plan)
    requires Sane(cfg) && boundary % cfg.bs == 0 && plan.pieces == []
    requires plan.boundary == boundary && plan.targetStart == Some(boundary)
    requires 0 < plan.count <= Headroom(promptLen, boundary, cfg.bs) && plan.count % cfg.bs == 0
    ensures Promised(plan, cfg, promptLen, boundary)
  {
    HeadroomAligned(promptLen, boundary, cfg.bs);
    SingletonTiles(AsPieces(plan)[0]);
  }

  lemma {:induction false} SingleDonorPromise(
      cfg: Config, promptLen: nat, boundary: nat, result: Lookup, stored: Published)
    requires Sane(cfg) && boundary % cfg.bs == 0
    ensures var plan := SingleDonorSpan(cfg, promptLen, boundary, result, stored);
            plan.Some? ==> SpanHolds(plan.value, cfg, promptLen, boundary, cfg.minSpan, result.segments, stored)
  {
    var plan := SingleDonorSpan(cfg, promptLen, boundary, result, stored);
    if plan.Some? {
      FloorFixed(boundary, cfg.bs);
      HeadroomAligned(promptLen, boundary, cfg.bs);
      var own := OfDonor(result.segments, result.donorId);
      SupplyIsDrawn(UsableRuns(own, stored), boundary, cfg.bs, cfg.minSpan, result.donorId, plan.value.count);
      OneWindowPromise(cfg, promptLen, boundary, plan.value);
      DrawnWindows(AsPieces(plan.value), own, stored);
    }
  }

  /** What the boundary's span supplies is a stretch of one of the donor's runs. */
  lemma {:induction false} SupplyIsDrawn(
      raw: seq<Run>, boundary: int, bs: int, minSpan: int, donorId: string, count: int)
    requires bs > 0 && boundary % bs == 0 && forall r | r in raw :: r.donorId == donorId
    requires 0 < count <= SupplyAtBoundary(Aligned(raw, bs, minSpan), boundary, bs).0
    ensures var supply := SupplyAtBoundary(Aligned(raw, bs, minSpan), boundary, bs);
            && supply.0 % bs == 0 && supply.1.Some?
            && DrawnFrom([Piece(donorId, supply.1.value, boundary, count)], raw)
  {
    var spans := Aligned(raw, bs, minSpan);
    AlignedSpansAreSound(raw, bs, minSpan);
    FloorFixed(boundary, bs);
    var supply := SupplyAtBoundary(spans, boundary, bs);
    var s :| s in spans && Supplies(s, boundary, supply);
    AlignedSum(s.targetEnd, boundary, bs);
    var r :| r in raw && InteriorOf(s, r, bs);
    assert Within(Piece(donorId, supply.1.value, boundary, count), r);
  }

  lemma {:induction false} MultiDonorPromise(
      cfg: Config, promptLen: nat, boundary: nat, segments: seq<Run>, stored: Published)
    requires Sane(cfg) && boundary % cfg.bs == 0
    ensures var plan := MultiDonorSpan(cfg, promptLen, boundary, segments, stored);
            plan.Some? ==> SpanHolds(plan.value, cfg, promptLen, boundary, cfg.minSpan, segments, stored)
  {
    HeadroomAligned(promptLen, boundary, cfg.bs);
    var cap := Min(FloorTo(cfg.maxMaterialized, cfg.bs), Headroom(promptLen, boundary, cfg.bs));
    ChainPromise(cfg, boundary, segments, stored, cap, cfg.minSpan, promptLen);
  }

  lemma {:induction false} SpanPromise(
      cfg: Config, promptLen: nat, boundary: nat, result: Lookup, stored: Published)
    requires Sane(cfg)
    ensures var plan := SemanticSpanPlan(cfg, promptLen, boundary, result, stored);
            plan.Some? ==> SpanHolds(plan.value, cfg, promptLen, boundary, cfg.minSpan, result.segments, stored)
  {
    if boundary % cfg.bs == 0 {
      MultiDonorPromise(cfg, promptLen, boundary, result.segments, stored);
      SingleDonorPromise(cfg, promptLen, boundary, result, stored);
    }
  }

  lemma {:induction false} RequestOnlyPromise(cfg: Config, prompt: seq<int>, result: Lookup, stored: Published)
    requires Sane(cfg)
    ensures var plan := RequestOnlyPlan(cfg, prompt, result, stored);
            plan.Some? ==>
              && Promised(plan.value, cfg, |prompt|, 0)
              && WindowsPublished(AsPieces(plan.value), stored)
  {
    var plan := RequestOnlyPlan(cfg, prompt, result, stored);
    if plan.Some? {
      SingletonTiles(AsPieces(plan.value)[0]);
    }
  }

  lemma {:induction false} ExactPrefixPromise(cfg: Config, promptLen: nat, boundary: nat, result: Lookup)
    requires Sane(cfg)
    ensures var plan := ExactPrefixPlan(cfg, promptLen, boundary, result);
            plan.Some? ==> Promised(plan.value, cfg, promptLen, boundary)
  {
    var plan := ExactPrefixPlan(cfg, promptLen, boundary, result);
    if plan.Some? {
      SingletonTiles(AsPieces(plan.value)[0]);
    }
  }

  /** Whose tokens a plan serves: on the span paths stretches of the lookup's segments, on the
      others the donor's prefix, or its window at the boundary; the plan's own donor and frames
      are its first piece's. */
  ghost predicate Attributed(plan: Plan, mode: Mode, boundary: nat, found: Lookup)
  {
    var first := AsPieces(plan)[0];
    match mode
    case SemanticSpanMode =>
      && plan.kind == SpanLoad && DrawnFrom(AsPieces(plan), found.segments)
      && plan.donorId == first.donorId
      && plan.donorStart == Some(first.donorStart) && plan.targetStart == Some(first.targetStart)
    case RequestOnlyMode =>
      && plan.kind == RequestOnly && AsPieces(plan) == [Piece(found.donorId, 0, 0, plan.count)]
      && plan.donorStart == None && plan.targetStart == None
    case _ =>
      && plan.kind == ExactPrefix && AsPieces(plan) == [Piece(found.donorId, boundary, boundary, plan.count)]
      && plan.donorStart == plan.targetStart == Some(boundary)
  }

  /** Every positive answer is a whole number of blocks that tiles [B, B + N), stays below
      the prompt's end and is what the plan records; it is attributed to the lookup's donors
      and offsets; on the span paths it clears the floor, and on the span and request-only
      paths each donor window is inside the donor's published length. */
  lemma {:induction false} LoadPromise(
      cfg: Config, prompt: seq<int>, boundary: nat, found: Option<Lookup>, stored: Published)
    requires Sane(cfg)
    ensures var plan := Decide(cfg, prompt, boundary, found, stored);
            plan.Some? ==>
              && Promised(plan.value, cfg, |prompt|, boundary)
              && Attributed(plan.value, cfg.mode, boundary, found.value)
              && (cfg.mode == SemanticSpanMode ==> plan.value.count >= cfg.minSpan)
              && (cfg.mode == RequestOnlyMode || (cfg.mode == SemanticSpanMode && NonNegative(found.value.segments)) ==>
                    WindowsPublished(AsPieces(plan.value), stored))
  {
    if found.Some? {
      if cfg.mode == SemanticSpanMode {
        SpanPromise(cfg, |prompt|, boundary, found.value, stored);
      } else if cfg.mode == RequestOnlyMode {
        RequestOnlyPromise(cfg, prompt, found.value, stored);
      } else {
        ExactPrefixPromise(cfg, |prompt|, boundary, found.value);
      }
    }
  }

  /** The same promise for a load taken in the middle of a prefill. */
  lemma {:induction false} MidPrefillPromise(
      cfg: Config, promptLen: nat, position: nat, found: Option<Lookup>, stored: Published)
    requires Sane(cfg)
    ensures var plan := MidPrefill(cfg, promptLen, position, found, stored);
            plan.Some? ==>
              && Promised(plan.value, cfg, promptLen, position)
              && Attributed(plan.value, SemanticSpanMode, position, found.value)
              && plan.value.count >= cfg.minMidPrefill
              && (NonNegative(found.value.segments) ==> WindowsPublished(AsPieces(plan.value), stored))
  {
    if MidPrefill(cfg, promptLen, position, found, stored).Some? {
      HeadroomAligned(promptLen, position, cfg.bs);
      ChainPromise(cfg, position, found.value.segments, stored, Headroom(promptLen, position, cfg.bs),
                   cfg.minMidPrefill, promptLen);
    }
  }

  /** When the segments stand for token-identical positions, every position a span plan
      serves holds its donor's own token. */
  lemma {:induction false} ServedTokensAgree(
      plan: Plan, boundary: nat, found: Lookup, store: map<string, seq<int>>, prompt: seq<int>, piece: Piece, i: nat)
    requires Attributed(plan, SemanticSpanMode, boundary, found)
    requires forall p | p in Expand(found.segments) :: Identical(p, store, prompt)
    requires piece in AsPieces(plan) && i < piece.tokenCount
    ensures Identical(Pair(piece.donorId, piece.donorStart + i, piece.targetStart + i), store, prompt)
  {
    var s :| s in found.segments && Within(piece, s);
    var offset := piece.targetStart + i - s.targetStart;
    ExpandHolds(found.segments, s, offset);
  }

  // --------------------------------------------------------- how much is served

  /** Position p is inside the segment, at a donor position the donor has published. */
  ghost predicate Serves(s: Run, stored: Published, p: int)
  {
    var published := if s.donorId in stored then stored[s.donorId] else 0;
    s.targetStart <= p < s.targetStart + s.length && s.donorStart + (p - s.targetStart) < published
  }

  ghost predicate ServedAt(segments: seq<Run>, stored: Published, p: int)
  {
    exists s :: s in segments && Serves(s, stored, p)
  }

  ghost predicate TwoDonors(segments: seq<Run>)
  {
    exists s, t :: s in segments && t in segments && s.donorId != t.donorId
  }

  /** One aligned span of the lookup's own donor holds [from, to). */
  ghost predicate OneSpanServes(cfg: Config, found: Lookup, stored: Published, from: int, to: int)
    requires Sane(cfg)
  {
    exists s :: s in Aligned(UsableRuns(OfDonor(found.segments, found.donorId), stored), cfg.bs, cfg.minSpan) &&
      s.targetStart <= from && to <= s.targetEnd
  }

  /** k tokens from the boundary on may be served: whole blocks that leave the prompt's last
      token to compute, within the mode's floor, budget and supply. */
  ghost predicate MayServe(
      cfg: Config, prompt: seq<int>, boundary: nat, found: Option<Lookup>, stored: Published, k: int)
    requires Sane(cfg)
  {
    && found.Some? && k > 0 && k % cfg.bs == 0 && k <= cfg.maxMaterialized && boundary + k + 2 <= |prompt|
    && match cfg.mode
       case SemanticSpanMode =>
         && boundary % cfg.bs == 0 && k >= cfg.minSpan
         && (if cfg.multiDonor && TwoDonors(found.value.segments)
             then forall p | boundary <= p < boundary + k :: ServedAt(found.value.segments, stored, p)
             else OneSpanServes(cfg, found.value, stored, boundary, boundary + k))
       case RequestOnlyMode =>
         && boundary == 0 && found.value.donorId in stored
         && k + 2 <= stored[found.value.donorId] && k + 2 <= |found.value.donorTokens| && k + 2 <= cfg.maxMaterialized
         && (cfg.allowNonIdentical || forall i | 0 <= i < k + 2 :: found.value.donorTokens[i] == prompt[i])
       case ExactPrefixMode =>
         && found.value.kind == ExactPrefix && found.value.hasBlockRefs
         && exists e :: e % cfg.bs == 0 && boundary + k <= e <= found.value.reusable && e + 2 <= |prompt|
       case _ => false
  }

  lemma {:induction false} ServedIsCovered(segments: seq<Run>, stored: Published, p: int)
    ensures Covered(UsableRuns(segments, stored), p) <==> ServedAt(segments, stored, p)
  {
    var runs := UsableRuns(segments, stored);
    if Covered(runs, p) {
      var r :| r in runs && r.Covers(p);
      var s :| s in segments && CutOf(r, s, stored);
      assert Serves(s, stored, p);
    }
    if ServedAt(segments, stored, p) {
      var s :| s in segments && Serves(s, stored, p);
      var published := if s.donorId in stored then stored[s.donorId] else 0;
      var r := s.(length := Min(s.length, published - s.donorStart));
      assert CutOf(r, s, stored) && r.Covers(p);
    }
  }

  /** The cut chain holds k more tokens exactly when the cap does and every position is served. */
  lemma {:induction false} ChainHolds(
      segments: seq<Run>, stored: Published, boundary: nat, bs: int, cap: int, k: int)
    requires bs > 0 && boundary % bs == 0 && cap % bs == 0 && k > 0 && k % bs == 0
    ensures k <= CutEnd(UsableRuns(segments, stored), boundary, bs, cap) - boundary <==>
            k <= cap && forall p | boundary <= p < boundary + k :: ServedAt(segments, stored, p)
  {
    var runs := UsableRuns(segments, stored);
    FloorFixed(boundary, bs);
    ReachIsFirstGap(runs, boundary);
    var gap := Reach(runs, boundary);
    ServedIsCovered(segments, stored, gap);
    forall p
      ensures Covered(runs, p) <==> ServedAt(segments, stored, p)
    {
      ServedIsCovered(segments, stored, p);
    }
    AlignedSum(boundary, k, bs);
    AlignedBounds(boundary + k, gap, bs);
    assert boundary + k > gap ==> boundary <= gap < boundary + k;
  }

  lemma {:induction false} HeadroomHolds(promptLen: nat, boundary: nat, bs: nat, k: int)
    requires bs > 0 && boundary % bs == 0 && k > 0 && k % bs == 0
    ensures k <= Headroom(promptLen, boundary, bs) <==> boundary + k + 2 <= promptLen
  {
    AlignedSum(boundary, k, bs);
    CacheableIsLargest(promptLen, bs, boundary + k);
  }

  lemma {:induction false} DonorIdsAreTwo(segments: seq<Run>)
    ensures |DonorIds(segments)| > 1 <==> TwoDonors(segments)
  {
    var ids := DonorIds(segments);
    if segments != [] {
      var d := segments[0].donorId;
      assert d in ids;
      if |ids| > 1 {
        assert ids != {d};
        var e :| e in ids && e != d;
        var t :| t in segments && t.donorId == e;
        assert segments[0] in segments && t.donorId != segments[0].donorId;
      } else {
        assert |ids - {d}| == 0;
        forall s | s in segments
          ensures s.donorId == d
        {
          assert s.donorId in ids;
          assert s.donorId !in ids - {d};
        }
      }
    } else {
      assert ids == {};
    }
  }

  /** The count of a plan from the cut chain is the largest k at or above the floor that
      the cap and the served positions allow. */
  lemma {:induction false} ChainServesMost(
      cfg: Config, boundary: nat, segments: seq<Run>, stored: Published, cap: int, floor: int, promptLen: nat, k: int)
    requires Sane(cfg) && boundary % cfg.bs == 0 && cap % cfg.bs == 0 && floor >= 1
    requires cap <= Headroom(promptLen, boundary, cfg.bs)
    requires k > 0 && k % cfg.bs == 0
    ensures var runs := UsableRuns(segments, stored);
            var plan := ChainPlan(TrimPieces(Chain(runs, boundary, cfg.bs), boundary + cap), boundary, floor);
            var allowed := k <= cap && forall p | boundary <= p < boundary + k :: ServedAt(segments, stored, p);
            && (plan.Some? && k == plan.value.count ==> allowed && k >= floor)
            && (allowed && k >= floor ==> plan.Some? && k <= plan.value.count)
  {
    ChainPromise(cfg, boundary, segments, stored, cap, floor, promptLen);
    ChainHolds(segments, stored, boundary, cfg.bs, cap, k);
  }

  lemma {:induction false} CapHolds(promptLen: nat, boundary: nat, bs: nat, budget: int, k: int)
    requires bs > 0 && boundary % bs == 0 && k > 0 && k % bs == 0
    ensures Min(FloorTo(budget, bs), Headroom(promptLen, boundary, bs)) % bs == 0
    ensures k <= Min(FloorTo(budget, bs), Headroom(promptLen, boundary, bs)) <==>
            k <= budget && boundary + k + 2 <= promptLen
  {
    HeadroomAligned(promptLen, boundary, bs);
    HeadroomHolds(promptLen, boundary, bs, k);
    AlignedBounds(k, budget, bs);
  }

  lemma {:induction false} MultiDonorServesMost(
      cfg: Config, prompt: seq<int>, boundary: nat, found: Lookup, stored: Published, k: int)
    requires Sane(cfg) && boundary % cfg.bs == 0 && k > 0 && k % cfg.bs == 0
    requires cfg.mode == SemanticSpanMode && cfg.multiDonor && TwoDonors(found.segments)
    ensures var plan := MultiDonorSpan(cfg, |prompt|, boundary, found.segments, stored);
            && (plan.Some? && k == plan.value.count ==> MayServe(cfg, prompt, boundary, Some(found), stored, k))
            && (MayServe(cfg, prompt, boundary, Some(found), stored, k) ==> plan.Some? && k <= plan.value.count)
  {
    var cap := Min(FloorTo(cfg.maxMaterialized, cfg.bs), Headroom(|prompt|, boundary, cfg.bs));
    CapHolds(|prompt|, boundary, cfg.bs, cfg.maxMaterialized, k);
    ChainServesMost(cfg, boundary, found.segments, stored, cap, cfg.minSpan, |prompt|, k);
  }

  lemma {:induction false} OneSpanAt(
      spans: seq<BlockSpan>, cursor: int, bs: int, minSpan: int, s: BlockSpan, t: BlockSpan, p: int)
    requires bs > 0 && WellPlaced(spans, cursor, bs, minSpan) && s in spans && t in spans
    requires s.targetStart <= p < s.targetEnd && t.targetStart <= p < t.targetEnd
    ensures s == t
  {
    var i, j :| 0 <= i < |spans| && 0 <= j < |spans| && spans[i] == s && spans[j] == t;
  }

  /** The supply at an aligned boundary holds k tokens exactly when one aligned span does. */
  lemma {:induction false} SupplyHolds(raw: seq<Run>, boundary: int, bs: int, minSpan: int, k: int)
    requires bs > 0 && boundary % bs == 0 && k > 0
    ensures k <= SupplyAtBoundary(Aligned(raw, bs, minSpan), boundary, bs).0 <==>
            exists s :: s in Aligned(raw, bs, minSpan) && s.targetStart <= boundary && boundary + k <= s.targetEnd
  {
    var spans := Aligned(raw, bs, minSpan);
    AlignedSpansAreSound(raw, bs, minSpan);
    FloorFixed(boundary, bs);
    var supply := SupplyAtBoundary(spans, boundary, bs);
    if supply.0 > 0 {
      var s :| s in spans && Supplies(s, boundary, supply);
      forall t | t in spans && t.targetStart <= boundary && boundary + k <= t.targetEnd
        ensures t == s
      {
        OneSpanAt(spans, 0, bs, minSpan, s, t, boundary);
      }
    }
  }

  lemma {:induction false} SingleDonorServesMost(
      cfg: Config, prompt: seq<int>, boundary: nat, found: Lookup, stored: Published, k: int)
    requires Sane(cfg) && boundary % cfg.bs == 0 && k > 0 && k % cfg.bs == 0
    requires cfg.mode == SemanticSpanMode && !(cfg.multiDonor && TwoDonors(found.segments))
    ensures var plan := SingleDonorSpan(cfg, |prompt|, boundary, found, stored);
            && (plan.Some? && k == plan.value.count ==> MayServe(cfg, prompt, boundary, Some(found), stored, k))
            && (MayServe(cfg, prompt, boundary, Some(found), stored, k) ==> plan.Some? && k <= plan.value.count)
  {
    var raw := UsableRuns(OfDonor(found.segments, found.donorId), stored);
    var supply := SupplyAtBoundary(Aligned(raw, cfg.bs, cfg.minSpan), boundary, cfg.bs);
    SupplyHolds(raw, boundary, cfg.bs, cfg.minSpan, k);
    HeadroomHolds(|prompt|, boundary, cfg.bs, k);
    AlignedBounds(k, cfg.maxMaterialized, cfg.bs);
    assert OneSpanServes(cfg, found, stored, boundary, boundary + k) <==> k <= supply.0;
  }

  lemma {:induction false} RequestOnlyServesMost(
      cfg: Config, prompt: seq<int>, found: Lookup, stored: Published, k: int)
    requires Sane(cfg) && k > 0 && k % cfg.bs == 0
    requires cfg.mode == RequestOnlyMode && found.donorId in stored
    ensures var plan := RequestOnlyPlan(cfg, prompt, found, stored);
            && (plan.Some? && k == plan.value.count ==> MayServe(cfg, prompt, 0, Some(found), stored, k))
            && (MayServe(cfg, prompt, 0, Some(found), stored, k) ==> plan.Some? && k <= plan.value.count)
  {
    var donor := found.donorTokens;
    var n := CommonPrefix(donor, prompt);
    assert forall i | 0 <= i < n :: donor[i] == prompt[i] by {
      assert forall i | 0 <= i < n :: donor[i] == donor[..n][i] && prompt[i] == prompt[..n][i];
    }
    assert k + 2 <= |donor| && k + 2 <= |prompt| ==>
      (k + 2 <= n <==> forall i | 0 <= i < k + 2 :: donor[i] == prompt[i]);
    var most := Min(Min(|prompt|, |donor|), Min(StoredTokens(stored, found.donorId), cfg.maxMaterialized));
    CacheableIsLargest(if cfg.allowNonIdentical then most else Min(most, n), cfg.bs, k);
  }

  lemma {:induction false} ExactPrefixServesMost(
      cfg: Config, prompt: seq<int>, boundary: nat, found: Lookup, stored: Published, k: int)
    requires Sane(cfg) && k > 0 && k % cfg.bs == 0
    requires cfg.mode == ExactPrefixMode && found.kind == ExactPrefix && found.hasBlockRefs
    ensures var plan := ExactPrefixPlan(cfg, |prompt|, boundary, found);
            && (plan.Some? && k == plan.value.count ==> MayServe(cfg, prompt, boundary, Some(found), stored, k))
            && (MayServe(cfg, prompt, boundary, Some(found), stored, k) ==> plan.Some? && k <= plan.value.count)
  {
    var end := ExactEnd(cfg, |prompt|, found);
    AlignedBounds(k, Min(Max(0, end - boundary), cfg.maxMaterialized), cfg.bs);
    if boundary + k <= end {
      assert end % cfg.bs == 0 && boundary + k <= end <= found.reusable && end + 2 <= |prompt|;
    }
    forall e | e % cfg.bs == 0 && boundary + k <= e <= found.reusable && e + 2 <= |prompt|
      ensures e <= end
    {
      AlignedBounds(e, Min(found.reusable, |prompt|), cfg.bs);
      CacheableIsLargest(|prompt|, cfg.bs, e);
    }
  }

  /** n is the largest number of tokens that may be served, 0 when there is none. */
  ghost predicate Most(cfg: Config, prompt: seq<int>, boundary: nat, found: Option<Lookup>, stored: Published, n: int)
    requires Sane(cfg)
  {
    (n != 0 ==> MayServe(cfg, prompt, boundary, found, stored, n)) &&
    forall k :: MayServe(cfg, prompt, boundary, found, stored, k) ==> k <= n
  }

  lemma {:induction false} NobodyAnswers(cfg: Config, prompt: seq<int>, boundary: nat, stored: Published)
    requires Sane(cfg)
    ensures Most(cfg, prompt, boundary, None, stored, 0)
  {
  }

  lemma {:induction false} DecisionWeighs(
      cfg: Config, prompt: seq<int>, boundary: nat, found: Lookup, stored: Published, k: int)
    requires Sane(cfg) && k > 0 && k % cfg.bs == 0
    ensures var plan := Decide(cfg, prompt, boundary, Some(found), stored);
            && (plan.Some? && k == plan.value.count ==> MayServe(cfg, prompt, boundary, Some(found), stored, k))
            && (MayServe(cfg, prompt, boundary, Some(found), stored, k) ==> plan.Some? && k <= plan.value.count)
  {
    match cfg.mode
    case SemanticSpanMode =>
      if boundary % cfg.bs == 0 {
        DonorIdsAreTwo(found.segments);
        if cfg.multiDonor && TwoDonors(found.segments) {
          MultiDonorServesMost(cfg, prompt, boundary, found, stored, k);
        } else {
          SingleDonorServesMost(cfg, prompt, boundary, found, stored, k);
        }
        if found.segments == [] { NothingFromNothing(cfg, prompt, boundary, found, stored, k); }
      }
    case RequestOnlyMode =>
      if found.donorId in stored { RequestOnlyServesMost(cfg, prompt, found, stored, k); }
    case ExactPrefixMode =>
      if found.kind == ExactPrefix && found.hasBlockRefs {
        ExactPrefixServesMost(cfg, prompt, boundary, found, stored, k);
      }
    case _ =>
  }

  lemma {:induction false} NothingFromNothing(
      cfg: Config, prompt: seq<int>, boundary: nat, found: Lookup, stored: Published, k: int)
    requires Sane(cfg) && cfg.mode == SemanticSpanMode && found.segments == []
    ensures !MayServe(cfg, prompt, boundary, Some(found), stored, k)
  {
    AlignedSpansAreSound(UsableRuns(OfDonor(found.segments, found.donorId), stored), cfg.bs, cfg.minSpan);
  }

  /** A decision serves as much as it may: its count may be served, nothing larger may, and it
      declines only when nothing may be served at all. */
  lemma {:induction false} DecisionServesMost(
      cfg: Config, prompt: seq<int>, boundary: nat, found: Option<Lookup>, stored: Published)
    requires Sane(cfg)
    ensures var plan := Decide(cfg, prompt, boundary, found, stored);
            Most(cfg, prompt, boundary, found, stored, if plan.Some? then plan.value.count else 0)
  {
    LoadPromise(cfg, prompt, boundary, found, stored);
    var plan := Decide(cfg, prompt, boundary, found, stored);
    if plan.Some? {
      DecisionWeighs(cfg, prompt, boundary, found.value, stored, plan.value.count);
    }
    forall k: int | MayServe(cfg, prompt, boundary, found, stored, k)
      ensures plan.Some? && k <= plan.value.count
    {
      DecisionWeighs(cfg, prompt, boundary, found.value, stored, k);
    }
  }

  /** When the exits above the lookup let a request through: its prompt is long enough, less
      of it than the configured share is computed, the boundary is past the floor, and a span
      still fits behind it. */
  ghost predicate WorthAsking(cfg: Config, promptLen: nat, boundary: nat)
  {
    && 0 < promptLen && cfg.minPrompt <= promptLen
    && boundary as real < cfg.exactRatio * promptLen as real
    && cfg.minBoundary <= boundary
    && (cfg.mode == SemanticSpanMode ==> boundary + cfg.minSpan <= promptLen)
  }

  lemma {:induction false} GatedUnlessWorthAsking(cfg: Config, promptLen: nat, boundary: nat)
    requires Sane(cfg)
    ensures Gated(cfg, promptLen, boundary) <==> !WorthAsking(cfg, promptLen, boundary)
  {
    if promptLen > 0 {
      var n := promptLen as real;
      var share := boundary as real / n;
      assert boundary as real == share * n;
      assert share < cfg.exactRatio <==> share * n < cfg.exactRatio * n by { Scaled(share, cfg.exactRatio, n); }
    }
  }

  lemma {:induction false} Scaled(a: real, b: real, n: real)
    requires n > 0.0
    ensures a < b <==> a * n < b * n
  {
    assert (b - a) * n == b * n - a * n;
    assert a < b ==> (b - a) * n > 0.0;
    assert a >= b ==> (a - b) * n >= 0.0;
  }

  /** The last of those exits loses no load: behind it no lookup could have ended in one. */
  lemma {:induction false} ShortTailServesNothing(
      cfg: Config, prompt: seq<int>, boundary: nat, found: Option<Lookup>, stored: Published)
    requires Sane(cfg) && cfg.mode == SemanticSpanMode && |prompt| < boundary + cfg.minSpan
    ensures Decide(cfg, prompt, boundary, found, stored).None?
  {
    LoadPromise(cfg, prompt, boundary, found, stored);
    DecisionServesMost(cfg, prompt, boundary, found, stored);
  }

  /** k tokens past a running prefill's position may be served: the same, with the segment
      floor in place of the span floor and no budget. */
  ghost predicate MayServeRunning(
      cfg: Config, promptLen: nat, position: nat, found: Option<Lookup>, stored: Published, k: int)
    requires Sane(cfg)
  {
    && found.Some? && cfg.mode == SemanticSpanMode && position % cfg.bs == 0
    && k % cfg.bs == 0 && k >= cfg.minMidPrefill && position + k + 2 <= promptLen
    && forall p | position <= p < position + k :: ServedAt(found.value.segments, stored, p)
  }

  /** A running prefill's load, too, serves as much as it may, and declines only when nothing
      may be served. */
  lemma {:induction false} MidPrefillServesMost(
      cfg: Config, promptLen: nat, position: nat, found: Option<Lookup>, stored: Published, k: int)
    requires Sane(cfg)
    ensures var plan := MidPrefill(cfg, promptLen, position, found, stored);
            && (plan.Some? ==> MayServeRunning(cfg, promptLen, position, found, stored, plan.value.count))
            && (MayServeRunning(cfg, promptLen, position, found, stored, k) ==> plan.Some? && k <= plan.value.count)
  {
    MidPrefillPromise(cfg, promptLen, position, found, stored);
    var plan := MidPrefill(cfg, promptLen, position, found, stored);
    if plan.Some? {
      MidPrefillWeighs(cfg, promptLen, position, found.value, stored, plan.value.count);
    }
    if MayServeRunning(cfg, promptLen, position, found, stored, k) {
      assert found.value.segments != [] by { assert ServedAt(found.value.segments, stored, position); }
      MidPrefillWeighs(cfg, promptLen, position, found.value, stored, k);
    }
  }

  lemma {:induction false} MidPrefillWeighs(
      cfg: Config, promptLen: nat, position: nat, found: Lookup, stored: Published, k: int)
    requires Sane(cfg) && k > 0 && k % cfg.bs == 0 && found.segments != []
    requires cfg.mode == SemanticSpanMode && position % cfg.bs == 0
    ensures var plan, may := MidPrefill(cfg, promptLen, position, Some(found), stored),
                             MayServeRunning(cfg, promptLen, position, Some(found), stored, k);
            (plan.Some? && k == plan.value.count ==> may) && (may ==> plan.Some? && k <= plan.value.count)
  {
    HeadroomAligned(promptLen, position, cfg.bs);
    ChainServesMost(cfg, position, found.segments, stored, Headroom(promptLen, position, cfg.bs),
                    cfg.minMidPrefill, promptLen, k);
    HeadroomHolds(promptLen, position, cfg.bs, k);
  }

  /** A request-only load under the strict policy covers only identical tokens. */
  lemma {:induction false} RequestOnlyIsIdentical(cfg: Config, prompt: seq<int>, result: Lookup, stored: Published)
    requires Sane(cfg) && !cfg.allowNonIdentical
    ensures var plan := RequestOnlyPlan(cfg, prompt, result, stored);
            plan.Some? ==>
              && 0 < plan.value.count <= |prompt| && plan.value.count <= |result.donorTokens|
              && prompt[..plan.value.count] == result.donorTokens[..plan.value.count]
  {
    var plan := RequestOnlyPlan(cfg, prompt, result, stored);
    if plan.Some? {
      var n := CommonPrefix(result.donorTokens, prompt);
      assert prompt[..plan.value.count] == prompt[..n][..plan.value.count];
      assert result.donorTokens[..plan.value.count] == result.donorTokens[..n][..plan.value.count];
    }
  }

  /** The exact-prefix path never consults the donor's published length. From an aligned
      boundary with room in the budget its window is published exactly when the donor's
      record reaches the end of the servable match; in general, when it reaches that end cut
      to the budget in whole blocks past the boundary. */
  lemma {:induction false} ExactPrefixWindow(
      cfg: Config, promptLen: nat, boundary: nat, result: Lookup, stored: Published)
    requires Sane(cfg)
    requires ExactPrefixPlan(cfg, promptLen, boundary, result).Some?
    ensures var published := WindowsPublished(AsPieces(ExactPrefixPlan(cfg, promptLen, boundary, result).value), stored);
            var end := ExactEnd(cfg, promptLen, result);
            && (boundary % cfg.bs == 0 && cfg.maxMaterialized >= promptLen ==>
                  (published <==> end <= StoredTokens(stored, result.donorId)))
            && (published <==>
                  boundary + FloorTo(Min(end - boundary, cfg.maxMaterialized), cfg.bs)
                  <= StoredTokens(stored, result.donorId))
  {
    var plan := ExactPrefixPlan(cfg, promptLen, boundary, result).value;
    var end := ExactEnd(cfg, promptLen, result);
    FloorFixed(0, cfg.bs);
    var piece := AsPieces(plan)[0];
    assert piece in AsPieces(plan);
    assert piece.donorStart + piece.tokenCount == boundary + plan.count;
    if boundary % cfg.bs == 0 {
      AlignedSum(end, boundary, cfg.bs);
      FloorFixed(end - boundary, cfg.bs);
    }
  }

  /** What a caller can check before a decision: span segments sit at non-negative positions,
      and an exact match, cut to the budget, ends inside the donor's record. */
  ghost predicate Vouched(cfg: Config, promptLen: nat, boundary: nat, found: Lookup, stored: Published)
    requires Sane(cfg)
  {
    match cfg.mode
    case SemanticSpanMode => NonNegative(found.segments)
    case ExactPrefixMode =>
      var end := ExactEnd(cfg, promptLen, found);
      boundary + FloorTo(Min(end - boundary, cfg.maxMaterialized), cfg.bs) <= StoredTokens(stored, found.donorId)
    case _ => true
  }

  /** Then every donor window of the decided plan lies inside its donor's record; on the
      exact-prefix path, only then. */
  lemma {:induction false} VouchedIsPublished(
      cfg: Config, prompt: seq<int>, boundary: nat, found: Lookup, stored: Published)
    requires Sane(cfg) && Decide(cfg, prompt, boundary, Some(found), stored).Some?
    ensures var published := WindowsPublished(AsPieces(Decide(cfg, prompt, boundary, Some(found), stored).value), stored);
            && (Vouched(cfg, |prompt|, boundary, found, stored) ==> published)
            && (cfg.mode == ExactPrefixMode && published ==> Vouched(cfg, |prompt|, boundary, found, stored))
  {
    LoadPromise(cfg, prompt, boundary, Some(found), stored);
    if cfg.mode == ExactPrefixMode {
      ExactPrefixWindow(cfg, |prompt|, boundary, found, stored);
    }
  }

  /** So it can advertise tokens no record vouches for. */
  lemma {:induction false} ExactPrefixCanOutrunItsDonor()
    ensures exists cfg: Config, prompt: seq<int>, found: Option<Lookup>, stored: Published ::
      && Sane(cfg) && Decide(cfg, prompt, 0, found, stored).Some?
      && !WindowsPublished(AsPieces(Decide(cfg, prompt, 0, found, stored).value), stored)
  {
    var cfg := Config(ExactPrefixMode, 4, 0, 1.0, 0, 1, 1, 100, false, false);
    var prompt := seq(10, _ => 7);
    var found := Some(Lookup("d", ExactPrefix, 8, [], true, []));
    var plan := Decide(cfg, prompt, 0, found, map[]);
    assert FloorTo(8, 4) == 8 && CacheablePrefix(10, 4) == 8;
    assert plan.Some? && plan.value.count == 8;
    var piece := AsPieces(plan.value)[0];
    assert piece in AsPieces(plan.value) && piece.tokenCount == 8 && piece.donorStart == 0;
    assert StoredTokens(map[], piece.donorId) == 0;
  }

  // ------------------------------------------------------------ planner state

  /** The scheduler role's memo of lookups and load decisions, per request. */
  class Planner {
    const cfg: Config
    var lookups: map<string, Option<Lookup>>
    var plans: map<string, Plan>

    constructor (cfg: Config)
      ensures this.cfg == cfg && lookups == map[] && plans == map[]
    {
      this.cfg := cfg;
      lookups := map[];
      plans := map[];
    }

    /** The memoized lookup, or what the provider answers now; None when it raised. */
    function Answer(request: string, provider: Option<Option<Lookup>>): Option<Lookup>
      reads this
    {
      if request in lookups then lookups[request]
      else if provider.Some? then provider.value
      else None
    }

    /** The match hook: the count it advertises is the count of the plan it records, and an
        exit that advertises nothing leaves every plan alone. */
    method GetNumNewMatchedTokens(request: string, prompt: seq<int>, computed: nat,
        ruledOut: bool, provider: Option<Option<Lookup>>, stored: Published) returns (n: int)
      requires Sane(cfg)
      modifies this
      ensures var asked := WorthAsking(cfg, |prompt|, computed) && !ruledOut;
              && lookups == (if asked && request !in old(lookups) && provider.Some?
                             then old(lookups)[request := provider.value] else old(lookups))
              && (var plan := if asked then Decide(cfg, prompt, computed, old(Answer(request, provider)), stored) else None;
                  if plan.Some? then n == plan.value.count && plans == old(plans)[request := plan.value]
                  else n == 0 && plans == old(plans))
      ensures n != 0 ==> n > 0 && n % cfg.bs == 0 && computed + n < |prompt|
      ensures n != 0 ==> request in plans && plans[request].count == n && plans[request].boundary == computed
      ensures var found := old(Answer(request, provider));
              WorthAsking(cfg, |prompt|, computed) && !ruledOut ==> Most(cfg, prompt, computed, found, stored, n)
    {
      GatedUnlessWorthAsking(cfg, |prompt|, computed);
      if Gated(cfg, |prompt|, computed) || ruledOut {
        return 0;
      }
      var found: Option<Lookup> := None;
      if request in lookups {
        found := lookups[request];
      } else if provider.None? {
        NobodyAnswers(cfg, prompt, computed, stored);
        return 0;
      } else {
        found := provider.value;
        lookups := lookups[request := found];
      }
      var plan := Decide(cfg, prompt, computed, found, stored);
      DecisionServesMost(cfg, prompt, computed, found, stored);
      if plan.None? {
        return 0;
      }
      LoadPromise(cfg, prompt, computed, found, stored);
      plans := plans[request := plan.value];
      return plan.value.count;
    }

    /** The running-prefill hook reads the admission lookup and plans the same way. */
    method GetNumNewMatchedTokensMidPrefill(request: string, promptLen: nat, computed: nat, stored: Published)
      returns (n: int)
      requires Sane(cfg)
      modifies `plans
      ensures var found := if request in lookups then lookups[request] else None;
              var plan := MidPrefill(cfg, promptLen, computed, found, stored);
              if plan.Some? then n == plan.value.count && plans == old(plans)[request := plan.value]
              else n == 0 && plans == old(plans)
      ensures n != 0 ==> n >= cfg.minMidPrefill && n % cfg.bs == 0 && computed + n < promptLen
    {
      var found := if request in lookups then lookups[request] else None;
      var plan := MidPrefill(cfg, promptLen, computed, found, stored);
      if plan.None? {
        return 0;
      }
      MidPrefillPromise(cfg, promptLen, computed, found, stored);
      plans := plans[request := plan.value];
      return plan.value.count;
    }
  }
}
