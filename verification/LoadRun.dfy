/** From a recorded plan to the paged cells: allocation, one load per piece, the worker. */
module LoadRun {
  import opened Blocks
  import opened SemanticSpan
  import opened Rope
  import opened PagedKv
  import opened LoadPlan

  // ------------------------------------------------------- scheduler to worker

  /** A load waiting for the worker: a plan with destination blocks. */
  datatype PendingLoad = PendingLoad(request: string, plan: Plan, tables: seq<seq<nat>>)

  /** One donor read: donorStart and targetStart are the frame of its window. */
  datatype Load = Load(
    request: string, donorId: string, count: int, kind: Kind, tables: seq<seq<nat>>,
    donorStart: Option<int>, targetStart: Option<int>)

  function PieceLoads(pending: PendingLoad, pieces: seq<Piece>): seq<Load>
  {
    if pieces == [] then []
    else
      [Load(pending.request, pieces[0].donorId, pieces[0].tokenCount, pending.plan.kind, pending.tables,
            Some(pieces[0].donorStart), Some(pieces[0].targetStart))]
      + PieceLoads(pending, pieces[1..])
  }

  /** One load per piece of an assembled span, otherwise the one load of the plan. */
  function LoadsOf(pending: PendingLoad): seq<Load>
  {
    var plan := pending.plan;
    if plan.pieces != [] then PieceLoads(pending, plan.pieces)
    else [Load(pending.request, plan.donorId, plan.count, plan.kind, pending.tables, plan.donorStart, plan.targetStart)]
  }

  function AllLoads(pending: seq<PendingLoad>): seq<Load>
  {
    if pending == [] then [] else AllLoads(pending[..|pending| - 1]) + LoadsOf(pending[|pending| - 1])
  }

  /** A dictionary's insertion order: a new value for a known request keeps its place. */
  function SetPending(pending: seq<PendingLoad>, p: PendingLoad): seq<PendingLoad>
  {
    if pending == [] then [p]
    else if pending[0].request == p.request then [p] + pending[1..]
    else [pending[0]] + SetPending(pending[1..], p)
  }

  /** The scheduler role between a decision and the step that ships it. */
  class LoadQueue {
    var plans: map<string, Plan>
    var pending: seq<PendingLoad>
    var served: set<string>

    constructor ()
      ensures plans == map[] && pending == [] && served == {}
    {
      plans, pending, served := map[], [], {};
    }

    /** The allocation hook always retires the plan; it becomes a load only when the
        scheduler credited tokens for it and handed over blocks. */
    method UpdateStateAfterAlloc(request: string, blocks: Option<seq<seq<nat>>>, external: int)
      modifies this
      ensures plans == old(plans) - {request}
      ensures var taken := external > 0 && request in old(plans) && blocks.Some?;
              && pending == (if taken
                             then SetPending(old(pending), PendingLoad(request, old(plans)[request], blocks.value))
                             else old(pending))
              && served == (if taken then old(served) + {request} else old(served))
    {
      var plan := if request in plans then Some(plans[request]) else None;
      plans := plans - {request};
      if external <= 0 || plan.None? || blocks.None? {
        return;
      }
      pending := SetPending(pending, PendingLoad(request, plan.value, blocks.value));
      served := served + {request};
    }

    /** The per-step hook ships every pending load, piece by piece, and forgets them. */
    method BuildLoads() returns (loads: seq<Load>)
      modifies `pending
      ensures loads == AllLoads(old(pending)) && pending == []
      ensures SplitsInto(loads, Own(old(pending)))
    {
      EveryPendingLoadShips(pending);
      loads := [];
      for i := 0 to |pending|
        invariant pending == old(pending) && loads == AllLoads(pending[..i])
      {
        assert pending[..i + 1][..i] == pending[..i];
        loads := loads + LoadsOf(pending[i]);
      }
      assert pending[..|pending|] == pending;
      pending := [];
    }
  }

  // -------------------------------------------------------------- the worker

  /** Donor tensors by donor and layer, the model's rotary frequencies when they could be
      resolved, the block size and the model's layers. */
  datatype Env = Env(
    store: map<string, map<string, seq<Cell>>>, freqs: Option<seq<Turn>>, bs: nat, layers: seq<string>)

  type Caches = map<string, seq<Cell>>

  datatype LayerStep = Gone | Declined | Raised | Wrote(view: seq<Cell>)

  function Start(o: Option<int>): int { if o.Some? then o.value else 0 }

  function Rows(cells: seq<Cell>): (r: seq<seq<real>>)
    ensures |r| == |cells| && forall i | 0 <= i < |r| :: r[i] == cells[i].k
  {
    seq(|cells|, i requires 0 <= i < |cells| => cells[i].k)
  }

  predicate Rotatable(cells: seq<Cell>, freqs: seq<Turn>)
  {
    forall i | 0 <= i < |cells| :: RowShape(cells[i].k, freqs)
  }

  /** The window with its keys re-rotated from the donor's frame to the target's. */
  function Moved(window: seq<Cell>, donorStart: int, targetStart: int, freqs: seq<Turn>): (r: seq<Cell>)
    requires Rotatable(window, freqs)
    ensures |r| == |window|
  {
    var k := Rerotate(Rows(window), donorStart, targetStart, freqs);
    seq(|window|, i requires 0 <= i < |window| => Cell(k[i], window[i].v))
  }

  /** Python's cells[a : a + n] for a non-negative a. */
  function Window(cells: seq<Cell>, a: int, n: int): seq<Cell>
  {
    if a < 0 || n <= 0 then [] else Slice(cells, a, a + n)
  }

  /** Map the destination and write the window, or raise as the tensor code would. */
  function WriteWindow(view: seq<Cell>, load: Load, window: seq<Cell>, bs: nat): LayerStep
    requires bs > 0
  {
    var target := Start(load.targetStart);
    if target < 0 || load.count < 0 then Raised
    else
      var m := SlotMapping(load.tables, load.count, bs, target);
      if m.Refused? || |m.slots| != |window| || !InRange(m.slots, |view|) then Raised
      else Wrote(WriteCells(view, m.slots, window))
  }

  /** One layer of one load. A span needs its rotary parameters and a full window; any
      other kind is copied as it is. */
  function LoadLayer(env: Env, load: Load, layer: string, view: seq<Cell>): LayerStep
    requires env.bs > 0
  {
    if load.donorId !in env.store || layer !in env.store[load.donorId] then Gone
    else
      var window := Window(env.store[load.donorId][layer], Start(load.donorStart), load.count);
      if load.kind != SpanLoad then WriteWindow(view, load, window, env.bs)
      else if env.freqs.None? || load.donorStart.None? || load.targetStart.None? then Declined
      else if |window| < load.count then Declined
      else if !Rotatable(window, env.freqs.value) then Raised
      else
        WriteWindow(view, load,
          Moved(window, load.donorStart.value, load.targetStart.value, env.freqs.value), env.bs)
  }

  /** What one load did: caches, layers landed, and whether it stopped on a missing donor
      or raised. */
  datatype Progress = Progress(caches: Caches, landed: nat, gone: bool, raised: bool)

  /** One load's effect on a layer, as a function of the layer and its cells. */
  type Stepper = (string, seq<Cell>) -> LayerStep

  function StepperOf(env: Env, load: Load): Stepper
    requires env.bs > 0
  {
    (layer, view) => LoadLayer(env, load, layer, view)
  }

  function Note(p: Progress, layer: string, s: LayerStep): (r: Progress)
    requires layer in p.caches
    ensures r.caches.Keys == p.caches.Keys
  {
    match s
    case Gone => p.(gone := true)
    case Declined => p
    case Raised => p.(raised := true)
    case Wrote(view) =>
      assert p.caches[layer := view].Keys == p.caches.Keys;
      p.(caches := p.caches[layer := view], landed := p.landed + 1)
  }

  /** The layers in order, up to one that finds its donor gone or raises. */
  function ForLayers(layers: seq<string>, step: Stepper, p: Progress): (r: Progress)
    requires forall l | l in layers :: l in p.caches
    ensures r.caches.Keys == p.caches.Keys
  {
    if layers == [] || p.gone || p.raised then p
    else ForLayers(layers[1..], step, Note(p, layers[0], step(layers[0], p.caches[layers[0]])))
  }

  /** The worker over a step's loads: still running, or stopped by a loud failure. Blocks
      handed back for recompute accumulate. */
  datatype Outcome = Outcome(caches: Caches, errors: set<nat>, failed: bool)

  function RunLoad(env: Env, load: Load, o: Outcome): (r: Outcome)
    requires env.bs > 0 && (forall l | l in env.layers :: l in o.caches)
    ensures r.caches.Keys == o.caches.Keys
  {
    var p := ForLayers(env.layers, StepperOf(env, load), Progress(o.caches, 0, false, false));
    if p.raised || (load.kind == SpanLoad && (p.gone || p.landed == 0)) then Outcome(p.caches, o.errors, true)
    else if p.gone then Outcome(p.caches, o.errors + LoadDestinations(env, load), false)
    else Outcome(p.caches, o.errors, false)
  }

  function LoadDestinations(env: Env, load: Load): set<nat>
    requires env.bs > 0
  {
    if Start(load.targetStart) < 0 || load.count < 0 then {}
    else DestinationBlocks(load.tables, Start(load.targetStart), load.count, env.bs)
  }

  function RunLoads(env: Env, loads: seq<Load>, o: Outcome): (r: Outcome)
    requires env.bs > 0 && (forall l | l in env.layers :: l in o.caches)
    ensures r.caches.Keys == o.caches.Keys
  {
    if loads == [] then o
    else
      var next := RunLoad(env, loads[0], o);
      if next.failed then next else RunLoads(env, loads[1..], next)
  }

  /** The forward thread's loader over its per-layer caches. */
  class Worker {
    const env: Env
    var caches: Caches
    var errors: set<nat>

    predicate Valid()
      reads this
    {
      env.bs > 0 && forall l | l in env.layers :: l in caches
    }

    constructor (env: Env, caches: Caches)
      requires env.bs > 0 && forall l | l in env.layers :: l in caches
      ensures Valid() && this.env == env && this.caches == caches && errors == {}
    {
      this.env, this.caches, errors := env, caches, {};
    }

    /** The step's loads in order; a load that fails loudly stops the step. */
    method StartLoadKv(loads: seq<Load>) returns (failed: bool)
      requires Valid()
      modifies this
      ensures Valid()
      ensures Outcome(caches, errors, failed) == RunLoads(env, loads, Outcome(old(caches), old(errors), false))
    {
      ghost var whole := RunLoads(env, loads, Outcome(caches, errors, false));
      failed := false;
      for i := 0 to |loads|
        invariant Valid() && !failed
        invariant RunLoads(env, loads[i..], Outcome(caches, errors, false)) == whole
      {
        assert loads[i..][0] == loads[i] && loads[i..][1..] == loads[i + 1..];
        failed := LoadOne(loads[i]);
        if failed {
          return;
        }
      }
    }

    method LoadOne(load: Load) returns (failed: bool)
      requires Valid()
      modifies this
      ensures Valid()
      ensures Outcome(caches, errors, failed) == RunLoad(env, load, Outcome(old(caches), old(errors), false))
    {
      var landed, gone, raised := LoadEveryLayer(StepperOf(env, load));
      if raised || (load.kind == SpanLoad && (gone || landed == 0)) {
        return true;
      }
      if gone {
        errors := errors + LoadDestinations(env, load);
      }
      return false;
    }

    method LoadEveryLayer(step: Stepper) returns (landed: nat, gone: bool, raised: bool)
      requires Valid()
      modifies `caches
      ensures Valid()
      ensures Progress(caches, landed, gone, raised) ==
              ForLayers(env.layers, step, Progress(old(caches), 0, false, false))
    {
      landed, gone, raised := 0, false, false;
      ghost var whole := ForLayers(env.layers, step, Progress(caches, 0, false, false));
      for n := 0 to |env.layers|
        invariant Valid() && !gone && !raised
        invariant ForLayers(env.layers[n..], step, Progress(caches, landed, gone, raised)) == whole
      {
        var layer := env.layers[n];
        assert env.layers[n..][0] == layer && env.layers[n..][1..] == env.layers[n + 1..];
        var s := step(layer, caches[layer]);
        if s.Gone? || s.Raised? {
          gone, raised := s.Gone?, s.Raised?;
          return;
        }
        if s.Wrote? {
          caches := caches[layer := s.view];
          landed := landed + 1;
        }
      }
    }
  }

  // --------------------------------------------------------------- end to end

  /** Every donor the lengths speak of holds that many rotatable rows in every layer. */
  ghost predicate Backed(env: Env, stored: Published)
  {
    forall d, l | d in stored && stored[d] > 0 && l in env.layers :: LayerBacked(env, d, l, stored[d])
  }

  ghost predicate LayerBacked(env: Env, donor: string, layer: string, count: nat)
  {
    && donor in env.store && layer in env.store[donor] && |env.store[donor][layer]| >= count
    && (env.freqs.Some? ==> Rotatable(env.store[donor][layer], env.freqs.value))
  }

  predicate IsAddressed(table: seq<nat>, p: nat, bs: nat, n: nat)
    requires bs > 0
  {
    p / bs < |table| && Slot(table, p, bs) < n
  }

  /** The request's table reaches `end` in the pool, and from the block of `base` on its
      blocks are its own, each in the table once. */
  ghost predicate Fits(table: seq<nat>, base: nat, end: nat, bs: nat, n: nat)
    requires bs > 0
  {
    TableCovers(table, end, bs) && OwnFromPosition(table, base, bs) && forall p | 0 <= p < end :: IsAddressed(table, p, bs, n)
  }

  /** Cell p of the request in a layer. */
  function At(view: seq<Cell>, table: seq<nat>, p: nat, bs: nat): Cell
    requires bs > 0 && IsAddressed(table, p, bs, |view|)
  {
    view[Slot(table, p, bs)]
  }

  /** now differs from was only in the cells of positions [from, upto). */
  ghost predicate OnlyWindow(was: seq<Cell>, now: seq<Cell>, table: seq<nat>, from: nat, upto: nat, bs: nat)
    requires bs > 0
  {
    && |now| == |was|
    && forall s | 0 <= s < |was| && now[s] != was[s] :: exists p :: from <= p < upto && IsSlot(s, table, p, bs)
  }

  /** A cell moved by delta positions. */
  function Turned(c: Cell, delta: int, freqs: seq<Turn>): Cell
    requires RowShape(c.k, freqs)
  {
    Cell(RotateRow(c.k, freqs, delta), c.v)
  }

  /** Position p of a piece's window holds its donor's cell at the same offset: turned from
      the donor's frame to the target's for a span, copied for any other kind. */
  ghost predicate ServedFrom(now: Cell, env: Env, layer: string, piece: Piece, p: int, kind: Kind)
  {
    var d := piece.donorStart + (p - piece.targetStart);
    && piece.donorId in env.store && layer in env.store[piece.donorId]
    && 0 <= d < |env.store[piece.donorId][layer]|
    && var was := env.store[piece.donorId][layer][d];
       if kind == SpanLoad then
         env.freqs.Some? && RowShape(was.k, env.freqs.value) &&
         now == Turned(was, piece.targetStart - piece.donorStart, env.freqs.value)
       else now == was
  }

  lemma {:induction false} MovedTurns(window: seq<Cell>, donorStart: int, targetStart: int, freqs: seq<Turn>, i: nat)
    requires Rotatable(window, freqs) && i < |window|
    ensures Moved(window, donorStart, targetStart, freqs)[i] == Turned(window[i], targetStart - donorStart, freqs)
  {
    RerotateTurnsEveryRow(Rows(window), donorStart, targetStart, freqs, i);
  }

  /** A piece whose window its donor holds in every layer. */
  ghost predicate Ready(env: Env, piece: Piece)
  {
    && piece.tokenCount > 0 && 0 <= piece.donorStart && 0 <= piece.targetStart
    && forall l | l in env.layers :: LayerBacked(env, piece.donorId, l, piece.donorStart + piece.tokenCount)
  }

  ghost predicate LoadFor(load: Load, piece: Piece, kind: Kind, tables: seq<seq<nat>>)
  {
    && load.tables == tables && load.kind == kind && load.count == piece.tokenCount && load.donorId == piece.donorId
    && Start(load.donorStart) == piece.donorStart && Start(load.targetStart) == piece.targetStart
    && (kind == SpanLoad ==> load.donorStart.Some? && load.targetStart.Some?)
  }

  /** A window written through the mapping lands in exactly its positions. */
  lemma {:induction false} WindowLands(
      view: seq<Cell>, load: Load, window: seq<Cell>, table: seq<nat>, base: nat, t: nat, end: nat, bs: nat)
    requires bs > 0 && load.tables == [table] && Start(load.targetStart) == t
    requires load.count == |window| > 0 && base <= t && t + |window| <= end && Fits(table, base, end, bs, |view|)
    ensures var step := WriteWindow(view, load, window, bs);
            && step.Wrote? && OnlyWindow(view, step.view, table, t, t + |window|, bs)
            && (forall p | t <= p < t + |window| ::
                  IsAddressed(table, p, bs, |step.view|) && At(step.view, table, p, bs) == window[p - t])
  {
    var n := |window|;
    MapsPointwise(table, n, bs, t);
    var slots := SlotMapping([table], n, bs, t).slots;
    PointwiseIsInjective(slots, table, base, t, bs);
    forall k | 0 <= k < |slots|
      ensures slots[k] < |view|
    {
      assert IsSlot(slots[k], table, t + k, bs) && IsAddressed(table, t + k, bs, |view|);
    }
    WritesLand(view, slots, window);
    var now := WriteCells(view, slots, window);
    forall s | 0 <= s < |view| && now[s] != view[s]
      ensures exists p :: t <= p < t + n && IsSlot(s, table, p, bs)
    {
      assert s in slots;
      var k :| 0 <= k < |slots| && slots[k] == s;
      assert IsSlot(s, table, t + k, bs);
    }
    forall p | t <= p < t + n
      ensures IsAddressed(table, p, bs, |now|) && At(now, table, p, bs) == window[p - t]
    {
      assert IsAddressed(table, p, bs, |view|) && IsSlot(slots[p - t], table, p, bs);
    }
  }

  ghost predicate PieceServed(view: seq<Cell>, env: Env, layer: string, piece: Piece, table: seq<nat>, kind: Kind)
    requires env.bs > 0
  {
    forall p: nat | piece.targetStart <= p < piece.End() ::
      IsAddressed(table, p, env.bs, |view|) && ServedFrom(At(view, table, p, env.bs), env, layer, piece, p, kind)
  }

  /** What a piece's load writes: its donor's window, turned for a span. */
  ghost function Source(env: Env, piece: Piece, layer: string, kind: Kind): seq<Cell>
    requires Ready(env, piece) && layer in env.layers && (kind == SpanLoad ==> env.freqs.Some?)
  {
    assert LayerBacked(env, piece.donorId, layer, piece.donorStart + piece.tokenCount);
    var window := Window(env.store[piece.donorId][layer], piece.donorStart, piece.tokenCount);
    if kind == SpanLoad then Moved(window, piece.donorStart, piece.targetStart, env.freqs.value) else window
  }

  lemma {:induction false} SourceIsWritten(
      env: Env, piece: Piece, load: Load, layer: string, view: seq<Cell>, table: seq<nat>, kind: Kind)
    requires env.bs > 0 && layer in env.layers && Ready(env, piece) && LoadFor(load, piece, kind, [table])
    requires kind == SpanLoad ==> env.freqs.Some?
    ensures |Source(env, piece, layer, kind)| == piece.tokenCount
    ensures LoadLayer(env, load, layer, view) == WriteWindow(view, load, Source(env, piece, layer, kind), env.bs)
  {
    assert LayerBacked(env, piece.donorId, layer, piece.donorStart + piece.tokenCount);
  }

  lemma {:induction false} SourceIsServed(env: Env, piece: Piece, layer: string, kind: Kind, p: int)
    requires layer in env.layers && Ready(env, piece) && (kind == SpanLoad ==> env.freqs.Some?)
    requires piece.targetStart <= p < piece.End() && |Source(env, piece, layer, kind)| == piece.tokenCount
    ensures ServedFrom(Source(env, piece, layer, kind)[p - piece.targetStart], env, layer, piece, p, kind)
  {
    assert LayerBacked(env, piece.donorId, layer, piece.donorStart + piece.tokenCount);
    var i := p - piece.targetStart;
    var cells := env.store[piece.donorId][layer];
    var window := Window(cells, piece.donorStart, piece.tokenCount);
    assert window[i] == cells[piece.donorStart + i];
    if kind == SpanLoad {
      MovedTurns(window, piece.donorStart, piece.targetStart, env.freqs.value, i);
    }
  }

  /** One piece in one layer: exactly its window is written, with the donor's cells moved
      into place. */
  lemma {:induction false} PieceLands(
      env: Env, piece: Piece, load: Load, layer: string, view: seq<Cell>, table: seq<nat>, base: nat, end: nat,
      kind: Kind)
    requires env.bs > 0 && layer in env.layers && Ready(env, piece) && base <= piece.targetStart && piece.End() <= end
    requires LoadFor(load, piece, kind, [table]) && Fits(table, base, end, env.bs, |view|)
    requires kind == SpanLoad ==> env.freqs.Some?
    ensures var step := LoadLayer(env, load, layer, view);
            && step.Wrote? && OnlyWindow(view, step.view, table, piece.targetStart, piece.End(), env.bs)
            && PieceServed(step.view, env, layer, piece, table, kind)
  {
    var t := piece.targetStart;
    var source := Source(env, piece, layer, kind);
    SourceIsWritten(env, piece, load, layer, view, table, kind);
    WindowLands(view, load, source, table, base, t, end, env.bs);
    var now := WriteWindow(view, load, source, env.bs).view;
    forall p: nat | t <= p < piece.End()
      ensures IsAddressed(table, p, env.bs, |now|) && ServedFrom(At(now, table, p, env.bs), env, layer, piece, p, kind)
    {
      assert IsAddressed(table, p, env.bs, |now|) && At(now, table, p, env.bs) == source[p - t];
      SourceIsServed(env, piece, layer, kind, p);
    }
  }

  /** Every layer of the caches is as wide as the pool the table addresses. */
  ghost predicate AllFit(env: Env, caches: Caches, table: seq<nat>, base: nat, end: nat)
    requires env.bs > 0
  {
    forall l | l in env.layers :: l in caches && Fits(table, base, end, env.bs, |caches[l]|)
  }

  /** When every layer's own step writes, all of them land and no other cache moves. */
  lemma {:induction false} EveryLayerLands(layers: seq<string>, step: Stepper, p: Progress)
    requires Distinct(layers) && !p.gone && !p.raised
    requires forall l | l in layers :: l in p.caches && step(l, p.caches[l]).Wrote?
    ensures var r := ForLayers(layers, step, p);
            && !r.gone && !r.raised && r.landed == p.landed + |layers|
            && (forall l | l in layers :: r.caches[l] == step(l, p.caches[l]).view)
            && (forall l | l in p.caches && l !in layers :: r.caches[l] == p.caches[l])
  {
    if layers != [] {
      var next := Note(p, layers[0], step(layers[0], p.caches[layers[0]]));
      assert layers[0] !in layers[1..];
      assert forall l :: l in layers <==> l == layers[0] || l in layers[1..];
      EveryLayerLands(layers[1..], step, next);
    }
  }

  /** A layer's step that did not end the load: it wrote, or declined and left the layer. */
  ghost predicate WroteOrDeclined(step: LayerStep, was: seq<Cell>, now: seq<Cell>)
  {
    (step.Wrote? && now == step.view) || (step.Declined? && now == was)
  }

  lemma {:induction false} QuietLayers(layers: seq<string>, step: Stepper, p: Progress)
    requires Distinct(layers) && !p.gone && !p.raised && forall l | l in layers :: l in p.caches
    requires !ForLayers(layers, step, p).gone && !ForLayers(layers, step, p).raised
    ensures var r := ForLayers(layers, step, p);
            && (forall l | l in layers :: WroteOrDeclined(step(l, p.caches[l]), p.caches[l], r.caches[l]))
            && (forall l | l in p.caches && l !in layers :: r.caches[l] == p.caches[l])
            && p.landed <= r.landed
            && (r.landed == p.landed <==> forall l | l in layers :: step(l, p.caches[l]).Declined?)
  {
    if layers != [] {
      var first := step(layers[0], p.caches[layers[0]]);
      var next := Note(p, layers[0], first);
      assert !first.Gone? && !first.Raised?;
      assert layers[0] !in layers[1..];
      assert forall l :: l in layers <==> l == layers[0] || l in layers[1..];
      QuietLayers(layers[1..], step, next);
      var r := ForLayers(layers[1..], step, next);
      assert r == ForLayers(layers, step, p);
      assert r.caches[layers[0]] == next.caches[layers[0]];
    }
  }

  /** The donor holds the whole window of a load in a layer. */
  predicate HoldsRows(env: Env, load: Load, layer: string)
  {
    && load.donorId in env.store && layer in env.store[load.donorId]
    && (load.count <= 0 || 0 <= Start(load.donorStart) <= |env.store[load.donorId][layer]| - load.count)
  }

  /** What a span load needs in a layer besides: its rotary parameters and both frames. */
  predicate HoldsWindow(env: Env, load: Load, layer: string)
  {
    env.freqs.Some? && load.donorStart.Some? && load.targetStart.Some? && HoldsRows(env, load, layer)
  }

  lemma {:induction false} SpanLayerWritesIffWhole(env: Env, load: Load, layer: string, view: seq<Cell>)
    requires env.bs > 0 && load.kind == SpanLoad
    requires LoadLayer(env, load, layer, view).Wrote? || LoadLayer(env, load, layer, view).Declined?
    ensures LoadLayer(env, load, layer, view).Wrote? <==> HoldsWindow(env, load, layer)
  {
  }

  /** What a span load that reports no failure did. Some layer was written, and each layer
      was written, or silently left as it was when its donor does not hold the whole window.
      So every layer is written exactly when the donor holds the window in every layer. */
  lemma {:induction false} SpanLoadWritesWhereWindowsAreWhole(env: Env, load: Load, o: Outcome)
    requires env.bs > 0 && Distinct(env.layers) && forall l | l in env.layers :: l in o.caches
    requires load.kind == SpanLoad && !o.failed && !RunLoad(env, load, o).failed
    ensures var r := RunLoad(env, load, o);
            && (exists l :: l in env.layers && LoadLayer(env, load, l, o.caches[l]).Wrote?)
            && (forall l | l in env.layers ::
                  && WroteOrDeclined(LoadLayer(env, load, l, o.caches[l]), o.caches[l], r.caches[l])
                  && (LoadLayer(env, load, l, o.caches[l]).Wrote? <==> HoldsWindow(env, load, l)))
            && ((forall l | l in env.layers :: LoadLayer(env, load, l, o.caches[l]).Wrote?) <==>
                forall l | l in env.layers :: HoldsWindow(env, load, l))
  {
    var step := StepperOf(env, load);
    assert forall l | l in env.layers :: step(l, o.caches[l]) == LoadLayer(env, load, l, o.caches[l]);
    QuietLayers(env.layers, step, Progress(o.caches, 0, false, false));
    forall l | l in env.layers
      ensures LoadLayer(env, load, l, o.caches[l]).Wrote? <==> HoldsWindow(env, load, l)
    {
      assert WroteOrDeclined(step(l, o.caches[l]), o.caches[l], RunLoad(env, load, o).caches[l]);
      SpanLayerWritesIffWhole(env, load, l, o.caches[l]);
    }
  }

  /** The store has no readable copy of the donor's layer. */
  predicate LayerGone(env: Env, donor: string, layer: string)
  {
    donor !in env.store || layer !in env.store[donor]
  }

  /** A span load the pool has room for, from a donor of the model's own shape. */
  ghost predicate Loadable(env: Env, load: Load, caches: Caches, table: seq<nat>, base: nat, end: nat)
    requires env.bs > 0
  {
    && load.kind == SpanLoad && load.tables == [table] && load.count > 0
    && base <= Start(load.targetStart) && Start(load.targetStart) + load.count <= end
    && AllFit(env, caches, table, base, end)
    && (env.freqs.Some? && load.donorId in env.store ==>
          forall l | l in env.store[load.donorId] :: Rotatable(env.store[load.donorId][l], env.freqs.value))
  }

  /** What such a load does to a layer can be read off the donor. */
  lemma {:induction false} SpanLayerCases(
      env: Env, load: Load, layer: string, caches: Caches, table: seq<nat>, base: nat, end: nat)
    requires env.bs > 0 && layer in env.layers && Loadable(env, load, caches, table, base, end)
    ensures var step := LoadLayer(env, load, layer, caches[layer]);
            && !step.Raised?
            && (step.Gone? <==> LayerGone(env, load.donorId, layer))
            && (step.Wrote? <==> HoldsWindow(env, load, layer))
  {
    if HoldsWindow(env, load, layer) {
      var cells := env.store[load.donorId][layer];
      var window := Window(cells, load.donorStart.value, load.count);
      assert forall i | 0 <= i < |window| :: window[i] == cells[load.donorStart.value + i];
      WindowLands(caches[layer], load,
        Moved(window, load.donorStart.value, load.targetStart.value, env.freqs.value),
        table, base, Start(load.targetStart), end, env.bs);
    }
  }

  lemma {:induction false} SomeLayerGone(layers: seq<string>, step: Stepper, p: Progress)
    requires Distinct(layers) && !p.gone && !p.raised && forall l | l in layers :: l in p.caches
    requires forall l | l in layers :: !step(l, p.caches[l]).Raised?
    ensures var r := ForLayers(layers, step, p);
            !r.raised && (r.gone <==> exists l :: l in layers && step(l, p.caches[l]).Gone?)
  {
    if layers != [] {
      var first := step(layers[0], p.caches[layers[0]]);
      var next := Note(p, layers[0], first);
      assert layers[0] !in layers[1..];
      assert forall l :: l in layers <==> l == layers[0] || l in layers[1..];
      if !first.Gone? { SomeLayerGone(layers[1..], step, next); }
    }
  }

  /** A span load fails exactly when a layer of its donor is gone, or no layer holds the
      whole window. So it leaves layers unwritten without a word exactly when every layer is
      there and some hold the window and some do not. */
  lemma {:induction false} SpanLoadFailsIffGoneOrNowhereWhole(
      env: Env, load: Load, o: Outcome, table: seq<nat>, base: nat, end: nat)
    requires env.bs > 0 && Distinct(env.layers) && !o.failed && Loadable(env, load, o.caches, table, base, end)
    ensures var r := RunLoad(env, load, o);
            var gone := exists l :: l in env.layers && LayerGone(env, load.donorId, l);
            var whole := exists l :: l in env.layers && HoldsWindow(env, load, l);
            && (r.failed <==> gone || !whole)
            && (!r.failed && (exists l :: l in env.layers && LoadLayer(env, load, l, o.caches[l]).Declined?)
                <==> !gone && whole && (exists l :: l in env.layers && !HoldsWindow(env, load, l)))
  {
    var step := StepperOf(env, load);
    var p := Progress(o.caches, 0, false, false);
    forall l | l in env.layers
      ensures step(l, o.caches[l]) == LoadLayer(env, load, l, o.caches[l]) && !step(l, o.caches[l]).Raised?
      ensures step(l, o.caches[l]).Gone? <==> LayerGone(env, load.donorId, l)
      ensures step(l, o.caches[l]).Wrote? <==> HoldsWindow(env, load, l)
    {
      SpanLayerCases(env, load, l, o.caches, table, base, end);
    }
    SomeLayerGone(env.layers, step, p);
    if !ForLayers(env.layers, step, p).gone {
      QuietLayers(env.layers, step, p);
    }
  }

  /** A load of any other kind that the pool has room for. */
  ghost predicate Copyable(env: Env, load: Load, caches: Caches, table: seq<nat>, base: nat, end: nat)
    requires env.bs > 0
  {
    && load.kind != SpanLoad && load.tables == [table] && load.count > 0
    && base <= Start(load.targetStart) && Start(load.targetStart) + load.count <= end
    && AllFit(env, caches, table, base, end)
  }

  lemma {:induction false} CopyLayerCases(
      env: Env, load: Load, layer: string, caches: Caches, table: seq<nat>, base: nat, end: nat)
    requires env.bs > 0 && layer in env.layers && Copyable(env, load, caches, table, base, end)
    ensures var step := LoadLayer(env, load, layer, caches[layer]);
            && !step.Declined?
            && (step.Gone? <==> LayerGone(env, load.donorId, layer))
            && (step.Wrote? <==> HoldsRows(env, load, layer))
  {
    if HoldsRows(env, load, layer) {
      var window := Window(env.store[load.donorId][layer], Start(load.donorStart), load.count);
      WindowLands(caches[layer], load, window, table, base, Start(load.targetStart), end, env.bs);
    }
  }

  lemma {:induction false} AllLandOrOneDoesNot(layers: seq<string>, step: Stepper, p: Progress)
    requires Distinct(layers) && !p.gone && !p.raised && forall l | l in layers :: l in p.caches
    requires forall l | l in layers :: !step(l, p.caches[l]).Declined?
    ensures var r := ForLayers(layers, step, p);
            && (!r.gone && !r.raised <==> forall l | l in layers :: step(l, p.caches[l]).Wrote?)
            && (r.gone ==> !r.raised && exists l :: l in layers && step(l, p.caches[l]).Gone?)
  {
    if layers != [] {
      var first := step(layers[0], p.caches[layers[0]]);
      var next := Note(p, layers[0], first);
      assert layers[0] !in layers[1..];
      assert forall l :: l in layers <==> l == layers[0] || l in layers[1..];
      if first.Wrote? { AllLandOrOneDoesNot(layers[1..], step, next); }
    }
  }

  /** A copy is never partial without a word: it lands in every layer when the donor holds
      the window in every layer, and otherwise it fails, or a layer is gone and the window's
      blocks are handed back. */
  lemma {:induction false} CopyLandsWholeOrIsReported(
      env: Env, load: Load, o: Outcome, table: seq<nat>, base: nat, end: nat)
    requires env.bs > 0 && Distinct(env.layers) && !o.failed && Copyable(env, load, o.caches, table, base, end)
    ensures var r, start := RunLoad(env, load, o), Start(load.targetStart);
            if forall l | l in env.layers :: HoldsRows(env, load, l) then
              && !r.failed && r.errors == o.errors
              && forall l | l in env.layers :: LoadLayer(env, load, l, o.caches[l]) == Wrote(r.caches[l])
            else
              || r.failed
              || ((exists l :: l in env.layers && LayerGone(env, load.donorId, l))
                  && HandsBack(o.errors, r.errors, table, start, start + load.count, env.bs))
  {
    var step := StepperOf(env, load);
    var p := Progress(o.caches, 0, false, false);
    forall l | l in env.layers
      ensures step(l, o.caches[l]) == LoadLayer(env, load, l, o.caches[l]) && !step(l, o.caches[l]).Declined?
      ensures step(l, o.caches[l]).Gone? <==> LayerGone(env, load.donorId, l)
      ensures step(l, o.caches[l]).Wrote? <==> HoldsRows(env, load, l)
    {
      CopyLayerCases(env, load, l, o.caches, table, base, end);
    }
    AllLandOrOneDoesNot(env.layers, step, p);
    if forall l | l in env.layers :: HoldsRows(env, load, l) {
      EveryLayerLands(env.layers, step, p);
    } else if !RunLoad(env, load, o).failed {
      DestinationsAreHandedBack(o.errors, table, Start(load.targetStart), load.count, env.bs);
    }
  }

  /** A donor whose second layer is one token short. */
  function ShortDonor(cell: Cell): Env
  {
    Env(map["d" := map["a" := [cell, cell], "b" := [cell]]], Some([Turn(1.0, 0.0)]), 1, ["a", "b"])
  }

  function TwoTokenLoad(): Load { Load("r", "d", 2, SpanLoad, [[0, 1]], Some(0), Some(0)) }

  lemma {:induction false} TwoBlocksFit()
    ensures Fits([0, 1], 0, 2, 1, 2)
  {
    forall p | 0 <= p < 2 ensures IsAddressed([0, 1], p, 1, 2) {
      Unique(p, 1, p, 0);
      assert Slot([0, 1], p, 1) == p;
    }
  }

  /** Loading two tokens from it reports no failure and leaves the second layer unwritten. */
  lemma {:induction false} ShortLayerIsSkippedQuietly(cell: Cell, was: Cell)
    requires |cell.k| == 2
    ensures var env := ShortDonor(cell);
            var o := Outcome(map["a" := [was, was], "b" := [was, was]], {}, false);
            var r := RunLoad(env, TwoTokenLoad(), o);
            && !r.failed && r.errors == {} && r.caches["b"] == o.caches["b"]
            && LoadLayer(env, TwoTokenLoad(), "a", [was, was]).Wrote?
  {
    var env, load := ShortDonor(cell), TwoTokenLoad();
    var o := Outcome(map["a" := [was, was], "b" := [was, was]], {}, false);
    TwoBlocksFit();
    assert Loadable(env, load, o.caches, [0, 1], 0, 2);
    assert "a" in env.layers && Window([cell, cell], 0, 2) == [cell, cell];
    SpanLoadFailsIffGoneOrNowhereWhole(env, load, o, [0, 1], 0, 2);
    SpanLayerCases(env, load, "a", o.caches, [0, 1], 0, 2);
    SpanLayerCases(env, load, "b", o.caches, [0, 1], 0, 2);
    SpanLoadWritesWhereWindowsAreWhole(env, load, o);
    assert "b" in env.layers;
  }

  /** A load whose donor is gone writes nothing. */
  lemma {:induction false} GoneWritesNothing(env: Env, load: Load, o: Outcome)
    requires env.bs > 0 && env.layers != [] && forall l | l in env.layers :: l in o.caches
    requires load.donorId !in env.store && !o.failed
    ensures RunLoad(env, load, o) ==
            if load.kind == SpanLoad then Outcome(o.caches, o.errors, true)
            else Outcome(o.caches, o.errors + LoadDestinations(env, load), false)
  {
    var p := Progress(o.caches, 0, false, false);
    var step := StepperOf(env, load);
    var q := Note(p, env.layers[0], step(env.layers[0], p.caches[env.layers[0]]));
    assert q == p.(gone := true);
    assert ForLayers(env.layers[1..], step, q) == q;
  }

  lemma {:induction false} GoneLayerStops(layers: seq<string>, step: Stepper, p: Progress, layer: string)
    requires layer in layers && (forall view :: step(layer, view).Gone?) && forall l | l in layers :: l in p.caches
    ensures ForLayers(layers, step, p).gone || ForLayers(layers, step, p).raised
  {
    if !p.gone && !p.raised && layer != layers[0] {
      GoneLayerStops(layers[1..], step, Note(p, layers[0], step(layers[0], p.caches[layers[0]])), layer);
    }
  }

  lemma {:induction false} GoneSpanFails(env: Env, loads: seq<Load>, o: Outcome, i: nat, layer: string)
    requires env.bs > 0 && (forall l | l in env.layers :: l in o.caches) && !o.failed
    requires i < |loads| && loads[i].kind == SpanLoad && layer in env.layers && LayerGone(env, loads[i].donorId, layer)
    ensures RunLoads(env, loads, o).failed
    decreases i
  {
    var next := RunLoad(env, loads[0], o);
    if i == 0 {
      var step := StepperOf(env, loads[0]);
      assert forall view :: step(layer, view) == LoadLayer(env, loads[0], layer, view);
      GoneLayerStops(env.layers, step, Progress(o.caches, 0, false, false), layer);
    } else if !next.failed {
      GoneSpanFails(env, loads[1..], next, i - 1, layer);
    }
  }

  /** What serving a run of pieces does to the caches. */
  ghost predicate ServesExactly(
      env: Env, was: Caches, now: Caches, pieces: seq<Piece>, table: seq<nat>, from: nat, upto: nat, kind: Kind)
    requires env.bs > 0
  {
    && now.Keys == was.Keys
    && (forall l | l in was && l !in env.layers :: now[l] == was[l])
    && (forall l | l in env.layers ::
          l in was && l in now && OnlyWindow(was[l], now[l], table, from, upto, env.bs))
    && (forall l, i | l in env.layers && 0 <= i < |pieces| ::
          l in now && PieceServed(now[l], env, l, pieces[i], table, kind))
  }

  lemma {:induction false} OneLoadServes(
      env: Env, piece: Piece, load: Load, o: Outcome, table: seq<nat>, base: nat, end: nat, kind: Kind)
    requires env.bs > 0 && env.layers != [] && Distinct(env.layers) && Ready(env, piece)
    requires base <= piece.targetStart && piece.End() <= end
    requires LoadFor(load, piece, kind, [table]) && AllFit(env, o.caches, table, base, end)
    requires kind == SpanLoad ==> env.freqs.Some?
    ensures var r := RunLoad(env, load, o);
            && !r.failed && r.errors == o.errors && AllFit(env, r.caches, table, base, end)
            && ServesExactly(env, o.caches, r.caches, [piece], table, piece.targetStart, piece.End(), kind)
  {
    forall l | l in env.layers
      ensures StepperOf(env, load)(l, o.caches[l]) == LoadLayer(env, load, l, o.caches[l])
      ensures LoadLayer(env, load, l, o.caches[l]).Wrote?
    {
      PieceLands(env, piece, load, l, o.caches[l], table, base, end, kind);
    }
    EveryLayerLands(env.layers, StepperOf(env, load), Progress(o.caches, 0, false, false));
    var r := RunLoad(env, load, o);
    forall l | l in env.layers
      ensures OnlyWindow(o.caches[l], r.caches[l], table, piece.targetStart, piece.End(), env.bs)
      ensures PieceServed(r.caches[l], env, l, piece, table, kind)
    {
      PieceLands(env, piece, load, l, o.caches[l], table, base, end, kind);
    }
  }

  /** A write to later positions leaves a served piece as it was. */
  lemma {:induction false} ServedSurvives(
      env: Env, layer: string, piece: Piece, was: seq<Cell>, now: seq<Cell>, table: seq<nat>, base: nat,
      from: nat, upto: nat, end: nat, kind: Kind)
    requires env.bs > 0 && Fits(table, base, end, env.bs, |was|) && base <= from && upto <= end && piece.targetStart >= 0
    requires piece.End() <= from && PieceServed(was, env, layer, piece, table, kind)
    requires OnlyWindow(was, now, table, from, upto, env.bs)
    ensures PieceServed(now, env, layer, piece, table, kind)
  {
    forall p: nat | piece.targetStart <= p < piece.End()
      ensures IsAddressed(table, p, env.bs, |now|) && ServedFrom(At(now, table, p, env.bs), env, layer, piece, p, kind)
    {
      assert IsAddressed(table, p, env.bs, |was|);
      UntouchedOutside(was, now, table, base, from, upto, env.bs, p);
    }
  }

  lemma {:induction false} UntouchedOutside(
      was: seq<Cell>, now: seq<Cell>, table: seq<nat>, base: nat, from: nat, upto: nat, bs: nat, p: nat)
    requires bs > 0 && OwnFromPosition(table, base, bs) && base <= from && OnlyWindow(was, now, table, from, upto, bs)
    requires IsAddressed(table, p, bs, |was|) && !(from <= p < upto)
    ensures At(now, table, p, bs) == At(was, table, p, bs)
  {
    var s := Slot(table, p, bs);
    if now[s] != was[s] {
      var q :| from <= q < upto && IsSlot(s, table, q, bs);
      OwnSlotIsNobodyElses(table, base, q, p, s, bs);
    }
  }

  lemma {:induction false} WindowsJoin(
      a: seq<Cell>, b: seq<Cell>, c: seq<Cell>, table: seq<nat>, from: nat, mid: nat, upto: nat, bs: nat)
    requires bs > 0 && from <= mid <= upto
    requires OnlyWindow(a, b, table, from, mid, bs) && OnlyWindow(b, c, table, mid, upto, bs)
    ensures OnlyWindow(a, c, table, from, upto, bs)
  {
    forall s | 0 <= s < |a| && c[s] != a[s]
      ensures exists p :: from <= p < upto && IsSlot(s, table, p, bs)
    {
      if b[s] != a[s] {
        var p :| from <= p < mid && IsSlot(s, table, p, bs);
      } else {
        var p :| mid <= p < upto && IsSlot(s, table, p, bs);
      }
    }
  }

  /** Back-to-back pieces serve their whole window and nothing else. */
  lemma {:induction false} PiecesServe(
      env: Env, pieces: seq<Piece>, loads: seq<Load>, o: Outcome, table: seq<nat>, base: nat, from: nat, upto: nat,
      kind: Kind)
    requires env.bs > 0 && env.layers != [] && Distinct(env.layers) && !o.failed && base <= from
    requires Tiles(pieces, from, upto) && |loads| == |pieces|
    requires forall i | 0 <= i < |pieces| :: Ready(env, pieces[i]) && LoadFor(loads[i], pieces[i], kind, [table])
    requires AllFit(env, o.caches, table, base, upto)
    requires kind == SpanLoad ==> env.freqs.Some?
    ensures var r := RunLoads(env, loads, o);
            && !r.failed && r.errors == o.errors
            && ServesExactly(env, o.caches, r.caches, pieces, table, from, upto, kind)
  {
    if pieces != [] {
      var piece, mid := pieces[0], pieces[0].End();
      assert Ready(env, piece);
      TilesAdvance(pieces[1..], mid, upto);
      OneLoadServes(env, piece, loads[0], o, table, base, upto, kind);
      var next := RunLoad(env, loads[0], o);
      PiecesServe(env, pieces[1..], loads[1..], next, table, base, mid, upto, kind);
      var r := RunLoads(env, loads, o);
      JoinServes(env, o.caches, next.caches, r.caches, pieces, table, base, from, mid, upto, kind);
    }
  }

  lemma {:induction false} JoinServes(
      env: Env, a: Caches, b: Caches, c: Caches, pieces: seq<Piece>, table: seq<nat>, base: nat, from: nat, mid: nat,
      upto: nat, kind: Kind)
    requires env.bs > 0 && pieces != [] && base <= from <= mid <= upto && pieces[0].targetStart == from && pieces[0].End() == mid
    requires ServesExactly(env, a, b, [pieces[0]], table, from, mid, kind)
    requires ServesExactly(env, b, c, pieces[1..], table, mid, upto, kind)
    requires AllFit(env, b, table, base, upto)
    ensures ServesExactly(env, a, c, pieces, table, from, upto, kind)
  {
    forall l | l in env.layers
      ensures OnlyWindow(a[l], c[l], table, from, upto, env.bs)
    {
      WindowsJoin(a[l], b[l], c[l], table, from, mid, upto, env.bs);
    }
    forall l, i | l in env.layers && 0 <= i < |pieces|
      ensures PieceServed(c[l], env, l, pieces[i], table, kind)
    {
      if i == 0 {
        assert PieceServed(b[l], env, l, [pieces[0]][0], table, kind);
        ServedSurvives(env, l, pieces[0], b[l], c[l], table, base, mid, upto, upto, kind);
      } else {
        assert PieceServed(c[l], env, l, pieces[1..][i - 1], table, kind);
      }
    }
  }

  /** The shape every recorded plan has: only spans carry pieces, spans name both frames,
      and any other kind reads and writes the same positions. */
  predicate PlanShape(plan: Plan)
  {
    && (plan.pieces != [] ==> plan.kind == SpanLoad)
    && (plan.kind == SpanLoad ==> plan.donorStart.Some? && plan.targetStart.Some?)
    && (plan.kind != SpanLoad ==> Start(plan.donorStart) == Start(plan.targetStart))
  }

  lemma {:induction false} DecidedPlansAreShaped(
      cfg: Config, prompt: seq<int>, boundary: nat, found: Option<Lookup>, stored: Published)
    requires Sane(cfg)
    ensures var plan := Decide(cfg, prompt, boundary, found, stored); plan.Some? ==> PlanShape(plan.value)
    ensures var plan := MidPrefill(cfg, |prompt|, boundary, found, stored); plan.Some? ==> PlanShape(plan.value)
  {
  }

  lemma {:induction false} PieceLoadsMatch(pending: PendingLoad, pieces: seq<Piece>, i: nat)
    requires i < |pieces|
    ensures |PieceLoads(pending, pieces)| == |pieces|
    ensures LoadFor(PieceLoads(pending, pieces)[i], pieces[i], pending.plan.kind, pending.tables)
    ensures PieceLoads(pending, pieces)[i].request == pending.request
    decreases |pieces|
  {
    if i > 0 {
      PieceLoadsMatch(pending, pieces[1..], i - 1);
    } else if |pieces| > 1 {
      PieceLoadsMatch(pending, pieces[1..], 0);
    }
  }

  /** The emitted loads are the plan's pieces, in order, under the pending request's name and
      tables. */
  lemma {:induction false} LoadsFollowPlan(pending: PendingLoad)
    requires PlanShape(pending.plan)
    ensures var loads, pieces := LoadsOf(pending), AsPieces(pending.plan);
            |loads| == |pieces| &&
            forall i | 0 <= i < |pieces| ::
              loads[i].request == pending.request && LoadFor(loads[i], pieces[i], pending.plan.kind, pending.tables)
  {
    var pieces := AsPieces(pending.plan);
    forall i | 0 <= i < |pieces|
      ensures |LoadsOf(pending)| == |pieces| && LoadsOf(pending)[i].request == pending.request
      ensures LoadFor(LoadsOf(pending)[i], pieces[i], pending.plan.kind, pending.tables)
    {
      if pending.plan.pieces != [] {
        PieceLoadsMatch(pending, pieces, i);
      }
    }
    assert |pieces| > 0;
    assert LoadFor(LoadsOf(pending)[0], pieces[0], pending.plan.kind, pending.tables);
  }

  /** The parts laid end to end. */
  ghost predicate SplitsInto(whole: seq<Load>, parts: seq<seq<Load>>)
  {
    if parts == [] then whole == []
    else parts[0] <= whole && SplitsInto(whole[|parts[0]|..], parts[1..])
  }

  lemma {:induction false} SplitOneMore(whole: seq<Load>, parts: seq<seq<Load>>, part: seq<Load>)
    requires SplitsInto(whole, parts)
    ensures SplitsInto(whole + part, parts + [part])
  {
    if parts == [] {
      assert (whole + part)[|part|..] == [] && ([] + [part])[1..] == [];
    } else {
      var n := |parts[0]|;
      SplitOneMore(whole[n..], parts[1..], part);
      assert (whole + part)[n..] == whole[n..] + part;
      assert (parts + [part])[1..] == parts[1..] + [part];
    }
  }

  /** Each pending entry's own loads. */
  ghost function Own(pending: seq<PendingLoad>): (parts: seq<seq<Load>>)
    ensures |parts| == |pending| && forall i | 0 <= i < |pending| :: parts[i] == LoadsOf(pending[i])
  {
    seq(|pending|, i requires 0 <= i < |pending| => LoadsOf(pending[i]))
  }

  /** A step ships every pending entry's loads, entry by entry, and nothing else. */
  lemma {:induction false} EveryPendingLoadShips(pending: seq<PendingLoad>)
    ensures SplitsInto(AllLoads(pending), Own(pending))
  {
    if pending != [] {
      var n := |pending| - 1;
      EveryPendingLoadShips(pending[..n]);
      OwnInTwo(pending);
      SplitOneMore(AllLoads(pending[..n]), Own(pending[..n]), LoadsOf(pending[n]));
    }
  }

  lemma {:induction false} OwnInTwo(pending: seq<PendingLoad>)
    requires pending != []
    ensures Own(pending) == Own(pending[..|pending| - 1]) + [LoadsOf(pending[|pending| - 1])]
  {
  }

  /** A request allocated again keeps its place in the pending list, with its newest load. */
  lemma {:induction false} PendingKeepsPlaces(pending: seq<PendingLoad>, p: PendingLoad, i: nat)
    requires i <= |pending| && (i < |pending| ==> pending[i].request == p.request)
    requires forall j | 0 <= j < i :: pending[j].request != p.request
    ensures SetPending(pending, p) == if i < |pending| then pending[i := p] else pending + [p]
  {
    if i > 0 {
      PendingKeepsPlaces(pending[1..], p, i - 1);
    }
  }

  lemma {:induction false} TilePieceFacts(pieces: seq<Piece>, from: int, upto: int, i: nat)
    requires Tiles(pieces, from, upto) && i < |pieces|
    ensures from <= pieces[i].targetStart && pieces[i].tokenCount > 0 && pieces[i].End() <= upto
  {
    TilesAdvance(pieces[1..], pieces[0].End(), upto);
    if i > 0 { TilePieceFacts(pieces[1..], pieces[0].End(), upto, i - 1); }
  }

  /** End to end: a promised plan over backed donors is served without failure, in exactly
      the cells of [B, B + N) of the request's own table, each position from its donor
      position; every cell of [0, B), every other request's cell and every other cache is
      left as it was. */
  lemma {:induction false} PlanIsServedExactly(
      env: Env, cfg: Config, promptLen: nat, boundary: nat, pending: PendingLoad, table: seq<nat>, o: Outcome,
      stored: Published)
    requires Sane(cfg) && env.bs == cfg.bs && env.layers != [] && Distinct(env.layers) && !o.failed
    requires pending.tables == [table] && PlanShape(pending.plan) && Promised(pending.plan, cfg, promptLen, boundary)
    requires WindowsPublished(AsPieces(pending.plan), stored) && Backed(env, stored)
    requires pending.plan.kind == SpanLoad ==> env.freqs.Some?
    requires AllFit(env, o.caches, table, boundary, boundary + pending.plan.count)
    ensures var plan := pending.plan;
            var r := RunLoads(env, LoadsOf(pending), o);
            && !r.failed && r.errors == o.errors
            && ServesExactly(env, o.caches, r.caches, AsPieces(plan), table, boundary, boundary + plan.count, plan.kind)
    ensures var r := RunLoads(env, LoadsOf(pending), o);
            forall l, p: nat | l in env.layers && p < boundary ::
              && IsAddressed(table, p, env.bs, |o.caches[l]|) && IsAddressed(table, p, env.bs, |r.caches[l]|)
              && At(r.caches[l], table, p, env.bs) == At(o.caches[l], table, p, env.bs)
  {
    PlanIsServed(env, cfg, promptLen, boundary, pending, table, o, stored);
    var end := boundary + pending.plan.count;
    var r := RunLoads(env, LoadsOf(pending), o);
    forall l, p: nat | l in env.layers && p < boundary
      ensures IsAddressed(table, p, env.bs, |o.caches[l]|) && IsAddressed(table, p, env.bs, |r.caches[l]|)
      ensures At(r.caches[l], table, p, env.bs) == At(o.caches[l], table, p, env.bs)
    {
      LowerPositionsKeep(o.caches[l], r.caches[l], table, boundary, end, env.bs, p);
    }
  }

  lemma {:induction false} PromisedIsReady(env: Env, pieces: seq<Piece>, from: nat, upto: nat, stored: Published)
    requires Tiles(pieces, from, upto) && WindowsPublished(pieces, stored) && Backed(env, stored)
    ensures forall i | 0 <= i < |pieces| :: Ready(env, pieces[i])
  {
    forall i | 0 <= i < |pieces|
      ensures Ready(env, pieces[i])
    {
      TilePieceFacts(pieces, from, upto, i);
      assert pieces[i] in pieces;
      PublishedIsReady(env, pieces[i], stored);
    }
  }

  lemma {:induction false} PlanIsServed(
      env: Env, cfg: Config, promptLen: nat, boundary: nat, pending: PendingLoad, table: seq<nat>, o: Outcome,
      stored: Published)
    requires Sane(cfg) && env.bs == cfg.bs && env.layers != [] && Distinct(env.layers) && !o.failed
    requires pending.tables == [table] && PlanShape(pending.plan) && Promised(pending.plan, cfg, promptLen, boundary)
    requires WindowsPublished(AsPieces(pending.plan), stored) && Backed(env, stored)
    requires pending.plan.kind == SpanLoad ==> env.freqs.Some?
    requires AllFit(env, o.caches, table, boundary, boundary + pending.plan.count)
    ensures var plan := pending.plan;
            var r := RunLoads(env, LoadsOf(pending), o);
            && !r.failed && r.errors == o.errors
            && ServesExactly(env, o.caches, r.caches, AsPieces(plan), table, boundary, boundary + plan.count, plan.kind)
  {
    var plan, pieces := pending.plan, AsPieces(pending.plan);
    var end := boundary + plan.count;
    LoadsFollowPlan(pending);
    PromisedIsReady(env, pieces, boundary, end, stored);
    PiecesServe(env, pieces, LoadsOf(pending), o, table, boundary, boundary, end, plan.kind);
  }

  lemma {:induction false} LowerPositionsKeep(
      was: seq<Cell>, now: seq<Cell>, table: seq<nat>, from: nat, upto: nat, bs: nat, p: nat)
    requires bs > 0 && p < from <= upto && Fits(table, from, upto, bs, |was|) && OnlyWindow(was, now, table, from, upto, bs)
    ensures IsAddressed(table, p, bs, |was|) && IsAddressed(table, p, bs, |now|)
    ensures At(now, table, p, bs) == At(was, table, p, bs)
  {
    assert IsAddressed(table, p, bs, |was|);
    UntouchedOutside(was, now, table, from, from, upto, bs, p);
  }

  /** The blocks of [from, upto) were added to those handed back, and no others. */
  ghost predicate HandsBack(was: set<nat>, now: set<nat>, table: seq<nat>, from: nat, upto: nat, bs: nat)
    requires bs > 0
  {
    forall b :: b in now <==> b in was || exists p: nat :: from <= p < upto && LiesIn(table, p, bs, b)
  }

  lemma {:induction false} DestinationsAreHandedBack(
      was: set<nat>, table: seq<nat>, from: nat, count: nat, bs: nat)
    requires bs > 0 && count > 0
    ensures HandsBack(was, was + DestinationBlocks([table], from, count, bs), table, from, from + count, bs)
  {
    forall b
      ensures b in DestinationBlocks([table], from, count, bs) <==>
              exists p: nat :: from <= p < from + count && LiesIn(table, p, bs, b)
    {
      DestinationsHoldTheWindow(table, from, count, bs, b);
    }
  }

  /** A plan with a donor that is gone when its loads run never passes for served: a span
      fails loudly, even when one layer is all the donor lost, and any other load of a donor
      that is gone leaves every cache alone and hands its whole window back for recompute. */
  lemma {:induction false} GoneDonorIsReported(
      env: Env, pending: PendingLoad, table: seq<nat>, o: Outcome, i: nat, layer: string)
    requires env.bs > 0 && layer in env.layers && (forall l | l in env.layers :: l in o.caches) && !o.failed
    requires pending.tables == [table] && PlanShape(pending.plan) && i < |AsPieces(pending.plan)|
    requires LayerGone(env, AsPieces(pending.plan)[i].donorId, layer)
    ensures var r := RunLoads(env, LoadsOf(pending), o);
            if pending.plan.kind == SpanLoad then r.failed
            else AsPieces(pending.plan)[i].donorId !in env.store ==>
              && !r.failed && r.caches == o.caches
              && r.errors == o.errors + LoadDestinations(env, LoadsOf(pending)[0])
              && (var piece := AsPieces(pending.plan)[i];
                  piece.targetStart >= 0 && piece.tokenCount > 0 ==>
                    HandsBack(o.errors, r.errors, table, piece.targetStart, piece.End(), env.bs))
  {
    LoadsFollowPlan(pending);
    var load := LoadsOf(pending)[i];
    if pending.plan.kind == SpanLoad {
      GoneSpanFails(env, LoadsOf(pending), o, i, layer);
    } else if load.donorId !in env.store {
      GoneWritesNothing(env, load, o);
      var next := RunLoad(env, load, o);
      assert LoadsOf(pending)[1..] == [] && RunLoads(env, [], next) == next;
      var piece := AsPieces(pending.plan)[i];
      if piece.targetStart >= 0 && piece.tokenCount > 0 {
        DestinationsAreHandedBack(o.errors, table, piece.targetStart, piece.tokenCount, env.bs);
      }
    }
  }

  lemma {:induction false} PublishedIsReady(env: Env, piece: Piece, stored: Published)
    requires Backed(env, stored) && piece.tokenCount > 0 && 0 <= piece.donorStart && 0 <= piece.targetStart
    requires piece.donorStart + piece.tokenCount <= StoredTokens(stored, piece.donorId)
    ensures Ready(env, piece)
  {
    forall l | l in env.layers
      ensures LayerBacked(env, piece.donorId, l, piece.donorStart + piece.tokenCount)
    {
      assert LayerBacked(env, piece.donorId, l, stored[piece.donorId]);
    }
  }

  /** A donor's cached keys, position by position: the raw key rotated to where it sat. */
  ghost predicate RopeCached(env: Env, donor: string, layer: string, raw: seq<seq<real>>)
  {
    && env.freqs.Some? && (forall f | f in env.freqs.value :: Unit(f))
    && donor in env.store && layer in env.store[donor] && |raw| == |env.store[donor][layer]|
    && forall q | 0 <= q < |raw| :: IsCachedKey(env.store[donor][layer][q], raw[q], q, env.freqs.value)
  }

  ghost predicate IsCachedKey(c: Cell, raw: seq<real>, q: int, freqs: seq<Turn>)
  {
    RowShape(raw, freqs) && c.k == RotateRow(raw, freqs, q)
  }

  /** So a served position holds the key its raw value would have had there, and the
      donor's value untouched. */
  lemma {:induction false} ServedKeyIsInPlace(
      env: Env, layer: string, piece: Piece, p: int, now: Cell, kind: Kind, raw: seq<seq<real>>)
    requires ServedFrom(now, env, layer, piece, p, kind) && RopeCached(env, piece.donorId, layer, raw)
    requires kind != SpanLoad ==> piece.donorStart == piece.targetStart
    ensures var d := piece.donorStart + (p - piece.targetStart);
            && 0 <= d < |raw| && IsCachedKey(now, raw[d], p, env.freqs.value)
            && now.v == env.store[piece.donorId][layer][d].v
  {
    var d := piece.donorStart + (p - piece.targetStart);
    assert IsCachedKey(env.store[piece.donorId][layer][d], raw[d], d, env.freqs.value);
    if kind == SpanLoad {
      RotationsCompose(raw[d], env.freqs.value, d, piece.targetStart - piece.donorStart);
    }
  }
}
