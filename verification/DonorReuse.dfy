/** From capture to reuse: what the pipeline publishes is what a later load needs, so a
    planned window is served with the donors' own KV, moved into place. */
module DonorReuse {
  import opened Blocks
  import opened SemanticSpan
  import opened Rope
  import opened PagedKv
  import opened LoadPlan
  import opened LoadRun
  import Capture = CapturePipeline
  import Faults = CaptureFaults
  import Honesty = CaptureHonesty

  type Pipeline = Capture.State<Cell>

  /** A prompt's raw keys, before any rotation, by request, layer and position. */
  type RawKeys = (string, string) -> (nat -> seq<real>)

  /** The lengths the scheduler role reads off the records. */
  function Lengths(s: Pipeline): Published { map r | r in s.records :: s.records[r].tokens }

  /** What the worker reads donors through. */
  function Environment(s: Pipeline, freqs: seq<Turn>, bs: nat, layers: seq<string>): Env
  {
    Env(s.store, Some(freqs), bs, layers)
  }

  /** Each position's key is its raw key rotated to that position. */
  ghost predicate RotatedInPlace(ideal: Capture.Ideal<Cell>, raw: RawKeys, freqs: seq<Turn>)
  {
    && (forall f | f in freqs :: Unit(f))
    && forall r, l, p: nat :: IsCachedKey(ideal(r, l)(p), raw(r, l)(p), p, freqs)
  }

  /** The layers of the model, as the worker lists them. */
  ghost predicate ListsLayers(layers: seq<string>, c: Capture.Config)
  {
    layers != [] && Distinct(layers) && forall l :: l in layers <==> l in c.layers
  }

  lemma {:induction false} StoredIsRotatable(
      cells: seq<Cell>, ideal: nat -> Cell, raw: nat -> seq<real>, freqs: seq<Turn>)
    requires Capture.Prefix(cells, ideal)
    requires forall p: nat :: IsCachedKey(ideal(p), raw(p), p, freqs)
    ensures Rotatable(cells, freqs)
  {
    forall i | 0 <= i < |cells| ensures RowShape(cells[i].k, freqs) {
      assert IsCachedKey(ideal(i), raw(i), i, freqs);
    }
  }

  /** The records that are not left over from a failed retraction, of donors with no file
      truncated. */
  function Honest(c: Capture.Config, s: Pipeline): Published
  {
    map r | r in s.records && r !in s.stale && Honesty.Readable(c, s, r) :: s.records[r].tokens
  }

  /** Every length an honest record gives is backed by rotatable rows in every layer. */
  lemma {:induction false} PublicationBacksLoads(
      c: Capture.Config, ideal: Capture.Ideal<Cell>, raw: RawKeys, freqs: seq<Turn>, layers: seq<string>,
      acts: seq<Capture.Action<Cell>>)
    requires c.bs > 0 && Capture.IsRun(c, ideal, Capture.Init(), acts) && ListsLayers(layers, c)
    requires RotatedInPlace(ideal, raw, freqs)
    ensures var s := Capture.Run(c, Capture.Init(), acts); Backed(Environment(s, freqs, c.bs, layers), Honest(c, s))
  {
    var s := Capture.Run(c, Capture.Init(), acts);
    var env := Environment(s, freqs, c.bs, layers);
    forall d, l | d in Honest(c, s) && Honest(c, s)[d] > 0 && l in layers
      ensures LayerBacked(env, d, l, Honest(c, s)[d])
    {
      Capture.PublishedIsStored(c, ideal, acts, d);
      forall p: nat ensures IsCachedKey(ideal(d, l)(p), raw(d, l)(p), p, freqs) {}
      assert Capture.Prefix(s.store[d][l], ideal(d, l));
      StoredIsRotatable(s.store[d][l], ideal(d, l), raw(d, l), freqs);
    }
  }

  /** The cell at position p of a served window: the key its donor's raw key has at p, and
      the donor's value. */
  ghost predicate InPlace(
      now: Cell, ideal: Capture.Ideal<Cell>, raw: RawKeys, freqs: seq<Turn>, layer: string, piece: Piece, p: int)
  {
    var q := piece.donorStart + (p - piece.targetStart);
    && q >= 0
    && IsCachedKey(now, raw(piece.donorId, layer)(q), p, freqs)
    && now.v == ideal(piece.donorId, layer)(q).v
  }

  lemma {:induction false} ServedIsInPlace(
      env: Env, ideal: Capture.Ideal<Cell>, raw: RawKeys, freqs: seq<Turn>, layer: string, piece: Piece, p: int,
      now: Cell, kind: Kind)
    requires env.freqs == Some(freqs) && RotatedInPlace(ideal, raw, freqs)
    requires ServedFrom(now, env, layer, piece, p, kind)
    requires Capture.Prefix(env.store[piece.donorId][layer], ideal(piece.donorId, layer))
    requires kind != SpanLoad ==> piece.donorStart == piece.targetStart
    ensures InPlace(now, ideal, raw, freqs, layer, piece, p)
  {
    var q := piece.donorStart + (p - piece.targetStart);
    var was := env.store[piece.donorId][layer][q];
    var row := raw(piece.donorId, layer)(q);
    assert IsCachedKey(ideal(piece.donorId, layer)(q), row, q, freqs);
    if kind == SpanLoad {
      RotationsCompose(row, freqs, q, piece.targetStart - piece.donorStart);
    }
  }

  lemma {:induction false} PieceIsInPlace(
      s: Pipeline, env: Env, c: Capture.Config, ideal: Capture.Ideal<Cell>, raw: RawKeys, freqs: seq<Turn>,
      layer: string, piece: Piece, p: int, now: Cell, plan: Plan)
    requires env.store == s.store && env.freqs == Some(freqs) && RotatedInPlace(ideal, raw, freqs)
    requires Capture.Faithful(c, ideal, s)
    requires PlanShape(plan) && piece in AsPieces(plan) && ServedFrom(now, env, layer, piece, p, plan.kind)
    ensures InPlace(now, ideal, raw, freqs, layer, piece, p)
  {
    ServedIsInPlace(env, ideal, raw, freqs, layer, piece, p, now, plan.kind);
  }

  lemma {:induction false} ReachableIsFaithful(c: Capture.Config, ideal: Capture.Ideal<Cell>, acts: seq<Capture.Action<Cell>>)
    requires c.bs > 0 && Capture.IsRun(c, ideal, Capture.Init(), acts)
    ensures Capture.Faithful(c, ideal, Capture.Run(c, Capture.Init(), acts))
  {
    Capture.ReachableIsSound(c, ideal, acts);
  }

  /** Every position of every piece holds its donor's cell, moved into place. */
  ghost predicate AllInPlace(
      now: Caches, ideal: Capture.Ideal<Cell>, raw: RawKeys, freqs: seq<Turn>, layers: seq<string>, pieces: seq<Piece>,
      table: seq<nat>, bs: nat)
    requires bs > 0
  {
    forall l, i, p: nat | l in layers && 0 <= i < |pieces| && pieces[i].targetStart <= p < pieces[i].End() ::
      && l in now && IsAddressed(table, p, bs, |now[l]|)
      && InPlace(At(now[l], table, p, bs), ideal, raw, freqs, l, pieces[i], p)
  }

  lemma {:induction false} ServedIsAllInPlace(
      s: Pipeline, env: Env, c: Capture.Config, ideal: Capture.Ideal<Cell>, raw: RawKeys, freqs: seq<Turn>,
      was: Caches, now: Caches, plan: Plan, table: seq<nat>, from: nat, upto: nat)
    requires env.bs > 0 && env.store == s.store && env.freqs == Some(freqs) && RotatedInPlace(ideal, raw, freqs)
    requires Capture.Faithful(c, ideal, s) && PlanShape(plan)
    requires ServesExactly(env, was, now, AsPieces(plan), table, from, upto, plan.kind)
    ensures AllInPlace(now, ideal, raw, freqs, env.layers, AsPieces(plan), table, env.bs)
  {
    var pieces := AsPieces(plan);
    forall l, i, p: nat | l in env.layers && 0 <= i < |pieces| && pieces[i].targetStart <= p < pieces[i].End()
      ensures l in now && IsAddressed(table, p, env.bs, |now[l]|)
      ensures InPlace(At(now[l], table, p, env.bs), ideal, raw, freqs, l, pieces[i], p)
    {
      assert PieceServed(now[l], env, l, pieces[i], table, plan.kind);
      PieceIsInPlace(s, env, c, ideal, raw, freqs, l, pieces[i], p, At(now[l], table, p, env.bs), plan);
    }
  }

  /** Loading published windows in a reachable state. */
  lemma {:induction false} PublishedPlanIsServed(
      c: Capture.Config, ideal: Capture.Ideal<Cell>, raw: RawKeys, freqs: seq<Turn>, layers: seq<string>,
      acts: seq<Capture.Action<Cell>>, cfg: Config, promptLen: nat, boundary: nat, pending: PendingLoad,
      table: seq<nat>, o: Outcome)
    requires c.bs > 0 && Capture.IsRun(c, ideal, Capture.Init(), acts) && ListsLayers(layers, c)
    requires RotatedInPlace(ideal, raw, freqs)
    requires Sane(cfg) && cfg.bs == c.bs && !o.failed
    requires pending.tables == [table] && PlanShape(pending.plan) && Promised(pending.plan, cfg, promptLen, boundary)
    requires WindowsPublished(AsPieces(pending.plan), Honest(c, Capture.Run(c, Capture.Init(), acts)))
    requires AllFit(Environment(Capture.Run(c, Capture.Init(), acts), freqs, c.bs, layers), o.caches, table,
                    boundary, boundary + pending.plan.count)
    ensures Served(c, ideal, raw, freqs, layers, Capture.Run(c, Capture.Init(), acts), boundary, pending, table, o)
  {
    var s := Capture.Run(c, Capture.Init(), acts);
    var env := Environment(s, freqs, c.bs, layers);
    PublicationBacksLoads(c, ideal, raw, freqs, layers, acts);
    PlanIsServedExactly(env, cfg, promptLen, boundary, pending, table, o, Honest(c, s));
    ReachableIsFaithful(c, ideal, acts);
    ServedIsAllInPlace(s, env, c, ideal, raw, freqs, o.caches, RunLoads(env, LoadsOf(pending), o).caches,
      pending.plan, table, boundary, boundary + pending.plan.count);
  }

  /** Running a plan's loads in state s raises nothing and hands nothing back, writes only
      the window [B, B + N) of the request's own table, and leaves in each position of it
      the key its donor's token has there and that token's value. */
  ghost predicate Served(
      c: Capture.Config, ideal: Capture.Ideal<Cell>, raw: RawKeys, freqs: seq<Turn>, layers: seq<string>,
      s: Pipeline, boundary: nat, pending: PendingLoad, table: seq<nat>, o: Outcome)
    requires c.bs > 0 && forall l | l in layers :: l in o.caches
  {
    var r := RunLoads(Environment(s, freqs, c.bs, layers), LoadsOf(pending), o);
    && pending.plan.count > 0 && !r.failed && r.errors == o.errors
    && (forall l | l in o.caches && l !in layers :: r.caches[l] == o.caches[l])
    && (forall l | l in layers ::
          OnlyWindow(o.caches[l], r.caches[l], table, boundary, boundary + pending.plan.count, c.bs))
    && AllInPlace(r.caches, ideal, raw, freqs, layers, AsPieces(pending.plan), table, c.bs)
  }

  /** A donor whose record was not left over from a failed retraction when the load was
      planned, and that stayed resident and untruncated from then until the load ran. */
  ghost predicate StillThere(
      c: Capture.Config, acts: seq<Capture.Action<Cell>>, more: seq<Capture.Action<Cell>>, donor: string)
    requires c.bs > 0
  {
    && !Honesty.LastRetractionFailed(c, acts, donor, |acts|)
    && Honesty.StaysReadable(c, Capture.Run(c, Capture.Init(), acts), more, donor)
  }

  /** Its record then still vouches for what the plan was made from. */
  lemma {:induction false} StillPublished(
      c: Capture.Config, ideal: Capture.Ideal<Cell>, acts: seq<Capture.Action<Cell>>, more: seq<Capture.Action<Cell>>,
      donor: string)
    requires c.bs > 0 && Capture.IsRun(c, ideal, Capture.Init(), acts)
    requires Capture.IsRun(c, ideal, Capture.Run(c, Capture.Init(), acts), more)
    requires StillThere(c, acts, more, donor)
    ensures StoredTokens(Lengths(Capture.Run(c, Capture.Init(), acts)), donor)
         <= StoredTokens(Honest(c, Capture.Run(c, Capture.Init(), acts + more)), donor)
  {
    var s := Capture.Run(c, Capture.Init(), acts);
    if donor in s.records {
      assert acts[..|acts|] == acts;
      Honesty.StaleIffLastRetractionFailed(c, ideal, acts, donor, |acts|);
      Capture.ReachableIsSound(c, ideal, acts);
      Honesty.ReadableStaysPublished(c, ideal, s, more, donor);
      Capture.RunInTwo(c, ideal, Capture.Init(), acts, more);
    }
  }

  lemma {:induction false} WindowsStayPublished(pieces: seq<Piece>, was: Published, now: Published)
    requires WindowsPublished(pieces, was)
    requires forall p | p in pieces :: StoredTokens(was, p.donorId) <= StoredTokens(now, p.donorId)
    ensures WindowsPublished(pieces, now)
  {
  }

  /** The plan is what the match hook decides at a boundary, or the running-prefill hook at
      a position, from the records of state s, on segments and a match that vouch for it. */
  ghost predicate Planned(
      s: Pipeline, cfg: Config, prompt: seq<int>, boundary: nat, found: Lookup, plan: Plan)
    requires Sane(cfg)
  {
    && Vouched(cfg, |prompt|, boundary, found, Lengths(s))
    && (Some(plan) == Decide(cfg, prompt, boundary, Some(found), Lengths(s))
        || Some(plan) == MidPrefill(cfg, |prompt|, boundary, Some(found), Lengths(s)))
  }

  lemma {:induction false} PlannedIsPromised(
      s: Pipeline, cfg: Config, prompt: seq<int>, boundary: nat, found: Lookup, plan: Plan)
    requires Sane(cfg) && Planned(s, cfg, prompt, boundary, found, plan)
    ensures PlanShape(plan) && Promised(plan, cfg, |prompt|, boundary)
    ensures WindowsPublished(AsPieces(plan), Lengths(s))
  {
    DecidedPlansAreShaped(cfg, prompt, boundary, Some(found), Lengths(s));
    if Some(plan) == Decide(cfg, prompt, boundary, Some(found), Lengths(s)) {
      LoadPromise(cfg, prompt, boundary, Some(found), Lengths(s));
      VouchedIsPublished(cfg, prompt, boundary, found, Lengths(s));
    } else {
      MidPrefillPromise(cfg, |prompt|, boundary, Some(found), Lengths(s));
    }
  }

  /** The whole path, from capture through planning to loading: a plan decided from the
      records of any reachable state, with its loads run in any later one, is served in
      exactly its window with its donors' own KV moved into place, whatever chunks, failures
      and evictions the pipeline went through, so long as the plan's own donors were honestly
      published and stayed resident in between. */
  lemma {:induction false} CapturedKvIsServedInPlace(
      c: Capture.Config, ideal: Capture.Ideal<Cell>, raw: RawKeys, freqs: seq<Turn>, layers: seq<string>,
      acts: seq<Capture.Action<Cell>>, more: seq<Capture.Action<Cell>>, cfg: Config, prompt: seq<int>, boundary: nat,
      found: Lookup, pending: PendingLoad, table: seq<nat>, o: Outcome)
    requires c.bs > 0 && ListsLayers(layers, c) && RotatedInPlace(ideal, raw, freqs)
    requires Capture.IsRun(c, ideal, Capture.Init(), acts)
    requires Capture.IsRun(c, ideal, Capture.Run(c, Capture.Init(), acts), more)
    requires Sane(cfg) && cfg.bs == c.bs && !o.failed && pending.tables == [table]
    requires Planned(Capture.Run(c, Capture.Init(), acts), cfg, prompt, boundary, found, pending.plan)
    requires forall p | p in AsPieces(pending.plan) :: StillThere(c, acts, more, p.donorId)
    requires AllFit(Environment(Capture.Run(c, Capture.Init(), acts + more), freqs, c.bs, layers), o.caches, table,
                    boundary, boundary + pending.plan.count)
    ensures Served(c, ideal, raw, freqs, layers, Capture.Run(c, Capture.Init(), acts + more), boundary, pending, table, o)
  {
    var s := Capture.Run(c, Capture.Init(), acts);
    Capture.RunInTwo(c, ideal, Capture.Init(), acts, more);
    PlannedIsPromised(s, cfg, prompt, boundary, found, pending.plan);
    forall p | p in AsPieces(pending.plan)
      ensures StoredTokens(Lengths(s), p.donorId)
           <= StoredTokens(Honest(c, Capture.Run(c, Capture.Init(), acts + more)), p.donorId)
    {
      StillPublished(c, ideal, acts, more, p.donorId);
    }
    WindowsStayPublished(AsPieces(pending.plan), Lengths(s), Honest(c, Capture.Run(c, Capture.Init(), acts + more)));
    PublishedPlanIsServed(c, ideal, raw, freqs, layers, acts + more, cfg, |prompt|, boundary, pending, table, o);
  }

  /** And a donor that has lost a layer when the loads run is always noticed by a span, which
      fails loudly; any other load of a donor that is gone writes nothing and hands back the
      blocks of its window. */
  lemma {:induction false} LostDonorIsReported(
      c: Capture.Config, freqs: seq<Turn>, layers: seq<string>, s: Pipeline, cfg: Config, prompt: seq<int>,
      boundary: nat, found: Lookup, later: Pipeline, pending: PendingLoad, table: seq<nat>, o: Outcome, i: nat,
      layer: string)
    requires c.bs > 0 && ListsLayers(layers, c) && (forall l | l in layers :: l in o.caches)
    requires Sane(cfg) && cfg.bs == c.bs && !o.failed && pending.tables == [table]
    requires Planned(s, cfg, prompt, boundary, found, pending.plan)
    requires i < |AsPieces(pending.plan)| && layer in layers
    requires LayerGone(Environment(later, freqs, c.bs, layers), AsPieces(pending.plan)[i].donorId, layer)
    ensures var r := RunLoads(Environment(later, freqs, c.bs, layers), LoadsOf(pending), o);
            if pending.plan.kind == SpanLoad then r.failed
            else AsPieces(pending.plan)[i].donorId !in later.store ==>
              && !r.failed && r.caches == o.caches
              && HandsBack(o.errors, r.errors, table, boundary, boundary + pending.plan.count, c.bs)
  {
    PlannedIsPromised(s, cfg, prompt, boundary, found, pending.plan);
    GoneDonorIsReported(Environment(later, freqs, c.bs, layers), pending, table, o, i, layer);
  }

  /** The donor of a quiet partial load is one the pipeline can leave behind. */
  lemma {:induction false} ShortDonorIsReachable(cell: Cell)
    ensures Capture.IsRun(Faults.DISK, Faults.Steady(cell), Capture.Init(), Faults.ShortRun(cell))
    ensures Environment(Capture.Run(Faults.DISK, Capture.Init(), Faults.ShortRun(cell)),
                        [Turn(1.0, 0.0)], Faults.DISK.bs, ["a", "b"]) == ShortDonor(cell)
  {
    Faults.FailedWriteLeavesAShortLayer(cell);
  }
}
