/** The scheduler role's stores in the worker's hands: what the one emits is what the other
    may save, and each chunk extends the capture. */
module CaptureHandover {
  import opened Blocks
  import opened PagedKv
  import Pipeline = CapturePipeline
  import Schedule = CaptureSchedule

  /** The forward pass has filled the table's slots with the prompt's KV up to a position. */
  ghost predicate Filled<T(!new)>(view: seq<T>, table: seq<nat>, upto: nat, bs: nat, ideal: nat -> T)
    requires bs > 0
  {
    forall p: nat, x: nat | p < upto && IsSlot(x, table, p, bs) :: x < |view| && view[x] == ideal(p)
  }

  /** The i-th store a run of the scheduler role emitted for a request. */
  function Emitted(cfg: Schedule.Config, evs: seq<Schedule.Event>, r: string, i: nat): Schedule.Emission
    requires cfg.bs > 0 && r in Schedule.Run(cfg, Schedule.START, evs).traces
    requires i < |Schedule.Run(cfg, Schedule.START, evs).traces[r].emitted|
  {
    Schedule.Run(cfg, Schedule.START, evs).traces[r].emitted[i]
  }

  /** The worker's action for one layer of an emitted store. */
  function SaveOf<T>(store: Schedule.Store, l: string, view: seq<T>): Pipeline.Action<T>
  {
    Pipeline.Save(store.r, l, store.end, store.table, view)
  }

  lemma {:induction false} EmittedCovers(cfg: Schedule.Config, evs: seq<Schedule.Event>, r: string, i: nat)
    requires cfg.bs > 0 && Schedule.IsRun(cfg, Schedule.START, evs)
    requires r in Schedule.Run(cfg, Schedule.START, evs).traces
    requires i < |Schedule.Run(cfg, Schedule.START, evs).traces[r].emitted|
    ensures var e := Emitted(cfg, evs, r, i);
      && e.store.r == r && 0 < e.store.end <= e.reached && TableCovers(e.table, e.store.end, cfg.bs) && e.store.table == e.table
      && (i > 0 ==> Emitted(cfg, evs, r, i - 1).store.end < e.store.end)
  {
    Schedule.CaptureRunIsOrdered(cfg, evs, r);
    Schedule.RunKeepsInv(cfg, Schedule.START, evs);
    var t := Schedule.Run(cfg, Schedule.START, evs).traces[r];
    assert Schedule.TraceOk(cfg, Schedule.Run(cfg, Schedule.START, evs), r);
    assert t.emitted[i] in t.emitted;
    assert Schedule.Sound(cfg, r, t, t.emitted[i]);
  }

  /** Every store the scheduler role emits, over every run, meets what the worker's save
      asks of it, once the forward pass it was planned for has run. */
  lemma {:induction false} EmittedStoreMayBeSaved<T(!new)>(
      cfg: Schedule.Config, evs: seq<Schedule.Event>, r: string, i: nat, c: Pipeline.Config, ideal: Pipeline.Ideal<T>,
      s: Pipeline.State<T>, l: string, view: seq<T>)
    requires cfg.bs > 0 && c.bs == cfg.bs && Schedule.IsRun(cfg, Schedule.START, evs)
    requires r in Schedule.Run(cfg, Schedule.START, evs).traces
    requires i < |Schedule.Run(cfg, Schedule.START, evs).traces[r].emitted|
    requires s.phase.Saving? && (r, l) !in s.phase.saved && l in c.layers && r !in s.retired
    requires var e := Emitted(cfg, evs, r, i); Filled(view, e.table, e.reached, c.bs, ideal(r, l))
    ensures Pipeline.Enabled(c, ideal, s, SaveOf(Emitted(cfg, evs, r, i).store, l, view))
  {
    EmittedCovers(cfg, evs, r, i);
  }

  /** And it extends the capture: saved on a layer that has got no further than the store
      before it, in any reachable state of the worker, it queues exactly the one-shot capture
      up to its own end. */
  lemma {:induction false} EmittedStoreExtendsCapture<T(!new)>(
      cfg: Schedule.Config, evs: seq<Schedule.Event>, r: string, i: nat, c: Pipeline.Config, ideal: Pipeline.Ideal<T>,
      acts: seq<Pipeline.Action<T>>, l: string, view: seq<T>)
    requires cfg.bs > 0 && c.bs == cfg.bs && Schedule.IsRun(cfg, Schedule.START, evs)
    requires r in Schedule.Run(cfg, Schedule.START, evs).traces
    requires i < |Schedule.Run(cfg, Schedule.START, evs).traces[r].emitted|
    requires Pipeline.IsRun(c, ideal, Pipeline.Init(), acts)
    requires var s := Pipeline.Run(c, Pipeline.Init(), acts);
      && s.phase.Saving? && (r, l) !in s.phase.saved && l in c.layers && r !in s.retired
      && Pipeline.ProgressOf(s, r, l) <= if i == 0 then 0 else Emitted(cfg, evs, r, i - 1).store.end
    requires var e := Emitted(cfg, evs, r, i); Filled(view, e.table, e.reached, c.bs, ideal(r, l))
    ensures var s := Pipeline.Run(c, Pipeline.Init(), acts); var store := Emitted(cfg, evs, r, i).store;
      var t := Pipeline.Step(c, s, SaveOf(store, l, view));
      && t.queue == s.queue + [Pipeline.LayerJob(r, l, Pipeline.OneShot(store.end, ideal(r, l)))]
      && Pipeline.ProgressOf(t, r, l) == store.end
  {
    var s := Pipeline.Run(c, Pipeline.Init(), acts);
    var store := Emitted(cfg, evs, r, i).store;
    EmittedCovers(cfg, evs, r, i);
    EmittedStoreMayBeSaved(cfg, evs, r, i, c, ideal, s, l, view);
    Pipeline.ChunkCompletesOneShot(c, ideal, acts, r, l, store.end, store.table, view);
  }
}
