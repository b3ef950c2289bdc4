/** The scheduler role's side of donor capture: which prefix of a prompt each step tells the
    worker to store, under chunked prefill, resumed block tables and decode starting early. */
module CaptureSchedule {
  import opened Blocks

  type Request = string

  datatype Config = Config(bs: nat, minPrompt: nat, captureServed: bool)

  datatype Skip = ShortPrompt | Served | PolicyDeclined | NoBlockIds | BelowOneBlock

  /** An open capture. */
  datatype Capture = Capture(promptLen: nat, table: seq<nat>, namespace: string, capturedEnd: nat)

  datatype Store = Store(r: Request, end: nat, namespace: string, table: seq<nat>, final: bool)

  datatype Scheduler = Scheduler(
    open: map<Request, Capture>, started: map<Request, string>, finalize: seq<Request>,
    served: set<Request>, skipped: map<Request, Skip>, boundaries: map<Request, nat>)

  datatype Outcome = Outcome(s: Scheduler, store: Option<Store>)

  /** A request scheduled for the first time; declined is its capture policy's verdict. */
  datatype Admission = Admission(
    r: Request, promptLen: nat, table: Option<seq<nat>>, namespace: string, computed: nat, declined: bool)

  /** A request's line in a later step's diff. */
  datatype Row = Row(r: Request, added: Option<seq<nat>>, resumed: bool, computed: nat, outputs: nat)

  type Scheduled = Option<map<Request, nat>>

  /** How far the prompt is computed once this step's forward pass has run. */
  function ComputedEnd(r: Request, computed: nat, promptLen: nat, scheduled: Scheduled): nat
  {
    if scheduled.None? then promptLen
    else computed + if r in scheduled.value then scheduled.value[r] else 0
  }

  function Cap(cfg: Config, promptLen: nat): int
    requires cfg.bs > 0
  {
    CacheablePrefix(promptLen, cfg.bs)
  }

  function End(cfg: Config, c: Capture, computedEnd: nat): int
    requires cfg.bs > 0
  {
    Min(Min(Cap(cfg, c.promptLen), |c.table| * cfg.bs), FloorTo(computedEnd, cfg.bs))
  }

  function Advance(cfg: Config, s: Scheduler, r: Request, c: Capture, computedEnd: nat): Outcome
    requires cfg.bs > 0
  {
    var cap := Cap(cfg, c.promptLen);
    if cap <= 0 then
      Outcome(s.(open := s.open - {r}, skipped := s.skipped[r := BelowOneBlock]), None)
    else
      var end := End(cfg, c, computedEnd);
      if end <= c.capturedEnd then Outcome(s.(open := s.open[r := c]), None)
      else
        var final := end >= cap;
        Outcome(
          s.(open := if final then s.open - {r} else s.open[r := c.(capturedEnd := end)],
             started := s.started[r := c.namespace],
             skipped := s.skipped - {r}),
          Some(Store(r, end, c.namespace, c.table, final)))
  }

  function Skipped(s: Scheduler, r: Request, why: Skip): Outcome
  {
    Outcome(s.(skipped := s.skipped[r := why]), None)
  }

  predicate Allowed(cfg: Config, s: Scheduler, r: Request) { r !in s.served || cfg.captureServed }

  function ConsumeServed(s: Scheduler, r: Request): Scheduler { s.(served := s.served - {r}) }

  function AdmitOne(cfg: Config, s: Scheduler, n: Admission, scheduled: Scheduled): Outcome
    requires cfg.bs > 0
  {
    if n.promptLen < cfg.minPrompt then Skipped(s, n.r, ShortPrompt)
    else if !Allowed(cfg, s, n.r) then Skipped(ConsumeServed(s, n.r), n.r, Served)
    else
      var t := ConsumeServed(s, n.r);
      if n.declined then Skipped(t, n.r, PolicyDeclined)
      else if n.table.None? then Skipped(t, n.r, NoBlockIds)
      else
        Advance(cfg, t.(boundaries := t.boundaries[n.r := n.computed]), n.r,
                Capture(n.promptLen, n.table.value, n.namespace, 0),
                ComputedEnd(n.r, n.computed, n.promptLen, scheduled))
  }

  function ContinueOne(cfg: Config, s: Scheduler, row: Row, scheduled: Scheduled): Outcome
    requires cfg.bs > 0
  {
    if row.r !in s.open then Outcome(s, None)
    else if !Allowed(cfg, s, row.r) then
      var o := Skipped(ConsumeServed(s, row.r), row.r, Served);
      o.(s := o.s.(open := o.s.open - {row.r}))
    else
      var t := ConsumeServed(s, row.r);
      var c := s.open[row.r];
      if row.outputs > 0 then
        Outcome(t.(open := t.open - {row.r}, finalize := t.finalize + [row.r]), None)
      else
        Advance(cfg, t, row.r, c.(table := ExtendTable(c.table, row.added, row.resumed)),
                ComputedEnd(row.r, row.computed, c.promptLen, scheduled))
  }

  function FinishOne(s: Scheduler, r: Request): Scheduler
  {
    s.(open := s.open - {r}, finalize := if r in s.open then s.finalize + [r] else s.finalize,
       started := s.started - {r}, skipped := s.skipped - {r}, boundaries := s.boundaries - {r})
  }

  /** The finish hook, which the engine calls before the id reaches a step's finished ids:
      an open capture is forgotten, and nothing tells the worker to publish it. */
  function ForgetOne(s: Scheduler, r: Request): Scheduler
  {
    s.(open := s.open - {r}, started := s.started - {r}, skipped := s.skipped - {r}, boundaries := s.boundaries - {r})
  }

  const IDLE := Scheduler(map[], map[], [], {}, map[], map[])

  // ------------------------------------------------------------- one advance

  /** What a step may store: whole blocks of the cacheable prefix, which leaves the last two
      prompt tokens out, that the table covers and the forward pass has computed. */
  ghost predicate Storable(cfg: Config, c: Capture, computedEnd: nat, end: nat)
    requires cfg.bs > 0
  {
    && end % cfg.bs == 0
    && (end == 0 || end + 2 <= c.promptLen)
    && end <= |c.table| * cfg.bs
    && end <= computedEnd
  }

  lemma {:induction false} EndIsLargestStorable(cfg: Config, c: Capture, computedEnd: nat, other: nat)
    requires cfg.bs > 0
    ensures End(cfg, c, computedEnd) >= 0 && Storable(cfg, c, computedEnd, End(cfg, c, computedEnd))
    ensures Storable(cfg, c, computedEnd, other) ==> other <= End(cfg, c, computedEnd)
  {
    Product(|c.table|, cfg.bs);
    MulOrder(0, |c.table|, cfg.bs);
    if other % cfg.bs == 0 {
      CacheableIsLargest(c.promptLen, cfg.bs, other);
      AlignedBounds(other, computedEnd, cfg.bs);
    }
    Product(0, cfg.bs);
    AlignedBounds(0, computedEnd, cfg.bs);
  }

  // -------------------------------------------------------------------- runs

  datatype Event =
    | Serve(r: Request)                              // a load was committed for it
    | RequestFinished(r: Request)                    // the finish hook
    | Finish(r: Request)                             // named in a step's finished ids
    | Admit(n: Admission, scheduled: Scheduled)
    | Continue(row: Row, scheduled: Scheduled)
    | Drain                                          // the step's metadata takes the finalizes

  /** How far the engine says the prompt is computed once the step has run: what it had
      computed and, for a request it schedules, the tokens it schedules. An engine that does
      not say is taken to compute the whole prompt. */
  function Reached(r: Request, computed: nat, promptLen: nat, scheduled: Scheduled): nat
  {
    match scheduled
    case None => promptLen
    case Some(tokens) => if r in tokens then computed + tokens[r] else computed
  }

  /** One store, with how far the engine's forward pass reached and the request's own block
      table in the step that emitted it. */
  datatype Emission = Emission(store: Store, reached: nat, table: seq<nat>)

  /** What happened to one request's capture since it was opened: what it emitted, and
      whether a load abandoned it or the finish hook forgot it. */
  datatype Trace = Trace(promptLen: nat, namespace: string, emitted: seq<Emission>, abandoned: bool, dropped: bool)

  /** The scheduler role, what the worker was told to finalize, each capture's trace, and the
      block tables as the engine keeps them. */
  datatype World = World(
    s: Scheduler, drained: seq<Request>, traces: map<Request, Trace>, tables: map<Request, seq<nat>>)

  function TableOf(w: World, r: Request): seq<nat> { if r in w.tables then w.tables[r] else [] }

  /** The engine's table after a row: new blocks at its end, or, for a request that comes
      back, the whole table anew. */
  function NextTable(w: World, row: Row): seq<nat>
  {
    match row.added
    case None => TableOf(w, row.r)
    case Some(blocks) => if row.resumed then blocks else TableOf(w, row.r) + blocks
  }

  function Emitted(o: Outcome, reached: nat, table: seq<nat>): seq<Emission>
  {
    if o.store.Some? then [Emission(o.store.value, reached, table)] else []
  }

  function StepWorld(cfg: Config, w: World, ev: Event): World
    requires cfg.bs > 0
  {
    match ev
    case Serve(r) => w.(s := w.s.(served := w.s.served + {r}))
    case RequestFinished(r) =>
      w.(s := ForgetOne(w.s, r),
         traces := if r in w.s.open && r in w.traces then w.traces[r := w.traces[r].(dropped := true)] else w.traces)
    case Finish(r) => w.(s := FinishOne(w.s, r))
    case Drain => w.(s := w.s.(finalize := []), drained := w.drained + w.s.finalize)
    case Admit(n, scheduled) =>
      var o := AdmitOne(cfg, w.s, n, scheduled);
      var table := if n.table.Some? then n.table.value else [];
      var v := w.(s := o.s, tables := w.tables[n.r := table]);
      if n.r in o.s.open || o.store.Some? then
        v.(traces := w.traces[n.r := Trace(n.promptLen, n.namespace,
                                           Emitted(o, Reached(n.r, n.computed, n.promptLen, scheduled), table), false, false)])
      else v
    case Continue(row, scheduled) =>
      var o := ContinueOne(cfg, w.s, row, scheduled);
      var v := w.(s := o.s, tables := w.tables[row.r := NextTable(w, row)]);
      if row.r !in w.traces then v
      else
        var t := w.traces[row.r];
        v.(traces := w.traces[row.r := t.(
             emitted := t.emitted + Emitted(o, Reached(row.r, row.computed, t.promptLen, scheduled), NextTable(w, row)),
             abandoned := t.abandoned || (row.r in w.s.open && row.r in w.s.served && !cfg.captureServed))])
  }

  /** A request id names one capture: it is scheduled for the first time once. */
  predicate Enabled(w: World, ev: Event)
  {
    ev.Admit? ==> ev.n.r !in w.traces && ev.n.r !in w.s.open
  }

  const START := World(IDLE, [], map[], map[])

  /** The world a sequence of events leads to, first to last. */
  function Run(cfg: Config, w: World, evs: seq<Event>): World
    requires cfg.bs > 0
    decreases |evs|
  {
    if evs == [] then w else Run(cfg, StepWorld(cfg, w, evs[0]), evs[1..])
  }

  ghost predicate IsRun(cfg: Config, w: World, evs: seq<Event>)
    requires cfg.bs > 0
    decreases |evs|
  {
    evs != [] ==> Enabled(w, evs[0]) && IsRun(cfg, StepWorld(cfg, w, evs[0]), evs[1..])
  }

  // -------------------------------------------------------------- invariants

  function LastEnd(t: Trace): nat { if t.emitted == [] then 0 else t.emitted[|t.emitted| - 1].store.end }

  predicate IsFinal(t: Trace) { t.emitted != [] && t.emitted[|t.emitted| - 1].store.final }

  /** One emission: whole blocks, within the cacheable prefix, the table it carries and what
      the forward pass has computed; final exactly at the cacheable prefix. */
  ghost predicate Sound(cfg: Config, r: Request, t: Trace, e: Emission)
    requires cfg.bs > 0
  {
    && e.store.r == r && e.store.namespace == t.namespace && e.store.table == e.table
    && 0 < e.store.end
    && Storable(cfg, Capture(t.promptLen, e.store.table, t.namespace, 0), e.reached, e.store.end)
    && (e.store.final <==> e.store.end == Cap(cfg, t.promptLen))
  }

  /** Ends strictly increase and nothing follows a final store. */
  ghost predicate Ordered(t: Trace)
  {
    && (forall i, j | 0 <= i < j < |t.emitted| :: t.emitted[i].store.end < t.emitted[j].store.end)
    && (forall i | 0 <= i < |t.emitted| - 1 :: !t.emitted[i].store.final)
  }

  function Finalizes(w: World, r: Request): nat { multiset(w.drained + w.s.finalize)[r] }

  function Count(b: bool): nat { if b then 1 else 0 }

  ghost predicate TraceOk(cfg: Config, w: World, r: Request)
    requires cfg.bs > 0 && r in w.traces
  {
    var t := w.traces[r];
    && Ordered(t)
    && (forall e | e in t.emitted :: Sound(cfg, r, t, e))
    && (r in w.s.open ==> w.s.open[r].promptLen == t.promptLen && w.s.open[r].namespace == t.namespace
                          && w.s.open[r].table == TableOf(w, r)
                          && w.s.open[r].capturedEnd == LastEnd(t) < Cap(cfg, t.promptLen))
    // A capture is open, or it was closed in exactly one of four ways.
    && Count(r in w.s.open) + Count(IsFinal(t)) + Count(t.abandoned) + Finalizes(w, r) + Count(t.dropped) == 1
  }

  ghost predicate Inv(cfg: Config, w: World)
    requires cfg.bs > 0
  {
    && (forall r | r in w.traces :: TraceOk(cfg, w, r))
    && (forall r | r in w.s.open :: r in w.traces)
    && (forall r | r !in w.traces :: Finalizes(w, r) == 0)
  }

  function Appended(t: Trace, o: Outcome, reached: nat, table: seq<nat>): Trace
  {
    t.(emitted := t.emitted + Emitted(o, reached, table))
  }

  lemma {:induction false} EmissionIsSound(cfg: Config, s: Scheduler, r: Request, c: Capture, computedEnd: nat, t: Trace)
    requires cfg.bs > 0
    requires c.promptLen == t.promptLen && c.namespace == t.namespace
    ensures var o := Advance(cfg, s, r, c, computedEnd);
      o.store.Some? ==>
        && c.capturedEnd < o.store.value.end
        && Sound(cfg, r, t, Emission(o.store.value, computedEnd, c.table))
  {
    EndIsLargestStorable(cfg, c, computedEnd, 0);
    var o := Advance(cfg, s, r, c, computedEnd);
    if o.store.Some? {
      var d := Capture(t.promptLen, o.store.value.table, t.namespace, 0);
      assert Storable(cfg, d, computedEnd, o.store.value.end);
    }
  }

  lemma {:induction false} OneMoreEmission(cfg: Config, r: Request, t: Trace, e: Emission)
    requires cfg.bs > 0
    requires Ordered(t) && !IsFinal(t) && forall x | x in t.emitted :: Sound(cfg, r, t, x)
    requires Sound(cfg, r, t, e) && LastEnd(t) < e.store.end
    ensures var u := t.(emitted := t.emitted + [e]);
      Ordered(u) && (forall x | x in u.emitted :: Sound(cfg, r, u, x)) && LastEnd(u) == e.store.end
  {
    var u := t.(emitted := t.emitted + [e]);
    forall i, j | 0 <= i < j < |u.emitted| ensures u.emitted[i].store.end < u.emitted[j].store.end {
      assert i < |t.emitted| - 1 ==> t.emitted[i].store.end < t.emitted[|t.emitted| - 1].store.end;
    }
    forall i | 0 <= i < |u.emitted| - 1 ensures !u.emitted[i].store.final {
      assert i < |t.emitted| - 1 ==> !t.emitted[i].store.final;
    }
    forall x | x in u.emitted ensures Sound(cfg, r, u, x) {
      assert x != e ==> x in t.emitted && Sound(cfg, r, t, x);
      assert Sound(cfg, r, t, e) ==> Sound(cfg, r, u, e);
    }
  }

  lemma {:induction false} AdvanceKeepsTrace(cfg: Config, s: Scheduler, r: Request, c: Capture, computedEnd: nat, t: Trace)
    requires cfg.bs > 0 && Cap(cfg, c.promptLen) > 0
    requires Ordered(t) && !IsFinal(t) && forall e | e in t.emitted :: Sound(cfg, r, t, e)
    requires c.promptLen == t.promptLen && c.namespace == t.namespace
    requires c.capturedEnd == LastEnd(t) < Cap(cfg, t.promptLen)
    ensures var o := Advance(cfg, s, r, c, computedEnd); var u := Appended(t, o, computedEnd, c.table);
      && Ordered(u)
      && (forall e | e in u.emitted :: Sound(cfg, r, u, e))
      && Count(r in o.s.open) + Count(IsFinal(u)) == 1
      && (r in o.s.open ==> o.s.open[r].promptLen == u.promptLen && o.s.open[r].namespace == u.namespace
                            && o.s.open[r].table == c.table
                            && o.s.open[r].capturedEnd == LastEnd(u) < Cap(cfg, u.promptLen))
      && LastEnd(u) == Max(LastEnd(t), End(cfg, c, computedEnd))
  {
    EmissionIsSound(cfg, s, r, c, computedEnd, t);
    var o := Advance(cfg, s, r, c, computedEnd);
    if o.store.Some? {
      OneMoreEmission(cfg, r, t, Emission(o.store.value, computedEnd, c.table));
    } else {
      assert Appended(t, o, computedEnd, c.table).emitted == t.emitted;
    }
  }

  /** What an outcome leaves alone. */
  ghost predicate OnlyTouches(s: Scheduler, t: Scheduler, r: Request)
  {
    && s.open.Keys - {r} == t.open.Keys - {r}
    && (forall q | q in s.open && q != r :: q in t.open && t.open[q] == s.open[q])
    && s.finalize <= t.finalize
    && forall i | |s.finalize| <= i < |t.finalize| :: t.finalize[i] == r
  }

  ghost predicate OthersOk(cfg: Config, w: World, r: Request)
    requires cfg.bs > 0
  {
    && (forall q | q in w.traces && q != r :: TraceOk(cfg, w, q))
    && (forall q | q in w.s.open && q != r :: q in w.traces)
    && (forall q | q !in w.traces && q != r :: Finalizes(w, q) == 0)
  }

  ghost predicate OwnOk(cfg: Config, w: World, r: Request)
    requires cfg.bs > 0
  {
    if r in w.traces then TraceOk(cfg, w, r) else r !in w.s.open && Finalizes(w, r) == 0
  }

  lemma {:induction false} Gathered(cfg: Config, w: World, r: Request)
    requires cfg.bs > 0 && OthersOk(cfg, w, r) && OwnOk(cfg, w, r)
    ensures Inv(cfg, w)
  {
  }

  lemma {:induction false} OtherTracesKept(cfg: Config, w: World, v: World, r: Request)
    requires cfg.bs > 0 && Inv(cfg, w)
    requires v.drained == w.drained && OnlyTouches(w.s, v.s, r)
    requires v.traces.Keys - {r} == w.traces.Keys - {r}
    requires forall q | q in w.traces && q != r :: q in v.traces && v.traces[q] == w.traces[q]
    requires forall q | q != r :: TableOf(v, q) == TableOf(w, q)
    ensures OthersOk(cfg, v, r)
  {
    forall q | q != r ensures Finalizes(v, q) == Finalizes(w, q) {
      OtherCount(w.s.finalize, v.s.finalize, r, q);
    }
    forall q | q in v.traces && q != r ensures TraceOk(cfg, v, q) {
      assert q in v.traces.Keys - {r};
      assert TraceOk(cfg, w, q);
      assert (q in v.s.open) == (q in w.s.open) by {
        assert q in v.s.open.Keys - {r} <==> q in w.s.open.Keys - {r};
      }
    }
    forall q | q in v.s.open && q != r ensures q in v.traces {
      assert q in w.s.open.Keys - {r};
      assert q in w.traces.Keys - {r};
    }
    forall q | q !in v.traces && q != r ensures Finalizes(v, q) == 0 {
      assert q in w.traces ==> q in w.traces.Keys - {r};
    }
  }

  lemma {:induction false} OtherCount(xs: seq<Request>, ys: seq<Request>, r: Request, q: Request)
    requires xs <= ys && q != r && forall i | |xs| <= i < |ys| :: ys[i] == r
    ensures multiset(ys)[q] == multiset(xs)[q]
    decreases |ys|
  {
    if |ys| == |xs| {
      assert ys == xs;
    } else {
      OtherCount(xs, ys[..|ys| - 1], r, q);
      assert ys == ys[..|ys| - 1] + [r];
    }
  }

  /** The table a row's advance works on. */
  function Rowed(c: Capture, row: Row): Capture { c.(table := ExtendTable(c.table, row.added, row.resumed)) }

  lemma {:induction false} AdvanceTouchesOne(cfg: Config, s: Scheduler, r: Request, c: Capture, computedEnd: nat)
    requires cfg.bs > 0
    ensures OnlyTouches(s, Advance(cfg, s, r, c, computedEnd).s, r)
    ensures Advance(cfg, s, r, c, computedEnd).s.finalize == s.finalize
  {
  }

  lemma {:induction false} AdmitTouchesOne(cfg: Config, s: Scheduler, n: Admission, scheduled: Scheduled)
    requires cfg.bs > 0
    ensures OnlyTouches(s, AdmitOne(cfg, s, n, scheduled).s, n.r)
    ensures AdmitOne(cfg, s, n, scheduled).s.finalize == s.finalize
  {
    var u := ConsumeServed(s, n.r);
    if n.table.Some? {
      AdvanceTouchesOne(cfg, u.(boundaries := u.boundaries[n.r := n.computed]), n.r,
        Capture(n.promptLen, n.table.value, n.namespace, 0), ComputedEnd(n.r, n.computed, n.promptLen, scheduled));
    }
  }

  lemma {:induction false} ContinueTouchesOne(cfg: Config, s: Scheduler, row: Row, scheduled: Scheduled)
    requires cfg.bs > 0
    ensures OnlyTouches(s, ContinueOne(cfg, s, row, scheduled).s, row.r)
  {
    if row.r in s.open {
      var c := s.open[row.r];
      AdvanceTouchesOne(cfg, ConsumeServed(s, row.r), row.r, Rowed(c, row),
        ComputedEnd(row.r, row.computed, c.promptLen, scheduled));
    }
  }

  /** A capture is opened, or emits at once, only past every gate and by one advance. */
  lemma {:induction false} OpeningIsAnAdvance(cfg: Config, s: Scheduler, n: Admission, scheduled: Scheduled)
    returns (t: Scheduler)
    requires cfg.bs > 0 && n.r !in s.open
    requires var o := AdmitOne(cfg, s, n, scheduled); n.r in o.s.open || o.store.Some?
    ensures n.table.Some? && Cap(cfg, n.promptLen) > 0
    ensures AdmitOne(cfg, s, n, scheduled) ==
      Advance(cfg, t, n.r, Capture(n.promptLen, n.table.value, n.namespace, 0),
              ComputedEnd(n.r, n.computed, n.promptLen, scheduled))
  {
    var u := ConsumeServed(s, n.r);
    t := u.(boundaries := u.boundaries[n.r := n.computed]);
  }

  /** What an admission leaves for its own request. */
  lemma {:induction false} AdmittedWorld(cfg: Config, w: World, n: Admission, scheduled: Scheduled)
    requires cfg.bs > 0 && OwnOk(cfg, w, n.r) && Enabled(w, Admit(n, scheduled))
    ensures var o := AdmitOne(cfg, w.s, n, scheduled); var v := StepWorld(cfg, w, Admit(n, scheduled));
      var trace := Trace(n.promptLen, n.namespace, [], false, false);
      && v.s == o.s && Finalizes(v, n.r) == 0
      && (if n.r in o.s.open || o.store.Some? then
            n.r in v.traces
            && n.table.Some? && TableOf(v, n.r) == n.table.value
            && v.traces[n.r] == Appended(trace, o, Reached(n.r, n.computed, n.promptLen, scheduled), n.table.value)
          else n.r !in v.traces)
  {
    var o := AdmitOne(cfg, w.s, n, scheduled);
    assert o.s.finalize == w.s.finalize by { AdmitTouchesOne(cfg, w.s, n, scheduled); }
    assert Finalizes(w, n.r) == 0;
    if n.r in o.s.open || o.store.Some? {
      assert n.table.Some? by { var t := OpeningIsAnAdvance(cfg, w.s, n, scheduled); }
      TracedWorld(cfg, w, n, scheduled, o);
    }
  }

  /** The trace an admission that opens a capture starts. */
  lemma {:induction false} TracedWorld(cfg: Config, w: World, n: Admission, scheduled: Scheduled, o: Outcome)
    requires cfg.bs > 0 && n.table.Some? && o == AdmitOne(cfg, w.s, n, scheduled) && (n.r in o.s.open || o.store.Some?)
    ensures var v := StepWorld(cfg, w, Admit(n, scheduled));
      var emitted := Emitted(o, Reached(n.r, n.computed, n.promptLen, scheduled), n.table.value);
      && v.tables == w.tables[n.r := n.table.value]
      && v.traces == w.traces[n.r := Trace(n.promptLen, n.namespace, emitted, false, false)]
  {
  }

  lemma {:induction false} AdmitKeepsOwn(cfg: Config, w: World, n: Admission, scheduled: Scheduled)
    requires cfg.bs > 0 && OwnOk(cfg, w, n.r) && Enabled(w, Admit(n, scheduled))
    ensures OwnOk(cfg, StepWorld(cfg, w, Admit(n, scheduled)), n.r)
  {
    AdmittedWorld(cfg, w, n, scheduled);
    var o := AdmitOne(cfg, w.s, n, scheduled);
    if n.r in o.s.open || o.store.Some? {
      OpenedIsOk(cfg, w.s, n, scheduled, StepWorld(cfg, w, Admit(n, scheduled)));
    }
  }

  lemma {:induction false} OpenedIsOk(cfg: Config, s: Scheduler, n: Admission, scheduled: Scheduled, v: World)
    requires cfg.bs > 0 && n.r !in s.open && Finalizes(v, n.r) == 0 && n.r in v.traces && n.table.Some?
    requires var o := AdmitOne(cfg, s, n, scheduled);
      && (n.r in o.s.open || o.store.Some?) && v.s == o.s && TableOf(v, n.r) == n.table.value
      && v.traces[n.r] == Appended(Trace(n.promptLen, n.namespace, [], false, false), o,
                                   Reached(n.r, n.computed, n.promptLen, scheduled), n.table.value)
    ensures TraceOk(cfg, v, n.r)
  {
    var t := OpeningIsAnAdvance(cfg, s, n, scheduled);
    FirstTraceIsOk(cfg, t, n, Reached(n.r, n.computed, n.promptLen, scheduled), v);
  }

  lemma {:induction false} FirstTraceIsOk(cfg: Config, t: Scheduler, n: Admission, reached: nat, v: World)
    requires cfg.bs > 0 && Finalizes(v, n.r) == 0 && n.r in v.traces && n.table.Some? && Cap(cfg, n.promptLen) > 0
    requires var o := Advance(cfg, t, n.r, Capture(n.promptLen, n.table.value, n.namespace, 0), reached);
      && v.s == o.s && TableOf(v, n.r) == n.table.value
      && v.traces[n.r] == Appended(Trace(n.promptLen, n.namespace, [], false, false), o, reached, n.table.value)
    ensures TraceOk(cfg, v, n.r)
  {
    AdvanceKeepsTrace(cfg, t, n.r, Capture(n.promptLen, n.table.value, n.namespace, 0), reached,
      Trace(n.promptLen, n.namespace, [], false, false));
  }

  /** What a row that advances a capture leaves for its own request. */
  lemma {:induction false} AdvancedWorld(cfg: Config, w: World, row: Row, scheduled: Scheduled)
    requires cfg.bs > 0 && row.r in w.s.open && row.r in w.traces && w.s.open[row.r].table == TableOf(w, row.r)
    requires w.s.open[row.r].promptLen == w.traces[row.r].promptLen
    requires Allowed(cfg, w.s, row.r) && row.outputs == 0
    ensures var t := w.traces[row.r]; var v := StepWorld(cfg, w, Continue(row, scheduled));
      var reached := Reached(row.r, row.computed, t.promptLen, scheduled);
      var o := Advance(cfg, ConsumeServed(w.s, row.r), row.r, Rowed(w.s.open[row.r], row), reached);
      && v.s == o.s && v.drained == w.drained && o.s.finalize == w.s.finalize
      && Rowed(w.s.open[row.r], row).table == NextTable(w, row) == TableOf(v, row.r)
      && row.r in v.traces && v.traces[row.r] == Appended(t, o, reached, NextTable(w, row))
  {
  }

  lemma {:induction false} AdvanceRowKeepsOwn(cfg: Config, w: World, row: Row, scheduled: Scheduled)
    requires cfg.bs > 0 && OwnOk(cfg, w, row.r) && row.r in w.s.open
    requires Allowed(cfg, w.s, row.r) && row.outputs == 0
    ensures OwnOk(cfg, StepWorld(cfg, w, Continue(row, scheduled)), row.r)
    ensures LastEnd(StepWorld(cfg, w, Continue(row, scheduled)).traces[row.r]) ==
            Max(LastEnd(w.traces[row.r]),
                End(cfg, Rowed(w.s.open[row.r], row),
                    Reached(row.r, row.computed, w.s.open[row.r].promptLen, scheduled)))
  {
    var r, t := row.r, w.traces[row.r];
    AdvancedWorld(cfg, w, row, scheduled);
    AdvanceKeepsTrace(cfg, ConsumeServed(w.s, r), r, Rowed(w.s.open[r], row),
      Reached(r, row.computed, t.promptLen, scheduled), t);
    AppendedIsOk(cfg, w, StepWorld(cfg, w, Continue(row, scheduled)), r);
  }

  /** The trace of a capture that advanced: nothing but its emissions moved. */
  lemma {:induction false} AppendedIsOk(cfg: Config, w: World, v: World, r: Request)
    requires cfg.bs > 0 && r in w.traces && TraceOk(cfg, w, r) && r in w.s.open && r in v.traces
    requires var t, u := w.traces[r], v.traces[r];
      && u == t.(emitted := u.emitted) && Ordered(u) && (forall e | e in u.emitted :: Sound(cfg, r, u, e))
      && Count(r in v.s.open) + Count(IsFinal(u)) == 1 && v.drained == w.drained && v.s.finalize == w.s.finalize
      && (r in v.s.open ==> v.s.open[r].promptLen == u.promptLen && v.s.open[r].namespace == u.namespace
                            && v.s.open[r].table == TableOf(v, r)
                            && v.s.open[r].capturedEnd == LastEnd(u) < Cap(cfg, u.promptLen))
    ensures TraceOk(cfg, v, r)
  {
    assert Finalizes(v, r) == Finalizes(w, r);
  }

  lemma {:induction false} StrayRowKeepsOwn(cfg: Config, w: World, row: Row, scheduled: Scheduled)
    requires cfg.bs > 0 && OwnOk(cfg, w, row.r) && row.r !in w.s.open
    ensures OwnOk(cfg, StepWorld(cfg, w, Continue(row, scheduled)), row.r)
  {
    var v := StepWorld(cfg, w, Continue(row, scheduled));
    assert row.r in w.traces ==> v.traces[row.r].emitted == w.traces[row.r].emitted;
  }

  lemma {:induction false} RefusedRowKeepsOwn(cfg: Config, w: World, row: Row, scheduled: Scheduled)
    requires cfg.bs > 0 && OwnOk(cfg, w, row.r) && row.r in w.s.open && !Allowed(cfg, w.s, row.r)
    ensures OwnOk(cfg, StepWorld(cfg, w, Continue(row, scheduled)), row.r)
  {
    var v := StepWorld(cfg, w, Continue(row, scheduled));
    assert row.r in w.traces ==> v.traces[row.r].emitted == w.traces[row.r].emitted;
  }

  lemma {:induction false} FinalizeClosesOwn(cfg: Config, w: World, v: World, r: Request)
    requires cfg.bs > 0 && OwnOk(cfg, w, r) && r in w.s.open && r in v.traces && v.traces[r] == w.traces[r]
    requires r !in v.s.open && Finalizes(v, r) == Finalizes(w, r) + 1
    ensures OwnOk(cfg, v, r)
  {
  }

  lemma {:induction false} OutputRowKeepsOwn(cfg: Config, w: World, row: Row, scheduled: Scheduled)
    requires cfg.bs > 0 && OwnOk(cfg, w, row.r) && row.r in w.s.open && Allowed(cfg, w.s, row.r) && row.outputs > 0
    ensures OwnOk(cfg, StepWorld(cfg, w, Continue(row, scheduled)), row.r)
  {
    var v := StepWorld(cfg, w, Continue(row, scheduled));
    var t := w.traces[row.r];
    assert v.traces[row.r] == t by { assert t.emitted + [] == t.emitted; }
    assert w.drained + (w.s.finalize + [row.r]) == (w.drained + w.s.finalize) + [row.r];
    assert Finalizes(v, row.r) == Finalizes(w, row.r) + 1;
    FinalizeClosesOwn(cfg, w, v, row.r);
  }

  lemma {:induction false} FinishKeepsOwn(cfg: Config, w: World, r: Request)
    requires cfg.bs > 0 && OwnOk(cfg, w, r)
    ensures OwnOk(cfg, StepWorld(cfg, w, Finish(r)), r)
  {
    assert w.drained + (w.s.finalize + [r]) == (w.drained + w.s.finalize) + [r];
  }

  lemma {:induction false} ForgetKeepsOwn(cfg: Config, w: World, r: Request)
    requires cfg.bs > 0 && OwnOk(cfg, w, r)
    ensures OwnOk(cfg, StepWorld(cfg, w, RequestFinished(r)), r)
  {
    var v := StepWorld(cfg, w, RequestFinished(r));
    assert Finalizes(v, r) == Finalizes(w, r);
    assert r in w.traces ==> v.traces[r].emitted == w.traces[r].emitted;
  }

  lemma {:induction false} SameTraces(cfg: Config, w: World, v: World)
    requires cfg.bs > 0 && Inv(cfg, w)
    requires v.traces == w.traces && v.tables == w.tables && v.s.open == w.s.open && v.drained + v.s.finalize == w.drained + w.s.finalize
    ensures Inv(cfg, v)
  {
    forall r ensures Finalizes(v, r) == Finalizes(w, r) {}
    forall r | r in v.traces ensures TraceOk(cfg, v, r) { assert TraceOk(cfg, w, r); }
  }

  /** What a step over one request leaves alone in the world. */
  ghost predicate OnlyMoves(w: World, v: World, r: Request)
  {
    && v.drained == w.drained && OnlyTouches(w.s, v.s, r)
    && v.traces.Keys - {r} == w.traces.Keys - {r}
    && (forall q | q in w.traces && q != r :: q in v.traces && v.traces[q] == w.traces[q])
    && forall q | q != r :: TableOf(v, q) == TableOf(w, q)
  }

  lemma {:induction false} MovingOneKeepsInv(cfg: Config, w: World, v: World, r: Request)
    requires cfg.bs > 0 && Inv(cfg, w) && OnlyMoves(w, v, r) && OwnOk(cfg, v, r)
    ensures Inv(cfg, v)
  {
    OtherTracesKept(cfg, w, v, r);
    Gathered(cfg, v, r);
  }

  lemma {:induction false} AdmitMovesOne(cfg: Config, w: World, n: Admission, scheduled: Scheduled)
    requires cfg.bs > 0
    ensures OnlyMoves(w, StepWorld(cfg, w, Admit(n, scheduled)), n.r)
  {
    AdmitTouchesOne(cfg, w.s, n, scheduled);
  }

  lemma {:induction false} ContinueMovesOne(cfg: Config, w: World, row: Row, scheduled: Scheduled)
    requires cfg.bs > 0
    ensures OnlyMoves(w, StepWorld(cfg, w, Continue(row, scheduled)), row.r)
  {
    ContinueTouchesOne(cfg, w.s, row, scheduled);
  }

  lemma {:induction false} FinishMovesOne(cfg: Config, w: World, r: Request)
    requires cfg.bs > 0
    ensures OnlyMoves(w, StepWorld(cfg, w, Finish(r)), r)
  {
    var v := StepWorld(cfg, w, Finish(r));
    assert v.tables == w.tables && v.traces == w.traces;
  }

  lemma {:induction false} ForgetMovesOne(cfg: Config, w: World, r: Request)
    requires cfg.bs > 0
    ensures OnlyMoves(w, StepWorld(cfg, w, RequestFinished(r)), r)
  {
    var v := StepWorld(cfg, w, RequestFinished(r));
    assert v.tables == w.tables && v.s.finalize == w.s.finalize;
  }

  lemma {:induction false} InvIsOwnOk(cfg: Config, w: World, r: Request)
    requires cfg.bs > 0 && Inv(cfg, w)
    ensures OwnOk(cfg, w, r)
  {
  }

  lemma {:induction false} AdmitKeepsInv(cfg: Config, w: World, n: Admission, scheduled: Scheduled)
    requires cfg.bs > 0 && Inv(cfg, w) && Enabled(w, Admit(n, scheduled))
    ensures Inv(cfg, StepWorld(cfg, w, Admit(n, scheduled)))
  {
    InvIsOwnOk(cfg, w, n.r);
    AdmitMovesOne(cfg, w, n, scheduled);
    AdmitKeepsOwn(cfg, w, n, scheduled);
    MovingOneKeepsInv(cfg, w, StepWorld(cfg, w, Admit(n, scheduled)), n.r);
  }

  lemma {:induction false} RowKeepsOwn(cfg: Config, w: World, row: Row, scheduled: Scheduled)
    requires cfg.bs > 0 && OwnOk(cfg, w, row.r)
    ensures OwnOk(cfg, StepWorld(cfg, w, Continue(row, scheduled)), row.r)
  {
    if row.r in w.s.open && Allowed(cfg, w.s, row.r) && row.outputs == 0 {
      AdvanceRowKeepsOwn(cfg, w, row, scheduled);
    } else if row.r !in w.s.open {
      StrayRowKeepsOwn(cfg, w, row, scheduled);
    } else if !Allowed(cfg, w.s, row.r) {
      RefusedRowKeepsOwn(cfg, w, row, scheduled);
    } else {
      OutputRowKeepsOwn(cfg, w, row, scheduled);
    }
  }

  lemma {:induction false} ContinueKeepsInv(cfg: Config, w: World, row: Row, scheduled: Scheduled)
    requires cfg.bs > 0 && Inv(cfg, w)
    ensures Inv(cfg, StepWorld(cfg, w, Continue(row, scheduled)))
  {
    InvIsOwnOk(cfg, w, row.r);
    ContinueMovesOne(cfg, w, row, scheduled);
    RowKeepsOwn(cfg, w, row, scheduled);
    MovingOneKeepsInv(cfg, w, StepWorld(cfg, w, Continue(row, scheduled)), row.r);
  }

  lemma {:induction false} FinishKeepsInv(cfg: Config, w: World, r: Request)
    requires cfg.bs > 0 && Inv(cfg, w)
    ensures Inv(cfg, StepWorld(cfg, w, Finish(r)))
  {
    InvIsOwnOk(cfg, w, r);
    FinishKeepsOwn(cfg, w, r);
    FinishMovesOne(cfg, w, r);
    MovingOneKeepsInv(cfg, w, StepWorld(cfg, w, Finish(r)), r);
  }

  lemma {:induction false} ForgetKeepsInv(cfg: Config, w: World, r: Request)
    requires cfg.bs > 0 && Inv(cfg, w)
    ensures Inv(cfg, StepWorld(cfg, w, RequestFinished(r)))
  {
    InvIsOwnOk(cfg, w, r);
    ForgetKeepsOwn(cfg, w, r);
    ForgetMovesOne(cfg, w, r);
    MovingOneKeepsInv(cfg, w, StepWorld(cfg, w, RequestFinished(r)), r);
  }

  lemma {:induction false} StepKeepsInv(cfg: Config, w: World, ev: Event)
    requires cfg.bs > 0 && Inv(cfg, w) && Enabled(w, ev)
    ensures Inv(cfg, StepWorld(cfg, w, ev))
  {
    match ev
    case Admit(n, scheduled) => AdmitKeepsInv(cfg, w, n, scheduled);
    case Continue(row, scheduled) => ContinueKeepsInv(cfg, w, row, scheduled);
    case RequestFinished(r) => ForgetKeepsInv(cfg, w, r);
    case Finish(r) => FinishKeepsInv(cfg, w, r);
    case Drain =>
      var v := StepWorld(cfg, w, ev);
      assert v.drained + v.s.finalize == w.drained + w.s.finalize;
      SameTraces(cfg, w, v);
    case Serve(_) => SameTraces(cfg, w, StepWorld(cfg, w, ev));
  }

  lemma {:induction false} RunKeepsInv(cfg: Config, w: World, evs: seq<Event>)
    requires cfg.bs > 0 && Inv(cfg, w) && IsRun(cfg, w, evs)
    ensures Inv(cfg, Run(cfg, w, evs))
    decreases |evs|
  {
    if evs != [] {
      StepKeepsInv(cfg, w, evs[0]);
      RunKeepsInv(cfg, StepWorld(cfg, w, evs[0]), evs[1..]);
    }
  }

  lemma {:induction false} RunInTwo(cfg: Config, w: World, xs: seq<Event>, ys: seq<Event>)
    requires cfg.bs > 0
    ensures Run(cfg, w, xs + ys) == Run(cfg, Run(cfg, w, xs), ys)
    decreases |xs|
  {
    if xs == [] {
      assert xs + ys == ys;
    } else {
      assert (xs + ys)[0] == xs[0] && (xs + ys)[1..] == xs[1..] + ys;
      RunInTwo(cfg, StepWorld(cfg, w, xs[0]), xs[1..], ys);
    }
  }

  /** The finish hook met the request's capture while it was open. */
  ghost predicate DroppedOpen(cfg: Config, evs: seq<Event>, r: Request)
    requires cfg.bs > 0
  {
    exists i :: 0 <= i < |evs| && evs[i] == RequestFinished(r) && r in Run(cfg, START, evs[..i]).s.open
  }

  lemma {:induction false} LastEvent(cfg: Config, w: World, evs: seq<Event>)
    requires cfg.bs > 0 && evs != []
    ensures Run(cfg, w, evs) == StepWorld(cfg, Run(cfg, w, evs[..|evs| - 1]), evs[|evs| - 1])
  {
    var n := |evs| - 1;
    assert evs == evs[..n] + [evs[n]];
    RunInTwo(cfg, w, evs[..n], [evs[n]]);
    assert Run(cfg, StepWorld(cfg, Run(cfg, w, evs[..n]), evs[n]), []) == StepWorld(cfg, Run(cfg, w, evs[..n]), evs[n]);
  }

  lemma {:induction false} PrefixIsRun(cfg: Config, w: World, evs: seq<Event>, n: nat)
    requires cfg.bs > 0 && IsRun(cfg, w, evs) && n <= |evs|
    ensures IsRun(cfg, w, evs[..n])
    ensures n < |evs| ==> Enabled(Run(cfg, w, evs[..n]), evs[n])
    decreases |evs|
  {
    if n > 0 {
      PrefixIsRun(cfg, StepWorld(cfg, w, evs[0]), evs[1..], n - 1);
      assert evs[..n][1..] == evs[1..][..n - 1];
    }
  }

  /** An admission opens a capture unmarked and leaves the others' marks. */
  lemma {:induction false} AdmissionMarks(cfg: Config, w: World, n: Admission, scheduled: Scheduled, r: Request)
    requires cfg.bs > 0 && n.r !in w.traces && r in StepWorld(cfg, w, Admit(n, scheduled)).traces
    ensures var t := StepWorld(cfg, w, Admit(n, scheduled)).traces[r];
      if r == n.r then !t.dropped && !t.abandoned else r in w.traces && t == w.traces[r]
  {
  }

  /** A row marks its own capture abandoned when it meets it open with a load's mark on it,
      for an engine that does not capture such requests. */
  lemma {:induction false} RowMarks(cfg: Config, w: World, row: Row, scheduled: Scheduled, r: Request)
    requires cfg.bs > 0 && r in StepWorld(cfg, w, Continue(row, scheduled)).traces
    ensures var t := StepWorld(cfg, w, Continue(row, scheduled)).traces[r];
      && r in w.traces && t.dropped == w.traces[r].dropped
      && t.abandoned == (w.traces[r].abandoned
                         || (row.r == r && r in w.s.open && r in w.s.served && !cfg.captureServed))
  {
  }

  /** One event marks a capture dropped exactly when it is the hook meeting it open. */
  lemma {:induction false} DroppedByTheHook(cfg: Config, w: World, ev: Event, r: Request)
    requires cfg.bs > 0 && Inv(cfg, w) && Enabled(w, ev) && r in StepWorld(cfg, w, ev).traces
    ensures StepWorld(cfg, w, ev).traces[r].dropped
            <==> (ev == RequestFinished(r) && r in w.s.open) || (r in w.traces && w.traces[r].dropped)
    ensures ev == RequestFinished(r) && r in w.s.open ==> r in w.traces
  {
    match ev
    case Admit(n, scheduled) => AdmissionMarks(cfg, w, n, scheduled, r);
    case Continue(row, scheduled) => RowMarks(cfg, w, row, scheduled, r);
    case _ =>
  }

  lemma {:induction false} DroppedIffHookMetItOpen(cfg: Config, evs: seq<Event>, r: Request)
    requires cfg.bs > 0 && IsRun(cfg, START, evs)
    ensures var w := Run(cfg, START, evs); r in w.traces ==> (w.traces[r].dropped <==> DroppedOpen(cfg, evs, r))
    ensures r !in Run(cfg, START, evs).traces ==> !DroppedOpen(cfg, evs, r)
    decreases |evs|
  {
    if evs != [] {
      var n := |evs| - 1;
      var before := evs[..n];
      PrefixIsRun(cfg, START, evs, n);
      RunKeepsInv(cfg, START, before);
      DroppedIffHookMetItOpen(cfg, before, r);
      LastEvent(cfg, START, evs);
      DroppedExtends(cfg, evs, r);
      TracesStay(cfg, Run(cfg, START, before), evs[n]);
      if r in Run(cfg, START, evs).traces {
        DroppedByTheHook(cfg, Run(cfg, START, before), evs[n], r);
      }
    }
  }

  lemma {:induction false} TracesStay(cfg: Config, w: World, ev: Event)
    requires cfg.bs > 0
    ensures w.traces.Keys <= StepWorld(cfg, w, ev).traces.Keys
  {
  }

  lemma {:induction false} DroppedExtends(cfg: Config, evs: seq<Event>, r: Request)
    requires cfg.bs > 0 && evs != []
    ensures var n := |evs| - 1;
      DroppedOpen(cfg, evs, r) <==>
        DroppedOpen(cfg, evs[..n], r) || (evs[n] == RequestFinished(r) && r in Run(cfg, START, evs[..n]).s.open)
  {
    var n := |evs| - 1;
    forall i | 0 <= i < n ensures evs[..n][..i] == evs[..i] && evs[..n][i] == evs[i] {}
    if DroppedOpen(cfg, evs[..n], r) {
      var i :| 0 <= i < n && evs[..n][i] == RequestFinished(r) && r in Run(cfg, START, evs[..n][..i]).s.open;
      assert evs[i] == RequestFinished(r) && r in Run(cfg, START, evs[..i]).s.open;
    }
    if DroppedOpen(cfg, evs, r) {
      var i :| 0 <= i < |evs| && evs[i] == RequestFinished(r) && r in Run(cfg, START, evs[..i]).s.open;
      assert i < n ==> evs[..n][i] == RequestFinished(r) && r in Run(cfg, START, evs[..n][..i]).s.open;
    }
  }

  /** How many of a capture's lives and endings the worker can see: it is open, or its final
      store, a finalize or an abandoning load closed it. */
  function Closures(w: World, r: Request): nat
    requires r in w.traces
  {
    Count(r in w.s.open) + Count(IsFinal(w.traces[r])) + Count(w.traces[r].abandoned) + Finalizes(w, r)
  }

  /** The scheduler's capture protocol, over every run and for every opened capture: the
      emitted ends strictly increase; each is a positive block multiple the prompt's
      cacheable prefix, the table it carries and the forward pass all cover; a store is
      final exactly when it reaches that prefix, and none follows it. The capture is open,
      or was closed exactly once, by its final store, by a finalize the worker is told to
      run, or because donor KV was loaded into the request, exactly when the finish hook
      never met it open; otherwise it ended without any of these. */
  lemma {:induction false} CaptureRunIsOrdered(cfg: Config, evs: seq<Event>, r: Request)
    requires cfg.bs > 0 && IsRun(cfg, START, evs)
    requires r in Run(cfg, START, evs).traces
    ensures var w := Run(cfg, START, evs); var t := w.traces[r];
      && (forall i, j | 0 <= i < j < |t.emitted| ::
            t.emitted[i].store.end < t.emitted[j].store.end && !t.emitted[i].store.final)
      && (forall e | e in t.emitted ::
            && e.store.table == e.table && 0 < e.store.end <= Min(e.reached, |e.table| * cfg.bs)
            && e.store.end % cfg.bs == 0
            && e.store.end <= Cap(cfg, t.promptLen)
            && (e.store.final <==> e.store.end == Cap(cfg, t.promptLen)))
      && (Closures(w, r) == 1 <==> !DroppedOpen(cfg, evs, r))
      && (Closures(w, r) == 0 <==> DroppedOpen(cfg, evs, r))
  {
    RunKeepsInv(cfg, START, evs);
    DroppedIffHookMetItOpen(cfg, evs, r);
    var t := Run(cfg, START, evs).traces[r];
    assert TraceOk(cfg, Run(cfg, START, evs), r);
    forall e | e in t.emitted ensures e.store.end <= Cap(cfg, t.promptLen) {
      assert Sound(cfg, r, t, e);
      CacheableIsLargest(t.promptLen, cfg.bs, e.store.end);
    }
  }

  lemma {:induction false} StaysClosed(cfg: Config, w: World, evs: seq<Event>, r: Request)
    requires cfg.bs > 0 && r !in w.s.open
    requires forall ev | ev in evs :: !(ev.Admit? && ev.n.r == r)
    ensures r !in Run(cfg, w, evs).s.open
    decreases |evs|
  {
    if evs != [] {
      assert evs[0] in evs;
      EventKeepsClosed(cfg, w, evs[0], r);
      StaysClosed(cfg, StepWorld(cfg, w, evs[0]), evs[1..], r);
    }
  }

  lemma {:induction false} EventKeepsClosed(cfg: Config, w: World, ev: Event, r: Request)
    requires cfg.bs > 0 && r !in w.s.open && !(ev.Admit? && ev.n.r == r)
    ensures r !in StepWorld(cfg, w, ev).s.open
  {
    if ev.Admit? {
      AdmitTouchesOne(cfg, w.s, ev.n, ev.scheduled);
      assert r !in w.s.open.Keys - {ev.n.r};
    } else if ev.Continue? && ev.row.r != r {
      ContinueTouchesOne(cfg, w.s, ev.row, ev.scheduled);
      assert r !in w.s.open.Keys - {ev.row.r};
    }
  }

  /** On an engine that calls the finish hook first, naming the request in a step's finished
      ids finds no open capture and queues no finalize. */
  lemma {:induction false} HookFirstLeavesNothingToFinalize(cfg: Config, w: World, between: seq<Event>, r: Request)
    requires cfg.bs > 0
    requires forall ev | ev in between :: !(ev.Admit? && ev.n.r == r)
    ensures var v := Run(cfg, StepWorld(cfg, w, RequestFinished(r)), between);
      StepWorld(cfg, v, Finish(r)).s.finalize == v.s.finalize
  {
    StaysClosed(cfg, StepWorld(cfg, w, RequestFinished(r)), between, r);
  }

  /** A 64-token prompt whose first chunk computes 16 tokens of block size 16, then aborted. */
  function AbortedMidPrompt(): seq<Event>
  {
    [Admit(Admission("a", 64, Some([0, 1, 2, 3]), "n", 0, false), Some(map["a" := 16])),
     RequestFinished("a"), Finish("a")]
  }

  /** Its capture emits one store that is not final and is then closed by nothing the worker
      is told of. */
  lemma {:induction false} AbortedCaptureIsNeverClosed()
    ensures var cfg := Config(16, 1, true);
      && IsRun(cfg, START, AbortedMidPrompt())
      && var w := Run(cfg, START, AbortedMidPrompt());
         && "a" in w.traces && |w.traces["a"].emitted| == 1
         && w.traces["a"].emitted[0].store.end == 16 && !w.traces["a"].emitted[0].store.final
         && Closures(w, "a") == 0 && w.s.finalize == []
  {
    var cfg := Config(16, 1, true);
    var evs := AbortedMidPrompt();
    var n := evs[0].n;
    assert CacheablePrefix(64, 16) == 48 && FloorTo(16, 16) == 16;
    var w1 := StepWorld(cfg, START, evs[0]);
    assert w1.s.open == map["a" := Capture(64, [0, 1, 2, 3], "n", 16)];
    var w2 := StepWorld(cfg, w1, evs[1]);
    assert "a" !in w2.s.open;
    var w3 := StepWorld(cfg, w2, evs[2]);
    assert evs[1..][1..] == [Finish("a")] && evs[1..][1..][1..] == [];
    assert Run(cfg, w2, [Finish("a")]) == Run(cfg, w3, []);
    assert IsRun(cfg, w3, []) && IsRun(cfg, w2, [Finish("a")]) && IsRun(cfg, w1, evs[1..]);
    assert w3.drained + w3.s.finalize == [];
  }

  /** No computed block is left behind: after a request's row in a step its capture reaches
      the largest end of whole blocks that its prompt, its own table and what the engine has
      computed allow, unless an earlier step went further. */
  lemma {:induction false} RowCapturesAllItMay(cfg: Config, evs: seq<Event>, row: Row, scheduled: Scheduled)
    requires cfg.bs > 0 && IsRun(cfg, START, evs)
    requires row.r in Run(cfg, START, evs).s.open && row.outputs == 0
    requires cfg.captureServed || !LoadPending(cfg, evs, row.r)
    ensures var w := Run(cfg, START, evs); var v := StepWorld(cfg, w, Continue(row, scheduled));
      && row.r in w.traces && row.r in v.traces
      && LastEnd(v.traces[row.r]) >= LastEnd(w.traces[row.r])
      && (forall end: nat | MayStore(cfg, w.traces[row.r].promptLen, NextTable(w, row),
                                     Reached(row.r, row.computed, w.traces[row.r].promptLen, scheduled), end) ::
            end <= LastEnd(v.traces[row.r]))
  {
    RunKeepsInv(cfg, START, evs);
    ServedIffLoadPending(cfg, evs, row.r);
    var w := Run(cfg, START, evs);
    assert TraceOk(cfg, w, row.r);
    AdvanceRowKeepsOwn(cfg, w, row, scheduled);
    var c := Rowed(w.s.open[row.r], row);
    var reached := Reached(row.r, row.computed, c.promptLen, scheduled);
    AdvancedWorld(cfg, w, row, scheduled);
    forall end: nat | MayStore(cfg, c.promptLen, NextTable(w, row), reached, end) ensures end <= End(cfg, c, reached) {
      EndPassesWhatMayBeStored(cfg, c, reached, end);
    }
  }

  lemma {:induction false} EndPassesWhatMayBeStored(cfg: Config, c: Capture, reached: nat, end: nat)
    requires cfg.bs > 0 && MayStore(cfg, c.promptLen, c.table, reached, end)
    ensures end <= End(cfg, c, reached)
  {
    assert Storable(cfg, c, reached, end);
    EndIsLargestStorable(cfg, c, reached, end);
  }

  /** Whole blocks of a prompt, its last two tokens left out, that a table covers and the
      forward pass has reached. */
  ghost predicate MayStore(cfg: Config, promptLen: nat, table: seq<nat>, reached: nat, end: nat)
    requires cfg.bs > 0
  {
    end % cfg.bs == 0 && (end == 0 || end + 2 <= promptLen) && end <= |table| * cfg.bs && end <= reached
  }

  // ------------------------------------------------- which captures are opened

  /** The event spends a committed load's mark: an admission past the length gate, or a row of
      an open capture. */
  predicate Spends(cfg: Config, w: World, ev: Event, r: Request)
  {
    match ev
    case Admit(n, _) => n.r == r && n.promptLen >= cfg.minPrompt
    case Continue(row, _) => row.r == r && r in w.s.open
    case _ => false
  }

  /** A load was committed for the request, and nothing has spent the mark since. */
  ghost predicate LoadPending(cfg: Config, evs: seq<Event>, r: Request)
    requires cfg.bs > 0
  {
    exists i :: 0 <= i < |evs| && evs[i] == Serve(r) && UnspentFrom(cfg, evs, r, i + 1)
  }

  ghost predicate UnspentFrom(cfg: Config, evs: seq<Event>, r: Request, from: nat)
    requires cfg.bs > 0
  {
    forall j | from <= j < |evs| :: !Spends(cfg, Run(cfg, START, evs[..j]), evs[j], r)
  }

  lemma {:induction false} AdvanceKeepsServed(cfg: Config, s: Scheduler, r: Request, c: Capture, computedEnd: nat)
    requires cfg.bs > 0
    ensures Advance(cfg, s, r, c, computedEnd).s.served == s.served
  {
  }

  lemma {:induction false} AdmissionSpends(cfg: Config, s: Scheduler, n: Admission, scheduled: Scheduled)
    requires cfg.bs > 0
    ensures AdmitOne(cfg, s, n, scheduled).s.served == if n.promptLen < cfg.minPrompt then s.served else s.served - {n.r}
  {
    if n.table.Some? {
      var u := ConsumeServed(s, n.r);
      AdvanceKeepsServed(cfg, u.(boundaries := u.boundaries[n.r := n.computed]), n.r,
        Capture(n.promptLen, n.table.value, n.namespace, 0), ComputedEnd(n.r, n.computed, n.promptLen, scheduled));
    }
  }

  lemma {:induction false} RowSpends(cfg: Config, s: Scheduler, row: Row, scheduled: Scheduled)
    requires cfg.bs > 0
    ensures ContinueOne(cfg, s, row, scheduled).s.served == if row.r in s.open then s.served - {row.r} else s.served
  {
    if row.r in s.open {
      AdvanceKeepsServed(cfg, ConsumeServed(s, row.r), row.r, Rowed(s.open[row.r], row),
        ComputedEnd(row.r, row.computed, s.open[row.r].promptLen, scheduled));
    }
  }

  lemma {:induction false} ServedMoves(cfg: Config, w: World, ev: Event, r: Request)
    requires cfg.bs > 0
    ensures r in StepWorld(cfg, w, ev).s.served <==> ev == Serve(r) || (r in w.s.served && !Spends(cfg, w, ev, r))
  {
    match ev
    case Admit(n, scheduled) =>
      AdmissionSpends(cfg, w.s, n, scheduled);
      StepStates(cfg, w, n, Row("", None, false, 0, 0), scheduled);
    case Continue(row, scheduled) =>
      RowSpends(cfg, w.s, row, scheduled);
      StepStates(cfg, w, Admission("", 0, None, "", 0, false), row, scheduled);
    case _ =>
  }

  lemma {:induction false} PendingMoves(cfg: Config, evs: seq<Event>, r: Request)
    requires cfg.bs > 0 && evs != []
    ensures var n := |evs| - 1;
      LoadPending(cfg, evs, r) <==>
        evs[n] == Serve(r)
        || (LoadPending(cfg, evs[..n], r) && !Spends(cfg, Run(cfg, START, evs[..n]), evs[n], r))
  {
    var n := |evs| - 1;
    forall j | 0 <= j < n ensures evs[..n][..j] == evs[..j] && evs[..n][j] == evs[j] {}
    if evs[n] == Serve(r) {
      assert UnspentFrom(cfg, evs, r, n + 1);
    }
    if LoadPending(cfg, evs[..n], r) && !Spends(cfg, Run(cfg, START, evs[..n]), evs[n], r) {
      var i :| 0 <= i < n && evs[..n][i] == Serve(r) && UnspentFrom(cfg, evs[..n], r, i + 1);
      assert evs[i] == Serve(r) && UnspentFrom(cfg, evs, r, i + 1);
    }
    if LoadPending(cfg, evs, r) && evs[n] != Serve(r) {
      var i :| 0 <= i < |evs| && evs[i] == Serve(r) && UnspentFrom(cfg, evs, r, i + 1);
      assert evs[..n][i] == Serve(r) && UnspentFrom(cfg, evs[..n], r, i + 1);
    }
  }

  lemma {:induction false} ServedIffLoadPending(cfg: Config, evs: seq<Event>, r: Request)
    requires cfg.bs > 0
    ensures r in Run(cfg, START, evs).s.served <==> LoadPending(cfg, evs, r)
  {
    if evs != [] {
      var n := |evs| - 1;
      ServedIffLoadPending(cfg, evs[..n], r);
      LastEvent(cfg, START, evs);
      ServedMoves(cfg, Run(cfg, START, evs[..n]), evs[n], r);
      PendingMoves(cfg, evs, r);
    }
  }

  /** Why an admission opens no capture: the gates in order, the last a prompt too short for
      one whole block that leaves its last two tokens out. None when it opens one. */
  ghost function TurnedAway(cfg: Config, evs: seq<Event>, n: Admission): Option<Skip>
    requires cfg.bs > 0
  {
    if n.promptLen < cfg.minPrompt then Some(ShortPrompt)
    else if !cfg.captureServed && LoadPending(cfg, evs, n.r) then Some(Skip.Served)
    else if n.declined then Some(PolicyDeclined)
    else if n.table.None? then Some(NoBlockIds)
    else if n.promptLen < cfg.bs + 2 then Some(BelowOneBlock)
    else None
  }

  lemma {:induction false} CapIsABlock(cfg: Config, promptLen: nat)
    requires cfg.bs > 0
    ensures Cap(cfg, promptLen) > 0 <==> promptLen >= cfg.bs + 2
  {
    Product(1, cfg.bs);
    CacheableIsLargest(promptLen, cfg.bs, cfg.bs);
    AlignedBounds(Cap(cfg, promptLen), 0, cfg.bs);
    if 0 < Cap(cfg, promptLen) < cfg.bs {
      Unique(Cap(cfg, promptLen), cfg.bs, 0, Cap(cfg, promptLen));
    }
  }

  lemma {:induction false} AdmissionOutcome(
      cfg: Config, s: Scheduler, n: Admission, scheduled: Scheduled, why: Option<Skip>)
    requires cfg.bs > 0 && n.r !in s.open
    requires why == if n.promptLen < cfg.minPrompt then Some(ShortPrompt)
                    else if !cfg.captureServed && n.r in s.served then Some(Skip.Served)
                    else if n.declined then Some(PolicyDeclined)
                    else if n.table.None? then Some(NoBlockIds)
                    else if Cap(cfg, n.promptLen) <= 0 then Some(BelowOneBlock)
                    else None
    ensures var o := AdmitOne(cfg, s, n, scheduled);
      && (n.r in o.s.open || o.store.Some? <==> why.None?)
      && (why.Some? ==> n.r in o.s.skipped && o.s.skipped[n.r] == why.value)
  {
  }

  /** Over every run a first-scheduled request's capture is opened exactly when nothing turns
      it away, and otherwise the first thing that does is what is noted. */
  lemma {:induction false} OpenedUnlessTurnedAway(cfg: Config, evs: seq<Event>, n: Admission, scheduled: Scheduled)
    requires cfg.bs > 0 && IsRun(cfg, START, evs) && Enabled(Run(cfg, START, evs), Admit(n, scheduled))
    ensures var v := StepWorld(cfg, Run(cfg, START, evs), Admit(n, scheduled)); var why := TurnedAway(cfg, evs, n);
      && (n.r in v.traces <==> why.None?)
      && (why.Some? ==> n.r in v.s.skipped && v.s.skipped[n.r] == why.value)
      && (why.None? ==> n.r in v.s.boundaries && v.s.boundaries[n.r] == n.computed)
  {
    var w := Run(cfg, START, evs);
    ServedIffLoadPending(cfg, evs, n.r);
    CapIsABlock(cfg, n.promptLen);
    AdmissionOutcome(cfg, w.s, n, scheduled, TurnedAway(cfg, evs, n));
    StepStates(cfg, w, n, Row("", None, false, 0, 0), scheduled);
  }

  /** A row met the request's capture open after a load was committed for it, and such
      requests are not captured. */
  ghost predicate LoadedWhileOpen(cfg: Config, evs: seq<Event>, r: Request)
    requires cfg.bs > 0
  {
    exists i :: 0 <= i < |evs| && LoadMetAt(cfg, evs, r, i)
  }

  ghost predicate LoadMetAt(cfg: Config, evs: seq<Event>, r: Request, i: nat)
    requires cfg.bs > 0 && i < |evs|
  {
    && evs[i].Continue? && evs[i].row.r == r && r in Run(cfg, START, evs[..i]).s.open
    && !cfg.captureServed && LoadPending(cfg, evs[..i], r)
  }

  lemma {:induction false} LoadMetExtends(cfg: Config, evs: seq<Event>, r: Request)
    requires cfg.bs > 0 && evs != []
    ensures var n := |evs| - 1;
      LoadedWhileOpen(cfg, evs, r) <==> LoadedWhileOpen(cfg, evs[..n], r) || LoadMetAt(cfg, evs, r, n)
  {
    var n := |evs| - 1;
    forall i | 0 <= i < n ensures LoadMetAt(cfg, evs[..n], r, i) <==> LoadMetAt(cfg, evs, r, i) {
      assert evs[..n][..i] == evs[..i] && evs[..n][i] == evs[i];
    }
    if LoadedWhileOpen(cfg, evs[..n], r) {
      var i :| 0 <= i < n && LoadMetAt(cfg, evs[..n], r, i);
      assert LoadMetAt(cfg, evs, r, i);
    }
    if LoadedWhileOpen(cfg, evs, r) {
      var i :| 0 <= i < |evs| && LoadMetAt(cfg, evs, r, i);
      assert i < n ==> LoadMetAt(cfg, evs[..n], r, i);
    }
  }

  /** One event marks a capture abandoned exactly when it is a row that meets it open with a
      load's mark on it. */
  lemma {:induction false} AbandonedByTheRow(cfg: Config, w: World, ev: Event, r: Request)
    requires cfg.bs > 0 && Inv(cfg, w) && Enabled(w, ev) && r in StepWorld(cfg, w, ev).traces
    ensures StepWorld(cfg, w, ev).traces[r].abandoned
      <==> || (ev.Continue? && ev.row.r == r && r in w.s.open && r in w.s.served && !cfg.captureServed)
           || (r in w.traces && w.traces[r].abandoned)
    ensures ev.Continue? && ev.row.r == r && r in w.s.open ==> r in w.traces
  {
    match ev
    case Admit(n, scheduled) => AdmissionMarks(cfg, w, n, scheduled, r);
    case Continue(row, scheduled) => RowMarks(cfg, w, row, scheduled, r);
    case _ =>
  }

  /** Over every run a capture is abandoned exactly when a load was committed for its request
      while it was open. */
  lemma {:induction false} AbandonedIffLoadedWhileOpen(cfg: Config, evs: seq<Event>, r: Request)
    requires cfg.bs > 0 && IsRun(cfg, START, evs)
    ensures var w := Run(cfg, START, evs);
      if r in w.traces then w.traces[r].abandoned <==> LoadedWhileOpen(cfg, evs, r) else !LoadedWhileOpen(cfg, evs, r)
  {
    if evs != [] {
      var n := |evs| - 1;
      var before := evs[..n];
      PrefixIsRun(cfg, START, evs, n);
      RunKeepsInv(cfg, START, before);
      AbandonedIffLoadedWhileOpen(cfg, before, r);
      LastEvent(cfg, START, evs);
      LoadMetExtends(cfg, evs, r);
      ServedIffLoadPending(cfg, before, r);
      TracesStay(cfg, Run(cfg, START, before), evs[n]);
      if r in Run(cfg, START, evs).traces {
        AbandonedByTheRow(cfg, Run(cfg, START, before), evs[n], r);
      }
    }
  }

  // ------------------------------------------------------ the scheduler's code

  datatype Batch = Batch(s: Scheduler, stores: seq<Store>)

  function Listed(o: Option<Store>): seq<Store> { if o.Some? then [o.value] else [] }

  function Finishes(s: Scheduler, ids: seq<Request>): Scheduler
    decreases |ids|
  {
    if ids == [] then s else Finishes(FinishOne(s, ids[0]), ids[1..])
  }

  function Admissions(cfg: Config, b: Batch, news: seq<Admission>, scheduled: Scheduled): Batch
    requires cfg.bs > 0
    decreases |news|
  {
    if news == [] then b
    else
      var o := AdmitOne(cfg, b.s, news[0], scheduled);
      Admissions(cfg, Batch(o.s, b.stores + Listed(o.store)), news[1..], scheduled)
  }

  function Continuations(cfg: Config, b: Batch, rows: seq<Row>, scheduled: Scheduled): Batch
    requires cfg.bs > 0
    decreases |rows|
  {
    if rows == [] then b
    else
      var o := ContinueOne(cfg, b.s, rows[0], scheduled);
      Continuations(cfg, Batch(o.s, b.stores + Listed(o.store)), rows[1..], scheduled)
  }

  lemma {:induction false} RowsNeedACapture(cfg: Config, b: Batch, rows: seq<Row>, scheduled: Scheduled)
    requires cfg.bs > 0 && b.s.open == map[]
    ensures Continuations(cfg, b, rows, scheduled) == b
    decreases |rows|
  {
    if rows != [] {
      assert b.stores + [] == b.stores;
      RowsNeedACapture(cfg, b, rows[1..], scheduled);
    }
  }

  /** A walk appends its stores to the ones it was given, which it does not look at. */
  lemma {:induction false} AdmissionsAppend(
      cfg: Config, s: Scheduler, xs: seq<Store>, news: seq<Admission>, scheduled: Scheduled)
    requires cfg.bs > 0
    ensures var a, b := Admissions(cfg, Batch(s, xs), news, scheduled), Admissions(cfg, Batch(s, []), news, scheduled);
      a.s == b.s && a.stores == xs + b.stores
    decreases |news|
  {
    if news == [] {
      assert xs + [] == xs;
    } else {
      var o := AdmitOne(cfg, s, news[0], scheduled);
      var first := Listed(o.store);
      assert [] + first == first;
      AdmissionsAppend(cfg, o.s, xs + first, news[1..], scheduled);
      AdmissionsAppend(cfg, o.s, first, news[1..], scheduled);
      var rest := Admissions(cfg, Batch(o.s, []), news[1..], scheduled).stores;
      assert xs + first + rest == xs + (first + rest);
    }
  }

  lemma {:induction false} ContinuationsAppend(
      cfg: Config, s: Scheduler, xs: seq<Store>, rows: seq<Row>, scheduled: Scheduled)
    requires cfg.bs > 0
    ensures var a, b := Continuations(cfg, Batch(s, xs), rows, scheduled), Continuations(cfg, Batch(s, []), rows, scheduled);
      a.s == b.s && a.stores == xs + b.stores
    decreases |rows|
  {
    if rows == [] {
      assert xs + [] == xs;
    } else {
      var o := ContinueOne(cfg, s, rows[0], scheduled);
      var first := Listed(o.store);
      assert [] + first == first;
      ContinuationsAppend(cfg, o.s, xs + first, rows[1..], scheduled);
      ContinuationsAppend(cfg, o.s, first, rows[1..], scheduled);
      var rest := Continuations(cfg, Batch(o.s, []), rows[1..], scheduled).stores;
      assert xs + first + rest == xs + (first + rest);
    }
  }

  function FinishEvents(ids: seq<Request>): seq<Event> { seq(|ids|, i requires 0 <= i < |ids| => Finish(ids[i])) }

  function AdmitEvents(news: seq<Admission>, scheduled: Scheduled): seq<Event>
  {
    seq(|news|, i requires 0 <= i < |news| => Admit(news[i], scheduled))
  }

  function RowEvents(rows: seq<Row>, scheduled: Scheduled): seq<Event>
  {
    seq(|rows|, i requires 0 <= i < |rows| => Continue(rows[i], scheduled))
  }

  /** The stores a request's capture has emitted so far. */
  function StoresIn(w: World, r: Request): seq<Store>
  {
    if r in w.traces then StoresOf(w.traces[r].emitted) else []
  }

  function StoresOf(es: seq<Emission>): seq<Store> { seq(|es|, i requires 0 <= i < |es| => es[i].store) }

  /** A request's own among a step's stores, in order. */
  function OfRequest(stores: seq<Store>, r: Request): seq<Store>
  {
    if stores == [] then []
    else (if stores[0].r == r then [stores[0]] else []) + OfRequest(stores[1..], r)
  }

  lemma {:induction false} OfRequestInTwo(xs: seq<Store>, ys: seq<Store>, r: Request)
    ensures OfRequest(xs + ys, r) == OfRequest(xs, r) + OfRequest(ys, r)
    decreases |xs|
  {
    if xs == [] {
      assert xs + ys == ys;
    } else {
      assert (xs + ys)[0] == xs[0] && (xs + ys)[1..] == xs[1..] + ys;
      OfRequestInTwo(xs[1..], ys, r);
    }
  }

  /** v's traces are w's with these stores emitted since, each in its own request's trace. */
  ghost predicate Gains(w: World, v: World, stores: seq<Store>)
  {
    forall r :: StoresIn(v, r) == StoresIn(w, r) + OfRequest(stores, r)
  }

  lemma {:induction false} GainsNothing(w: World, v: World)
    requires forall r :: StoresIn(v, r) == StoresIn(w, r)
    ensures Gains(w, v, [])
  {
  }

  lemma {:induction false} Regrouped<T>(a: seq<T>, b: seq<T>, c: seq<T>)
    ensures a + b + c == a + (b + c)
  {
  }

  lemma {:induction false} GainsInTwo(u: World, w: World, v: World, xs: seq<Store>, ys: seq<Store>)
    requires Gains(u, w, xs) && Gains(w, v, ys)
    ensures Gains(u, v, xs + ys)
  {
    forall r ensures StoresIn(v, r) == StoresIn(u, r) + OfRequest(xs + ys, r) {
      OfRequestInTwo(xs, ys, r);
      assert StoresIn(v, r) == StoresIn(w, r) + OfRequest(ys, r);
      assert StoresIn(w, r) == StoresIn(u, r) + OfRequest(xs, r);
      Regrouped(StoresIn(u, r), OfRequest(xs, r), OfRequest(ys, r));
    }
  }

  /** A request's trace grows by what the event emitted for it, the others stay. */
  lemma {:induction false} GainsOne(w: World, v: World, r: Request, o: Outcome, reached: nat, table: seq<nat>)
    requires o.store.Some? ==> o.store.value.r == r
    requires forall q | q != r :: StoresIn(v, q) == StoresIn(w, q)
    requires StoresIn(v, r) == StoresIn(w, r) + StoresOf(Emitted(o, reached, table))
    ensures Gains(w, v, Listed(o.store))
  {
    var stores := Listed(o.store);
    forall q ensures StoresIn(v, q) == StoresIn(w, q) + OfRequest(stores, q) {
      assert stores != [] ==> stores[1..] == [];
    }
    assert StoresOf(Emitted(o, reached, table)) == stores;
  }

  lemma {:induction false} AdmitGains(cfg: Config, w: World, n: Admission, scheduled: Scheduled)
    requires cfg.bs > 0 && Enabled(w, Admit(n, scheduled))
    ensures Gains(w, StepWorld(cfg, w, Admit(n, scheduled)), Listed(AdmitOne(cfg, w.s, n, scheduled).store))
  {
    var v := StepWorld(cfg, w, Admit(n, scheduled));
    var o := AdmitOne(cfg, w.s, n, scheduled);
    var reached := Reached(n.r, n.computed, n.promptLen, scheduled);
    var table := if n.table.Some? then n.table.value else [];
    assert StoresIn(w, n.r) + StoresOf(Emitted(o, reached, table)) == StoresOf(Emitted(o, reached, table));
    GainsOne(w, v, n.r, o, reached, table);
  }

  lemma {:induction false} ContinueGains(cfg: Config, w: World, row: Row, scheduled: Scheduled)
    requires cfg.bs > 0 && (row.r in w.s.open ==> row.r in w.traces)
    ensures Gains(w, StepWorld(cfg, w, Continue(row, scheduled)), Listed(ContinueOne(cfg, w.s, row, scheduled).store))
  {
    var v := StepWorld(cfg, w, Continue(row, scheduled));
    var o := ContinueOne(cfg, w.s, row, scheduled);
    var promptLen := if row.r in w.traces then w.traces[row.r].promptLen else 0;
    var reached, table := Reached(row.r, row.computed, promptLen, scheduled), NextTable(w, row);
    if row.r in w.traces {
      var t := w.traces[row.r];
      assert StoresOf(t.emitted + Emitted(o, reached, table)) == StoresOf(t.emitted) + StoresOf(Emitted(o, reached, table));
    }
    GainsOne(w, v, row.r, o, reached, table);
  }

  lemma {:induction false} FinishesAreARun(cfg: Config, w: World, ids: seq<Request>)
    requires cfg.bs > 0
    ensures var v := Run(cfg, w, FinishEvents(ids));
      v.s == Finishes(w.s, ids) && v.traces == w.traces && Gains(w, v, [])
    decreases |ids|
  {
    if ids != [] {
      assert FinishEvents(ids)[1..] == FinishEvents(ids[1..]);
      FinishesAreARun(cfg, StepWorld(cfg, w, Finish(ids[0])), ids[1..]);
    }
    GainsNothing(w, Run(cfg, w, FinishEvents(ids)));
  }

  lemma {:induction false} StepStates(cfg: Config, w: World, n: Admission, row: Row, scheduled: Scheduled)
    requires cfg.bs > 0
    ensures StepWorld(cfg, w, Admit(n, scheduled)).s == AdmitOne(cfg, w.s, n, scheduled).s
    ensures StepWorld(cfg, w, Continue(row, scheduled)).s == ContinueOne(cfg, w.s, row, scheduled).s
  {
  }

  lemma {:induction false} AdmissionsAreARun(cfg: Config, w: World, news: seq<Admission>, scheduled: Scheduled)
    requires cfg.bs > 0 && IsRun(cfg, w, AdmitEvents(news, scheduled))
    ensures var v := Run(cfg, w, AdmitEvents(news, scheduled));
      var b := Admissions(cfg, Batch(w.s, []), news, scheduled); v.s == b.s && Gains(w, v, b.stores)
    decreases |news|
  {
    if news != [] {
      assert AdmitEvents(news, scheduled)[1..] == AdmitEvents(news[1..], scheduled);
      StepStates(cfg, w, news[0], Row("", None, false, 0, 0), scheduled);
      var o := AdmitOne(cfg, w.s, news[0], scheduled);
      var u := StepWorld(cfg, w, Admit(news[0], scheduled));
      AdmitGains(cfg, w, news[0], scheduled);
      AdmissionsAreARun(cfg, u, news[1..], scheduled);
      AdmissionsAppend(cfg, o.s, [] + Listed(o.store), news[1..], scheduled);
      GainsInTwo(w, u, Run(cfg, u, AdmitEvents(news[1..], scheduled)), Listed(o.store),
        Admissions(cfg, Batch(o.s, []), news[1..], scheduled).stores);
      assert [] + Listed(o.store) == Listed(o.store);
    } else {
      GainsNothing(w, w);
    }
  }

  lemma {:induction false} RowsAreARun(cfg: Config, w: World, rows: seq<Row>, scheduled: Scheduled)
    requires cfg.bs > 0 && Inv(cfg, w)
    ensures var v := Run(cfg, w, RowEvents(rows, scheduled));
      var b := Continuations(cfg, Batch(w.s, []), rows, scheduled); v.s == b.s && Gains(w, v, b.stores)
    decreases |rows|
  {
    if rows != [] {
      assert RowEvents(rows, scheduled)[1..] == RowEvents(rows[1..], scheduled);
      StepStates(cfg, w, Admission("", 0, None, "", 0, false), rows[0], scheduled);
      var o := ContinueOne(cfg, w.s, rows[0], scheduled);
      var u := StepWorld(cfg, w, Continue(rows[0], scheduled));
      ContinueGains(cfg, w, rows[0], scheduled);
      ContinueKeepsInv(cfg, w, rows[0], scheduled);
      RowsAreARun(cfg, u, rows[1..], scheduled);
      ContinuationsAppend(cfg, o.s, [] + Listed(o.store), rows[1..], scheduled);
      GainsInTwo(w, u, Run(cfg, u, RowEvents(rows[1..], scheduled)), Listed(o.store),
        Continuations(cfg, Batch(o.s, []), rows[1..], scheduled).stores);
      assert [] + Listed(o.store) == Listed(o.store);
    } else {
      GainsNothing(w, w);
    }
  }

  lemma {:induction false} RunsInTwo(cfg: Config, w: World, xs: seq<Event>, ys: seq<Event>)
    requires cfg.bs > 0 && IsRun(cfg, w, xs + ys)
    ensures IsRun(cfg, w, xs) && IsRun(cfg, Run(cfg, w, xs), ys)
    decreases |xs|
  {
    if xs == [] {
      assert xs + ys == ys;
    } else {
      assert (xs + ys)[0] == xs[0] && (xs + ys)[1..] == xs[1..] + ys;
      RunsInTwo(cfg, StepWorld(cfg, w, xs[0]), xs[1..], ys);
    }
  }

  /** The events of one step. */
  function StepEvents(finishedIds: seq<Request>, news: seq<Admission>, rows: seq<Row>, scheduled: Scheduled): seq<Event>
  {
    FinishEvents(finishedIds) + AdmitEvents(news, scheduled) + RowEvents(rows, scheduled)
  }

  /** What one step's code leaves is what its events lead to, and the stores it returns are
      the ones the traces gain, each in its own request's and in order; so the theorems on
      runs are about that code and what it sends to the worker. */
  lemma {:induction false} StepIsARun(
      cfg: Config, evs: seq<Event>, finishedIds: seq<Request>, news: seq<Admission>, rows: seq<Row>,
      scheduled: Scheduled)
    requires cfg.bs > 0 && IsRun(cfg, START, evs + StepEvents(finishedIds, news, rows, scheduled))
    ensures var w := Run(cfg, START, evs); var v := Run(cfg, START, evs + StepEvents(finishedIds, news, rows, scheduled));
      var admitted := Admissions(cfg, Batch(Finishes(w.s, finishedIds), []), news, scheduled);
      var continued := Continuations(cfg, Batch(admitted.s, []), rows, scheduled);
      v.s == continued.s && Gains(w, v, admitted.stores + continued.stores)
  {
    var xs, ys, zs := FinishEvents(finishedIds), AdmitEvents(news, scheduled), RowEvents(rows, scheduled);
    var w := Run(cfg, START, evs);
    RunInTwo(cfg, START, evs, xs + ys + zs);
    RunsInTwo(cfg, START, evs, xs + ys + zs);
    RunInTwo(cfg, w, xs + ys, zs);
    RunsInTwo(cfg, w, xs + ys, zs);
    RunInTwo(cfg, w, xs, ys);
    RunsInTwo(cfg, w, xs, ys);
    RunKeepsInv(cfg, START, evs);
    RunKeepsInv(cfg, w, xs + ys);
    FinishesAreARun(cfg, w, finishedIds);
    AdmissionsAreARun(cfg, Run(cfg, w, xs), news, scheduled);
    RowsAreARun(cfg, Run(cfg, w, xs + ys), rows, scheduled);
    StepGains(cfg, w, finishedIds, news, rows, scheduled);
  }

  lemma {:induction false} StepGains(
      cfg: Config, w: World, finishedIds: seq<Request>, news: seq<Admission>, rows: seq<Row>, scheduled: Scheduled)
    requires cfg.bs > 0
    requires var u := Run(cfg, w, FinishEvents(finishedIds)); var v := Run(cfg, u, AdmitEvents(news, scheduled));
      var x := Run(cfg, v, RowEvents(rows, scheduled));
      && Gains(w, u, []) && Gains(u, v, Admissions(cfg, Batch(u.s, []), news, scheduled).stores)
      && Gains(v, x, Continuations(cfg, Batch(v.s, []), rows, scheduled).stores)
    ensures var u := Run(cfg, w, FinishEvents(finishedIds)); var v := Run(cfg, u, AdmitEvents(news, scheduled));
      var x := Run(cfg, v, RowEvents(rows, scheduled));
      Gains(w, x, Admissions(cfg, Batch(u.s, []), news, scheduled).stores
                  + Continuations(cfg, Batch(v.s, []), rows, scheduled).stores)
  {
    var u := Run(cfg, w, FinishEvents(finishedIds));
    var v := Run(cfg, u, AdmitEvents(news, scheduled));
    var x := Run(cfg, v, RowEvents(rows, scheduled));
    var xs, ys := Admissions(cfg, Batch(u.s, []), news, scheduled).stores, Continuations(cfg, Batch(v.s, []), rows, scheduled).stores;
    GainsInTwo(w, u, v, [], xs);
    assert [] + xs == xs;
    GainsInTwo(w, v, x, xs, ys);
  }

  class CaptureScheduler {
    const cfg: Config
    var open: map<Request, Capture>
    var started: map<Request, string>
    var finalize: seq<Request>
    var served: set<Request>
    var skipped: map<Request, Skip>
    var boundaries: map<Request, nat>

    ghost function View(): Scheduler reads this { Scheduler(open, started, finalize, served, skipped, boundaries) }

    constructor (cfg: Config)
      requires cfg.bs > 0
      ensures this.cfg == cfg && View() == IDLE
    {
      this.cfg := cfg;
      open, started, finalize, served, skipped, boundaries := map[], map[], [], {}, map[], map[];
    }

    /** What the finish hook does to the capture state. */
    method RequestFinishes(r: Request)
      modifies this`open, this`started, this`skipped, this`boundaries
      ensures View() == ForgetOne(old(View()), r)
    {
      open := open - {r};
      skipped := skipped - {r};
      boundaries := boundaries - {r};
      started := started - {r};
    }

    method CaptureAllowed(r: Request) returns (ok: bool)
      modifies this
      ensures ok == Allowed(cfg, old(View()), r) && View() == ConsumeServed(old(View()), r)
    {
      if r !in served {
        assert served - {r} == served;
        return true;
      }
      served := served - {r};
      ok := cfg.captureServed;
    }

    method AdvanceCapture(r: Request, c: Capture, computedEnd: nat) returns (store: Option<Store>)
      requires cfg.bs > 0
      modifies this
      ensures Outcome(View(), store) == Advance(cfg, old(View()), r, c, computedEnd)
    {
      var cap := CacheablePrefix(c.promptLen, cfg.bs);
      if cap <= 0 {
        open := open - {r};
        skipped := skipped[r := BelowOneBlock];
        return None;
      }
      var end := Min(Min(cap, |c.table| * cfg.bs), (computedEnd / cfg.bs) * cfg.bs);
      if end <= c.capturedEnd {
        open := open[r := c];
        return None;
      }
      var final := end >= cap;
      if final {
        open := open - {r};
      } else {
        open := open[r := c.(capturedEnd := end)];
      }
      started := started[r := c.namespace];
      skipped := skipped - {r};
      store := Some(Store(r, end, c.namespace, c.table, final));
    }

    method CaptureAdmitted(news: seq<Admission>, scheduled: Scheduled) returns (stores: seq<Store>)
      requires cfg.bs > 0
      modifies this
      ensures Batch(View(), stores) == Admissions(cfg, Batch(old(View()), []), news, scheduled)
    {
      stores := [];
      ghost var whole := Admissions(cfg, Batch(View(), []), news, scheduled);
      var i := 0;
      while i < |news|
        invariant 0 <= i <= |news|
        invariant Admissions(cfg, Batch(View(), stores), news[i..], scheduled) == whole
      {
        ghost var before := View();
        var n := news[i];
        var store: Option<Store> := None;
        if n.promptLen < cfg.minPrompt {
          skipped := skipped[n.r := ShortPrompt];
        } else {
          var ok := CaptureAllowed(n.r);
          if !ok {
            skipped := skipped[n.r := Served];
          } else if n.declined {
            skipped := skipped[n.r := PolicyDeclined];
          } else if n.table.None? {
            skipped := skipped[n.r := NoBlockIds];
          } else {
            boundaries := boundaries[n.r := n.computed];
            store := AdvanceCapture(n.r, Capture(n.promptLen, n.table.value, n.namespace, 0),
              ComputedEnd(n.r, n.computed, n.promptLen, scheduled));
          }
        }
        assert Outcome(View(), store) == AdmitOne(cfg, before, n, scheduled);
        assert news[i..][0] == n && news[i..][1..] == news[i + 1..];
        stores := stores + Listed(store);
        i := i + 1;
      }
      assert news[i..] == [];
    }

    method CaptureContinuations(rows: seq<Row>, scheduled: Scheduled) returns (stores: seq<Store>)
      requires cfg.bs > 0
      modifies this
      ensures Batch(View(), stores) == Continuations(cfg, Batch(old(View()), []), rows, scheduled)
    {
      stores := [];
      if open == map[] {
        RowsNeedACapture(cfg, Batch(View(), []), rows, scheduled);
        return;
      }
      ghost var whole := Continuations(cfg, Batch(View(), []), rows, scheduled);
      var i := 0;
      while i < |rows|
        invariant 0 <= i <= |rows|
        invariant Continuations(cfg, Batch(View(), stores), rows[i..], scheduled) == whole
      {
        ghost var before := View();
        var row := rows[i];
        var store: Option<Store> := None;
        if row.r in open {
          var c := open[row.r];
          var ok := CaptureAllowed(row.r);
          if !ok {
            skipped := skipped[row.r := Served];
            open := open - {row.r};
          } else if row.outputs > 0 {
            open := open - {row.r};
            finalize := finalize + [row.r];
          } else {
            store := AdvanceCapture(row.r, c.(table := ExtendTable(c.table, row.added, row.resumed)),
              ComputedEnd(row.r, row.computed, c.promptLen, scheduled));
          }
        }
        assert Outcome(View(), store) == ContinueOne(cfg, before, row, scheduled);
        assert rows[i..][0] == row && rows[i..][1..] == rows[i + 1..];
        stores := stores + Listed(store);
        i := i + 1;
      }
      assert rows[i..] == [];
    }

    /** One step: requests over since the last one close their captures, then the new
        requests and the running ones are walked in order. */
    method BuildStoreMetadata(finishedIds: seq<Request>, news: seq<Admission>, rows: seq<Row>, scheduled: Scheduled)
      returns (stores: seq<Store>)
      requires cfg.bs > 0
      modifies this
      ensures var admitted := Admissions(cfg, Batch(Finishes(old(View()), finishedIds), []), news, scheduled);
        var continued := Continuations(cfg, Batch(admitted.s, []), rows, scheduled);
        View() == continued.s && stores == admitted.stores + continued.stores
    {
      var i := 0;
      while i < |finishedIds|
        invariant 0 <= i <= |finishedIds|
        invariant Finishes(View(), finishedIds[i..]) == Finishes(old(View()), finishedIds)
      {
        var r := finishedIds[i];
        ghost var before := View();
        assert r !in open ==> open - {r} == open;
        if r in open {
          open := open - {r};
          finalize := finalize + [r];
        }
        started := started - {r};
        skipped := skipped - {r};
        boundaries := boundaries - {r};
        assert View() == FinishOne(before, r);
        assert finishedIds[i..][0] == r && finishedIds[i..][1..] == finishedIds[i + 1..];
        i := i + 1;
      }
      assert finishedIds[i..] == [];
      var admitted := CaptureAdmitted(news, scheduled);
      var continued := CaptureContinuations(rows, scheduled);
      stores := admitted + continued;
    }
  }
}
