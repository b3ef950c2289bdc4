/** Runs of the capture pipeline in which a donor comes to harm: a retraction that fails, a
    write that truncates a published layer, a chunk that lands in one layer only. */
module CaptureFaults {
  import opened Blocks
  import opened PagedKv
  import opened CapturePipeline

  // -------------------------------------------------------- a failed retraction

  /** One layer, one token to a block, and a tier for one donor. */
  function Tiny(memory: bool): Config { Config(1, {"l"}, memory, 1) }

  const TINY := Tiny(true)

  function Sevens(r: Request, l: Layer): nat -> int { p => 7 }

  /** The steps that put the one layer of r on the store. */
  function CaptureActs(r: Request, stuck: set<Request>): seq<Action<int>>
  {
    [Save(r, "l", 1, [0], [7]), Write(Written, stuck)]
  }

  /** The steps that publish r. */
  function PublishActs(r: Request): seq<Action<int>>
  {
    [Finalize(r), Flush({}), Submit(r), SubmitEnds, Write(Written, {}), Flushed({})]
  }

  /** A donor captured and published, then a second one on a tier of one donor, with the
      first one's retraction failing. */
  function StaleRun(): seq<Action<int>>
  {
    CaptureActs("a", {}) + PublishActs("a") + CaptureActs("b", {"a"})
  }

  lemma {:induction false} OneCell()
    ensures Computed([7], [0], 1, 1, Sevens("", "")) && ReadWindow([7], [0], 0, 1, 1) == [7]
  {
    forall p: nat, x: nat | p < 1 && IsSlot(x, [0], p, 1) ensures x == 0 {
      Unique(0, 1, 0, 0);
    }
    WindowIsComputed([7], [0], 0, 1, 1, Sevens("", ""));
  }

  lemma {:induction false} QueuesOneCell(s: State<int>, r: Request)
    requires s.phase == Saving({}) && r !in s.progress && s.queue == [] && s.staged == map[]
    ensures Queued(s, r, "l", 1, [7]) ==
      s.(phase := Saving({(r, "l")}), progress := s.progress[r := map["l" := 1]],
         staged := map[(r, "l") := [7]], queue := [LayerJob(r, "l", [7])])
  {
    var t := Queued(s, r, "l", 1, [7]);
    assert t.phase.saved == {(r, "l")};
    assert t.queue == [LayerJob(r, "l", [7])];
    assert map[]["l" := 1] == map["l" := 1];
  }

  lemma {:induction false} SavesOneCell(memory: bool, s: State<int>, r: Request)
    requires s.phase == Saving({}) && r !in s.progress && s.queue == [] && s.staged == map[]
    ensures Step(Tiny(memory), s, Save(r, "l", 1, [0], [7])) ==
      s.(phase := Saving({(r, "l")}), progress := s.progress[r := map["l" := 1]],
         staged := map[(r, "l") := [7]], queue := [LayerJob(r, "l", [7])])
  {
    OneCell();
    var window: seq<int> := [7];
    assert [] + window == window;
    assert AppendAt(s, r, "l") == 0 && Base(s, r, "l") == [];
    SaveIsQueued(Tiny(memory), s, r, "l", 1, [0], [7], window);
    QueuesOneCell(s, r);
  }

  function OneStored(memory: bool): State<int>
  {
    Init<int>().(phase := Saving({("a", "l")}), progress := map["a" := map["l" := 1]],
                 store := map["a" := map["l" := [7]]], order := if memory then ["a"] else [])
  }

  /** The first donor's one layer, queued. */
  function OneQueued(): State<int>
  {
    Init<int>().(phase := Saving({("a", "l")}), progress := map["a" := map["l" := 1]],
                 staged := map[("a", "l") := [7]], queue := [LayerJob("a", "l", [7])])
  }

  lemma {:induction false} FirstSave(memory: bool)
    ensures Step(Tiny(memory), Init<int>(), Save("a", "l", 1, [0], [7])) == OneQueued()
  {
    SavesOneCell(memory, Init(), "a");
    assert Init<int>().progress["a" := map["l" := 1]] == OneQueued().progress;
  }

  lemma {:induction false} FirstSaveIsEnabled(memory: bool)
    ensures Enabled(Tiny(memory), Sevens, Init(), Save("a", "l", 1, [0], [7]))
  {
    OneCell();
  }

  lemma {:induction false} FirstWrite(memory: bool)
    ensures WriteHead(Tiny(memory), OneQueued(), Written, {}) == OneStored(memory)
  {
    var s := OneQueued();
    WriteHeadCases(Tiny(memory), s, Written, {});
    var t := Taken(s);
    var u := OpenEntry(Tiny(memory), t, "a", {});
    assert u == t.(store := if memory then map["a" := map[]] else map[], order := if memory then ["a"] else []);
    assert map[]["l" := [7]] == map["l" := [7]];
    var v := PutLayer(u, "a", "l", [7]);
    assert v.store == map["a" := map["l" := [7]]] && v.torn == {};
  }

  lemma {:induction false} FirstCapture(memory: bool)
    ensures IsRun(Tiny(memory), Sevens, Init(), CaptureActs("a", {}))
    ensures Run(Tiny(memory), Init(), CaptureActs("a", {})) == OneStored(memory)
  {
    FirstSave(memory);
    FirstSaveIsEnabled(memory);
    FirstWrite(memory);
    TwoSteps(Tiny(memory), Sevens, Init(), Save("a", "l", 1, [0], [7]), Write(Written, {}));
  }

  function OneSubmitted(memory: bool): State<int>
  {
    OneStored(memory).(phase := Joining({}), finalized := map["a" := 1], queue := [MetaJob("a", 1, {"l"})])
  }

  function OnePublished(memory: bool): State<int>
  {
    OneStored(memory).(phase := Saving({}), finalized := map["a" := 1], records := map["a" := Record(1, {"l"})])
  }

  lemma {:induction false} FirstFlush(memory: bool)
    ensures IsRun(Tiny(memory), Sevens, OneStored(memory), [Finalize("a"), Flush({})])
    ensures Run(Tiny(memory), OneStored(memory), [Finalize("a"), Flush({})])
         == OneStored(memory).(phase := Submitting({"a"}, {}), pending := {"a"})
  {
    var mine := map["l" := 1];
    assert "l" in mine && mine != map[] && Shortest(mine) == 1;
    var s1 := Step(Tiny(memory), OneStored(memory), Finalize("a"));
    assert s1.pending == {"a"};
    var s2 := Step(Tiny(memory), s1, Flush({}));
    assert s2.pending == {"a"} && s2.failed == {};
    assert s2.progress == s1.progress && s2.finalized == s1.finalized;
    TwoSteps(Tiny(memory), Sevens, OneStored(memory), Finalize("a"), Flush({}));
  }

  lemma {:induction false} FirstSubmission(memory: bool, s: State<int>)
    requires s == OneStored(memory).(phase := Submitting({"a"}, {}), pending := {"a"})
    ensures IsRun(Tiny(memory), Sevens, s, [Submit("a"), SubmitEnds])
    ensures Run(Tiny(memory), s, [Submit("a"), SubmitEnds]) == OneSubmitted(memory)
  {
    var mine := map["l" := 1];
    assert "l" in mine && mine.Keys == {"l"} && Shortest(mine) == 1;
    var s1 := Step(Tiny(memory), s, Submit("a"));
    assert s1.queue == [MetaJob("a", 1, {"l"})] && s1.phase.rest == {};
    TwoSteps(Tiny(memory), Sevens, s, Submit("a"), SubmitEnds);
  }

  /** The first donor's record written, the second join not yet over. */
  function OneWritten(memory: bool): State<int>
  {
    OneStored(memory).(phase := Joining({}), finalized := map["a" := 1], records := map["a" := Record(1, {"l"})])
  }

  lemma {:induction false} RecordWrite(memory: bool)
    ensures Step(Tiny(memory), OneSubmitted(memory), Write(Written, {})) == OneWritten(memory)
  {
    var s := OneSubmitted(memory);
    assert s.queue[1..] == [];
    assert AllStored(s.(queue := []), "a", {"l"});
    assert {} - {"a"} == {};
  }

  lemma {:induction false} SecondJoin(memory: bool)
    ensures Step(Tiny(memory), OneWritten(memory), Flushed({})) == OnePublished(memory)
  {
    var t := Step(Tiny(memory), OneWritten(memory), Flushed({}));
    var s := OneWritten(memory);
    assert t.progress == s.progress && t.finalized == s.finalized && t.store == s.store;
  }

  lemma {:induction false} FirstRecord(memory: bool)
    ensures IsRun(Tiny(memory), Sevens, OneSubmitted(memory), [Write(Written, {}), Flushed({})])
    ensures Run(Tiny(memory), OneSubmitted(memory), [Write(Written, {}), Flushed({})]) == OnePublished(memory)
  {
    RecordWrite(memory);
    SecondJoin(memory);
    TwoSteps(Tiny(memory), Sevens, OneSubmitted(memory), Write(Written, {}), Flushed({}));
  }

  lemma {:induction false} FirstPublication(memory: bool)
    ensures IsRun(Tiny(memory), Sevens, OneStored(memory), PublishActs("a"))
    ensures Run(Tiny(memory), OneStored(memory), PublishActs("a")) == OnePublished(memory)
  {
    FirstFlush(memory);
    FirstSubmission(memory, Run(Tiny(memory), OneStored(memory), [Finalize("a"), Flush({})]));
    FirstRecord(memory);
    RunInTwo(Tiny(memory), Sevens, OneStored(memory), [Finalize("a"), Flush({})], [Submit("a"), SubmitEnds]);
    RunInTwo(Tiny(memory), Sevens, OneStored(memory), [Finalize("a"), Flush({}), Submit("a"), SubmitEnds], [Write(Written, {}), Flushed({})]);
    assert PublishActs("a") == [Finalize("a"), Flush({}), Submit("a"), SubmitEnds] + [Write(Written, {}), Flushed({})];
  }

  /** The second donor's one layer, queued. */
  function OneMoreQueued(): State<int>
  {
    OnePublished(true).(phase := Saving({("b", "l")}), progress := map["a" := map["l" := 1], "b" := map["l" := 1]],
                    staged := map[("b", "l") := [7]], queue := [LayerJob("b", "l", [7])])
  }

  lemma {:induction false} SecondSave()
    ensures Step(TINY, OnePublished(true), Save("b", "l", 1, [0], [7])) == OneMoreQueued()
  {
    SavesOneCell(true, OnePublished(true), "b");
    assert OnePublished(true).progress["b" := map["l" := 1]] == OneMoreQueued().progress;
  }

  lemma {:induction false} SecondSaveIsEnabled()
    ensures Enabled(TINY, Sevens, OnePublished(true), Save("b", "l", 1, [0], [7]))
  {
    OneCell();
  }

  lemma {:induction false} SecondWrite()
    ensures var t := WriteHead(TINY, OneMoreQueued(), Written, {"a"});
      t.records == map["a" := Record(1, {"l"})] && t.store.Keys == {"b"} && t.stale == {"a"}
  {
    var s := OneMoreQueued();
    WriteHeadCases(TINY, s, Written, {"a"});
    OverTheCap(TINY, Taken(s), "b", {"a"});
  }

  lemma {:induction false} SecondCapture()
    ensures IsRun(TINY, Sevens, OnePublished(true), CaptureActs("b", {"a"}))
    ensures var s := Run(TINY, OnePublished(true), CaptureActs("b", {"a"}));
      s.records == map["a" := Record(1, {"l"})] && s.store.Keys == {"b"} && s.stale == {"a"}
  {
    SecondSave();
    SecondSaveIsEnabled();
    SecondWrite();
    TwoSteps(TINY, Sevens, OnePublished(true), Save("b", "l", 1, [0], [7]), Write(Written, {"a"}));
  }

  /** A published donor, evicted with its retraction failing, keeps a record that no stored
      layer is behind: the publication theorem needs its hypothesis. */
  lemma {:induction false} FailedRetractionLeavesAStaleRecord()
    ensures IsRun(TINY, Sevens, Init(), StaleRun())
    ensures var s := Run(TINY, Init(), StaleRun());
      "a" in s.records && s.records["a"].tokens == 1 && "a" !in s.store && s.stale == {"a"}
  {
    FirstCapture(true);
    FirstPublication(true);
    SecondCapture();
    RunInTwo(TINY, Sevens, Init(), CaptureActs("a", {}), PublishActs("a"));
    RunInTwo(TINY, Sevens, Init(), CaptureActs("a", {}) + PublishActs("a"), CaptureActs("b", {"a"}));
  }

  // --------------------------------------------------------- a truncated layer

  /** A donor captured and published on disk, then extended by a chunk whose write fails
      part-way. */
  function TornRun(): seq<Action<int>>
  {
    CaptureActs("a", {}) + PublishActs("a") + [Save("a", "l", 2, [0, 1], [7, 7]), Write(FailsLate, {})]
  }

  lemma {:induction false} TwoCells()
    ensures Computed([7, 7], [0, 1], 2, 1, Sevens("", "")) && ReadWindow([7, 7], [0, 1], 1, 2, 1) == [7]
  {
    forall p: nat, x: nat | p < 2 && IsSlot(x, [0, 1], p, 1) ensures x == p {
      Unique(p, 1, p, 0);
    }
    WindowIsComputed([7, 7], [0, 1], 1, 2, 1, Sevens("", ""));
  }

  lemma {:induction false} SecondChunk(s: State<int>)
    requires s == OnePublished(false)
    ensures Enabled(Tiny(false), Sevens, s, Save("a", "l", 2, [0, 1], [7, 7]))
    ensures Step(Tiny(false), s, Save("a", "l", 2, [0, 1], [7, 7])) == Queued(s, "a", "l", 2, [7, 7])
  {
    TwoCells();
    assert Base(s, "a", "l") == [7] && AppendAt(s, "a", "l") == 1;
    SaveIsQueued(Tiny(false), s, "a", "l", 2, [0, 1], [7, 7], [7, 7]);
  }

  lemma {:induction false} SecondChunkIsTorn(s: State<int>)
    requires s == OnePublished(false)
    ensures var t := WriteHead(Tiny(false), Queued(s, "a", "l", 2, [7, 7]), FailsLate, {});
      t.records == s.records && t.stale == {} && t.torn == {("a", "l")} && t.store == map["a" := map[]]
  {
    var q := Queued(s, "a", "l", 2, [7, 7]);
    assert q.queue == [LayerJob("a", "l", [7, 7])];
    WriteHeadCases(Tiny(false), q, FailsLate, {});
    assert s.store["a"] - {"l"} == map[];
  }

  /** A published donor, extended by a chunk whose write truncates its file, keeps a record
      for one token with no layer behind it. */
  lemma {:induction false} TornWriteBreaksARecord()
    ensures IsRun(Tiny(false), Sevens, Init(), TornRun())
    ensures var s := Run(Tiny(false), Init(), TornRun());
      "a" in s.records && s.records["a"].tokens == 1 && s.stale == {} && s.torn == {("a", "l")} && s.store == map["a" := map[]]
  {
    var c := Tiny(false);
    var more := [Save("a", "l", 2, [0, 1], [7, 7]), Write(FailsLate, {})];
    FirstCapture(false);
    FirstPublication(false);
    RunInTwo(c, Sevens, Init(), CaptureActs("a", {}), PublishActs("a"));
    SecondChunk(OnePublished(false));
    SecondChunkIsTorn(OnePublished(false));
    TwoSteps(c, Sevens, OnePublished(false), Save("a", "l", 2, [0, 1], [7, 7]), Write(FailsLate, {}));
    RunInTwo(c, Sevens, Init(), CaptureActs("a", {}) + PublishActs("a"), more);
  }

  // ------------------------------------------- a chunk that lands in one layer

  const DISK := Config(1, {"a", "b"}, false, 1)

  /** A prompt with the same KV everywhere. */
  function Steady<T>(cell: T): Ideal<T> { (r, l) => (p => cell) }

  function Cells<T>(cell: T, n: nat): (cells: seq<T>)
    ensures |cells| == n && forall i | 0 <= i < n :: cells[i] == cell
  {
    seq(n, _ => cell)
  }

  /** Blocks 0, 1, ..., n - 1. */
  function FirstBlocks(n: nat): (table: seq<nat>)
    ensures |table| == n && forall i | 0 <= i < n :: table[i] == i
  {
    seq(n, i => i)
  }

  /** The save of one layer of a chunk that ends at n. */
  function SaveTo<T>(cell: T, l: Layer, n: nat): Action<T> { Save("d", l, n, FirstBlocks(n), Cells(cell, n)) }

  function TwoSaves<T>(cell: T, n: nat): seq<Action<T>> { [SaveTo(cell, "a", n), SaveTo(cell, "b", n)] }

  function TwoWrites<T>(second: Outcome): seq<Action<T>> { [Write(Written, {}), Write(second, {})] }

  function OneJoin<T>(): seq<Action<T>> { [Flush({}), SubmitEnds] }

  lemma {:induction false} CellsAreComputed<T(!new)>(cell: T, n: nat, l: Layer)
    ensures Computed(Cells(cell, n), FirstBlocks(n), n, 1, Steady(cell)("d", l))
  {
    Product(n, 1);
    forall p: nat, x: nat | p < n && IsSlot(x, FirstBlocks(n), p, 1)
      ensures x < n && Cells(cell, n)[x] == Steady(cell)("d", l)(p)
    {
      Unique(p, 1, p, 0);
    }
  }

  /** Between two chunks: donor d holds its first n tokens in both layers. */
  ghost predicate Between<T>(s: State<T>, cell: T, n: nat)
  {
    && s.phase == Saving({}) && s.queue == [] && s.staged == map[] && s.pending == {} && s.retired == {}
    && s.failed == {} && s.newFailed == {} && s.newEvicted == {} && s.finalized == map[] && s.torn == {}
    && s.progress == (if n == 0 then map[] else map["d" := map["a" := n, "b" := n]])
    && s.store == (if n == 0 then map[] else map["d" := map["a" := Cells(cell, n), "b" := Cells(cell, n)]])
  }

  /** Both layers of the chunk that ends at m queued. */
  function BothQueued<T>(s: State<T>, cell: T, m: nat): State<T>
  {
    s.(phase := Saving({("d", "a"), ("d", "b")}), progress := map["d" := map["a" := m, "b" := m]],
       staged := map[("d", "a") := Cells(cell, m), ("d", "b") := Cells(cell, m)],
       queue := [LayerJob("d", "a", Cells(cell, m)), LayerJob("d", "b", Cells(cell, m))])
  }

  lemma {:induction false} OneSave<T(!new)>(s: State<T>, cell: T, l: Layer, m: nat)
    requires Inv(DISK, Steady(cell), s) && s.phase.Saving? && ("d", l) !in s.phase.saved && l in DISK.layers
    requires "d" !in s.retired && ProgressOf(s, "d", l) < m
    ensures Enabled(DISK, Steady(cell), s, SaveTo(cell, l, m))
    ensures Step(DISK, s, SaveTo(cell, l, m)) == Queued(s, "d", l, m, Cells(cell, m))
  {
    CellsAreComputed(cell, m, l);
    var table, view := FirstBlocks(m), Cells(cell, m);
    PayloadIsOneShot(DISK, Steady(cell), s, "d", l, m, table, view);
    var payload := Base(s, "d", l) + ReadWindow(view, table, AppendAt(s, "d", l), m, 1);
    assert payload == Cells(cell, m);
    SaveIsQueued(DISK, s, "d", l, m, table, view, payload);
  }

  lemma {:induction false} BothLayersInProgress(p: map<Request, map<Layer, nat>>, m: nat)
    requires p == map[] || exists n :: p == map["d" := map["a" := n, "b" := n]]
    ensures var mine := if "d" in p then p["d"] else map[];
      p["d" := mine["a" := m]]["d" := mine["a" := m]["b" := m]] == map["d" := map["a" := m, "b" := m]]
  {
    var mine := if "d" in p then p["d"] else map[];
    assert mine["a" := m]["b" := m] == map["a" := m, "b" := m];
  }

  lemma {:induction false} QueuedTwice<T>(s: State<T>, cell: T, n: nat, m: nat)
    requires Between(s, cell, n)
    ensures Queued(Queued(s, "d", "a", m, Cells(cell, m)), "d", "b", m, Cells(cell, m)) == BothQueued(s, cell, m)
  {
    var t := Queued(s, "d", "a", m, Cells(cell, m));
    var u := Queued(t, "d", "b", m, Cells(cell, m));
    assert u.phase.saved == {("d", "a"), ("d", "b")};
    assert u.queue == [LayerJob("d", "a", Cells(cell, m)), LayerJob("d", "b", Cells(cell, m))];
    assert u.progress == map["d" := map["a" := m, "b" := m]] by { BothLayersInProgress(s.progress, m); }
    assert u.staged == map[("d", "a") := Cells(cell, m), ("d", "b") := Cells(cell, m)];
  }

  lemma {:induction false} BothSaved<T(!new)>(s: State<T>, cell: T, n: nat, m: nat)
    requires Inv(DISK, Steady(cell), s) && Between(s, cell, n) && n < m
    ensures IsRun(DISK, Steady(cell), s, TwoSaves(cell, m))
    ensures Run(DISK, s, TwoSaves(cell, m)) == BothQueued(s, cell, m)
  {
    var t := Queued(s, "d", "a", m, Cells(cell, m));
    OneSave(s, cell, "a", m);
    StepKeepsInv(DISK, Steady(cell), s, SaveTo(cell, "a", m));
    assert ProgressOf(t, "d", "b") == n;
    OneSave(t, cell, "b", m);
    QueuedTwice(s, cell, n, m);
    TwoSteps(DISK, Steady(cell), s, SaveTo(cell, "a", m), SaveTo(cell, "b", m));
  }

  /** What is left of the donor's second layer. */
  function SecondLayer<T>(cell: T, n: nat, m: nat, second: Outcome): map<Layer, seq<T>>
  {
    if second.Written? then map["b" := Cells(cell, m)] else if n == 0 then map[] else map["b" := Cells(cell, n)]
  }

  function BothDone<T>(s: State<T>, cell: T, n: nat, m: nat, second: Outcome): State<T>
  {
    s.(phase := Saving({("d", "a"), ("d", "b")}), progress := map["d" := map["a" := m, "b" := m]],
       newFailed := if second.Written? then {} else {"d"},
       store := map["d" := map["a" := Cells(cell, m)] + SecondLayer(cell, n, m, second)])
  }

  /** The first of the two written, the second still queued. */
  function FirstDone<T>(s: State<T>, cell: T, n: nat, m: nat): State<T>
  {
    BothQueued(s, cell, m).(
      staged := map[("d", "b") := Cells(cell, m)], queue := [LayerJob("d", "b", Cells(cell, m))],
      store := map["d" := map["a" := Cells(cell, m)] + SecondLayer(cell, n, m, FailsEarly)])
  }

  lemma {:induction false} LayersOverwritten<T>(cell: T, n: nat, m: nat)
    ensures (if n == 0 then map[] else map["a" := Cells(cell, n), "b" := Cells(cell, n)])["a" := Cells(cell, m)]
         == map["a" := Cells(cell, m)] + SecondLayer(cell, n, m, FailsEarly)
    ensures (map["a" := Cells(cell, m)] + SecondLayer(cell, n, m, FailsEarly))["b" := Cells(cell, m)]
         == map["a" := Cells(cell, m)] + SecondLayer(cell, n, m, Written)
  {
  }

  lemma {:induction false} FirstLands<T>(s: State<T>, cell: T, n: nat, m: nat)
    requires Between(s, cell, n)
    ensures var v := PutLayer(Taken(BothQueued(s, cell, m)), "d", "a", Cells(cell, m));
      v.store == FirstDone(s, cell, n, m).store && v.torn == {}
  {
    LayersOverwritten(cell, n, m);
  }

  lemma {:induction false} FirstIsWritten<T>(s: State<T>, cell: T, n: nat, m: nat)
    requires Between(s, cell, n)
    ensures WriteHead(DISK, BothQueued(s, cell, m), Written, {}) == FirstDone(s, cell, n, m)
  {
    var u := BothQueued(s, cell, m);
    WriteHeadCases(DISK, u, Written, {});
    FirstLands(s, cell, n, m);
    assert Taken(u).staged == map[("d", "b") := Cells(cell, m)];
    assert Taken(u).queue == [LayerJob("d", "b", Cells(cell, m))];
  }

  lemma {:induction false} SecondLands<T>(u: State<T>, cell: T, n: nat, m: nat)
    requires u.torn == {} && u.store == map["d" := map["a" := Cells(cell, m)] + SecondLayer(cell, n, m, FailsEarly)]
    ensures var v := PutLayer(u, "d", "b", Cells(cell, m));
      v.store == map["d" := map["a" := Cells(cell, m)] + SecondLayer(cell, n, m, Written)] && v.torn == {}
  {
    LayersOverwritten(cell, n, m);
  }

  lemma {:induction false} SecondIsWritten<T>(s: State<T>, cell: T, n: nat, m: nat, second: Outcome)
    requires Between(s, cell, n) && !second.FailsLate?
    ensures WriteHead(DISK, FirstDone(s, cell, n, m), second, {}) == BothDone(s, cell, n, m, second)
  {
    var u := FirstDone(s, cell, n, m);
    WriteHeadCases(DISK, u, second, {});
    var t := Taken(u);
    assert t.staged == map[] && t.queue == [];
    if second.Written? { SecondLands(t, cell, n, m); }
  }

  lemma {:induction false} BothAreWritten<T(!new)>(s: State<T>, cell: T, n: nat, m: nat, second: Outcome)
    requires Between(s, cell, n) && !second.FailsLate?
    ensures IsRun(DISK, Steady(cell), BothQueued(s, cell, m), TwoWrites(second))
    ensures Run(DISK, BothQueued(s, cell, m), TwoWrites(second)) == BothDone(s, cell, n, m, second)
  {
    FirstIsWritten(s, cell, n, m);
    SecondIsWritten(s, cell, n, m, second);
    TwoSteps(DISK, Steady(cell), BothQueued(s, cell, m), Write(Written, {}), Write(second, {}));
  }

  lemma {:induction false} ChunkIsJoined<T(!new)>(s: State<T>, cell: T, n: nat, m: nat)
    requires Between(s, cell, n) && m > 0
    ensures var t := BothDone(s, cell, n, m, Written);
      IsRun(DISK, Steady(cell), t, OneJoin()) && Run(DISK, t, OneJoin()) == t.(phase := Joining({}))
  {
    var t := BothDone(s, cell, n, m, Written);
    var u := Step(DISK, t, Flush({}));
    assert u.progress == t.progress && u.finalized == t.finalized && u.pending == {} && u.failed == {};
    TwoSteps(DISK, Steady(cell), t, Flush({}), SubmitEnds);
  }

  lemma {:induction false} ChunkIsOver<T(!new)>(s: State<T>, cell: T, n: nat, m: nat)
    requires Between(s, cell, n) && m > 0
    ensures var t := BothDone(s, cell, n, m, Written).(phase := Joining({}));
      IsRun(DISK, Steady(cell), t, [Flushed({})]) && Between(Run(DISK, t, [Flushed({})]), cell, m)
  {
    var t := BothDone(s, cell, n, m, Written).(phase := Joining({}));
    var u := Step(DISK, t, Flushed({}));
    assert u.progress == t.progress && u.finalized == t.finalized && u.store == t.store;
    assert map["a" := Cells(cell, m)] + map["b" := Cells(cell, m)] == map["a" := Cells(cell, m), "b" := Cells(cell, m)];
    OneStep(DISK, Steady(cell), t, Flushed({}));
  }

  /** A whole step that captures the chunk. */
  function ChunkActs<T>(cell: T, m: nat): seq<Action<T>>
  {
    TwoSaves(cell, m) + TwoWrites(Written) + OneJoin() + [Flushed({})]
  }

  lemma {:induction false} OneChunk<T(!new)>(s: State<T>, cell: T, n: nat, m: nat)
    requires Inv(DISK, Steady(cell), s) && Between(s, cell, n) && n < m
    ensures IsRun(DISK, Steady(cell), s, ChunkActs(cell, m)) && Between(Run(DISK, s, ChunkActs(cell, m)), cell, m)
  {
    BothSaved(s, cell, n, m);
    BothAreWritten(s, cell, n, m, Written);
    ChunkIsJoined(s, cell, n, m);
    ChunkIsOver(s, cell, n, m);
    var ideal := Steady(cell);
    RunInTwo(DISK, ideal, s, TwoSaves(cell, m), TwoWrites(Written));
    RunInTwo(DISK, ideal, s, TwoSaves(cell, m) + TwoWrites(Written), OneJoin());
    RunInTwo(DISK, ideal, s, TwoSaves(cell, m) + TwoWrites(Written) + OneJoin(), [Flushed({})]);
  }

  /** One chunk captured, then one whose second layer cannot be written. */
  function ShortRun<T>(cell: T): seq<Action<T>>
  {
    ChunkActs(cell, 1) + (TwoSaves(cell, 2) + TwoWrites(FailsEarly))
  }

  lemma {:induction false} LastChunk<T(!new)>(s: State<T>, cell: T)
    requires Inv(DISK, Steady(cell), s) && Between(s, cell, 1)
    ensures var acts := TwoSaves(cell, 2) + TwoWrites(FailsEarly);
      IsRun(DISK, Steady(cell), s, acts) && Run(DISK, s, acts) == BothDone(s, cell, 1, 2, FailsEarly)
  {
    BothSaved(s, cell, 1, 2);
    BothAreWritten(s, cell, 1, 2, FailsEarly);
    RunInTwo(DISK, Steady(cell), s, TwoSaves(cell, 2), TwoWrites(FailsEarly));
  }

  lemma {:induction false} ShortStore<T>(s: State<T>, cell: T)
    ensures BothDone(s, cell, 1, 2, FailsEarly).store == map["d" := map["a" := [cell, cell], "b" := [cell]]]
  {
    assert Cells(cell, 2) == [cell, cell] && Cells(cell, 1) == [cell];
    assert map["a" := [cell, cell]] + map["b" := [cell]] == map["a" := [cell, cell], "b" := [cell]];
  }

  /** It leaves the donor a token short in that layer. */
  lemma {:induction false} FailedWriteLeavesAShortLayer<T(!new)>(cell: T)
    ensures IsRun(DISK, Steady(cell), Init(), ShortRun(cell))
    ensures Run(DISK, Init(), ShortRun(cell)).store == map["d" := map["a" := [cell, cell], "b" := [cell]]]
  {
    var ideal := Steady(cell);
    FreshIsSound(cell);
    OneChunk(Init<T>(), cell, 0, 1);
    var s := Run(DISK, Init(), ChunkActs(cell, 1));
    ReachableIsSound(DISK, ideal, ChunkActs(cell, 1));
    LastChunk(s, cell);
    RunInTwo(DISK, ideal, Init(), ChunkActs(cell, 1), TwoSaves(cell, 2) + TwoWrites(FailsEarly));
    ShortStore(s, cell);
  }

  lemma {:induction false} FreshIsSound<T(!new)>(cell: T)
    ensures Inv(DISK, Steady(cell), Init()) && Between(Init(), cell, 0)
  {
  }
}
