/** The worker's side of donor capture, from a layer of the forward pass to a published
    record: the forward thread, the writer thread, the donor store and its LRU cap, as steps
    with any interleaving, any failing write and any eviction. A key stands for a request
    and its namespace together, since a request id names one capture. */
module CapturePipeline {
  import opened Blocks
  import opened PagedKv
  import opened TextOrder

  type Request = string
  type Layer = string

  /** layers are the model's layers; memory selects the tier, cap its donor count. */
  datatype Config = Config(bs: nat, layers: set<Layer>, memory: bool, cap: nat)

  datatype Job<T> =
    | LayerJob(r: Request, layer: Layer, payload: seq<T>)
    | MetaJob(r: Request, tokens: nat, layers: set<Layer>)

  /** What metadata.json holds, with the layers its publication checked. */
  datatype Record = Record(tokens: nat, layers: set<Layer>)

  datatype Phase =
    | Saving(saved: set<(Request, Layer)>)                       // the forward pass
    | Submitting(rest: set<Request>, finish: set<Request>)       // between the two joins
    | Joining(finish: set<Request>)                              // the second join

  datatype State<T> = State(
    phase: Phase,
    // The forward thread's.
    progress: map<Request, map<Layer, nat>>,
    failed: set<Request>,
    finalized: map<Request, nat>,
    pending: set<Request>,
    retired: set<Request>,
    // Shared with the writer.
    staged: map<(Request, Layer), seq<T>>,
    queue: seq<Job<T>>,
    newFailed: set<Request>,
    newEvicted: set<Request>,
    // The store: layers, LRU order of the memory tier (oldest first), records.
    store: map<Request, map<Layer, seq<T>>>,
    order: seq<Request>,
    records: map<Request, Record>,
    stale: set<Request>,         // records of evicted donors that could not be retracted
    torn: set<(Request, Layer)>) // files on disk a failed write left truncated

  function Init<T>(): State<T>
  {
    State(Saving({}), map[], {}, map[], {}, {}, map[], [], {}, {}, map[], [], map[], {}, {})
  }

  // ---------------------------------------------------------- forward thread

  function ProgressOf<T>(s: State<T>, r: Request, l: Layer): nat
  {
    if r in s.progress && l in s.progress[r] then s.progress[r][l] else 0
  }

  /** This donor's copy of a layer: what is staged for the writer, else what is stored; none
      after a failed write. */
  function CapturedLayer<T>(s: State<T>, r: Request, l: Layer): Option<seq<T>>
  {
    if r in s.failed then None
    else if (r, l) in s.staged then Some(s.staged[(r, l)])
    else if r in s.store && l in s.store[r] then Some(s.store[r][l])
    else None
  }

  /** The paged layer holds the prompt's KV for positions [0, end) in the table's slots. */
  ghost predicate Computed<T(!new)>(view: seq<T>, table: seq<nat>, end: nat, bs: nat, ideal: nat -> T)
    requires bs > 0
  {
    && TableCovers(table, end, bs)
    && forall p: nat, x: nat | p < end && IsSlot(x, table, p, bs) :: x < |view| && view[x] == ideal(p)
  }

  /** The cells of positions [from, end), read through the slot mapping. */
  function ReadWindow<T>(view: seq<T>, table: seq<nat>, from: nat, end: nat, bs: nat): seq<T>
    requires bs > 0 && from <= end
  {
    var m := SlotMapping([table], end - from, bs, from);
    if m.Mapped? && InRange(m.slots, |view|) then ReadCells(view, m.slots) else []
  }

  /** Where a chunk's window starts: this layer's progress, or 0 when there is no base to
      append to. */
  function AppendAt<T>(s: State<T>, r: Request, l: Layer): nat
  {
    var start := ProgressOf(s, r, l);
    if start > 0 && CapturedLayer(s, r, l).Some? then start else 0
  }

  function Base<T>(s: State<T>, r: Request, l: Layer): seq<T>
  {
    if AppendAt(s, r, l) > 0 then CapturedLayer(s, r, l).value else []
  }

  function SaveLayer<T>(c: Config, s: State<T>, r: Request, l: Layer, end: nat, table: seq<nat>, view: seq<T>): State<T>
    requires c.bs > 0 && s.phase.Saving?
  {
    var t := s.(phase := Saving(s.phase.saved + {(r, l)}));
    var start := ProgressOf(s, r, l);
    if start >= end then t
    else
      var from := AppendAt(s, r, l);
      var payload := Base(s, r, l) + ReadWindow(view, table, from, end, c.bs);
      var mine := if r in s.progress then s.progress[r] else map[];
      t.(progress := s.progress[r := mine[l := end]],
         staged := s.staged[(r, l) := payload],
         queue := s.queue + [LayerJob(r, l, payload)])
  }

  /** The donor's guaranteed length, its shortest layer. */
  function Shortest(m: map<Layer, nat>): (n: nat)
    requires m != map[]
    ensures n in m.Values && forall l | l in m :: n <= m[l]
  {
    SomeLayerIsShortest(m);
    var l :| l in m && forall k | k in m :: m[l] <= m[k];
    m[l]
  }

  lemma {:induction false} SomeLayerIsShortest(m: map<Layer, nat>)
    requires m != map[]
    ensures exists l :: l in m && forall k | k in m :: m[l] <= m[k]
  {
    var any :| any in m;
    SomeKeyIsLeast(m, m.Keys);
  }

  lemma {:induction false} SomeKeyIsLeast(m: map<Layer, nat>, keys: set<Layer>)
    requires keys != {} && keys <= m.Keys
    ensures exists l :: l in keys && forall k | k in keys :: m[l] <= m[k]
    decreases |keys|
  {
    var l :| l in keys;
    var rest := keys - {l};
    if rest == {} {
      assert keys == {l};
    } else {
      SomeKeyIsLeast(m, rest);
      var x :| x in rest && forall k | k in rest :: m[x] <= m[k];
      assert forall k | k in keys :: k == l || k in rest;
      assert (if m[l] <= m[x] then l else x) in keys;
    }
  }

  /** Whether a finalize would publish anything new. */
  predicate WantsRecord<T>(s: State<T>, r: Request)
  {
    && r !in s.failed
    && r in s.progress && s.progress[r] != map[]
    && !(r in s.finalized && s.finalized[r] == Shortest(s.progress[r]))
  }

  function QueueFinalize<T>(s: State<T>, r: Request): State<T>
  {
    if WantsRecord(s, r) then s.(pending := s.pending + {r}) else s
  }

  function Drain<T>(s: State<T>): State<T>
  {
    s.(failed := s.failed + s.newFailed,
       progress := s.progress - s.newEvicted,
       finalized := s.finalized - s.newEvicted,
       newFailed := {}, newEvicted := {})
  }

  /** The first join is over: reports are drained, and the donors this step completed are
      up for submission. finish are the requests the finish hook is retiring. */
  function BeginFlush<T>(s: State<T>, finish: set<Request>): State<T>
  {
    var wanted := s.pending + set r | r in finish && WantsRecord(s, r);
    Drain(s).(phase := Submitting(wanted, finish), pending := wanted)
  }

  function SubmitOne<T>(s: State<T>, r: Request): State<T>
    requires s.phase.Submitting?
  {
    var t := s.(phase := s.phase.(rest := s.phase.rest - {r}));
    if r !in s.progress || s.progress[r] == map[] || r in s.failed then t
    else
      var tokens := Shortest(s.progress[r]);
      t.(finalized := s.finalized[r := tokens],
         queue := s.queue + [MetaJob(r, tokens, s.progress[r].Keys)])
  }

  /** Every pending donor was visited. */
  function Submitted<T>(s: State<T>): State<T>
  {
    if s.phase.Submitting? then s.(phase := Joining(s.phase.finish), pending := {}) else s
  }

  /** The second join is over; a finish hook then deletes what was never published from the
      disk tier, where kept names the captures whose deletion failed, and forgets them. */
  function EndFlush<T>(c: Config, s: State<T>, kept: set<Request>): State<T>
    requires s.phase.Joining?
  {
    var t := Drain(s);
    var finish := s.phase.finish;
    var orphans := if c.memory then {} else set r | r in finish && r !in t.records && r !in kept;
    t.(phase := Saving({}), store := t.store - orphans,
       progress := t.progress - finish, finalized := t.finalized - finish,
       failed := t.failed - finish, retired := t.retired + finish)
  }

  // ---------------------------------------------------------- writer thread

  datatype Outcome = Written | FailsEarly | FailsLate

  function Limit(c: Config): nat { if c.cap > 1 then c.cap else 1 }

  /** Drop the least recently used donor and retract its record; the retraction fails for the
      donors in stuck. */
  function EvictOldest<T>(s: State<T>, stuck: set<Request>): State<T>
    requires s.order != []
  {
    var r := s.order[0];
    var failing := r in s.records && r in stuck;
    s.(store := s.store - {r}, order := s.order[1..], newEvicted := s.newEvicted + {r},
       records := if failing then s.records else s.records - {r},
       stale := if failing then s.stale + {r} else s.stale - {r})
  }

  function EvictOver<T>(c: Config, s: State<T>, stuck: set<Request>): State<T>
    decreases |s.order|
  {
    if |s.order| > Limit(c) then EvictOver(c, EvictOldest(s, stuck), stuck) else s
  }

  function MovedToEnd(order: seq<Request>, r: Request): seq<Request>
    decreases |order|
  {
    if order == [] then [r]
    else if order[0] == r then order[1..] + [r]
    else [order[0]] + MovedToEnd(order[1..], r)
  }

  /** The donor's entry in the memory tier, created at the young end or moved there. */
  function OpenEntry<T>(c: Config, s: State<T>, r: Request, stuck: set<Request>): State<T>
  {
    if !c.memory then s
    else if r in s.store then s.(order := MovedToEnd(s.order, r))
    else EvictOver(c, s.(store := s.store[r := map[]], order := s.order + [r]), stuck)
  }

  function PutLayer<T>(s: State<T>, r: Request, l: Layer, payload: seq<T>): State<T>
  {
    var entry := if r in s.store then s.store[r] else map[];
    s.(store := s.store[r := entry[l := payload]], torn := s.torn - {(r, l)})
  }

  /** A write that fails once the layer's file is open leaves it truncated, and nothing in it
      can be read back; the memory tier keeps what it has. */
  function Tear<T>(c: Config, s: State<T>, r: Request, l: Layer): State<T>
  {
    if c.memory then s
    else
      s.(store := if r in s.store then s.store[r := s.store[r] - {l}] else s.store, torn := s.torn + {(r, l)})
  }

  function WriteLayer<T>(c: Config, s: State<T>, job: Job<T>, outcome: Outcome, stuck: set<Request>): State<T>
    requires job.LayerJob?
  {
    var t := s.(staged := s.staged - {(job.r, job.layer)});
    match outcome
    case Written => PutLayer(OpenEntry(c, t, job.r, stuck), job.r, job.layer, job.payload)
    case FailsEarly => t.(newFailed := t.newFailed + {job.r})
    case FailsLate => Tear(c, OpenEntry(c, t, job.r, stuck), job.r, job.layer).(newFailed := t.newFailed + {job.r})
  }

  /** The check before a record is written: an entry, or a file, is there for each layer. */
  predicate AllStored<T>(s: State<T>, r: Request, layers: set<Layer>)
  {
    forall l | l in layers :: (r in s.store && l in s.store[r]) || (r, l) in s.torn
  }

  /** A record is written, replacing whatever record the donor had. */
  function Publish<T>(s: State<T>, r: Request, rec: Record): State<T>
  {
    s.(records := s.records[r := rec], stale := s.stale - {r})
  }

  function WriteMeta<T>(c: Config, s: State<T>, job: Job<T>, outcome: Outcome): State<T>
    requires job.MetaJob?
  {
    if c.memory && job.r !in s.store then s
    else if !outcome.Written? || !AllStored(s, job.r, job.layers) then
      s.(newFailed := s.newFailed + {job.r})
    else Publish(s, job.r, Record(job.tokens, job.layers))
  }

  function WriteHead<T>(c: Config, s: State<T>, outcome: Outcome, stuck: set<Request>): State<T>
    requires s.queue != []
  {
    var job := s.queue[0];
    var t := s.(queue := s.queue[1..]);
    if job.LayerJob? then WriteLayer(c, t, job, outcome, stuck) else WriteMeta(c, t, job, outcome)
  }

  /** A load read this donor. */
  function Touch<T>(c: Config, s: State<T>, r: Request): State<T>
  {
    if c.memory && r in s.store then s.(order := MovedToEnd(s.order, r)) else s
  }

  // ------------------------------------------------------------------- steps

  /** The KV a one-shot prefill of a request's prompt leaves in a layer, by position. */
  type Ideal<T> = (Request, Layer) -> (nat -> T)

  datatype Action<T> =
    | Save(r: Request, l: Layer, end: nat, table: seq<nat>, view: seq<T>)
    | Finalize(r: Request)
    | Flush(finish: set<Request>)
    | Submit(r: Request)
    | SubmitEnds
    | Flushed(kept: set<Request>)
    | Write(outcome: Outcome, stuck: set<Request>)
    | Touched(r: Request)

  ghost predicate Enabled<T(!new)>(c: Config, ideal: Ideal<T>, s: State<T>, a: Action<T>)
    requires c.bs > 0
  {
    match a
    // Each layer of a store is saved once per step, over cells the forward pass filled.
    case Save(r, l, end, table, view) =>
      && s.phase.Saving? && (r, l) !in s.phase.saved && l in c.layers && r !in s.retired
      && end > 0 && Computed(view, table, end, c.bs, ideal(r, l))
    case Finalize(r) => s.phase.Saving?
    // The step has saved every layer of its stores, and the writer is joined.
    case Flush(finish) =>
      && s.phase.Saving? && s.queue == []
      && forall r, l, k | (r, l) in s.phase.saved && k in c.layers :: (r, k) in s.phase.saved
    case Submit(r) => s.phase.Submitting? && r in s.phase.rest
    case SubmitEnds => s.phase.Submitting? && s.phase.rest == {}
    case Flushed(kept) => s.phase.Joining? && s.queue == []
    case Write(outcome, stuck) => s.queue != []
    case Touched(r) => true
  }

  function Step<T>(c: Config, s: State<T>, a: Action<T>): State<T>
    requires c.bs > 0
  {
    match a
    case Save(r, l, end, table, view) => if s.phase.Saving? then SaveLayer(c, s, r, l, end, table, view) else s
    case Finalize(r) => QueueFinalize(s, r)
    case Flush(finish) => BeginFlush(s, finish)
    case Submit(r) => if s.phase.Submitting? then SubmitOne(s, r) else s
    case SubmitEnds => Submitted(s)
    case Flushed(kept) => if s.phase.Joining? then EndFlush(c, s, kept) else s
    case Write(outcome, stuck) => if s.queue != [] then WriteHead(c, s, outcome, stuck) else s
    case Touched(r) => Touch(c, s, r)
  }

  // -------------------------------------------------------------- invariants

  ghost predicate Prefix<T(!new)>(payload: seq<T>, ideal: nat -> T)
  {
    forall p | 0 <= p < |payload| :: payload[p] == ideal(p)
  }

  /** Everything staged, queued or stored is a prefix of the prompt's own KV. */
  ghost predicate Faithful<T(!new)>(c: Config, ideal: Ideal<T>, s: State<T>)
  {
    && (forall r, l | (r, l) in s.staged :: l in c.layers && Prefix(s.staged[(r, l)], ideal(r, l)))
    && (forall r, l | r in s.store && l in s.store[r] :: l in c.layers && Prefix(s.store[r][l], ideal(r, l)))
  }

  ghost predicate Lists(order: seq<Request>, donors: set<Request>)
  {
    Distinct(order) && forall r :: r in order <==> r in donors
  }

  /** The memory tier's order lists its donors once each, within the cap. */
  ghost predicate Listed<T>(c: Config, s: State<T>)
  {
    if c.memory then |s.order| <= Limit(c) && Lists(s.order, s.store.Keys)
    else s.order == [] && s.newEvicted == {}
  }

  predicate IsFor<T>(job: Job<T>, k: (Request, Layer)) { job.LayerJob? && (job.r, job.layer) == k }

  /** A queued layer is the one staged. */
  ghost predicate QueueStaged<T>(s: State<T>)
  {
    forall i | 0 <= i < |s.queue| ::
      var job := s.queue[i];
      job.LayerJob? && (job.r, job.layer) in s.staged && s.staged[(job.r, job.layer)] == job.payload
  }

  ghost predicate QueueDistinct<T>(s: State<T>)
  {
    forall i, j, k | 0 <= i < j < |s.queue| && IsFor(s.queue[i], k) :: !IsFor(s.queue[j], k)
  }

  ghost predicate StagedQueued<T>(s: State<T>)
  {
    forall k | k in s.staged :: exists i :: 0 <= i < |s.queue| && IsFor(s.queue[i], k)
  }

  /** While saving, the queue holds this step's layers, one job each, the same bytes as the
      staging map; after it only records are queued. */
  ghost predicate QueueOk<T>(s: State<T>)
  {
    if s.phase.Saving? then
      QueueStaged(s) && QueueDistinct(s) && StagedQueued(s) && s.staged.Keys <= s.phase.saved
    else
      s.staged == map[] && forall i | 0 <= i < |s.queue| :: s.queue[i].MetaJob?
  }

  ghost predicate Touches<T>(s: State<T>, r: Request)
    requires s.phase.Saving?
  {
    exists l :: (r, l) in s.phase.saved
  }

  ghost predicate WholeKeys<T>(c: Config, s: State<T>)
  {
    && (forall r | r in s.progress :: s.progress[r].Keys <= c.layers && r !in s.retired)
    && (forall r, l | r in s.progress && l in s.progress[r] :: s.progress[r][l] > 0)
  }

  ghost predicate WholeSaved<T>(s: State<T>)
  {
    s.phase.Saving? ==> forall r, l | (r, l) in s.phase.saved :: r in s.progress && l in s.progress[r]
  }

  /** A donor's progress covers every layer, but for a step still saving it. */
  ghost predicate Whole<T>(c: Config, s: State<T>)
  {
    && WholeKeys(c, s) && WholeSaved(s)
    && forall r | r in s.progress :: s.progress[r].Keys == c.layers || (s.phase.Saving? && Touches(s, r))
  }

  predicate HoldsLayer<T>(s: State<T>, r: Request, l: Layer, n: nat)
  {
    r in s.store && l in s.store[r] && |s.store[r][l]| == n
  }

  /** Where the bytes behind one layer's progress are. */
  ghost predicate Accounted<T>(s: State<T>, r: Request, l: Layer, n: nat)
  {
    if s.phase.Saving? then
      if (r, l) in s.staged then |s.staged[(r, l)]| == n
      else
        || r in s.failed
        || HoldsLayer(s, r, l, n)
        || (r in s.newEvicted && ((r, l) in s.phase.saved || !(r in s.store && l in s.store[r])))
        || ((r, l) in s.phase.saved && r in s.newFailed)
    else r in s.failed || HoldsLayer(s, r, l, n)
  }

  ghost predicate AllAccounted<T>(s: State<T>)
  {
    forall r, l | r in s.progress && l in s.progress[r] :: Accounted(s, r, l, s.progress[r][l])
  }

  /** A donor evicted in this step holds nothing but what this step wrote since, and its
      record is gone unless retracting it failed. */
  ghost predicate EvictedOk<T>(s: State<T>)
  {
    && (forall r | r in s.newEvicted :: r in s.records ==> r in s.stale)
    && if s.phase.Saving? then
         forall r, l | r in s.newEvicted && r in s.store && l in s.store[r] :: (r, l) in s.phase.saved
       else s.newEvicted == {}
  }

  /** One record: every layer it vouches for, which is every layer of the model, is stored
      with at least its tokens. */
  ghost predicate BackedRecord<T>(c: Config, s: State<T>, r: Request, rec: Record)
  {
    && rec.layers == c.layers && r in s.store
    && forall l | l in c.layers :: l in s.store[r] && |s.store[r][l]| >= rec.tokens
  }

  /** The same, but for the layers a failed write has truncated since. */
  ghost predicate RecordStands<T>(c: Config, s: State<T>, r: Request, rec: Record)
  {
    && rec.layers == c.layers != {} && r in s.store
    && forall l | l in c.layers :: (r, l) in s.torn || (l in s.store[r] && |s.store[r][l]| >= rec.tokens)
  }

  ghost predicate RecordsStand<T>(c: Config, s: State<T>)
  {
    && s.stale <= s.records.Keys
    && (forall r | r in s.records :: s.records[r].layers == c.layers != {})
    && forall r | r in s.records && r !in s.stale :: RecordStands(c, s, r, s.records[r])
  }

  /** A truncated file is not read as a layer. */
  ghost predicate TornOk<T>(c: Config, s: State<T>)
  {
    && (c.memory ==> s.torn == {})
    && forall k | k in s.torn :: !(k.0 in s.store && k.1 in s.store[k.0])
  }

  ghost predicate RecordsBacked<T>(c: Config, s: State<T>)
  {
    RecordsStand(c, s) && TornOk(c, s)
  }

  /** A record never promises more than its capture's progress, so a longer chunk may
      replace a published layer. */
  ghost predicate RecordsTrail<T>(c: Config, s: State<T>)
  {
    forall r | r in s.records && r !in s.stale && r !in s.retired ::
      && r in s.progress
      && forall l | l in c.layers :: l in s.progress[r] && s.progress[r][l] >= s.records[r].tokens
  }

  /** A queued record: its capture is whole, not failed, and held in full. */
  ghost predicate QueuedRecordsOk<T>(c: Config, s: State<T>)
  {
    forall i | 0 <= i < |s.queue| && s.queue[i].MetaJob? ::
      var job := s.queue[i];
      && job.r in s.progress && job.r !in s.failed && job.layers == c.layers
      && s.progress[job.r] != map[] && job.tokens == Shortest(s.progress[job.r])
      && job.r in s.finalized && s.finalized[job.r] == job.tokens
  }

  predicate Announces<T>(job: Job<T>, r: Request, tokens: nat) { job.MetaJob? && job.r == r && job.tokens == tokens }

  /** What the forward thread believes published is published, or on its way, or known or
      about to be known as failed or evicted. */
  ghost predicate FinalizedOk<T>(s: State<T>)
  {
    forall r | r in s.finalized ::
      || r in s.failed || r in s.newFailed || r in s.newEvicted
      || (r in s.records && s.records[r].tokens == s.finalized[r])
      || (exists i :: 0 <= i < |s.queue| && Announces(s.queue[i], r, s.finalized[r]))
  }

  ghost predicate Inv<T(!new)>(c: Config, ideal: Ideal<T>, s: State<T>)
  {
    && Faithful(c, ideal, s) && Listed(c, s) && QueueOk(s) && Whole(c, s) && AllAccounted(s)
    && EvictedOk(s) && RecordsBacked(c, s) && RecordsTrail(c, s) && QueuedRecordsOk(c, s) && FinalizedOk(s)
  }

  // ------------------------------------------------------- saving one layer

  lemma {:induction false} WindowIsComputed<T(!new)>(
      view: seq<T>, table: seq<nat>, from: nat, end: nat, bs: nat, ideal: nat -> T)
    requires bs > 0 && from < end && Computed(view, table, end, bs, ideal)
    ensures var w := ReadWindow(view, table, from, end, bs);
      |w| == end - from && forall i | 0 <= i < |w| :: w[i] == ideal(from + i)
  {
    MapsPointwise(table, end - from, bs, from);
    var m := SlotMapping([table], end - from, bs, from);
    forall i | 0 <= i < |m.slots| ensures m.slots[i] < |view| && view[m.slots[i]] == ideal(from + i) {
      assert IsSlot(m.slots[i], table, from + i, bs);
    }
  }

  lemma {:induction false} BaseIsProgress<T(!new)>(c: Config, ideal: Ideal<T>, s: State<T>, r: Request, l: Layer)
    requires Faithful(c, ideal, s) && QueueOk(s) && AllAccounted(s) && EvictedOk(s)
    requires s.phase.Saving? && (r, l) !in s.phase.saved
    ensures |Base(s, r, l)| == AppendAt(s, r, l) <= ProgressOf(s, r, l)
    ensures Prefix(Base(s, r, l), ideal(r, l))
  {
    if AppendAt(s, r, l) > 0 {
      assert Accounted(s, r, l, s.progress[r][l]);
      assert HoldsLayer(s, r, l, s.progress[r][l]);
    }
  }

  lemma {:induction false} PrefixGrows<T(!new)>(base: seq<T>, window: seq<T>, ideal: nat -> T)
    requires Prefix(base, ideal) && forall i | 0 <= i < |window| :: window[i] == ideal(|base| + i)
    ensures Prefix(base + window, ideal)
  {
    var all := base + window;
    forall p | 0 <= p < |all| ensures all[p] == ideal(p) {
      if p >= |base| { assert all[p] == window[p - |base|]; }
    }
  }

  lemma {:induction false} BaseAndWindow<T(!new)>(
      base: seq<T>, end: nat, table: seq<nat>, view: seq<T>, bs: nat, ideal: nat -> T)
    requires bs > 0 && |base| < end && Prefix(base, ideal) && Computed(view, table, end, bs, ideal)
    ensures var payload := base + ReadWindow(view, table, |base|, end, bs);
      |payload| == end && Prefix(payload, ideal)
  {
    WindowIsComputed(view, table, |base|, end, bs, ideal);
    PrefixGrows(base, ReadWindow(view, table, |base|, end, bs), ideal);
  }

  /** What a chunk appends to is exactly its layer's progress, so the payload is the prompt's
      KV from 0 to the chunk's end: as a one-shot capture would have it. */
  lemma {:induction false} PayloadIsOneShot<T(!new)>(
      c: Config, ideal: Ideal<T>, s: State<T>, r: Request, l: Layer, end: nat, table: seq<nat>, view: seq<T>)
    requires c.bs > 0 && Inv(c, ideal, s) && Enabled(c, ideal, s, Save(r, l, end, table, view))
    requires ProgressOf(s, r, l) < end
    ensures |Base(s, r, l)| == AppendAt(s, r, l) <= ProgressOf(s, r, l)
    ensures var payload := Base(s, r, l) + ReadWindow(view, table, AppendAt(s, r, l), end, c.bs);
      |payload| == end && Prefix(payload, ideal(r, l))
  {
    BaseIsProgress(c, ideal, s, r, l);
    BaseAndWindow(Base(s, r, l), end, table, view, c.bs, ideal(r, l));
  }

  lemma {:induction false} MarkedIsAccounted<T>(s: State<T>, r: Request, l: Layer)
    requires AllAccounted(s) && s.phase.Saving?
    ensures AllAccounted(s.(phase := Saving(s.phase.saved + {(r, l)})))
  {
    var t := s.(phase := Saving(s.phase.saved + {(r, l)}));
    forall x, k | x in t.progress && k in t.progress[x] ensures Accounted(t, x, k, t.progress[x][k]) {
      assert Accounted(s, x, k, s.progress[x][k]);
    }
  }

  lemma {:induction false} MarkedIsWhole<T>(c: Config, s: State<T>, r: Request, l: Layer)
    requires Whole(c, s) && s.phase.Saving? && ProgressOf(s, r, l) > 0
    ensures Whole(c, s.(phase := Saving(s.phase.saved + {(r, l)})))
  {
    var t := s.(phase := Saving(s.phase.saved + {(r, l)}));
    assert forall x | Touches(s, x) :: Touches(t, x);
  }

  lemma {:induction false} SameRecords<T>(c: Config, s: State<T>, t: State<T>)
    requires RecordsBacked(c, s) && t.records == s.records && t.stale == s.stale && t.store == s.store && t.torn == s.torn
    ensures RecordsBacked(c, t)
  {
    forall x | x in t.records && x !in t.stale ensures RecordStands(c, t, x, t.records[x]) {
      assert RecordStands(c, s, x, s.records[x]);
    }
  }

  /** A layer whose end was reached before: only the mark that it was saved is new. */
  lemma {:induction false} SkippedSaveKeepsInv<T(!new)>(c: Config, ideal: Ideal<T>, s: State<T>, r: Request, l: Layer)
    requires Inv(c, ideal, s) && s.phase.Saving? && ProgressOf(s, r, l) > 0
    ensures Inv(c, ideal, s.(phase := Saving(s.phase.saved + {(r, l)})))
  {
    var t := s.(phase := Saving(s.phase.saved + {(r, l)}));
    MarkedIsAccounted(s, r, l);
    MarkedIsWhole(c, s, r, l);
    SameRecords(c, s, t);
    SameBooks(c, s, t);
    MarkedKeepsRest(c, ideal, s, r, l);
  }

  /** The record invariants do not look at the phase. */
  lemma {:induction false} SameBooks<T>(c: Config, s: State<T>, t: State<T>)
    requires RecordsTrail(c, s) && QueuedRecordsOk(c, s) && FinalizedOk(s)
    requires t == s.(phase := t.phase, pending := t.pending)
    ensures RecordsTrail(c, t) && QueuedRecordsOk(c, t) && FinalizedOk(t)
  {
  }

  lemma {:induction false} MarkedKeepsRest<T(!new)>(c: Config, ideal: Ideal<T>, s: State<T>, r: Request, l: Layer)
    requires Faithful(c, ideal, s) && Listed(c, s) && EvictedOk(s) && QueueOk(s) && s.phase.Saving?
    ensures var t := s.(phase := Saving(s.phase.saved + {(r, l)}));
      Faithful(c, ideal, t) && Listed(c, t) && EvictedOk(t) && QueueOk(t)
  {
  }

  /** The state after a layer of length end was queued. */
  function Queued<T>(s: State<T>, r: Request, l: Layer, end: nat, payload: seq<T>): State<T>
    requires s.phase.Saving?
  {
    s.(phase := Saving(s.phase.saved + {(r, l)}),
       progress := s.progress[r := (if r in s.progress then s.progress[r] else map[])[l := end]],
       staged := s.staged[(r, l) := payload],
       queue := s.queue + [LayerJob(r, l, payload)])
  }

  lemma {:induction false} QueuedIsFaithful<T(!new)>(
      c: Config, ideal: Ideal<T>, s: State<T>, r: Request, l: Layer, end: nat, payload: seq<T>)
    requires Faithful(c, ideal, s) && s.phase.Saving? && l in c.layers && Prefix(payload, ideal(r, l))
    ensures Faithful(c, ideal, Queued(s, r, l, end, payload))
  {
  }

  lemma {:induction false} QueuedKeepsQueue<T>(s: State<T>, r: Request, l: Layer, end: nat, payload: seq<T>)
    requires QueueOk(s) && s.phase.Saving? && (r, l) !in s.phase.saved
    ensures QueueOk(Queued(s, r, l, end, payload))
  {
    var t := Queued(s, r, l, end, payload);
    assert forall i | 0 <= i < |s.queue| :: t.queue[i] == s.queue[i];
    forall i | 0 <= i < |t.queue|
      ensures var job := t.queue[i];
        job.LayerJob? && (job.r, job.layer) in t.staged && t.staged[(job.r, job.layer)] == job.payload
    {
      if i < |s.queue| {
        var job := s.queue[i];
        assert (job.r, job.layer) in s.staged;
      }
    }
    forall i, j, k | 0 <= i < j < |t.queue| && IsFor(t.queue[i], k) ensures !IsFor(t.queue[j], k) {
      var job := s.queue[i];
      assert (job.r, job.layer) in s.staged;
    }
    forall k | k in t.staged ensures exists i :: 0 <= i < |t.queue| && IsFor(t.queue[i], k) {
      if k == (r, l) {
        assert IsFor(t.queue[|s.queue|], k);
      } else {
        assert k in s.staged;
        var i :| 0 <= i < |s.queue| && IsFor(s.queue[i], k);
        assert IsFor(t.queue[i], k);
      }
    }
  }

  lemma {:induction false} QueuedIsAccounted<T>(s: State<T>, r: Request, l: Layer, end: nat, payload: seq<T>)
    requires AllAccounted(s) && s.phase.Saving? && |payload| == end
    ensures AllAccounted(Queued(s, r, l, end, payload))
  {
    var t := Queued(s, r, l, end, payload);
    forall x, k | x in t.progress && k in t.progress[x] ensures Accounted(t, x, k, t.progress[x][k]) {
      if (x, k) != (r, l) {
        assert x in s.progress && k in s.progress[x];
        assert Accounted(s, x, k, s.progress[x][k]);
      }
    }
  }

  lemma {:induction false} MoreSavedTouchesMore<T>(s: State<T>, t: State<T>)
    requires s.phase.Saving? && t.phase.Saving? && s.phase.saved <= t.phase.saved
    ensures forall x | Touches(s, x) :: Touches(t, x)
  {
    forall x | Touches(s, x) ensures Touches(t, x) {
      var l :| (x, l) in s.phase.saved;
      assert (x, l) in t.phase.saved;
    }
  }

  lemma {:induction false} QueuedKeepsKeys<T>(c: Config, s: State<T>, r: Request, l: Layer, end: nat, payload: seq<T>)
    requires WholeKeys(c, s) && WholeSaved(s) && s.phase.Saving? && l in c.layers && r !in s.retired && end > 0
    ensures WholeKeys(c, Queued(s, r, l, end, payload)) && WholeSaved(Queued(s, r, l, end, payload))
  {
  }

  lemma {:induction false} QueuedIsWhole<T>(c: Config, s: State<T>, r: Request, l: Layer, end: nat, payload: seq<T>)
    requires Whole(c, s) && s.phase.Saving? && l in c.layers && r !in s.retired && end > 0
    ensures Whole(c, Queued(s, r, l, end, payload))
  {
    var t := Queued(s, r, l, end, payload);
    QueuedKeepsKeys(c, s, r, l, end, payload);
    assert (r, l) in t.phase.saved && Touches(t, r);
    MoreSavedTouchesMore(s, t);
    forall x | x in t.progress ensures t.progress[x].Keys == c.layers || Touches(t, x) {
      if x != r {
        assert x in s.progress && t.progress[x] == s.progress[x];
      }
    }
  }

  lemma {:induction false} QueuedKeepsRest<T>(c: Config, s: State<T>, r: Request, l: Layer, end: nat, payload: seq<T>)
    requires Listed(c, s) && EvictedOk(s) && s.phase.Saving?
    ensures Listed(c, Queued(s, r, l, end, payload)) && EvictedOk(Queued(s, r, l, end, payload))
  {
  }

  lemma {:induction false} QueuedKeepsTrail<T>(c: Config, s: State<T>, r: Request, l: Layer, end: nat, payload: seq<T>)
    requires RecordsTrail(c, s) && s.phase.Saving? && end > ProgressOf(s, r, l)
    ensures RecordsTrail(c, Queued(s, r, l, end, payload))
  {
  }

  lemma {:induction false} QueuedKeepsBooks<T>(c: Config, s: State<T>, r: Request, l: Layer, end: nat, payload: seq<T>)
    requires QueueOk(s) && FinalizedOk(s) && s.phase.Saving?
    ensures QueuedRecordsOk(c, Queued(s, r, l, end, payload)) && FinalizedOk(Queued(s, r, l, end, payload))
  {
    var t := Queued(s, r, l, end, payload);
    assert forall i | 0 <= i < |s.queue| :: s.queue[i].LayerJob?;
    forall i | 0 <= i < |t.queue| ensures t.queue[i].LayerJob? {
      assert i < |s.queue| ==> t.queue[i] == s.queue[i];
    }
  }

  lemma {:induction false} SaveIsQueued<T>(
      c: Config, s: State<T>, r: Request, l: Layer, end: nat, table: seq<nat>, view: seq<T>, payload: seq<T>)
    requires c.bs > 0 && s.phase.Saving? && ProgressOf(s, r, l) < end && AppendAt(s, r, l) <= end
    requires payload == Base(s, r, l) + ReadWindow(view, table, AppendAt(s, r, l), end, c.bs)
    ensures SaveLayer(c, s, r, l, end, table, view) == Queued(s, r, l, end, payload)
  {
  }

  lemma {:induction false} SaveKeepsInv<T(!new)>(
      c: Config, ideal: Ideal<T>, s: State<T>, r: Request, l: Layer, end: nat, table: seq<nat>, view: seq<T>)
    requires c.bs > 0 && Inv(c, ideal, s) && Enabled(c, ideal, s, Save(r, l, end, table, view))
    ensures Inv(c, ideal, SaveLayer(c, s, r, l, end, table, view))
  {
    if ProgressOf(s, r, l) >= end {
      SkippedSaveKeepsInv(c, ideal, s, r, l);
    } else {
      PayloadIsOneShot(c, ideal, s, r, l, end, table, view);
      var payload := Base(s, r, l) + ReadWindow(view, table, AppendAt(s, r, l), end, c.bs);
      SaveIsQueued(c, s, r, l, end, table, view, payload);
      QueuedIsFaithful(c, ideal, s, r, l, end, payload);
      QueuedKeepsQueue(s, r, l, end, payload);
      QueuedIsAccounted(s, r, l, end, payload);
      QueuedIsWhole(c, s, r, l, end, payload);
      SameRecords(c, s, Queued(s, r, l, end, payload));
      QueuedKeepsTrail(c, s, r, l, end, payload);
      QueuedKeepsBooks(c, s, r, l, end, payload);
      QueuedKeepsRest(c, s, r, l, end, payload);
    }
  }

  // -------------------------------------------------------- writing one layer

  /** u is s after the donor r's entry was opened, evicting the donors in out. */
  ghost predicate Opened<T>(s: State<T>, u: State<T>, r: Request, out: set<Request>)
  {
    && r !in out
    && u == s.(store := u.store, order := u.order, newEvicted := s.newEvicted + out,
               records := u.records, stale := u.stale)
    && (forall x | x != r :: x in u.store <==> x in s.store && x !in out)
    && (forall x | x in u.store && x != r :: u.store[x] == s.store[x])
    && (r in u.store ==> u.store[r] == if r in s.store then s.store[r] else map[])
    && (r in s.store ==> r in u.store)
    && (forall x | x !in out :: x in u.stale <==> x in s.stale)
    && (forall x | x in u.records :: x in s.records && u.records[x] == s.records[x])
    && (forall x | x in s.records && x !in out :: x in u.records)
    && (forall x | x in out :: x in u.stale <==> x in u.records)
  }

  lemma {:induction false} MovedStillLists(order: seq<Request>, r: Request, donors: set<Request>)
    requires Lists(order, donors) && r in order
    ensures Lists(MovedToEnd(order, r), donors) && |MovedToEnd(order, r)| == |order|
    decreases |order|
  {
    var m := MovedToEnd(order, r);
    assert order == [order[0]] + order[1..];
    assert order[0] !in order[1..];
    if order[0] == r {
      forall x ensures x in m <==> x in order { assert x in m <==> x in order[1..] || x == r; }
    } else {
      forall x ensures x in order[1..] <==> x in donors - {order[0]} {
        assert x in order <==> x in order[1..] || x == order[0];
      }
      MovedStillLists(order[1..], r, donors - {order[0]});
      var n := MovedToEnd(order[1..], r);
      forall x ensures x in m <==> x in donors { assert x in m <==> x in n || x == order[0]; }
    }
  }

  lemma {:induction false} AppendedStillLists(order: seq<Request>, r: Request, donors: set<Request>)
    requires Lists(order, donors) && r !in donors
    ensures Lists(order + [r], donors + {r})
  {
    forall x ensures x in order + [r] <==> x in donors + {r} { assert x in order + [r] <==> x in order || x == r; }
  }

  lemma {:induction false} RestStillLists(order: seq<Request>, donors: set<Request>)
    requires Lists(order, donors) && order != []
    ensures order[0] in donors && Lists(order[1..], donors - {order[0]})
  {
    assert order == [order[0]] + order[1..];
    assert order[0] !in order[1..];
    forall x ensures x in order[1..] <==> x in donors - {order[0]} {
      assert x in order <==> x in order[1..] || x == order[0];
    }
  }

  /** An entry appended and the oldest one dropped. */
  lemma {:induction false} SwappedIsOpened<T>(s: State<T>, r: Request, stuck: set<Request>)
    requires s.order != [] && s.order[0] != r && r !in s.store
    ensures var t := s.(store := s.store[r := map[]], order := s.order + [r]);
      var v := EvictOldest(t, stuck); v.order == s.order[1..] + [r] && Opened(s, v, r, {s.order[0]})
  {
    var t := s.(store := s.store[r := map[]], order := s.order + [r]);
    assert t.order[0] == s.order[0];
    assert EvictOldest(t, stuck).order == s.order[1..] + [r];
  }

  lemma {:induction false} OverTheCap<T>(c: Config, s: State<T>, r: Request, stuck: set<Request>)
    requires s.order != [] && |s.order| == Limit(c) && s.order[0] != r && r !in s.store
    ensures var t := s.(store := s.store[r := map[]], order := s.order + [r]);
      var u := EvictOver(c, t, stuck);
      && u == EvictOldest(t, stuck)
      && u.order == s.order[1..] + [r]
      && Opened(s, u, r, {s.order[0]})
  {
    var t := s.(store := s.store[r := map[]], order := s.order + [r]);
    var v := EvictOldest(t, stuck);
    SwappedIsOpened(s, r, stuck);
    assert EvictOver(c, v, stuck) == v;
  }

  lemma {:induction false} OpenedInPlace<T>(c: Config, s: State<T>, r: Request, stuck: set<Request>)
    requires Listed(c, s) && c.memory && r in s.store
    ensures Opened(s, OpenEntry(c, s, r, stuck), r, {}) && Listed(c, OpenEntry(c, s, r, stuck))
  {
    MovedStillLists(s.order, r, s.store.Keys);
  }

  lemma {:induction false} OpenedWithRoom<T>(c: Config, s: State<T>, r: Request, stuck: set<Request>)
    requires Listed(c, s) && c.memory && r !in s.store && |s.order| < Limit(c)
    ensures Opened(s, OpenEntry(c, s, r, stuck), r, {}) && Listed(c, OpenEntry(c, s, r, stuck))
    ensures r in OpenEntry(c, s, r, stuck).store
  {
    AppendedStillLists(s.order, r, s.store.Keys);
    assert s.store[r := map[]].Keys == s.store.Keys + {r};
  }

  lemma {:induction false} OpenedOverTheCap<T>(c: Config, s: State<T>, r: Request, stuck: set<Request>)
    requires Listed(c, s) && c.memory && r !in s.store && |s.order| == Limit(c)
    ensures Opened(s, OpenEntry(c, s, r, stuck), r, {s.order[0]}) && Listed(c, OpenEntry(c, s, r, stuck))
    ensures r in OpenEntry(c, s, r, stuck).store
  {
    var q := s.order[0];
    assert q in s.order;
    OverTheCap(c, s, r, stuck);
    AppendedStillLists(s.order, r, s.store.Keys);
    var order := s.order + [r];
    RestStillLists(order, s.store.Keys + {r});
    assert order[0] == q && order[1..] == s.order[1..] + [r];
    assert OpenEntry(c, s, r, stuck).store.Keys == s.store.Keys + {r} - {q};
  }

  /** Opening an entry keeps the tier within its cap, at the cost of at most the oldest
      donor and never of the one being written. */
  lemma {:induction false} OpeningEvictsTheOldest<T>(c: Config, s: State<T>, r: Request, stuck: set<Request>)
    returns (out: set<Request>)
    requires Listed(c, s)
    ensures Opened(s, OpenEntry(c, s, r, stuck), r, out) && Listed(c, OpenEntry(c, s, r, stuck))
    ensures out == (if c.memory && r !in s.store && |s.order| == Limit(c) then {s.order[0]} else {})
    ensures c.memory ==> r in OpenEntry(c, s, r, stuck).store
    ensures !c.memory ==> OpenEntry(c, s, r, stuck) == s
  {
    out := {};
    if c.memory {
      if r in s.store {
        OpenedInPlace(c, s, r, stuck);
      } else if |s.order| < Limit(c) {
        OpenedWithRoom(c, s, r, stuck);
      } else {
        out := {s.order[0]};
        OpenedOverTheCap(c, s, r, stuck);
      }
    }
  }

  /** s with its head job taken and no longer staged. */
  function Taken<T>(s: State<T>): State<T>
    requires s.queue != [] && s.queue[0].LayerJob?
  {
    s.(queue := s.queue[1..], staged := s.staged - {(s.queue[0].r, s.queue[0].layer)})
  }

  lemma {:induction false} TakenKeepsQueue<T>(s: State<T>)
    requires QueueOk(s) && s.phase.Saving? && s.queue != [] && s.queue[0].LayerJob?
    ensures QueueOk(Taken(s))
  {
    var t, key := Taken(s), (s.queue[0].r, s.queue[0].layer);
    assert IsFor(s.queue[0], key);
    assert forall i | 0 <= i < |t.queue| :: t.queue[i] == s.queue[i + 1];
    forall i | 0 <= i < |t.queue|
      ensures var job := t.queue[i];
        job.LayerJob? && (job.r, job.layer) in t.staged && t.staged[(job.r, job.layer)] == job.payload
    {
      var job := s.queue[i + 1];
      assert !IsFor(job, key);
    }
    forall k | k in t.staged ensures exists i :: 0 <= i < |t.queue| && IsFor(t.queue[i], k) {
      var i :| 0 <= i < |s.queue| && IsFor(s.queue[i], k);
      assert t.queue[i - 1] == s.queue[i];
    }
    forall i, j, k | 0 <= i < j < |t.queue| && IsFor(t.queue[i], k) ensures !IsFor(t.queue[j], k) {
      assert IsFor(s.queue[i + 1], k);
    }
  }

  /** What holds of the job at the head of the queue while saving. */
  ghost predicate HeadOk<T(!new)>(c: Config, ideal: Ideal<T>, s: State<T>, r: Request, l: Layer, payload: seq<T>)
  {
    && s.phase.Saving? && (r, l) in s.phase.saved && (r, l) in s.staged
    && l in c.layers && Prefix(payload, ideal(r, l))
    && r in s.progress && l in s.progress[r] && s.progress[r][l] == |payload| && r !in s.retired
  }

  lemma {:induction false} HeadIsOk<T(!new)>(c: Config, ideal: Ideal<T>, s: State<T>)
    requires Inv(c, ideal, s) && s.queue != [] && s.queue[0].LayerJob?
    ensures var job := s.queue[0]; HeadOk(c, ideal, s, job.r, job.layer, job.payload)
  {
    var job := s.queue[0];
    assert s.phase.Saving?;
    assert (job.r, job.layer) in s.staged;
    assert (job.r, job.layer) in s.phase.saved;
    assert Accounted(s, job.r, job.layer, s.progress[job.r][job.layer]);
  }

  lemma {:induction false} LandedIsAccounted<T(!new)>(
      c: Config, ideal: Ideal<T>, s: State<T>, t: State<T>, u: State<T>, r: Request, l: Layer, payload: seq<T>,
      out: set<Request>)
    requires AllAccounted(s) && HeadOk(c, ideal, s, r, l, payload)
    requires t == s.(queue := t.queue, staged := s.staged - {(r, l)}) && Opened(t, u, r, out)
    ensures AllAccounted(PutLayer(u, r, l, payload))
  {
    var v := PutLayer(u, r, l, payload);
    forall x, k | x in v.progress && k in v.progress[x] ensures Accounted(v, x, k, v.progress[x][k]) {
      assert Accounted(s, x, k, s.progress[x][k]);
      if (x, k) == (r, l) {
        assert HoldsLayer(v, r, l, |payload|);
      } else if x == r {
        assert HoldsLayer(s, x, k, s.progress[x][k]) ==> HoldsLayer(v, x, k, s.progress[x][k]);
      }
    }
  }

  lemma {:induction false} FailedIsAccounted<T(!new)>(
      c: Config, ideal: Ideal<T>, s: State<T>, t: State<T>, u: State<T>, r: Request, l: Layer, payload: seq<T>,
      out: set<Request>)
    requires AllAccounted(s) && HeadOk(c, ideal, s, r, l, payload)
    requires t == s.(queue := t.queue, staged := s.staged - {(r, l)}) && Opened(t, u, r, out)
    ensures AllAccounted(u.(newFailed := u.newFailed + {r}))
  {
    var v := u.(newFailed := u.newFailed + {r});
    forall x, k | x in v.progress && k in v.progress[x] ensures Accounted(v, x, k, v.progress[x][k]) {
      assert Accounted(s, x, k, s.progress[x][k]);
      if x == r {
        assert HoldsLayer(s, x, k, s.progress[x][k]) ==> HoldsLayer(v, x, k, s.progress[x][k]);
      }
    }
  }

  lemma {:induction false} OpenedIsFaithful<T(!new)>(
      c: Config, ideal: Ideal<T>, s: State<T>, t: State<T>, u: State<T>, r: Request, l: Layer, out: set<Request>)
    requires Faithful(c, ideal, s)
    requires t == s.(queue := t.queue, staged := s.staged - {(r, l)}) && Opened(t, u, r, out)
    ensures Faithful(c, ideal, u)
  {
  }

  lemma {:induction false} PutIsFaithful<T(!new)>(
      c: Config, ideal: Ideal<T>, u: State<T>, r: Request, l: Layer, payload: seq<T>)
    requires Faithful(c, ideal, u) && l in c.layers && Prefix(payload, ideal(r, l))
    ensures Faithful(c, ideal, PutLayer(u, r, l, payload))
  {
  }

  lemma {:induction false} LandedIsFaithful<T(!new)>(
      c: Config, ideal: Ideal<T>, s: State<T>, t: State<T>, u: State<T>, r: Request, l: Layer, payload: seq<T>,
      out: set<Request>)
    requires Faithful(c, ideal, s) && HeadOk(c, ideal, s, r, l, payload)
    requires t == s.(queue := t.queue, staged := s.staged - {(r, l)}) && Opened(t, u, r, out)
    ensures Faithful(c, ideal, PutLayer(u, r, l, payload)) && Faithful(c, ideal, u)
  {
    OpenedIsFaithful(c, ideal, s, t, u, r, l, out);
    PutIsFaithful(c, ideal, u, r, l, payload);
  }

  lemma {:induction false} LandedIsEvictedOk<T(!new)>(
      c: Config, ideal: Ideal<T>, s: State<T>, t: State<T>, u: State<T>, r: Request, l: Layer, payload: seq<T>,
      out: set<Request>)
    requires EvictedOk(s) && HeadOk(c, ideal, s, r, l, payload)
    requires t == s.(queue := t.queue, staged := s.staged - {(r, l)}) && Opened(t, u, r, out)
    ensures EvictedOk(PutLayer(u, r, l, payload)) && EvictedOk(u)
  {
  }

  lemma {:induction false} OpenedKeepsRecords<T>(
      c: Config, s: State<T>, t: State<T>, u: State<T>, r: Request, l: Layer, out: set<Request>)
    requires RecordsBacked(c, s)
    requires t == s.(queue := t.queue, staged := s.staged - {(r, l)}) && Opened(t, u, r, out)
    ensures RecordsBacked(c, u)
  {
    forall x | x in u.records && x !in u.stale ensures RecordStands(c, u, x, u.records[x]) {
      assert RecordStands(c, s, x, s.records[x]);
    }
    forall k | k in u.torn ensures !(k.0 in u.store && k.1 in u.store[k.0]) {
      assert !(k.0 in s.store && k.1 in s.store[k.0]);
    }
  }

  lemma {:induction false} PutKeepsRecords<T>(c: Config, u: State<T>, r: Request, l: Layer, payload: seq<T>)
    requires RecordsBacked(c, u)
    requires r in u.records && r !in u.stale ==> |payload| >= u.records[r].tokens
    ensures RecordsBacked(c, PutLayer(u, r, l, payload))
  {
    var v := PutLayer(u, r, l, payload);
    forall x | x in v.records && x !in v.stale ensures RecordStands(c, v, x, v.records[x]) {
      assert RecordStands(c, u, x, u.records[x]);
    }
  }

  lemma {:induction false} LandedKeepsRecords<T(!new)>(
      c: Config, ideal: Ideal<T>, s: State<T>, t: State<T>, u: State<T>, r: Request, l: Layer, payload: seq<T>,
      out: set<Request>)
    requires RecordsBacked(c, s) && RecordsTrail(c, s) && HeadOk(c, ideal, s, r, l, payload)
    requires t == s.(queue := t.queue, staged := s.staged - {(r, l)}) && Opened(t, u, r, out)
    ensures RecordsBacked(c, PutLayer(u, r, l, payload)) && RecordsBacked(c, u)
  {
    OpenedKeepsRecords(c, s, t, u, r, l, out);
    PutKeepsRecords(c, u, r, l, payload);
  }

  lemma {:induction false} LandedKeepsTrail<T>(
      c: Config, s: State<T>, t: State<T>, u: State<T>, r: Request, l: Layer, payload: seq<T>, out: set<Request>)
    requires s.stale <= s.records.Keys && RecordsTrail(c, s)
    requires t == s.(queue := t.queue, staged := s.staged - {(r, l)}) && Opened(t, u, r, out)
    ensures RecordsTrail(c, PutLayer(u, r, l, payload)) && RecordsTrail(c, u)
  {
  }

  lemma {:induction false} LandedKeepsFinalized<T>(
      s: State<T>, t: State<T>, u: State<T>, r: Request, l: Layer, payload: seq<T>, out: set<Request>)
    requires FinalizedOk(s) && QueueOk(s) && s.phase.Saving?
    requires t == s.(queue := t.queue, staged := s.staged - {(r, l)}) && Opened(t, u, r, out)
    ensures FinalizedOk(PutLayer(u, r, l, payload)) && FinalizedOk(u.(newFailed := u.newFailed + {r}))
  {
    assert forall i | 0 <= i < |s.queue| :: s.queue[i].LayerJob?;
  }

  lemma {:induction false} NoRecordsQueued<T>(c: Config, s: State<T>)
    requires QueueOk(s) && s.phase.Saving?
    ensures QueuedRecordsOk(c, s)
  {
  }

  /** The progress side of the invariant looks at the forward thread's fields only. */
  lemma {:induction false} SameProgress<T>(c: Config, s: State<T>, t: State<T>)
    requires Whole(c, s) && t.progress == s.progress && t.phase == s.phase && t.retired == s.retired
    ensures Whole(c, t)
  {
    assert forall x | s.phase.Saving? && Touches(s, x) :: Touches(t, x);
  }

  lemma {:induction false} SameQueue<T>(s: State<T>, t: State<T>)
    requires QueueOk(s) && t.queue == s.queue && t.staged == s.staged && t.phase == s.phase
    ensures QueueOk(t)
  {
    forall k | k in t.staged && t.phase.Saving? ensures exists i :: 0 <= i < |t.queue| && IsFor(t.queue[i], k) {
      var i :| 0 <= i < |s.queue| && IsFor(s.queue[i], k);
      assert IsFor(t.queue[i], k);
    }
  }

  lemma {:induction false} PutKeepsListing<T>(c: Config, s: State<T>, r: Request, l: Layer, payload: seq<T>)
    requires Listed(c, s) && (c.memory ==> r in s.store)
    ensures Listed(c, PutLayer(s, r, l, payload))
  {
    assert c.memory ==> PutLayer(s, r, l, payload).store.Keys == s.store.Keys;
  }

  lemma {:induction false} LandingKeepsInv<T(!new)>(c: Config, ideal: Ideal<T>, s: State<T>, stuck: set<Request>)
    requires Inv(c, ideal, s) && s.queue != [] && s.queue[0].LayerJob?
    ensures var job := s.queue[0]; var u := OpenEntry(c, Taken(s), job.r, stuck);
      Inv(c, ideal, PutLayer(u, job.r, job.layer, job.payload))
  {
    var job := s.queue[0];
    var r, l, payload := job.r, job.layer, job.payload;
    var t := Taken(s);
    HeadIsOk(c, ideal, s);
    var out := OpeningEvictsTheOldest(c, t, r, stuck);
    var u := OpenEntry(c, t, r, stuck);
    var v := PutLayer(u, r, l, payload);
    LandedIsAccounted(c, ideal, s, t, u, r, l, payload, out);
    LandedIsFaithful(c, ideal, s, t, u, r, l, payload, out);
    LandedIsEvictedOk(c, ideal, s, t, u, r, l, payload, out);
    LandedKeepsRecords(c, ideal, s, t, u, r, l, payload, out);
    LandedKeepsTrail(c, s, t, u, r, l, payload, out);
    LandedKeepsFinalized(s, t, u, r, l, payload, out);
    PutKeepsListing(c, u, r, l, payload);
    TakenKeepsQueue(s);
    SameQueue(t, v);
    SameProgress(c, s, v);
    NoRecordsQueued(c, v);
  }

  lemma {:induction false} FailedKeepsRest<T(!new)>(c: Config, ideal: Ideal<T>, u: State<T>, r: Request)
    requires Faithful(c, ideal, u) && Listed(c, u) && EvictedOk(u) && RecordsTrail(c, u)
    ensures var v := u.(newFailed := u.newFailed + {r});
      Faithful(c, ideal, v) && Listed(c, v) && EvictedOk(v) && RecordsTrail(c, v)
  {
  }

  lemma {:induction false} FailingAfterOpening<T(!new)>(
      c: Config, ideal: Ideal<T>, s: State<T>, u: State<T>, out: set<Request>)
    requires Inv(c, ideal, s) && s.queue != [] && s.queue[0].LayerJob?
    requires Opened(Taken(s), u, s.queue[0].r, out) && Listed(c, u)
    ensures Inv(c, ideal, u.(newFailed := u.newFailed + {s.queue[0].r}))
  {
    var job := s.queue[0];
    var r, l, payload := job.r, job.layer, job.payload;
    var t := Taken(s);
    HeadIsOk(c, ideal, s);
    var v := u.(newFailed := u.newFailed + {r});
    FailedIsAccounted(c, ideal, s, t, u, r, l, payload, out);
    LandedIsFaithful(c, ideal, s, t, u, r, l, payload, out);
    LandedIsEvictedOk(c, ideal, s, t, u, r, l, payload, out);
    LandedKeepsRecords(c, ideal, s, t, u, r, l, payload, out);
    LandedKeepsTrail(c, s, t, u, r, l, payload, out);
    LandedKeepsFinalized(s, t, u, r, l, payload, out);
    FailedKeepsRest(c, ideal, u, r);
    SameRecords(c, u, v);
    TakenKeepsQueue(s);
    SameQueue(t, v);
    SameProgress(c, s, v);
    NoRecordsQueued(c, v);
  }

  lemma {:induction false} NothingOpened<T>(s: State<T>, r: Request)
    ensures Opened(s, s, r, {})
  {
  }

  lemma {:induction false} EarlyFailureKeepsInv<T(!new)>(c: Config, ideal: Ideal<T>, s: State<T>)
    requires Inv(c, ideal, s) && s.queue != [] && s.queue[0].LayerJob?
    ensures var t := Taken(s); Inv(c, ideal, t.(newFailed := t.newFailed + {s.queue[0].r}))
  {
    NothingOpened(Taken(s), s.queue[0].r);
    FailingAfterOpening(c, ideal, s, Taken(s), {});
  }

  lemma {:induction false} TornKeepsRecords<T>(c: Config, s: State<T>, r: Request, l: Layer)
    requires RecordsBacked(c, s) && !c.memory
    ensures RecordsBacked(c, Tear(c, s, r, l))
  {
    var t := Tear(c, s, r, l);
    forall x | x in t.records && x !in t.stale ensures RecordStands(c, t, x, t.records[x]) {
      assert RecordStands(c, s, x, s.records[x]);
    }
  }

  lemma {:induction false} TornIsAccounted<T>(c: Config, s: State<T>, r: Request, l: Layer)
    requires AllAccounted(s) && s.phase.Saving? && !c.memory
    requires (r, l) in s.phase.saved && (r, l) !in s.staged && r in s.newFailed
    ensures AllAccounted(Tear(c, s, r, l))
  {
    var t := Tear(c, s, r, l);
    forall x, k | x in t.progress && k in t.progress[x] ensures Accounted(t, x, k, t.progress[x][k]) {
      assert Accounted(s, x, k, s.progress[x][k]);
    }
  }

  lemma {:induction false} TornKeepsRest<T(!new)>(c: Config, ideal: Ideal<T>, s: State<T>, r: Request, l: Layer)
    requires Faithful(c, ideal, s) && Listed(c, s) && EvictedOk(s) && RecordsTrail(c, s) && FinalizedOk(s) && !c.memory
    ensures var t := Tear(c, s, r, l);
      Faithful(c, ideal, t) && Listed(c, t) && EvictedOk(t) && RecordsTrail(c, t) && FinalizedOk(t)
  {
  }

  /** A truncated file costs the capture the layer it had, and nothing else. */
  lemma {:induction false} TearingKeepsInv<T(!new)>(c: Config, ideal: Ideal<T>, s: State<T>, r: Request, l: Layer)
    requires Inv(c, ideal, s) && s.phase.Saving? && !c.memory
    requires (r, l) in s.phase.saved && (r, l) !in s.staged && r in s.newFailed
    ensures Inv(c, ideal, Tear(c, s, r, l))
  {
    var t := Tear(c, s, r, l);
    TornKeepsRecords(c, s, r, l);
    TornIsAccounted(c, s, r, l);
    TornKeepsRest(c, ideal, s, r, l);
    SameQueue(s, t);
    SameProgress(c, s, t);
    QueuedRecordsUnmoved(c, s, t);
  }

  lemma {:induction false} LateFailureKeepsInv<T(!new)>(c: Config, ideal: Ideal<T>, s: State<T>, stuck: set<Request>)
    requires Inv(c, ideal, s) && s.queue != [] && s.queue[0].LayerJob?
    ensures var job := s.queue[0]; var u := OpenEntry(c, Taken(s), job.r, stuck);
      Inv(c, ideal, Tear(c, u, job.r, job.layer).(newFailed := u.newFailed + {job.r}))
  {
    var job := s.queue[0];
    var u := OpenEntry(c, Taken(s), job.r, stuck);
    var out := OpeningEvictsTheOldest(c, Taken(s), job.r, stuck);
    FailingAfterOpening(c, ideal, s, u, out);
    if !c.memory {
      var v := u.(newFailed := u.newFailed + {job.r});
      HeadIsOk(c, ideal, s);
      TearingKeepsInv(c, ideal, v, job.r, job.layer);
      assert Tear(c, v, job.r, job.layer) == Tear(c, u, job.r, job.layer).(newFailed := v.newFailed);
    }
  }

  // ------------------------------------------------------- writing a record

  /** The writer's last check never fires: by the time a record is written its donor is
      resident and every layer it vouches for is stored in full. */
  lemma {:induction false} RecordFindsItsLayers<T(!new)>(c: Config, ideal: Ideal<T>, s: State<T>)
    requires Inv(c, ideal, s) && s.queue != [] && s.queue[0].MetaJob?
    ensures var job := s.queue[0];
      job.layers == c.layers != {} && BackedRecord(c, s, job.r, Record(job.tokens, job.layers))
  {
    var job := s.queue[0];
    assert !s.phase.Saving?;
    var mine := s.progress[job.r];
    forall l | l in c.layers ensures HoldsLayer(s, job.r, l, mine[l]) {
      assert Accounted(s, job.r, l, mine[l]);
    }
    var l :| l in mine;
    assert HoldsLayer(s, job.r, l, mine[l]);
  }

  function Popped<T>(s: State<T>): State<T>
    requires s.queue != []
  {
    s.(queue := s.queue[1..])
  }

  lemma {:induction false} PoppedRecordsOk<T>(c: Config, s: State<T>)
    requires QueuedRecordsOk(c, s) && s.queue != []
    ensures QueuedRecordsOk(c, Popped(s))
  {
    assert forall i | 0 <= i < |s.queue| - 1 :: Popped(s).queue[i] == s.queue[i + 1];
  }

  /** The queued record the head does not announce is still queued. */
  lemma {:induction false} PoppedStillAnnounces<T>(s: State<T>, r: Request, tokens: nat)
    requires s.queue != [] && exists i :: 0 < i < |s.queue| && Announces(s.queue[i], r, tokens)
    ensures exists i :: 0 <= i < |s.queue[1..]| && Announces(s.queue[1..][i], r, tokens)
  {
    var i :| 0 < i < |s.queue| && Announces(s.queue[i], r, tokens);
    assert s.queue[1..][i - 1] == s.queue[i];
  }

  lemma {:induction false} PublishedFinalizedOk<T>(c: Config, s: State<T>, t: State<T>)
    requires FinalizedOk(s) && QueuedRecordsOk(c, s) && s.queue != [] && s.queue[0].MetaJob?
    requires var job := s.queue[0]; t == Publish(Popped(s), job.r, Record(job.tokens, job.layers))
    ensures FinalizedOk(t)
  {
    forall r | r in t.finalized && (exists i :: 0 < i < |s.queue| && Announces(s.queue[i], r, s.finalized[r]))
      ensures exists i :: 0 <= i < |t.queue| && Announces(t.queue[i], r, t.finalized[r])
    {
      PoppedStillAnnounces(s, r, s.finalized[r]);
    }
  }

  lemma {:induction false} UnpublishedFinalizedOk<T>(s: State<T>, t: State<T>)
    requires FinalizedOk(s) && s.queue != [] && s.queue[0].MetaJob?
    requires t == Popped(s).(newFailed := s.newFailed + {s.queue[0].r})
    ensures FinalizedOk(t)
  {
    forall r | r in t.finalized && (exists i :: 0 < i < |s.queue| && Announces(s.queue[i], r, s.finalized[r]))
      ensures exists i :: 0 <= i < |t.queue| && Announces(t.queue[i], r, t.finalized[r])
    {
      PoppedStillAnnounces(s, r, s.finalized[r]);
    }
  }

  lemma {:induction false} PublishedKeepsRecords<T>(c: Config, s: State<T>, r: Request, rec: Record)
    requires RecordsBacked(c, s) && RecordsTrail(c, s) && BackedRecord(c, s, r, rec) && c.layers != {}
    requires r in s.progress && s.progress[r].Keys == c.layers && forall l | l in c.layers :: s.progress[r][l] >= rec.tokens
    ensures RecordsBacked(c, Publish(s, r, rec)) && RecordsTrail(c, Publish(s, r, rec))
  {
    var t := Publish(s, r, rec);
    forall x | x in t.records && x !in t.stale ensures RecordStands(c, t, x, t.records[x]) {
      assert x != r ==> RecordStands(c, s, x, s.records[x]);
    }
  }

  /** Fields a record's write does not reach. */
  lemma {:induction false} PoppedKeepsRest<T(!new)>(c: Config, ideal: Ideal<T>, s: State<T>, t: State<T>)
    requires Faithful(c, ideal, s) && Listed(c, s) && QueueOk(s) && Whole(c, s) && AllAccounted(s) && EvictedOk(s)
    requires !s.phase.Saving? && s.queue != []
    requires t == Popped(s).(newFailed := t.newFailed, records := t.records, stale := t.stale)
    ensures Faithful(c, ideal, t) && Listed(c, t) && QueueOk(t) && Whole(c, t) && AllAccounted(t) && EvictedOk(t)
  {
    assert forall i | 0 <= i < |t.queue| :: t.queue[i] == s.queue[i + 1];
    forall x, k | x in t.progress && k in t.progress[x] ensures Accounted(t, x, k, t.progress[x][k]) {
      assert Accounted(s, x, k, s.progress[x][k]);
    }
  }

  /** A queued record covers what its capture's progress covers. */
  lemma {:induction false} QueuedRecordIsCovered<T>(c: Config, s: State<T>)
    requires QueuedRecordsOk(c, s) && Whole(c, s) && !s.phase.Saving? && s.queue != [] && s.queue[0].MetaJob?
    ensures var job := s.queue[0];
      && job.r in s.progress && s.progress[job.r].Keys == c.layers
      && forall l | l in c.layers :: s.progress[job.r][l] >= job.tokens
  {
    assert s.queue[0].MetaJob?;
  }

  lemma {:induction false} PublishingKeepsRecords<T>(c: Config, s: State<T>, t: State<T>)
    requires RecordsBacked(c, s) && RecordsTrail(c, s) && QueuedRecordsOk(c, s) && Whole(c, s) && !s.phase.Saving?
    requires s.queue != [] && s.queue[0].MetaJob?
    requires var job := s.queue[0];
      && BackedRecord(c, s, job.r, Record(job.tokens, job.layers)) && c.layers != {}
      && t == Publish(Popped(s), job.r, Record(job.tokens, job.layers))
    ensures RecordsBacked(c, t) && RecordsTrail(c, t)
  {
    var job := s.queue[0];
    QueuedRecordIsCovered(c, s);
    SameRecords(c, s, Popped(s));
    PopKeepsTrail(c, s);
    PublishedKeepsRecords(c, Popped(s), job.r, Record(job.tokens, job.layers));
  }

  lemma {:induction false} PublishingKeepsInv<T(!new)>(c: Config, ideal: Ideal<T>, s: State<T>)
    requires Inv(c, ideal, s) && s.queue != [] && s.queue[0].MetaJob?
    ensures Inv(c, ideal, Publish(Popped(s), s.queue[0].r, Record(s.queue[0].tokens, s.queue[0].layers)))
  {
    var job := s.queue[0];
    var t := Publish(Popped(s), job.r, Record(job.tokens, job.layers));
    assert !s.phase.Saving?;
    RecordFindsItsLayers(c, ideal, s);
    PublishingKeepsRecords(c, s, t);
    PoppedRecordsOk(c, s);
    QueuedRecordsUnmoved(c, Popped(s), t);
    PoppedKeepsRest(c, ideal, s, t);
    PublishedFinalizedOk(c, s, t);
  }

  lemma {:induction false} FailedPublishKeepsInv<T(!new)>(c: Config, ideal: Ideal<T>, s: State<T>)
    requires Inv(c, ideal, s) && s.queue != [] && s.queue[0].MetaJob?
    ensures Inv(c, ideal, Popped(s).(newFailed := s.newFailed + {s.queue[0].r}))
  {
    var t := Popped(s).(newFailed := s.newFailed + {s.queue[0].r});
    assert !s.phase.Saving?;
    PoppedRecordsOk(c, s);
    QueuedRecordsUnmoved(c, Popped(s), t);
    PoppedKeepsRest(c, ideal, s, t);
    UnpublishedFinalizedOk(s, t);
    SameRecords(c, s, t);
    PopKeepsTrail(c, s);
  }

  lemma {:induction false} MetaCases<T(!new)>(c: Config, ideal: Ideal<T>, s: State<T>, outcome: Outcome)
    requires Inv(c, ideal, s) && s.queue != [] && s.queue[0].MetaJob?
    ensures var job := s.queue[0];
      WriteMeta(c, Popped(s), job, outcome) ==
        if outcome.Written? then Publish(Popped(s), job.r, Record(job.tokens, job.layers))
        else Popped(s).(newFailed := s.newFailed + {job.r})
  {
    RecordFindsItsLayers(c, ideal, s);
    var job := s.queue[0];
    assert AllStored(Popped(s), job.r, job.layers);
  }

  lemma {:induction false} MetaKeepsInv<T(!new)>(c: Config, ideal: Ideal<T>, s: State<T>, outcome: Outcome)
    requires Inv(c, ideal, s) && s.queue != [] && s.queue[0].MetaJob?
    ensures Inv(c, ideal, WriteMeta(c, Popped(s), s.queue[0], outcome))
  {
    MetaCases(c, ideal, s, outcome);
    if outcome.Written? {
      PublishingKeepsInv(c, ideal, s);
    } else {
      FailedPublishKeepsInv(c, ideal, s);
    }
  }

  lemma {:induction false} PopKeepsTrail<T>(c: Config, s: State<T>)
    requires RecordsTrail(c, s) && s.queue != []
    ensures RecordsTrail(c, Popped(s))
    ensures forall n :: RecordsTrail(c, Popped(s).(newFailed := n))
  {
  }

  lemma {:induction false} QueuedRecordsUnmoved<T>(c: Config, s: State<T>, t: State<T>)
    requires QueuedRecordsOk(c, s)
    requires t.queue == s.queue && t.progress == s.progress && t.failed == s.failed && t.finalized == s.finalized
    ensures QueuedRecordsOk(c, t)
  {
  }

  // ------------------------------------------------------------- the joins

  lemma {:induction false} JoinedIsHeld<T>(s: State<T>, t: State<T>)
    requires AllAccounted(s) && QueueOk(s) && s.phase.Saving? && s.queue == []
    requires !t.phase.Saving? && t.progress == s.progress - s.newEvicted && t.failed == s.failed + s.newFailed
    requires t.store == s.store
    ensures AllAccounted(t)
  {
    forall x, k | x in t.progress && k in t.progress[x] ensures Accounted(t, x, k, t.progress[x][k]) {
      assert Accounted(s, x, k, s.progress[x][k]);
      assert (x, k) !in s.staged;
    }
  }

  /** A step saves every layer of its stores, so at the join every capture is whole. */
  lemma {:induction false} JoinedIsWhole<T>(c: Config, s: State<T>, t: State<T>)
    requires Whole(c, s) && s.phase.Saving? && !t.phase.Saving?
    requires forall r, l, k | (r, l) in s.phase.saved && k in c.layers :: (r, k) in s.phase.saved
    requires t.progress == s.progress - s.newEvicted && t.retired == s.retired
    ensures Whole(c, t)
  {
    forall r | r in t.progress ensures t.progress[r].Keys == c.layers {
      if Touches(s, r) {
        var l :| (r, l) in s.phase.saved;
        forall k | k in c.layers ensures k in s.progress[r] { assert (r, k) in s.phase.saved; }
      }
    }
  }

  lemma {:induction false} JoinedKeepsRecords<T>(c: Config, s: State<T>, t: State<T>)
    requires RecordsBacked(c, s) && RecordsTrail(c, s) && EvictedOk(s) && FinalizedOk(s)
    requires s.queue == [] && t.queue == []
    requires t.records == s.records && t.stale == s.stale && t.store == s.store && t.torn == s.torn
    requires t.progress == s.progress - s.newEvicted && t.retired == s.retired
    requires t.failed == s.failed + s.newFailed && t.finalized == s.finalized - s.newEvicted
    ensures RecordsBacked(c, t) && RecordsTrail(c, t) && FinalizedOk(t)
  {
    SameRecords(c, s, t);
  }

  lemma {:induction false} NothingStaged<T>(s: State<T>)
    requires StagedQueued(s) && s.queue == []
    ensures s.staged == map[]
  {
    assert forall k :: k !in s.staged;
  }

  lemma {:induction false} FlushKeepsInv<T(!new)>(c: Config, ideal: Ideal<T>, s: State<T>, finish: set<Request>)
    requires c.bs > 0 && Inv(c, ideal, s) && Enabled(c, ideal, s, Flush(finish))
    ensures Inv(c, ideal, BeginFlush(s, finish))
  {
    var t := BeginFlush(s, finish);
    NothingStaged(s);
    JoinedIsHeld(s, t);
    JoinedIsWhole(c, s, t);
    JoinedKeepsRecords(c, s, t);
    JoinedKeepsRest(c, ideal, s, t);
  }

  /** With nothing queued or staged, the rest of the invariant carries over the first join. */
  lemma {:induction false} JoinedKeepsRest<T(!new)>(c: Config, ideal: Ideal<T>, s: State<T>, t: State<T>)
    requires Faithful(c, ideal, s) && Listed(c, s) && s.queue == [] && s.staged == map[]
    requires !t.phase.Saving? && t.queue == [] && t.staged == map[] && t.newEvicted == {}
    requires t.store == s.store && t.order == s.order
    ensures Faithful(c, ideal, t) && Listed(c, t) && QueueOk(t) && EvictedOk(t) && QueuedRecordsOk(c, t)
  {
  }

  /** The finish hook's backstop: a finished capture that holds anything, with no failure or
      eviction behind it, is up for submission, or already published at its length. */
  lemma {:induction false} FinishIsTakenUp<T>(s: State<T>, finish: set<Request>, r: Request)
    requires r in finish && r in s.progress && s.progress[r] != map[]
    requires r !in s.failed && r !in s.newFailed && r !in s.newEvicted
    ensures var t := BeginFlush(s, finish);
      || (r in t.phase.rest && Submits(t, r))
      || (r in t.finalized && t.finalized[r] == Shortest(t.progress[r]))
  {
    assert BeginFlush(s, finish).progress[r] == s.progress[r];
  }

  predicate Submits<T>(s: State<T>, r: Request)
  {
    r in s.progress && s.progress[r] != map[] && r !in s.failed
  }

  lemma {:induction false} SubmittedRecordIsOk<T>(c: Config, s: State<T>, r: Request)
    requires QueuedRecordsOk(c, s) && Whole(c, s) && s.phase.Submitting? && Submits(s, r)
    ensures QueuedRecordsOk(c, SubmitOne(s, r))
  {
    var t := SubmitOne(s, r);
    forall i | 0 <= i < |t.queue| && t.queue[i].MetaJob?
      ensures var job := t.queue[i];
        && job.r in t.progress && job.r !in t.failed && job.layers == c.layers
        && t.progress[job.r] != map[] && job.tokens == Shortest(t.progress[job.r])
        && job.r in t.finalized && t.finalized[job.r] == job.tokens
    {
      if i < |s.queue| {
        assert t.queue[i] == s.queue[i];
      } else {
        assert t.queue[i] == MetaJob(r, Shortest(s.progress[r]), s.progress[r].Keys);
      }
    }
  }

  /** A donor submitted for publication is marked finalized at its shortest layer. */
  lemma {:induction false} SubmittedIsOnItsWay<T>(s: State<T>, r: Request)
    requires FinalizedOk(s) && s.phase.Submitting? && Submits(s, r)
    ensures FinalizedOk(SubmitOne(s, r))
  {
    var t := SubmitOne(s, r);
    var tokens := Shortest(s.progress[r]);
    assert Announces(t.queue[|s.queue|], r, tokens);
    forall x | x in s.finalized && (exists i :: 0 <= i < |s.queue| && Announces(s.queue[i], x, s.finalized[x]))
      ensures exists i :: 0 <= i < |t.queue| && Announces(t.queue[i], x, s.finalized[x])
    {
      var i :| 0 <= i < |s.queue| && Announces(s.queue[i], x, s.finalized[x]);
      assert t.queue[i] == s.queue[i];
    }
  }

  /** Between the joins only the queue and the finalized marks move. */
  lemma {:induction false} JoinSideKeepsRest<T(!new)>(c: Config, ideal: Ideal<T>, s: State<T>, t: State<T>)
    requires Faithful(c, ideal, s) && Listed(c, s) && Whole(c, s) && AllAccounted(s)
    requires EvictedOk(s) && RecordsBacked(c, s) && RecordsTrail(c, s)
    requires !s.phase.Saving? && !t.phase.Saving?
    requires t == s.(phase := t.phase, queue := t.queue, finalized := t.finalized, pending := t.pending)
    ensures Faithful(c, ideal, t) && Listed(c, t) && Whole(c, t) && AllAccounted(t)
    ensures EvictedOk(t) && RecordsBacked(c, t) && RecordsTrail(c, t)
  {
    SameRecords(c, s, t);
    forall x, k | x in t.progress && k in t.progress[x] ensures Accounted(t, x, k, t.progress[x][k]) {
      assert Accounted(s, x, k, s.progress[x][k]);
    }
  }

  lemma {:induction false} SubmitKeepsInv<T(!new)>(c: Config, ideal: Ideal<T>, s: State<T>, r: Request)
    requires Inv(c, ideal, s) && s.phase.Submitting?
    ensures Inv(c, ideal, SubmitOne(s, r))
    ensures Inv(c, ideal, s.(phase := Joining(s.phase.finish), pending := {}))
  {
    if Submits(s, r) {
      SubmittedRecordIsOk(c, s, r);
      SubmittedIsOnItsWay(s, r);
    }
    JoinSideKeepsRest(c, ideal, s, SubmitOne(s, r));
    SubmitKeepsQueue(s, r);
    JoinSideKeepsRest(c, ideal, s, s.(phase := Joining(s.phase.finish), pending := {}));
    SameBooks(c, s, s.(phase := Joining(s.phase.finish), pending := {}));
  }

  lemma {:induction false} SubmitKeepsQueue<T>(s: State<T>, r: Request)
    requires QueueOk(s) && s.phase.Submitting?
    ensures QueueOk(SubmitOne(s, r)) && QueueOk(s.(phase := Joining(s.phase.finish), pending := {}))
  {
    var t := SubmitOne(s, r);
    forall i | 0 <= i < |t.queue| ensures t.queue[i].MetaJob? {
      assert i < |s.queue| ==> t.queue[i] == s.queue[i];
    }
  }

  lemma {:induction false} FlushedKeepsProgress<T>(c: Config, s: State<T>, t: State<T>)
    requires Whole(c, s) && AllAccounted(s) && s.phase.Joining? && s.newEvicted == {} && s.staged == map[]
    requires t.phase == Saving({}) && t.staged == map[] && t.newEvicted == {}
    requires t.progress == s.progress - s.phase.finish
    requires t.failed == s.failed + s.newFailed - s.phase.finish && t.retired == s.retired + s.phase.finish
    requires forall x | x in s.store && x !in s.phase.finish :: x in t.store && t.store[x] == s.store[x]
    ensures Whole(c, t) && AllAccounted(t)
  {
    forall x, k | x in t.progress && k in t.progress[x] ensures Accounted(t, x, k, t.progress[x][k]) {
      assert Accounted(s, x, k, s.progress[x][k]);
    }
  }

  lemma {:induction false} FlushedKeepsRecords<T>(c: Config, s: State<T>, t: State<T>)
    requires RecordsBacked(c, s) && RecordsTrail(c, s) && FinalizedOk(s)
    requires s.phase.Joining? && s.newEvicted == {} && s.queue == [] && t.queue == []
    requires t.records == s.records && t.stale == s.stale && t.torn == s.torn
    requires t.progress == s.progress - s.phase.finish && t.finalized == s.finalized - s.phase.finish
    requires t.failed == s.failed + s.newFailed - s.phase.finish && t.retired == s.retired + s.phase.finish
    requires forall x | x in s.store && x in s.records :: x in t.store && t.store[x] == s.store[x]
    requires forall x | x in t.store :: x in s.store && t.store[x] == s.store[x]
    ensures RecordsBacked(c, t) && RecordsTrail(c, t) && FinalizedOk(t)
  {
    forall x | x in t.records && x !in t.stale ensures RecordStands(c, t, x, t.records[x]) {
      assert RecordStands(c, s, x, s.records[x]);
    }
    forall k | k in t.torn ensures !(k.0 in t.store && k.1 in t.store[k.0]) {
      assert !(k.0 in s.store && k.1 in s.store[k.0]);
    }
  }

  lemma {:induction false} FlushedKeepsInv<T(!new)>(c: Config, ideal: Ideal<T>, s: State<T>, kept: set<Request>)
    requires Inv(c, ideal, s) && s.phase.Joining? && s.queue == []
    ensures Inv(c, ideal, EndFlush(c, s, kept))
  {
    var t := EndFlush(c, s, kept);
    assert s.progress - s.newEvicted == s.progress && s.finalized - s.newEvicted == s.finalized;
    assert c.memory ==> t.store == s.store;
    FlushedKeepsProgress(c, s, t);
    FlushedKeepsRecords(c, s, t);
    FlushedKeepsRest(c, ideal, s, t);
  }

  lemma {:induction false} FlushedKeepsRest<T(!new)>(c: Config, ideal: Ideal<T>, s: State<T>, t: State<T>)
    requires Faithful(c, ideal, s) && Listed(c, s) && s.queue == [] && s.staged == map[]
    requires t.phase == Saving({}) && t.queue == [] && t.staged == map[] && t.newEvicted == {} && t.order == s.order
    requires c.memory ==> t.store == s.store
    requires forall x | x in t.store :: x in s.store && t.store[x] == s.store[x]
    ensures Faithful(c, ideal, t) && Listed(c, t) && QueueOk(t) && QueuedRecordsOk(c, t) && EvictedOk(t)
  {
  }

  lemma {:induction false} TouchKeepsInv<T(!new)>(c: Config, ideal: Ideal<T>, s: State<T>, r: Request)
    requires Inv(c, ideal, s)
    ensures Inv(c, ideal, Touch(c, s, r)) && Inv(c, ideal, QueueFinalize(s, r))
  {
    if c.memory && r in s.store { MovedStillLists(s.order, r, s.store.Keys); }
    SideKeepsInv(c, ideal, s, Touch(c, s, r));
    SideKeepsInv(c, ideal, s, QueueFinalize(s, r));
  }

  lemma {:induction false} SideKeepsInv<T(!new)>(c: Config, ideal: Ideal<T>, s: State<T>, t: State<T>)
    requires Inv(c, ideal, s) && t == s.(order := t.order, pending := t.pending)
    requires Listed(c, t)
    ensures Inv(c, ideal, t)
  {
    SameRecords(c, s, t);
    SameQueue(s, t);
    SameProgress(c, s, t);
    forall x, k | x in t.progress && k in t.progress[x] ensures Accounted(t, x, k, t.progress[x][k]) {
      assert Accounted(s, x, k, s.progress[x][k]);
    }
    QueuedRecordsUnmoved(c, s, t);
    SameTrail(c, s, t);
  }

  lemma {:induction false} SameTrail<T>(c: Config, s: State<T>, t: State<T>)
    requires RecordsTrail(c, s) && FinalizedOk(s) && t == s.(order := t.order, pending := t.pending)
    ensures RecordsTrail(c, t) && FinalizedOk(t)
  {
  }

  // -------------------------------------------------------------------- runs

  lemma {:induction false} StepKeepsInv<T(!new)>(c: Config, ideal: Ideal<T>, s: State<T>, a: Action<T>)
    requires c.bs > 0 && Inv(c, ideal, s) && Enabled(c, ideal, s, a)
    ensures Inv(c, ideal, Step(c, s, a))
  {
    match a
    case Save(r, l, end, table, view) => SaveKeepsInv(c, ideal, s, r, l, end, table, view);
    case Finalize(r) => TouchKeepsInv(c, ideal, s, r);
    case Flush(finish) => FlushKeepsInv(c, ideal, s, finish);
    case Submit(r) => SubmitKeepsInv(c, ideal, s, r);
    case SubmitEnds => SubmitKeepsInv(c, ideal, s, "");
    case Flushed(kept) => FlushedKeepsInv(c, ideal, s, kept);
    case Write(outcome, stuck) => WriteKeepsInv(c, ideal, s, outcome, stuck);
    case Touched(r) => TouchKeepsInv(c, ideal, s, r);
  }

  lemma {:induction false} WriteHeadCases<T>(c: Config, s: State<T>, outcome: Outcome, stuck: set<Request>)
    requires s.queue != [] && s.queue[0].LayerJob?
    ensures var job := s.queue[0]; var t := Taken(s); var u := OpenEntry(c, t, job.r, stuck);
      WriteHead(c, s, outcome, stuck) ==
        match outcome
        case Written => PutLayer(u, job.r, job.layer, job.payload)
        case FailsEarly => t.(newFailed := t.newFailed + {job.r})
        case FailsLate => Tear(c, u, job.r, job.layer).(newFailed := t.newFailed + {job.r})
  {
  }

  lemma {:induction false} EvictingKeepsFailures<T>(c: Config, s: State<T>, stuck: set<Request>)
    ensures EvictOver(c, s, stuck).newFailed == s.newFailed
    decreases |s.order|
  {
    if |s.order| > Limit(c) { EvictingKeepsFailures(c, EvictOldest(s, stuck), stuck); }
  }

  lemma {:induction false} OpeningKeepsFailures<T>(c: Config, s: State<T>, r: Request, stuck: set<Request>)
    ensures OpenEntry(c, s, r, stuck).newFailed == s.newFailed
  {
    EvictingKeepsFailures(c, s.(store := s.store[r := map[]], order := s.order + [r]), stuck);
  }

  lemma {:induction false} WriteKeepsInv<T(!new)>(
      c: Config, ideal: Ideal<T>, s: State<T>, outcome: Outcome, stuck: set<Request>)
    requires Inv(c, ideal, s) && s.queue != []
    ensures Inv(c, ideal, WriteHead(c, s, outcome, stuck))
  {
    if s.queue[0].MetaJob? {
      MetaKeepsInv(c, ideal, s, outcome);
    } else {
      WriteHeadCases(c, s, outcome, stuck);
      if outcome.Written? {
        LandingKeepsInv(c, ideal, s, stuck);
      } else if outcome.FailsEarly? {
        EarlyFailureKeepsInv(c, ideal, s);
      } else {
        OpeningKeepsFailures(c, Taken(s), s.queue[0].r, stuck);
        LateFailureKeepsInv(c, ideal, s, stuck);
      }
    }
  }

  function Run<T>(c: Config, s: State<T>, acts: seq<Action<T>>): State<T>
    requires c.bs > 0
    decreases |acts|
  {
    if acts == [] then s else Run(c, Step(c, s, acts[0]), acts[1..])
  }

  ghost predicate IsRun<T(!new)>(c: Config, ideal: Ideal<T>, s: State<T>, acts: seq<Action<T>>)
    requires c.bs > 0
    decreases |acts|
  {
    acts != [] ==> Enabled(c, ideal, s, acts[0]) && IsRun(c, ideal, Step(c, s, acts[0]), acts[1..])
  }

  lemma {:induction false} RunKeepsInv<T(!new)>(c: Config, ideal: Ideal<T>, s: State<T>, acts: seq<Action<T>>)
    requires c.bs > 0 && Inv(c, ideal, s) && IsRun(c, ideal, s, acts)
    ensures Inv(c, ideal, Run(c, s, acts))
    decreases |acts|
  {
    if acts != [] {
      StepKeepsInv(c, ideal, s, acts[0]);
      RunKeepsInv(c, ideal, Step(c, s, acts[0]), acts[1..]);
    }
  }

  lemma {:induction false} ReachableIsSound<T(!new)>(c: Config, ideal: Ideal<T>, acts: seq<Action<T>>)
    requires c.bs > 0 && IsRun(c, ideal, Init(), acts)
    ensures Inv(c, ideal, Run(c, Init(), acts))
  {
    assert Inv(c, ideal, Init<T>());
    RunKeepsInv(c, ideal, Init(), acts);
  }

  lemma {:induction false} RunInTwo<T(!new)>(
      c: Config, ideal: Ideal<T>, s: State<T>, xs: seq<Action<T>>, ys: seq<Action<T>>)
    requires c.bs > 0 && IsRun(c, ideal, s, xs) && IsRun(c, ideal, Run(c, s, xs), ys)
    ensures IsRun(c, ideal, s, xs + ys) && Run(c, s, xs + ys) == Run(c, Run(c, s, xs), ys)
    decreases |xs|
  {
    if xs == [] {
      assert xs + ys == ys;
    } else {
      assert (xs + ys)[0] == xs[0] && (xs + ys)[1..] == xs[1..] + ys;
      RunInTwo(c, ideal, Step(c, s, xs[0]), xs[1..], ys);
    }
  }

  lemma {:induction false} OneStep<T(!new)>(c: Config, ideal: Ideal<T>, s: State<T>, a: Action<T>)
    requires c.bs > 0 && Enabled(c, ideal, s, a)
    ensures IsRun(c, ideal, s, [a]) && Run(c, s, [a]) == Step(c, s, a)
  {
    assert [a][1..] == [];
    assert IsRun(c, ideal, Step(c, s, a), []);
  }

  lemma {:induction false} TwoSteps<T(!new)>(c: Config, ideal: Ideal<T>, s: State<T>, a: Action<T>, b: Action<T>)
    requires c.bs > 0 && Enabled(c, ideal, s, a) && Enabled(c, ideal, Step(c, s, a), b)
    ensures IsRun(c, ideal, s, [a, b]) && Run(c, s, [a, b]) == Step(c, Step(c, s, a), b)
  {
    var t := Step(c, s, a);
    assert [a, b][1..] == [b] && [b][1..] == [];
    assert Run(c, t, [b]) == Run(c, Step(c, t, b), []);
    assert IsRun(c, ideal, Step(c, t, b), []);
    assert IsRun(c, ideal, t, [b]);
  }

  /** What one unchunked capture of n tokens would hold. */
  function OneShot<T>(n: nat, ideal: nat -> T): seq<T> { seq(n, p requires 0 <= p < n => ideal(p)) }

  lemma {:induction false} PrefixIsOneShot<T(!new)>(payload: seq<T>, ideal: nat -> T)
    requires Prefix(payload, ideal)
    ensures payload == OneShot(|payload|, ideal)
  {
  }

  /** The publication theorem. In every state a run can reach, whatever the writer did,
      whichever writes failed and whichever donors were evicted, a donor whose record exists
      is resident, and every layer of the model is stored with at least the record's tokens,
      each of them the prompt's own KV; unless retracting the record of an evicted donor
      failed, or a later write of that very layer truncated its file. */
  lemma {:induction false} PublishedIsStored<T(!new)>(c: Config, ideal: Ideal<T>, acts: seq<Action<T>>, r: Request)
    requires c.bs > 0 && IsRun(c, ideal, Init(), acts)
    ensures var s := Run(c, Init(), acts);
      r in s.records && r !in s.stale ==>
        && r in s.store
        && forall l | l in c.layers && (r, l) !in s.torn ::
             && l in s.store[r] && |s.store[r][l]| >= s.records[r].tokens
             && s.store[r][l] == OneShot(|s.store[r][l]|, ideal(r, l))
  {
    ReachableIsSound(c, ideal, acts);
    RecordIsBackedByItsPrompt(c, ideal, Run(c, Init(), acts), r);
  }

  lemma {:induction false} RecordIsBackedByItsPrompt<T(!new)>(c: Config, ideal: Ideal<T>, s: State<T>, r: Request)
    requires RecordsBacked(c, s) && Faithful(c, ideal, s)
    ensures r in s.records && r !in s.stale ==>
        && RecordStands(c, s, r, s.records[r])
        && forall l | l in c.layers && (r, l) !in s.torn :: s.store[r][l] == OneShot(|s.store[r][l]|, ideal(r, l))
  {
    if r in s.records && r !in s.stale {
      assert RecordStands(c, s, r, s.records[r]);
      forall l | l in c.layers && (r, l) !in s.torn ensures s.store[r][l] == OneShot(|s.store[r][l]|, ideal(r, l)) {
        PrefixIsOneShot(s.store[r][l], ideal(r, l));
      }
    }
  }

  lemma {:induction false} ListingCounts(order: seq<Request>, donors: set<Request>)
    requires Lists(order, donors)
    ensures |donors| == |order|
    decreases |order|
  {
    if order != [] {
      RestStillLists(order, donors);
      ListingCounts(order[1..], donors - {order[0]});
    } else {
      assert forall r :: r !in donors;
    }
  }

  /** The memory tier never holds more donors than its cap, which is at least one. */
  lemma {:induction false} MemoryStaysWithinCap<T(!new)>(c: Config, ideal: Ideal<T>, acts: seq<Action<T>>)
    requires c.bs > 0 && c.memory && IsRun(c, ideal, Init(), acts)
    ensures |Run(c, Init(), acts).store| <= Max(1, c.cap)
  {
    ReachableIsSound(c, ideal, acts);
    ListingCounts(Run(c, Init(), acts).order, Run(c, Init(), acts).store.Keys);
  }

  lemma {:induction false} HeldIsWhatProgressSays<T(!new)>(c: Config, ideal: Ideal<T>, s: State<T>, r: Request, l: Layer)
    requires Faithful(c, ideal, s) && AllAccounted(s) && QueueOk(s) && EvictedOk(s)
    requires r in s.progress && l in s.progress[r]
    requires r !in s.failed && r !in s.newFailed && r !in s.newEvicted
    ensures var held := CapturedLayer(s, r, l);
      held.Some? && |held.value| == s.progress[r][l] && Prefix(held.value, ideal(r, l))
  {
    assert Accounted(s, r, l, s.progress[r][l]);
  }

  /** Chunk independence. Whatever the chunks, resumes, evictions and restarts were, a layer
      whose capture has progress n, with no failure or eviction behind it, is held as exactly
      the KV of prompt positions [0, n), which is what one unchunked capture would hold. */
  lemma {:induction false} CaptureIsChunkIndependent<T(!new)>(
      c: Config, ideal: Ideal<T>, acts: seq<Action<T>>, r: Request, l: Layer)
    requires c.bs > 0 && IsRun(c, ideal, Init(), acts)
    requires var s := Run(c, Init(), acts);
      && r in s.progress && l in s.progress[r]
      && r !in s.failed && r !in s.newFailed && r !in s.newEvicted
    ensures var s := Run(c, Init(), acts);
      CapturedLayer(s, r, l) == Some(OneShot(s.progress[r][l], ideal(r, l)))
  {
    ReachableIsSound(c, ideal, acts);
    var s := Run(c, Init(), acts);
    HeldIsWhatProgressSays(c, ideal, s, r, l);
    PrefixIsOneShot(CapturedLayer(s, r, l).value, ideal(r, l));
  }

  /** A chunk is appended to a base of exactly the length its layer had reached, or restarts
      from 0; either way what is queued is the one-shot capture up to the chunk's end. */
  lemma {:induction false} ChunkCompletesOneShot<T(!new)>(
      c: Config, ideal: Ideal<T>, acts: seq<Action<T>>, r: Request, l: Layer, end: nat, table: seq<nat>, view: seq<T>)
    requires c.bs > 0 && IsRun(c, ideal, Init(), acts)
    requires var s := Run(c, Init(), acts);
      Enabled(c, ideal, s, Save(r, l, end, table, view)) && ProgressOf(s, r, l) < end
    ensures var s := Run(c, Init(), acts); var t := SaveLayer(c, s, r, l, end, table, view);
      && (Base(s, r, l) == [] || |Base(s, r, l)| == ProgressOf(s, r, l))
      && t.queue == s.queue + [LayerJob(r, l, OneShot(end, ideal(r, l)))]
      && t.progress[r][l] == end
  {
    ReachableIsSound(c, ideal, acts);
    var s := Run(c, Init(), acts);
    PayloadIsOneShot(c, ideal, s, r, l, end, table, view);
    PrefixIsOneShot(Base(s, r, l) + ReadWindow(view, table, AppendAt(s, r, l), end, c.bs), ideal(r, l));
  }

  /** Nothing submitted is lost: once the second join is over, every donor the forward
      thread marked finalized has its record, with exactly that length, unless a write of
      its capture failed. */
  lemma {:induction false} JoinMeansPublished<T(!new)>(c: Config, ideal: Ideal<T>, acts: seq<Action<T>>, r: Request)
    requires c.bs > 0 && IsRun(c, ideal, Init(), acts)
    ensures var s := Run(c, Init(), acts);
      s.phase.Joining? && s.queue == [] && r in s.finalized && r !in s.failed && r !in s.newFailed ==>
        r in s.records && s.records[r].tokens == s.finalized[r]
  {
    ReachableIsSound(c, ideal, acts);
  }

  /** The one hole: when writing a new donor evicts a published one, that donor's record is
      still honest afterwards exactly when its retraction succeeded. */
  lemma {:induction false} EvictionIsHonestIffRetracted<T(!new)>(
      c: Config, ideal: Ideal<T>, s: State<T>, stuck: set<Request>)
    requires Inv(c, ideal, s) && c.memory && s.queue != [] && s.queue[0].LayerJob?
    requires s.queue[0].r !in s.store && |s.order| == Limit(c) && s.order[0] in s.records
    ensures var q := s.order[0]; var t := WriteHead(c, s, Written, stuck);
      && q !in t.store
      && (q in t.records <==> q in stuck)
      && ((q in t.records ==> BackedRecord(c, t, q, t.records[q])) <==> q !in stuck)
  {
    EvictedIsGone(c, s, stuck);
  }

  lemma {:induction false} EvictedIsGone<T>(c: Config, s: State<T>, stuck: set<Request>)
    requires c.memory && Listed(c, s) && s.queue != [] && s.queue[0].LayerJob?
    requires s.queue[0].r !in s.store && |s.order| == Limit(c) && s.order[0] in s.records
    ensures var q := s.order[0]; var t := WriteHead(c, s, Written, stuck);
      q !in t.store && (q in t.records <==> q in stuck)
  {
    var q, job := s.order[0], s.queue[0];
    assert q in s.order && q != job.r;
    OverTheCap(c, Taken(s), job.r, stuck);
    WriteHeadCases(c, s, Written, stuck);
    PutKeepsBooks(OpenEntry(c, Taken(s), job.r, stuck), job.r, job.layer, job.payload, q);
  }

  lemma {:induction false} PutKeepsBooks<T>(s: State<T>, r: Request, l: Layer, payload: seq<T>, q: Request)
    requires q != r
    ensures var t := PutLayer(s, r, l, payload); (q in t.store <==> q in s.store) && t.records == s.records
  {
  }

  // --------------------------------------------------------- the worker's code

  /** The submissions of a flush, one after the other. */
  function SubmitEach<T>(s: State<T>, ids: seq<Request>): State<T>
    requires s.phase.Submitting?
    decreases |ids|
  {
    if ids == [] then s else SubmitEach(SubmitOne(s, ids[0]), ids[1..])
  }

  lemma {:induction false} FirstIsSubmitted<T>(s: State<T>, rest: set<Request>, r: Request)
    requires s.phase.Submitting? && IsFirst(r, rest)
    ensures SubmitEach(s, Sorted(rest)) == SubmitEach(SubmitOne(s, r), Sorted(rest - {r}))
  {
    SortedFrom(r, rest);
  }

  function FinalizeEach<T>(s: State<T>, order: seq<Request>): State<T>
    decreases |order|
  {
    if order == [] then s else FinalizeEach(QueueFinalize(s, order[0]), order[1..])
  }

  /** Of the donors in order, those a finalize would publish anew. */
  function Wanting<T>(s: State<T>, order: seq<Request>): set<Request> { set r | r in order && WantsRecord(s, r) }

  lemma {:induction false} WantingFromHead<T>(s: State<T>, order: seq<Request>)
    requires order != []
    ensures Wanting(s, order) ==
      (if WantsRecord(s, order[0]) then {order[0]} else {}) + Wanting(s, order[1..])
  {
    assert order == [order[0]] + order[1..];
    forall r ensures r in order <==> r == order[0] || r in order[1..] {}
  }

  lemma {:induction false} PendingDoesNotMatter<T>(s: State<T>, t: State<T>, order: seq<Request>)
    requires t == s.(pending := t.pending)
    ensures Wanting(t, order) == Wanting(s, order)
  {
    forall r ensures WantsRecord(t, r) <==> WantsRecord(s, r) {}
  }

  lemma {:induction false} FinalizesAreASet<T>(s: State<T>, order: seq<Request>)
    ensures FinalizeEach(s, order) == s.(pending := s.pending + Wanting(s, order))
    decreases |order|
  {
    if order != [] {
      var t := QueueFinalize(s, order[0]);
      FinalizesAreASet(t, order[1..]);
      PendingDoesNotMatter(s, t, order[1..]);
      WantingFromHead(s, order);
    } else {
      assert s.pending + Wanting(s, order) == s.pending;
    }
  }

  lemma {:induction false} OneMoreGone<K, V>(m: map<K, V>, gone: set<K>, k: K)
    ensures (m - gone) - {k} == m - (gone + {k})
  {
  }

  class CaptureWorker<T> {
    const c: Config
    ghost var phase: Phase
    var progress: map<Request, map<Layer, nat>>
    var failed: set<Request>
    var finalized: map<Request, nat>
    var pending: set<Request>
    ghost var retired: set<Request>
    var staged: map<(Request, Layer), seq<T>>
    var queue: seq<Job<T>>
    var newFailed: set<Request>
    var newEvicted: set<Request>
    var store: map<Request, map<Layer, seq<T>>>
    var order: seq<Request>
    var records: map<Request, Record>
    ghost var stale: set<Request>
    var torn: set<(Request, Layer)>

    ghost function View(): State<T>
      reads this
    {
      State(phase, progress, failed, finalized, pending, retired, staged, queue, newFailed, newEvicted, store,
            order, records, stale, torn)
    }

    constructor (c: Config)
      ensures this.c == c && View() == Init()
    {
      this.c := c;
      phase := Saving({});
      progress, failed, finalized, pending, retired := map[], {}, map[], {}, {};
      staged, queue, newFailed, newEvicted := map[], [], {}, {};
      store, order, records, stale, torn := map[], [], map[], {}, {};
    }

    /** This donor's copy of a layer: staged for the writer, else stored. */
    method CopyOfLayer(r: Request, l: Layer) returns (base: Option<seq<T>>)
      ensures base == CapturedLayer(View(), r, l)
    {
      if r in failed {
        return None;
      }
      if (r, l) in staged {
        return Some(staged[(r, l)]);
      }
      return if r in store && l in store[r] then Some(store[r][l]) else None;
    }

    /** One layer of one store: copy the window the store adds, append it to what the donor
        already holds, and hand the whole to the writer. */
    method CaptureLayer(r: Request, l: Layer, end: nat, table: seq<nat>, view: seq<T>)
      requires c.bs > 0 && phase.Saving?
      modifies this`phase, this`progress, this`staged, this`queue
      ensures View() == SaveLayer(c, old(View()), r, l, end, table, view)
    {
      var mine := if r in progress then progress[r] else map[];
      var start := if l in mine then mine[l] else 0;
      if start >= end {
        phase := Saving(phase.saved + {(r, l)});
        return;
      }
      var base: Option<seq<T>> := None;
      if start > 0 {
        base := CopyOfLayer(r, l);
        start := if base.Some? then start else 0;
      }
      var payload := ReadWindow(view, table, start, end, c.bs);
      assert [] + payload == payload;
      if base.Some? {
        payload := base.value + payload;
      }
      assert payload == Base(View(), r, l) + ReadWindow(view, table, AppendAt(View(), r, l), end, c.bs);
      SubmitCapturedLayer(r, l, payload);
      progress := progress[r := mine[l := end]];
      phase := Saving(phase.saved + {(r, l)});
    }

    method SubmitCapturedLayer(r: Request, l: Layer, payload: seq<T>)
      modifies this`staged, this`queue
      ensures staged == old(staged)[(r, l) := payload] && queue == old(queue) + [LayerJob(r, l, payload)]
    {
      staged := staged[(r, l) := payload];
      queue := queue + [LayerJob(r, l, payload)];
    }

    method Finalize(r: Request)
      modifies this`pending
      ensures View() == QueueFinalize(old(View()), r)
    {
      if r in failed || r !in progress || progress[r] == map[] {
        return;
      }
      var tokens := Shortest(progress[r]);
      if r in finalized && finalized[r] == tokens {
        return;
      }
      pending := pending + {r};
    }

    method DrainWriterReports()
      modifies this`failed, this`progress, this`finalized, this`newFailed, this`newEvicted
      ensures View() == Drain(old(View()))
    {
      var evicted := newEvicted;
      failed := failed + newFailed;
      newFailed, newEvicted := {}, {};
      ForgetCaptures(evicted);
    }

    method ForgetCaptures(ids: set<Request>)
      modifies this`progress, this`finalized
      ensures progress == old(progress) - ids && finalized == old(finalized) - ids
    {
      var rest := ids;
      ghost var gone: set<Request> := {};
      while rest != {}
        invariant gone + rest == ids
        invariant progress == old(progress) - gone && finalized == old(finalized) - gone
        decreases |rest|
      {
        var r :| r in rest;
        OneMoreGone(old(progress), gone, r);
        OneMoreGone(old(finalized), gone, r);
        progress := progress - {r};
        finalized := finalized - {r};
        rest := rest - {r};
        gone := gone + {r};
      }
      assert gone == ids;
    }

    method SubmitFinalize(r: Request)
      requires phase.Submitting?
      modifies this`phase, this`finalized, this`queue
      ensures View() == SubmitOne(old(View()), r)
    {
      phase := phase.(rest := phase.rest - {r});
      if r !in progress || progress[r] == map[] || r in failed {
        return;
      }
      var tokens := Shortest(progress[r]);
      finalized := finalized[r := tokens];
      queue := queue + [MetaJob(r, tokens, progress[r].Keys)];
    }

    /** Submit the one that sorts first. */
    method SubmitFirst(ids: set<Request>) returns (rest: set<Request>)
      requires phase.Submitting? && ids != {}
      modifies this`phase, this`finalized, this`queue
      ensures phase.Submitting? && |rest| < |ids|
      ensures SubmitEach(View(), Sorted(rest)) == SubmitEach(old(View()), Sorted(ids))
    {
      SomeoneIsFirst(ids);
      var r :| IsFirst(r, ids);
      FirstIsSubmitted(View(), ids, r);
      SubmitFinalize(r);
      rest := ids - {r};
    }

    /** Queue the record of every donor this step completed, in sorted order. */
    method SubmitPendingFinalizes()
      requires phase.Submitting? && phase.rest == pending
      modifies this`phase, this`finalized, this`queue, this`pending
      ensures View() == Submitted(SubmitEach(old(View()), Sorted(old(pending))))
    {
      ghost var last := SubmitEach(View(), Sorted(pending));
      var rest := pending;
      while rest != {}
        invariant phase.Submitting? && SubmitEach(View(), Sorted(rest)) == last
        decreases |rest|
      {
        rest := SubmitFirst(rest);
      }
      phase := Joining(phase.finish);
      pending := {};
    }

    method EvictMemoryDonor(stuck: set<Request>)
      requires order != []
      modifies this`order, this`store, this`newEvicted, this`records, this`stale
      ensures View() == EvictOldest(old(View()), stuck)
    {
      var r := order[0];
      order := order[1..];
      store := store - {r};
      newEvicted := newEvicted + {r};
      if r in records && r in stuck {
        stale := stale + {r};
      } else {
        records := records - {r};
        stale := stale - {r};
      }
    }

    method OpenMemoryEntry(r: Request, stuck: set<Request>)
      requires c.memory
      modifies this
      ensures View() == OpenEntry(c, old(View()), r, stuck)
    {
      if r in store {
        order := MovedToEnd(order, r);
        return;
      }
      store := store[r := map[]];
      order := order + [r];
      ghost var entered := View();
      while |order| > (if c.cap > 1 then c.cap else 1)
        invariant EvictOver(c, View(), stuck) == EvictOver(c, entered, stuck)
        decreases |order|
      {
        EvictMemoryDonor(stuck);
      }
    }

    /** The head job of the queue. outcome says how the write ends, stuck whose retractions
        fail. */
    method RunNextJob(outcome: Outcome, stuck: set<Request>)
      requires queue != []
      modifies this
      ensures View() == WriteHead(c, old(View()), outcome, stuck)
    {
      var job := queue[0];
      queue := queue[1..];
      if job.MetaJob? {
        WriteDonorMetadata(job, outcome);
        return;
      }
      staged := staged - {(job.r, job.layer)};
      ghost var taken := View();
      if !outcome.FailsEarly? {
        if c.memory {
          OpenMemoryEntry(job.r, stuck);
        }
        SaveTensor(job.r, job.layer, job.payload, outcome.Written?);
      }
      if !outcome.Written? {
        newFailed := newFailed + {job.r};
        OpeningKeepsFailures(c, taken, job.r, stuck);
      }
    }

    /** The layer lands in its entry or its file; a write to disk that fails part-way has
        already truncated the file. */
    method SaveTensor(r: Request, l: Layer, payload: seq<T>, ok: bool)
      modifies this`store, this`torn
      ensures View() == if ok then PutLayer(old(View()), r, l, payload) else Tear(c, old(View()), r, l)
    {
      if ok {
        store := store[r := (if r in store then store[r] else map[])[l := payload]];
        torn := torn - {(r, l)};
      } else if !c.memory {
        if r in store {
          store := store[r := store[r] - {l}];
        }
        torn := torn + {(r, l)};
      }
    }

    method WriteDonorMetadata(job: Job<T>, outcome: Outcome)
      requires job.MetaJob?
      modifies this
      ensures View() == WriteMeta(c, old(View()), job, outcome)
    {
      if c.memory && job.r !in store {
        return;
      }
      var missing := set l | l in job.layers && !(job.r in store && l in store[job.r]) && (job.r, l) !in torn;
      assert missing == {} <==> AllStored(View(), job.r, job.layers) by {
        assert forall l | l in job.layers :: l in missing <==> !((job.r in store && l in store[job.r]) || (job.r, l) in torn);
      }
      if missing != {} || !outcome.Written? {
        newFailed := newFailed + {job.r};
        return;
      }
      records := records[job.r := Record(job.tokens, job.layers)];
      stale := stale - {job.r};
    }

    /** What follows the first join. */
    method AfterFirstJoin(finish: seq<Request>)
      requires phase.Saving? && queue == []
      modifies this
      ensures View() == BeginFlush(old(View()), set r | r in finish)
    {
      ghost var start := View();
      var i := 0;
      while i < |finish|
        invariant 0 <= i <= |finish|
        invariant View() == old(View()).(pending := pending)
        invariant FinalizeEach(View(), finish[i..]) == FinalizeEach(start, finish)
      {
        assert finish[i..][0] == finish[i] && finish[i..][1..] == finish[i + 1..];
        Finalize(finish[i]);
        i := i + 1;
      }
      assert finish[i..] == [];
      FinalizesAreASet(start, finish);
      ghost var ids := set r | r in finish;
      assert Wanting(start, finish) == set r | r in ids && WantsRecord(start, r);
      assert View() == start.(pending := pending);
      ghost var before := View();
      DrainWriterReports();
      assert View() == Drain(before);
      phase := Submitting(pending, ids);
    }

    /** What follows the second join: the finish hook deletes from the disk tier what was
        never published, but for the deletions that fail, and forgets the requests. */
    method AfterSecondJoin(finish: set<Request>, kept: set<Request>)
      requires phase == Joining(finish) && queue == []
      modifies this
      ensures View() == EndFlush(c, old(View()), kept)
    {
      DrainWriterReports();
      ghost var t := View();
      if !c.memory {
        DiscardUnpublished(finish, kept);
      }
      assert c.memory ==> t.store - {} == t.store;
      ForgetFinished(finish);
      phase := Saving({});
    }

    method DiscardUnpublished(finish: set<Request>, kept: set<Request>)
      modifies this`store
      ensures store == old(store) - set r | r in finish && r !in records && r !in kept
    {
      var rest := finish;
      ghost var gone: set<Request> := {};
      while rest != {}
        invariant rest <= finish && gone == set r | r in finish - rest && r !in records && r !in kept
        invariant store == old(store) - gone
        decreases |rest|
      {
        var r :| r in rest;
        if r !in records && r !in kept {
          OneMoreGone(old(store), gone, r);
          store := store - {r};
          gone := gone + {r};
        }
        rest := rest - {r};
      }
      assert finish - rest == finish;
    }

    method ForgetFinished(finish: set<Request>)
      modifies this`progress, this`finalized, this`failed, this`retired
      ensures progress == old(progress) - finish && finalized == old(finalized) - finish
      ensures failed == old(failed) - finish && retired == old(retired) + finish
    {
      ForgetCaptures(finish);
      failed := failed - finish;
      retired := retired + finish;
    }
  }
}
