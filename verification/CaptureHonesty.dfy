/** Which records are honest, over whole runs of the capture pipeline: what a failing
    retraction or a failing write does to a record, and what mends it. */
module CaptureHonesty {
  import opened Blocks
  import opened CapturePipeline
  import opened LastWord

  // ------------------------------------------------------------------ events

  /** The step evicted the donor. */
  predicate Evicts<T>(c: Config, s: State<T>, a: Action<T>, r: Request)
    requires c.bs > 0
  {
    a.Write? && r in s.store && r !in Step(c, s, a).store
  }

  /** It did, and its record could not be retracted. */
  predicate FailsToRetract<T>(c: Config, s: State<T>, a: Action<T>, r: Request)
    requires c.bs > 0
  {
    Evicts(c, s, a, r) && r in Step(c, s, a).records
  }

  /** The step wrote the donor's record. */
  predicate Publishes<T>(s: State<T>, a: Action<T>, r: Request)
  {
    a.Write? && a.outcome.Written? && s.queue != [] && s.queue[0].MetaJob? && s.queue[0].r == r
  }

  lemma {:induction false} LayerStepStale<T>(
      s: State<T>, t: State<T>, u: State<T>, r: Request, out: set<Request>, x: Request)
    requires s.stale <= s.records.Keys && t == s.(queue := t.queue, staged := t.staged) && Opened(t, u, r, out)
    requires out <= s.store.Keys
    ensures x in u.stale <==> (x in s.store && x !in u.store && x in u.records) || (x in s.stale && x !in out)
    ensures x in out <==> x in s.store && x !in u.store
  {
  }

  lemma {:induction false} OpeningEvictsDonors<T>(c: Config, s: State<T>, r: Request, stuck: set<Request>)
    returns (out: set<Request>)
    requires Listed(c, s)
    ensures Opened(s, OpenEntry(c, s, r, stuck), r, out) && out <= s.store.Keys
  {
    out := OpeningEvictsTheOldest(c, s, r, stuck);
    if out != {} { assert s.order[0] in s.order; }
  }

  lemma {:induction false} TearKeepsResidents<T>(c: Config, s: State<T>, r: Request, l: Layer)
    ensures var t := Tear(c, s, r, l); t.store.Keys == s.store.Keys && t.stale == s.stale && t.records == s.records
  {
  }

  lemma {:induction false} PutKeepsResidents<T>(s: State<T>, r: Request, l: Layer, payload: seq<T>, x: Request)
    requires x != r || r in s.store
    ensures var t := PutLayer(s, r, l, payload);
      (x in t.store <==> x in s.store) && t.stale == s.stale && t.records == s.records
  {
  }

  /** Whether x is resident, has a record and is stale depends on the opening alone. */
  lemma {:induction false} LayerWriteCases<T>(
      c: Config, s: State<T>, outcome: Outcome, stuck: set<Request>, x: Request)
    requires Listed(c, s) && s.queue != [] && s.queue[0].LayerJob? && x in s.store
    ensures var t, r := Taken(s), s.queue[0].r;
      var u := if outcome.FailsEarly? then t else OpenEntry(c, t, r, stuck); var v := WriteHead(c, s, outcome, stuck);
      (x in v.store <==> x in u.store) && v.stale == u.stale && v.records == u.records
  {
    WriteHeadCases(c, s, outcome, stuck);
    var r, t := s.queue[0].r, Taken(s);
    var u := OpenEntry(c, t, r, stuck);
    var out := OpeningEvictsDonors(c, t, r, stuck);
    PutKeepsResidents(u, r, s.queue[0].layer, s.queue[0].payload, x);
    TearKeepsResidents(c, u, r, s.queue[0].layer);
  }

  lemma {:induction false} LayerWriteKeepsAbsent<T>(
      c: Config, s: State<T>, outcome: Outcome, stuck: set<Request>)
    requires Listed(c, s) && s.queue != [] && s.queue[0].LayerJob?
    ensures var t, r := Taken(s), s.queue[0].r;
      var u := if outcome.FailsEarly? then t else OpenEntry(c, t, r, stuck); var v := WriteHead(c, s, outcome, stuck);
      v.stale == u.stale && v.records == u.records
  {
    WriteHeadCases(c, s, outcome, stuck);
  }

  lemma {:induction false} WriteMovesStale<T>(
      c: Config, s: State<T>, outcome: Outcome, stuck: set<Request>, x: Request)
    requires c.bs > 0 && Listed(c, s) && s.stale <= s.records.Keys && s.queue != [] && s.queue[0].LayerJob?
    ensures var v := WriteHead(c, s, outcome, stuck); var gone := x in s.store && x !in v.store;
      x in v.stale <==> (gone && x in v.records) || (x in s.stale && !gone)
  {
    var t, r := Taken(s), s.queue[0].r;
    LayerWriteKeepsAbsent(c, s, outcome, stuck);
    if x in s.store { LayerWriteCases(c, s, outcome, stuck, x); }
    if !outcome.FailsEarly? {
      var out := OpeningEvictsDonors(c, t, r, stuck);
      LayerStepStale(s, t, OpenEntry(c, t, r, stuck), r, out, x);
    }
  }

  lemma {:induction false} MetaKeepsStore<T>(c: Config, s: State<T>, outcome: Outcome, stuck: set<Request>)
    requires s.queue != [] && s.queue[0].MetaJob?
    ensures WriteHead(c, s, outcome, stuck).store == s.store
    ensures WriteHead(c, s, outcome, stuck) == WriteMeta(c, Popped(s), s.queue[0], outcome)
  {
  }

  lemma {:induction false} MetaMovesStale<T(!new)>(
      c: Config, ideal: Ideal<T>, s: State<T>, outcome: Outcome, stuck: set<Request>, x: Request)
    requires Inv(c, ideal, s) && s.queue != [] && s.queue[0].MetaJob?
    ensures x in WriteHead(c, s, outcome, stuck).stale
      <==> x in s.stale && !(outcome.Written? && x == s.queue[0].r)
  {
    MetaCases(c, ideal, s, outcome);
    MetaKeepsStore(c, s, outcome, stuck);
  }

  /** The step landed the layer. */
  predicate Lands<T>(s: State<T>, a: Action<T>, r: Request, l: Layer)
  {
    a.Write? && a.outcome.Written? && s.queue != [] && IsFor(s.queue[0], (r, l))
  }

  /** A write of the layer's file failed part-way. */
  predicate Tears<T>(c: Config, s: State<T>, a: Action<T>, r: Request, l: Layer)
  {
    !c.memory && a.Write? && a.outcome.FailsLate? && s.queue != [] && IsFor(s.queue[0], (r, l))
  }

  /** t has the records of s. */
  predicate SameStale<T>(s: State<T>, t: State<T>)
  {
    t.stale == s.stale && t.records == s.records && t.torn == s.torn
  }

  lemma {:induction false} SavingKeepsStale<T>(
      c: Config, s: State<T>, r: Request, l: Layer, end: nat, table: seq<nat>, view: seq<T>)
    requires c.bs > 0 && s.phase.Saving?
    ensures SameStale(s, SaveLayer(c, s, r, l, end, table, view))
  {
  }

  lemma {:induction false} JoiningKeepsStale<T>(
      c: Config, s: State<T>, r: Request, finish: set<Request>, kept: set<Request>)
    ensures SameStale(s, BeginFlush(s, finish)) && SameStale(s, Submitted(s)) && SameStale(s, QueueFinalize(s, r))
    ensures s.phase.Submitting? ==> SameStale(s, SubmitOne(s, r))
    ensures s.phase.Joining? ==> SameStale(s, EndFlush(c, s, kept))
  {
  }

  lemma {:induction false} OtherStepsKeepStale<T>(c: Config, s: State<T>, a: Action<T>)
    requires c.bs > 0 && (a.Write? ==> s.queue == [])
    ensures SameStale(s, Step(c, s, a))
  {
    match a
    case Save(r, l, end, table, view) => if s.phase.Saving? { SavingKeepsStale(c, s, r, l, end, table, view); }
    case Finalize(r) => JoiningKeepsStale(c, s, r, {}, {});
    case Flush(finish) => JoiningKeepsStale(c, s, "", finish, {});
    case Submit(r) => JoiningKeepsStale(c, s, r, {}, {});
    case SubmitEnds => JoiningKeepsStale(c, s, "", {}, {});
    case Flushed(kept) => JoiningKeepsStale(c, s, "", {}, kept);
    case Write(outcome, stuck) =>
    case Touched(r) =>
  }

  /** One step makes a record stale, or ends its being stale. */
  lemma {:induction false} StepMovesStale<T(!new)>(c: Config, ideal: Ideal<T>, s: State<T>, a: Action<T>, r: Request)
    requires c.bs > 0 && Inv(c, ideal, s) && Enabled(c, ideal, s, a)
    ensures r in Step(c, s, a).stale
      <==> FailsToRetract(c, s, a, r) || (r in s.stale && !Evicts(c, s, a, r) && !Publishes(s, a, r))
  {
    if a.Write? {
      assert Step(c, s, a) == WriteHead(c, s, a.outcome, a.stuck);
      if s.queue[0].LayerJob? {
        WriteMovesStale(c, s, a.outcome, a.stuck, r);
      } else {
        MetaMovesStale(c, ideal, s, a.outcome, a.stuck, r);
        MetaKeepsStore(c, s, a.outcome, a.stuck);
      }
    } else {
      OtherStepsKeepStale(c, s, a);
    }
  }

  lemma {:induction false} EvictingKeepsTorn<T>(c: Config, s: State<T>, stuck: set<Request>)
    ensures EvictOver(c, s, stuck).torn == s.torn
    decreases |s.order|
  {
    if |s.order| > Limit(c) { EvictingKeepsTorn(c, EvictOldest(s, stuck), stuck); }
  }

  lemma {:induction false} OpeningKeepsTorn<T>(c: Config, s: State<T>, r: Request, stuck: set<Request>)
    ensures OpenEntry(c, s, r, stuck).torn == s.torn
  {
    EvictingKeepsTorn(c, s.(store := s.store[r := map[]], order := s.order + [r]), stuck);
  }

  lemma {:induction false} WriteMovesTorn<T>(
      c: Config, s: State<T>, outcome: Outcome, stuck: set<Request>, r: Request, l: Layer)
    requires TornOk(c, s) && s.queue != [] && s.queue[0].LayerJob?
    ensures var a := Write(outcome, stuck);
      (r, l) in WriteHead(c, s, outcome, stuck).torn <==> Tears(c, s, a, r, l) || ((r, l) in s.torn && !Lands(s, a, r, l))
  {
    WriteHeadCases(c, s, outcome, stuck);
    OpeningKeepsTorn(c, Taken(s), s.queue[0].r, stuck);
  }

  /** One step truncates a file, or puts a whole one in its place. */
  lemma {:induction false} StepMovesTorn<T>(c: Config, s: State<T>, a: Action<T>, r: Request, l: Layer)
    requires c.bs > 0 && TornOk(c, s)
    ensures (r, l) in Step(c, s, a).torn <==> Tears(c, s, a, r, l) || ((r, l) in s.torn && !Lands(s, a, r, l))
  {
    if a.Write? && s.queue != [] {
      if s.queue[0].LayerJob? {
        WriteMovesTorn(c, s, a.outcome, a.stuck, r, l);
      } else {
        MetaKeepsStore(c, s, a.outcome, a.stuck);
      }
    } else {
      OtherStepsKeepStale(c, s, a);
    }
  }

  lemma {:induction false} PrefixIsRun<T(!new)>(
      c: Config, ideal: Ideal<T>, s: State<T>, acts: seq<Action<T>>, n: nat)
    requires c.bs > 0 && IsRun(c, ideal, s, acts) && n <= |acts|
    ensures IsRun(c, ideal, s, acts[..n])
    ensures n < |acts| ==> Enabled(c, ideal, Run(c, s, acts[..n]), acts[n])
    ensures n < |acts| ==> Run(c, s, acts[..n + 1]) == Step(c, Run(c, s, acts[..n]), acts[n])
    decreases |acts|
  {
    if n > 0 {
      PrefixIsRun(c, ideal, Step(c, s, acts[0]), acts[1..], n - 1);
      assert acts[..n][1..] == acts[1..][..n - 1];
      assert n < |acts| ==> acts[..n + 1][1..] == acts[1..][..n];
    } else if acts != [] {
      assert acts[..1][1..] == [];
      assert Run(c, Step(c, s, acts[0]), []) == Step(c, s, acts[0]);
    }
  }

  /** The state after the first n actions. */
  function At<T>(c: Config, acts: seq<Action<T>>, n: nat): State<T>
    requires c.bs > 0 && n <= |acts|
  {
    Run(c, Init(), acts[..n])
  }

  lemma {:induction false} AtIsReachable<T(!new)>(c: Config, ideal: Ideal<T>, acts: seq<Action<T>>, n: nat)
    requires c.bs > 0 && IsRun(c, ideal, Init(), acts) && n <= |acts|
    ensures Inv(c, ideal, At(c, acts, n))
    ensures n < |acts| ==> Enabled(c, ideal, At(c, acts, n), acts[n]) && At(c, acts, n + 1) == Step(c, At(c, acts, n), acts[n])
  {
    PrefixIsRun(c, ideal, Init(), acts, n);
    ReachableIsSound(c, ideal, acts[..n]);
  }

  /** The points at which the donor was evicted and its record could not be retracted. */
  ghost function Failing<T>(c: Config, acts: seq<Action<T>>, r: Request): nat -> bool
    requires c.bs > 0
  {
    (i: nat) => i < |acts| && FailsToRetract(c, At(c, acts, i), acts[i], r)
  }

  /** The points at which the donor was evicted or published. */
  ghost function Resolving<T>(c: Config, acts: seq<Action<T>>, r: Request): nat -> bool
    requires c.bs > 0
  {
    (i: nat) => i < |acts| && (Evicts(c, At(c, acts, i), acts[i], r) || Publishes(At(c, acts, i), acts[i], r))
  }

  ghost function Tearing<T>(c: Config, acts: seq<Action<T>>, r: Request, l: Layer): nat -> bool
    requires c.bs > 0
  {
    (i: nat) => i < |acts| && Tears(c, At(c, acts, i), acts[i], r, l)
  }

  ghost function Landing<T>(c: Config, acts: seq<Action<T>>, r: Request, l: Layer): nat -> bool
    requires c.bs > 0
  {
    (i: nat) => i < |acts| && Lands(At(c, acts, i), acts[i], r, l)
  }

  /** Some eviction failed to retract the donor's record, and the donor was neither evicted
      nor published since. */
  ghost predicate LastRetractionFailed<T>(c: Config, acts: seq<Action<T>>, r: Request, n: nat)
    requires c.bs > 0
  {
    Since(Failing(c, acts, r), Resolving(c, acts, r), n)
  }

  /** A write truncated the layer's file, and none has landed it since. */
  ghost predicate LastWriteTore<T>(c: Config, acts: seq<Action<T>>, r: Request, l: Layer, n: nat)
    requires c.bs > 0
  {
    Since(Tearing(c, acts, r, l), Landing(c, acts, r, l), n)
  }

  // ---------------------------------------------------------------- theorems

  /** The points at which the donor's record is stale. */
  ghost function Staleness<T>(c: Config, acts: seq<Action<T>>, r: Request): nat -> bool
    requires c.bs > 0
  {
    (n: nat) => n <= |acts| && r in At(c, acts, n).stale
  }

  /** The points at which the layer's file is truncated. */
  ghost function Tornness<T>(c: Config, acts: seq<Action<T>>, r: Request, l: Layer): nat -> bool
    requires c.bs > 0
  {
    (n: nat) => n <= |acts| && (r, l) in At(c, acts, n).torn
  }

  lemma {:induction false} StaleOneMore<T(!new)>(
      c: Config, ideal: Ideal<T>, acts: seq<Action<T>>, r: Request, n: nat)
    requires c.bs > 0 && IsRun(c, ideal, Init(), acts) && n < |acts|
    ensures Turns(Staleness(c, acts, r), Failing(c, acts, r), Resolving(c, acts, r), n)
  {
    AtIsReachable(c, ideal, acts, n);
    StepMovesStale(c, ideal, At(c, acts, n), acts[n], r);
  }

  lemma {:induction false} TornOneMore<T(!new)>(
      c: Config, ideal: Ideal<T>, acts: seq<Action<T>>, r: Request, l: Layer, n: nat)
    requires c.bs > 0 && IsRun(c, ideal, Init(), acts) && n < |acts|
    ensures Turns(Tornness(c, acts, r, l), Tearing(c, acts, r, l), Landing(c, acts, r, l), n)
  {
    AtIsReachable(c, ideal, acts, n);
    StepMovesTorn(c, At(c, acts, n), acts[n], r, l);
  }

  lemma {:induction false} NothingAtFirst<T>(c: Config, acts: seq<Action<T>>, r: Request, l: Layer)
    requires c.bs > 0
    ensures !Staleness(c, acts, r)(0) && !Tornness(c, acts, r, l)(0)
  {
    assert At(c, acts, 0) == Init();
  }

  lemma {:induction false} StaleFollows<T(!new)>(c: Config, ideal: Ideal<T>, acts: seq<Action<T>>, r: Request)
    requires c.bs > 0 && IsRun(c, ideal, Init(), acts)
    ensures Follows(Staleness(c, acts, r), Failing(c, acts, r), Resolving(c, acts, r), |acts|)
  {
    var x, p, q := Staleness(c, acts, r), Failing(c, acts, r), Resolving(c, acts, r);
    NothingAtFirst(c, acts, r, "");
    forall k: nat | k < |acts| ensures Turns(x, p, q, k) {
      StaleOneMore(c, ideal, acts, r, k);
    }
  }

  lemma {:induction false} TornFollows<T(!new)>(c: Config, ideal: Ideal<T>, acts: seq<Action<T>>, r: Request, l: Layer)
    requires c.bs > 0 && IsRun(c, ideal, Init(), acts)
    ensures Follows(Tornness(c, acts, r, l), Tearing(c, acts, r, l), Landing(c, acts, r, l), |acts|)
  {
    var x, p, q := Tornness(c, acts, r, l), Tearing(c, acts, r, l), Landing(c, acts, r, l);
    NothingAtFirst(c, acts, r, l);
    forall k: nat | k < |acts| ensures Turns(x, p, q, k) {
      TornOneMore(c, ideal, acts, r, l, k);
    }
  }

  /** The stale records, over every run: those of which the last eviction could not retract
      the record, with nothing published for the donor since. */
  lemma {:induction false} StaleIffLastRetractionFailed<T(!new)>(
      c: Config, ideal: Ideal<T>, acts: seq<Action<T>>, r: Request, n: nat)
    requires c.bs > 0 && IsRun(c, ideal, Init(), acts) && n <= |acts|
    ensures r in At(c, acts, n).stale <==> LastRetractionFailed(c, acts, r, n)
    ensures r in At(c, acts, n).stale ==> r in At(c, acts, n).records
  {
    AtIsReachable(c, ideal, acts, n);
    StaleFollows(c, ideal, acts, r);
    FollowsIsSince(Staleness(c, acts, r), Failing(c, acts, r), Resolving(c, acts, r), n, |acts|);
    assert Staleness(c, acts, r)(n) <==> r in At(c, acts, n).stale;
  }

  /** The truncated files, over every run: those whose last write failed part-way. */
  lemma {:induction false} TornIffLastWriteTore<T(!new)>(
      c: Config, ideal: Ideal<T>, acts: seq<Action<T>>, r: Request, l: Layer, n: nat)
    requires c.bs > 0 && IsRun(c, ideal, Init(), acts) && n <= |acts|
    ensures (r, l) in At(c, acts, n).torn <==> LastWriteTore(c, acts, r, l, n)
  {
    TornFollows(c, ideal, acts, r, l);
    FollowsIsSince(Tornness(c, acts, r, l), Tearing(c, acts, r, l), Landing(c, acts, r, l), n, |acts|);
    assert Tornness(c, acts, r, l)(n) <==> (r, l) in At(c, acts, n).torn;
  }

  /** How much of a layer the store holds. */
  function LengthOf<T>(s: State<T>, r: Request, l: Layer): Option<nat>
  {
    if r in s.store && l in s.store[r] then Some(|s.store[r][l]|) else None
  }

  lemma {:induction false} WriteMovesLength<T>(
      c: Config, s: State<T>, outcome: Outcome, stuck: set<Request>, r: Request, l: Layer)
    requires c.memory && Listed(c, s) && s.queue != [] && s.queue[0].LayerJob?
    ensures var t := WriteHead(c, s, outcome, stuck);
      LengthOf(t, r, l) ==
        if Lands(s, Write(outcome, stuck), r, l) then Some(|s.queue[0].payload|)
        else if r in s.store && r !in t.store then None
        else LengthOf(s, r, l)
  {
    WriteHeadCases(c, s, outcome, stuck);
    var out := OpeningEvictsDonors(c, Taken(s), s.queue[0].r, stuck);
  }

  /** On the memory tier only a landing or an eviction moves what is held of a layer. */
  lemma {:induction false} StepMovesLength<T>(c: Config, s: State<T>, a: Action<T>, r: Request, l: Layer)
    requires c.bs > 0 && c.memory && Listed(c, s)
    ensures LengthOf(Step(c, s, a), r, l) ==
      if Lands(s, a, r, l) then Some(|s.queue[0].payload|)
      else if Evicts(c, s, a, r) then None
      else LengthOf(s, r, l)
  {
    if a.Write? && s.queue != [] {
      if s.queue[0].LayerJob? {
        WriteMovesLength(c, s, a.outcome, a.stuck, r, l);
      } else {
        MetaKeepsStore(c, s, a.outcome, a.stuck);
      }
    } else {
      OtherStepsKeepStore(c, s, a);
    }
  }

  lemma {:induction false} OtherStepsKeepStore<T>(c: Config, s: State<T>, a: Action<T>)
    requires c.bs > 0 && c.memory && (a.Write? ==> s.queue == [])
    ensures Step(c, s, a).store == s.store
  {
    if a.Flushed? && s.phase.Joining? { assert s.store - {} == s.store; }
  }

  lemma {:induction false} OnlyMemoryEvicts<T>(c: Config, s: State<T>, a: Action<T>, r: Request)
    requires c.bs > 0 && Listed(c, s) && Evicts(c, s, a, r)
    ensures c.memory
  {
    if a.Write? && s.queue != [] && s.queue[0].LayerJob? && !c.memory {
      WriteHeadCases(c, s, a.outcome, a.stuck);
    }
  }

  /** What the i-th action and those up to the n-th left of a layer the i-th evicted: the
      last landing since, if any. */
  function LandedSince<T>(c: Config, acts: seq<Action<T>>, r: Request, l: Layer, i: nat, n: nat): Option<nat>
    requires c.bs > 0 && i < n <= |acts|
    decreases n
  {
    if n == i + 1 then None
    else if Lands(At(c, acts, n - 1), acts[n - 1], r, l) then Some(|At(c, acts, n - 1).queue[0].payload|)
    else LandedSince(c, acts, r, l, i, n - 1)
  }

  lemma {:induction false} NothingAfterEviction<T(!new)>(
      c: Config, ideal: Ideal<T>, acts: seq<Action<T>>, r: Request, l: Layer, i: nat)
    requires c.bs > 0 && IsRun(c, ideal, Init(), acts) && i < |acts| && Failing(c, acts, r)(i)
    ensures c.memory && LengthOf(At(c, acts, i + 1), r, l) == None
  {
    AtIsReachable(c, ideal, acts, i);
    OnlyMemoryEvicts(c, At(c, acts, i), acts[i], r);
  }

  lemma {:induction false} LengthOneMore<T(!new)>(
      c: Config, ideal: Ideal<T>, acts: seq<Action<T>>, r: Request, l: Layer, n: nat)
    requires c.bs > 0 && c.memory && IsRun(c, ideal, Init(), acts) && n < |acts|
    requires !Evicts(c, At(c, acts, n), acts[n], r)
    ensures LengthOf(At(c, acts, n + 1), r, l) ==
      if Lands(At(c, acts, n), acts[n], r, l) then Some(|At(c, acts, n).queue[0].payload|)
      else LengthOf(At(c, acts, n), r, l)
  {
    AtIsReachable(c, ideal, acts, n);
    StepMovesLength(c, At(c, acts, n), acts[n], r, l);
  }

  lemma {:induction false} LandedOneMore<T>(c: Config, acts: seq<Action<T>>, r: Request, l: Layer, i: nat, n: nat)
    requires c.bs > 0 && i < n < |acts|
    ensures LandedSince(c, acts, r, l, i, n + 1) ==
      if Lands(At(c, acts, n), acts[n], r, l) then Some(|At(c, acts, n).queue[0].payload|)
      else LandedSince(c, acts, r, l, i, n)
  {
  }

  lemma {:induction false} LengthFollowsLanding<T>(
      c: Config, acts: seq<Action<T>>, r: Request, l: Layer, i: nat, n: nat)
    requires c.bs > 0 && i < n < |acts| && LengthOf(At(c, acts, n), r, l) == LandedSince(c, acts, r, l, i, n)
    requires LengthOf(At(c, acts, n + 1), r, l) ==
      if Lands(At(c, acts, n), acts[n], r, l) then Some(|At(c, acts, n).queue[0].payload|)
      else LengthOf(At(c, acts, n), r, l)
    ensures LengthOf(At(c, acts, n + 1), r, l) == LandedSince(c, acts, r, l, i, n + 1)
  {
    LandedOneMore(c, acts, r, l, i, n);
  }

  lemma {:induction false} LandedStays<T(!new)>(
      c: Config, ideal: Ideal<T>, acts: seq<Action<T>>, r: Request, l: Layer, i: nat, n: nat)
    requires c.bs > 0 && c.memory && IsRun(c, ideal, Init(), acts) && i < n < |acts|
    requires LengthOf(At(c, acts, n), r, l) == LandedSince(c, acts, r, l, i, n)
    requires !Evicts(c, At(c, acts, n), acts[n], r)
    ensures LengthOf(At(c, acts, n + 1), r, l) == LandedSince(c, acts, r, l, i, n + 1)
  {
    LengthOneMore(c, ideal, acts, r, l, n);
    LengthFollowsLanding(c, acts, r, l, i, n);
  }

  /** The points at which the donor was evicted. */
  ghost function Evicting<T>(c: Config, acts: seq<Action<T>>, r: Request): nat -> bool
    requires c.bs > 0
  {
    (i: nat) => i < |acts| && Evicts(c, At(c, acts, i), acts[i], r)
  }

  lemma {:induction false} EvictingResolves<T>(c: Config, acts: seq<Action<T>>, r: Request, i: nat)
    requires c.bs > 0 && Evicting(c, acts, r)(i)
    ensures Resolving(c, acts, r)(i)
  {
  }

  lemma {:induction false} QuietOfEvictions<T>(c: Config, acts: seq<Action<T>>, r: Request, i: nat, n: nat)
    requires c.bs > 0 && Quiet(Resolving(c, acts, r), i, n)
    ensures Quiet(Evicting(c, acts, r), i, n)
  {
    var q, e := Resolving(c, acts, r), Evicting(c, acts, r);
    forall k: nat | e(k) ensures q(k) {
      EvictingResolves(c, acts, r, k);
    }
    QuietWeakens(q, e, i, n);
  }

  lemma {:induction false} LandedFollows<T(!new)>(
      c: Config, ideal: Ideal<T>, acts: seq<Action<T>>, r: Request, l: Layer, i: nat, n: nat)
    requires c.bs > 0 && c.memory && IsRun(c, ideal, Init(), acts) && i < n < |acts|
    requires LengthOf(At(c, acts, n), r, l) == LandedSince(c, acts, r, l, i, n) && !Evicting(c, acts, r)(n)
    ensures LengthOf(At(c, acts, n + 1), r, l) == LandedSince(c, acts, r, l, i, n + 1)
  {
    LandedStays(c, ideal, acts, r, l, i, n);
  }

  lemma {:induction false} LengthSinceKept<T(!new)>(
      c: Config, ideal: Ideal<T>, acts: seq<Action<T>>, r: Request, l: Layer, i: nat, n: nat)
    requires c.bs > 0 && c.memory && IsRun(c, ideal, Init(), acts) && i < n <= |acts|
    requires LengthOf(At(c, acts, i + 1), r, l) == None && Quiet(Evicting(c, acts, r), i, n)
    ensures LengthOf(At(c, acts, n), r, l) == LandedSince(c, acts, r, l, i, n)
    decreases n
  {
    if n > i + 1 {
      QuietShorter(Evicting(c, acts, r), i, n);
      LengthSinceKept(c, ideal, acts, r, l, i, n - 1);
      LandedFollows(c, ideal, acts, r, l, i, n - 1);
    }
  }

  lemma {:induction false} LengthSinceEviction<T(!new)>(
      c: Config, ideal: Ideal<T>, acts: seq<Action<T>>, r: Request, l: Layer, i: nat, n: nat)
    requires c.bs > 0 && IsRun(c, ideal, Init(), acts) && i < n <= |acts|
    requires Failing(c, acts, r)(i) && Quiet(Resolving(c, acts, r), i, n)
    ensures LengthOf(At(c, acts, n), r, l) == LandedSince(c, acts, r, l, i, n)
  {
    NothingAfterEviction(c, ideal, acts, r, l, i);
    QuietOfEvictions(c, acts, r, i, n);
    LengthSinceKept(c, ideal, acts, r, l, i, n);
  }

  /** Every layer was landed again, with at least so many tokens, after the eviction whose
      retraction failed. */
  ghost predicate Relanded<T>(c: Config, acts: seq<Action<T>>, r: Request, n: nat, tokens: nat)
    requires c.bs > 0 && n <= |acts|
  {
    exists i: nat | i < n :: Failing(c, acts, r)(i) && Quiet(Resolving(c, acts, r), i, n) && RelandedFrom(c, acts, r, i, n, tokens)
  }

  ghost predicate RelandedFrom<T>(c: Config, acts: seq<Action<T>>, r: Request, i: nat, n: nat, tokens: nat)
    requires c.bs > 0 && i < n <= |acts|
  {
    forall l | l in c.layers ::
      var held := LandedSince(c, acts, r, l, i, n); held.Some? && held.value >= tokens
  }

  lemma {:induction false} StaleBackedIffRelanded<T(!new)>(
      c: Config, ideal: Ideal<T>, acts: seq<Action<T>>, r: Request, i: nat, n: nat)
    requires c.bs > 0 && IsRun(c, ideal, Init(), acts) && i < n <= |acts|
    requires Failing(c, acts, r)(i) && Quiet(Resolving(c, acts, r), i, n) && r in At(c, acts, n).records
    ensures var s := At(c, acts, n);
      BackedRecord(c, s, r, s.records[r]) <==> RelandedFrom(c, acts, r, i, n, s.records[r].tokens)
  {
    AtIsReachable(c, ideal, acts, n);
    var s := At(c, acts, n);
    forall l ensures LengthOf(s, r, l) == LandedSince(c, acts, r, l, i, n) {
      LengthSinceEviction(c, ideal, acts, r, l, i, n);
    }
    if RelandedFrom(c, acts, r, i, n, s.records[r].tokens) {
      var any :| any in c.layers;
      assert LengthOf(s, r, any).Some?;
      forall l | l in c.layers ensures l in s.store[r] && |s.store[r][l]| >= s.records[r].tokens {
        assert LengthOf(s, r, l).Some?;
      }
    } else if BackedRecord(c, s, r, s.records[r]) {
      forall l | l in c.layers
        ensures LandedSince(c, acts, r, l, i, n).Some?
        ensures LandedSince(c, acts, r, l, i, n).value >= s.records[r].tokens
      {
        assert LengthOf(s, r, l) == Some(|s.store[r][l]|);
      }
    }
  }

  lemma {:induction false} StaleIsHonestIffRelanded<T(!new)>(
      c: Config, ideal: Ideal<T>, acts: seq<Action<T>>, r: Request)
    requires c.bs > 0 && IsRun(c, ideal, Init(), acts)
    requires r in At(c, acts, |acts|).records && LastRetractionFailed(c, acts, r, |acts|)
    ensures var s := At(c, acts, |acts|);
      BackedRecord(c, s, r, s.records[r]) <==> Relanded(c, acts, r, |acts|, s.records[r].tokens)
  {
    var n := |acts|;
    var i: nat :| i < n && Failing(c, acts, r)(i) && Quiet(Resolving(c, acts, r), i, n);
    StaleBackedIffRelanded(c, ideal, acts, r, i, n);
    var tokens := At(c, acts, n).records[r].tokens;
    if Relanded(c, acts, r, n, tokens) {
      var j: nat :| j < n && Failing(c, acts, r)(j) && Quiet(Resolving(c, acts, r), j, n) && RelandedFrom(c, acts, r, j, n, tokens);
      StaleBackedIffRelanded(c, ideal, acts, r, j, n);
    }
  }

  /** Honesty over whole runs, exactly. A record is backed in full, by the prompt's own KV:
      after an eviction that could not retract it, when every layer was landed again since
      with at least its tokens; otherwise, when no layer's last write failed part-way. */
  lemma {:induction false} RecordsAreHonest<T(!new)>(c: Config, ideal: Ideal<T>, acts: seq<Action<T>>, r: Request)
    requires c.bs > 0 && IsRun(c, ideal, Init(), acts) && r in Run(c, Init(), acts).records
    ensures var s := Run(c, Init(), acts);
      BackedRecord(c, s, r, s.records[r]) <==>
        if LastRetractionFailed(c, acts, r, |acts|) then Relanded(c, acts, r, |acts|, s.records[r].tokens)
        else forall l | l in c.layers :: !LastWriteTore(c, acts, r, l, |acts|)
  {
    assert acts[..|acts|] == acts;
    if LastRetractionFailed(c, acts, r, |acts|) {
      StaleIsHonestIffRelanded(c, ideal, acts, r);
    } else {
      StaleIffLastRetractionFailed(c, ideal, acts, r, |acts|);
      AtIsReachable(c, ideal, acts, |acts|);
      UntornIsBacked(c, Run(c, Init(), acts), r);
      forall l ensures (r, l) in Run(c, Init(), acts).torn <==> LastWriteTore(c, acts, r, l, |acts|) {
        TornIffLastWriteTore(c, ideal, acts, r, l, |acts|);
      }
    }
  }

  lemma {:induction false} UntornIsBacked<T>(c: Config, s: State<T>, r: Request)
    requires RecordsBacked(c, s) && r in s.records && r !in s.stale
    ensures BackedRecord(c, s, r, s.records[r]) <==> forall l | l in c.layers :: (r, l) !in s.torn
  {
    assert RecordStands(c, s, r, s.records[r]);
  }

  // ---------------------------------------------------- from planning to loading

  lemma {:induction false} MetaKeepsRecord<T(!new)>(
      c: Config, ideal: Ideal<T>, s: State<T>, outcome: Outcome, stuck: set<Request>, r: Request)
    requires Inv(c, ideal, s) && s.queue != [] && s.queue[0].MetaJob? && r in s.records && r !in s.stale
    ensures var t := WriteHead(c, s, outcome, stuck); r in t.records && t.records[r].tokens >= s.records[r].tokens
  {
    MetaCases(c, ideal, s, outcome);
    MetaKeepsStore(c, s, outcome, stuck);
    var job := s.queue[0];
    if job.r == r {
      assert Shortest(s.progress[r]) in s.progress[r].Values;
    }
  }

  /** A donor resident before and after a step keeps its record, and never a shorter one. */
  lemma {:induction false} ResidentKeepsRecord<T(!new)>(c: Config, ideal: Ideal<T>, s: State<T>, a: Action<T>, r: Request)
    requires c.bs > 0 && Inv(c, ideal, s) && Enabled(c, ideal, s, a)
    requires r in s.records && r !in s.stale && r in Step(c, s, a).store
    ensures var t := Step(c, s, a); r in t.records && r !in t.stale && t.records[r].tokens >= s.records[r].tokens
  {
    StepMovesStale(c, ideal, s, a, r);
    if a.Write? {
      assert Step(c, s, a) == WriteHead(c, s, a.outcome, a.stuck);
      if s.queue[0].MetaJob? {
        MetaKeepsRecord(c, ideal, s, a.outcome, a.stuck, r);
      } else {
        LayerWriteKeepsRecord(c, s, a.outcome, a.stuck, r);
      }
    } else {
      OtherStepsKeepStale(c, s, a);
    }
  }

  lemma {:induction false} LayerWriteKeepsRecord<T(!new)>(
      c: Config, s: State<T>, outcome: Outcome, stuck: set<Request>, r: Request)
    requires c.bs > 0 && Listed(c, s) && s.queue != [] && s.queue[0].LayerJob?
    requires r in s.records && r in WriteHead(c, s, outcome, stuck).store
    ensures var t := WriteHead(c, s, outcome, stuck); r in t.records && t.records[r] == s.records[r]
  {
    WriteHeadCases(c, s, outcome, stuck);
    var out := OpeningEvictsTheOldest(c, Taken(s), s.queue[0].r, stuck);
    assert r in out ==> r !in OpenEntry(c, Taken(s), s.queue[0].r, stuck).store && r != s.queue[0].r;
  }

  /** The donor is resident, with no layer's file truncated. */
  predicate Readable<T>(c: Config, s: State<T>, r: Request)
  {
    r in s.store && forall l | l in c.layers :: (r, l) !in s.torn
  }

  /** It is so now and after each of the actions. */
  predicate StaysReadable<T>(c: Config, s: State<T>, acts: seq<Action<T>>, r: Request)
    requires c.bs > 0
    decreases |acts|
  {
    Readable(c, s, r) && (acts == [] || StaysReadable(c, Step(c, s, acts[0]), acts[1..], r))
  }

  /** So what was published when a load was planned still is when it runs, if the donor was
      neither evicted nor truncated in between. */
  lemma {:induction false} ReadableStaysPublished<T(!new)>(
      c: Config, ideal: Ideal<T>, s: State<T>, acts: seq<Action<T>>, r: Request)
    requires c.bs > 0 && Inv(c, ideal, s) && IsRun(c, ideal, s, acts)
    requires r in s.records && r !in s.stale && StaysReadable(c, s, acts, r)
    ensures var t := Run(c, s, acts);
      r in t.records && r !in t.stale && Readable(c, t, r) && t.records[r].tokens >= s.records[r].tokens
    decreases |acts|
  {
    if acts != [] {
      StepKeepsInv(c, ideal, s, acts[0]);
      ResidentKeepsRecord(c, ideal, s, acts[0], r);
      ReadableStaysPublished(c, ideal, Step(c, s, acts[0]), acts[1..], r);
    }
  }
}
