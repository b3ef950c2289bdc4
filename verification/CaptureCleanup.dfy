/** What a finished request leaves on the disk tier, and which failures the forward thread is
    told of. */
module CaptureCleanup {
  import opened PagedKv
  import opened CapturePipeline
  import opened CaptureHonesty

  /** The captures a finish hook failed to delete, over the actions so far. */
  function NotDeleted<T>(acts: seq<Action<T>>): set<Request>
  {
    if acts == [] then {}
    else
      var last := acts[|acts| - 1];
      NotDeleted(acts[..|acts| - 1]) + if last.Flushed? then last.kept else {}
  }

  /** A finished request's files are a published donor's, or ones that could not be deleted. */
  ghost predicate OnlyPublishedLeft<T>(s: State<T>, kept: set<Request>)
  {
    forall r | r in s.retired && r in s.store :: r in s.records || r in kept
  }

  /** A layer is only ever written for a request that is not over. */
  lemma {:induction false} JobsAreOfTheLiving<T(!new)>(c: Config, ideal: Ideal<T>, s: State<T>)
    requires Inv(c, ideal, s) && s.queue != [] && s.queue[0].LayerJob?
    ensures s.queue[0].r !in s.retired
  {
    var job := s.queue[0];
    assert s.phase.Saving? && (job.r, job.layer) in s.staged;
    assert job.r in s.progress;
  }

  lemma {:induction false} LayerLeavesOnlyPublished<T>(
      c: Config, s: State<T>, outcome: Outcome, stuck: set<Request>, kept: set<Request>)
    requires !c.memory && s.queue != [] && s.queue[0].LayerJob? && s.queue[0].r !in s.retired
    requires OnlyPublishedLeft(s, kept)
    ensures OnlyPublishedLeft(WriteHead(c, s, outcome, stuck), kept)
  {
    WriteHeadCases(c, s, outcome, stuck);
    var t := WriteHead(c, s, outcome, stuck);
    assert t.retired == s.retired && t.records == s.records && t.store.Keys <= s.store.Keys + {s.queue[0].r};
  }

  lemma {:induction false} RecordLeavesOnlyPublished<T>(
      c: Config, s: State<T>, outcome: Outcome, stuck: set<Request>, kept: set<Request>)
    requires s.queue != [] && s.queue[0].MetaJob? && OnlyPublishedLeft(s, kept)
    ensures OnlyPublishedLeft(WriteHead(c, s, outcome, stuck), kept)
  {
    MetaKeepsStore(c, s, outcome, stuck);
    var t := WriteHead(c, s, outcome, stuck);
    assert t.retired == s.retired && s.records.Keys <= t.records.Keys;
  }

  lemma {:induction false} FlushedLeavesOnlyPublished<T>(c: Config, s: State<T>, now: set<Request>, kept: set<Request>)
    requires !c.memory && s.phase.Joining? && OnlyPublishedLeft(s, kept)
    ensures OnlyPublishedLeft(EndFlush(c, s, now), kept + now)
  {
  }

  lemma {:induction false} OthersLeaveOnlyPublished<T>(c: Config, s: State<T>, a: Action<T>, kept: set<Request>)
    requires c.bs > 0 && !a.Write? && !a.Flushed? && OnlyPublishedLeft(s, kept)
    ensures OnlyPublishedLeft(Step(c, s, a), kept)
  {
    if a.Save? && s.phase.Saving? {
      assert SaveLayer(c, s, a.r, a.l, a.end, a.table, a.view).store == s.store;
    } else if a.Submit? && s.phase.Submitting? {
      assert SubmitOne(s, a.r).store == s.store;
    }
  }

  lemma {:induction false} StepLeavesOnlyPublished<T(!new)>(
      c: Config, ideal: Ideal<T>, s: State<T>, a: Action<T>, kept: set<Request>)
    requires c.bs > 0 && Inv(c, ideal, s) && Enabled(c, ideal, s, a) && !c.memory && OnlyPublishedLeft(s, kept)
    ensures OnlyPublishedLeft(Step(c, s, a), kept + if a.Flushed? then a.kept else {})
  {
    if a.Flushed? {
      FlushedLeavesOnlyPublished(c, s, a.kept, kept);
    } else if !a.Write? {
      OthersLeaveOnlyPublished(c, s, a, kept);
    } else if s.queue[0].LayerJob? {
      JobsAreOfTheLiving(c, ideal, s);
      LayerLeavesOnlyPublished(c, s, a.outcome, a.stuck, kept);
    } else {
      RecordLeavesOnlyPublished(c, s, a.outcome, a.stuck, kept);
    }
    assert kept + {} == kept;
  }

  /** On the disk tier, over every run: what is left of a finished request is a donor with a
      record, or files that could not be deleted. A capture that was never published is gone. */
  lemma {:induction false} FinishedLeaveOnlyPublished<T(!new)>(
      c: Config, ideal: Ideal<T>, acts: seq<Action<T>>, n: nat, r: Request)
    requires c.bs > 0 && !c.memory && IsRun(c, ideal, Init(), acts) && n <= |acts|
    ensures var s := At(c, acts, n);
      r in s.retired && r in s.store ==> r in s.records || r in NotDeleted(acts[..n])
  {
    LeavesOnlyPublished(c, ideal, acts, n);
  }

  lemma {:induction false} LeavesOnlyPublished<T(!new)>(c: Config, ideal: Ideal<T>, acts: seq<Action<T>>, n: nat)
    requires c.bs > 0 && !c.memory && IsRun(c, ideal, Init(), acts) && n <= |acts|
    ensures OnlyPublishedLeft(At(c, acts, n), NotDeleted(acts[..n]))
    decreases n
  {
    if n > 0 {
      LeavesOnlyPublished(c, ideal, acts, n - 1);
      AtIsReachable(c, ideal, acts, n - 1);
      StepLeavesOnlyPublished(c, ideal, At(c, acts, n - 1), acts[n - 1], NotDeleted(acts[..n - 1]));
      assert acts[..n][..n - 1] == acts[..n - 1];
    }
  }

  /** The forward thread keeps nothing about a finished request. */
  ghost predicate Forgotten<T>(s: State<T>, r: Request)
  {
    && r !in s.progress && r !in s.finalized && r !in s.failed && r !in s.newFailed && r !in s.pending
    && forall l :: (r, l) !in s.staged
  }

  /** Nothing is left of a finished request, nor, past the submissions, to be submitted. */
  ghost predicate Tidy<T>(s: State<T>)
  {
    (forall r | r in s.retired :: Forgotten(s, r)) && (s.phase.Joining? ==> s.pending == {})
  }

  /** The step notes nothing new about requests that are over, and retires none. */
  ghost predicate NotesOnlyLiving<T>(s: State<T>, t: State<T>)
  {
    && t.retired == s.retired && t.pending == s.pending && t.phase == s.phase
    && forall r | r in s.retired ::
         && (r in t.progress ==> r in s.progress) && (r in t.finalized ==> r in s.finalized)
         && (r in t.failed ==> r in s.failed) && (r in t.newFailed ==> r in s.newFailed)
         && forall l :: (r, l) in t.staged ==> (r, l) in s.staged
  }

  lemma {:induction false} LivingNotesKeepTidy<T>(s: State<T>, t: State<T>)
    requires Tidy(s) && NotesOnlyLiving(s, t)
    ensures Tidy(t)
  {
    forall r | r in t.retired ensures Forgotten(t, r) {
      assert Forgotten(s, r);
    }
  }

  lemma {:induction false} LayerNotesOnlyLiving<T>(
      c: Config, s: State<T>, outcome: Outcome, stuck: set<Request>)
    requires Listed(c, s) && s.queue != [] && s.queue[0].LayerJob? && s.queue[0].r !in s.retired
    ensures NotesOnlyLiving(s, WriteHead(c, s, outcome, stuck))
  {
    WriteHeadCases(c, s, outcome, stuck);
    var out := OpeningEvictsTheOldest(c, Taken(s), s.queue[0].r, stuck);
  }

  lemma {:induction false} RecordNotesOnlyLiving<T>(
      c: Config, s: State<T>, outcome: Outcome, stuck: set<Request>)
    requires s.queue != [] && s.queue[0].MetaJob? && s.queue[0].r !in s.retired
    ensures NotesOnlyLiving(s, WriteHead(c, s, outcome, stuck))
  {
  }

  lemma {:induction false} RecordsAreOfTheLiving<T(!new)>(c: Config, ideal: Ideal<T>, s: State<T>)
    requires Inv(c, ideal, s) && s.queue != [] && s.queue[0].MetaJob?
    ensures s.queue[0].r !in s.retired
  {
    assert s.queue[0].r in s.progress;
  }

  lemma {:induction false} WriteKeepsTidy<T(!new)>(
      c: Config, ideal: Ideal<T>, s: State<T>, outcome: Outcome, stuck: set<Request>)
    requires Inv(c, ideal, s) && s.queue != [] && Tidy(s)
    ensures Tidy(WriteHead(c, s, outcome, stuck))
  {
    if s.queue[0].LayerJob? {
      JobsAreOfTheLiving(c, ideal, s);
      LayerNotesOnlyLiving(c, s, outcome, stuck);
    } else {
      RecordsAreOfTheLiving(c, ideal, s);
      RecordNotesOnlyLiving(c, s, outcome, stuck);
    }
    LivingNotesKeepTidy(s, WriteHead(c, s, outcome, stuck));
  }

  lemma {:induction false} FlushedKeepsTidy<T>(c: Config, s: State<T>, kept: set<Request>)
    requires s.phase.Joining? && s.staged == map[] && Tidy(s)
    ensures Tidy(EndFlush(c, s, kept))
  {
    var t := EndFlush(c, s, kept);
    forall r | r in t.retired ensures Forgotten(t, r) {
      assert r in s.retired ==> Forgotten(s, r);
    }
  }

  lemma {:induction false} FlushKeepsTidy<T>(s: State<T>, finish: set<Request>)
    requires s.phase.Saving? && Tidy(s)
    ensures Tidy(BeginFlush(s, finish))
  {
    var t := BeginFlush(s, finish);
    forall r | r in t.retired ensures Forgotten(t, r) {
      assert Forgotten(s, r);
    }
  }

  lemma {:induction false} SubmittingKeepsTidy<T>(s: State<T>, r: Request)
    requires s.phase.Submitting? && Tidy(s)
    ensures Tidy(SubmitOne(s, r)) && Tidy(Submitted(s))
  {
    var t, u := SubmitOne(s, r), Submitted(s);
    forall q | q in s.retired ensures Forgotten(t, q) && Forgotten(u, q) {
      assert Forgotten(s, q);
    }
  }

  lemma {:induction false} SavingKeepsTidy<T>(
      c: Config, s: State<T>, r: Request, l: Layer, end: nat, table: seq<nat>, view: seq<T>)
    requires c.bs > 0 && s.phase.Saving? && r !in s.retired && Tidy(s)
    ensures Tidy(SaveLayer(c, s, r, l, end, table, view))
  {
    var t := SaveLayer(c, s, r, l, end, table, view);
    forall q | q in s.retired ensures Forgotten(t, q) {
      assert Forgotten(s, q);
    }
  }

  lemma {:induction false} FinalizeKeepsTidy<T>(s: State<T>, r: Request)
    requires s.phase.Saving? && Tidy(s)
    ensures Tidy(QueueFinalize(s, r))
  {
    forall q | q in s.retired ensures Forgotten(QueueFinalize(s, r), q) {
      assert Forgotten(s, q);
    }
  }

  lemma {:induction false} TouchKeepsTidy<T>(c: Config, s: State<T>, r: Request)
    requires Tidy(s)
    ensures Tidy(Touch(c, s, r))
  {
    forall q | q in s.retired ensures Forgotten(Touch(c, s, r), q) {
      assert Forgotten(s, q);
    }
  }

  lemma {:induction false} StepKeepsTidy<T(!new)>(c: Config, ideal: Ideal<T>, s: State<T>, a: Action<T>)
    requires c.bs > 0 && Inv(c, ideal, s) && Enabled(c, ideal, s, a) && Tidy(s)
    ensures Tidy(Step(c, s, a))
  {
    match a
    case Save(r, l, end, table, view) => SavingKeepsTidy(c, s, r, l, end, table, view);
    case Finalize(r) => FinalizeKeepsTidy(s, r);
    case Flush(finish) => FlushKeepsTidy(s, finish);
    case Submit(r) => SubmittingKeepsTidy(s, r);
    case SubmitEnds => SubmittingKeepsTidy(s, "");
    case Flushed(kept) => FlushedKeepsTidy(c, s, kept);
    case Write(outcome, stuck) => WriteKeepsTidy(c, ideal, s, outcome, stuck);
    case Touched(r) => TouchKeepsTidy(c, s, r);
  }

  /** Over every run the maps of the forward thread hold nothing of a finished request, so
      they do not grow with the requests served. */
  lemma {:induction false} FinishedAreForgotten<T(!new)>(
      c: Config, ideal: Ideal<T>, acts: seq<Action<T>>, n: nat, r: Request)
    requires c.bs > 0 && IsRun(c, ideal, Init(), acts) && n <= |acts| && r in At(c, acts, n).retired
    ensures var s := At(c, acts, n);
      && r !in s.progress && r !in s.finalized && r !in s.failed && r !in s.newFailed && r !in s.pending
      && forall l :: (r, l) !in s.staged
  {
    StaysTidy(c, ideal, acts, n);
    assert Forgotten(At(c, acts, n), r);
  }

  lemma {:induction false} StaysTidy<T(!new)>(c: Config, ideal: Ideal<T>, acts: seq<Action<T>>, n: nat)
    requires c.bs > 0 && IsRun(c, ideal, Init(), acts) && n <= |acts|
    ensures Tidy(At(c, acts, n))
    decreases n
  {
    if n > 0 {
      StaysTidy(c, ideal, acts, n - 1);
      AtIsReachable(c, ideal, acts, n - 1);
      StepKeepsTidy(c, ideal, At(c, acts, n - 1), acts[n - 1]);
    }
  }

  /** And deleting touches nothing else: every other donor keeps what it held. */
  lemma {:induction false} PublishedStayOnDisk<T(!new)>(
      c: Config, ideal: Ideal<T>, acts: seq<Action<T>>, kept: set<Request>, r: Request)
    requires c.bs > 0 && IsRun(c, ideal, Init(), acts) && Enabled(c, ideal, Run(c, Init(), acts), Flushed(kept))
    requires var s := Run(c, Init(), acts); r in s.store && (r in s.records || r !in s.phase.finish)
    ensures var s := Run(c, Init(), acts); var t := Step(c, s, Flushed(kept));
      r in t.store && t.store[r] == s.store[r] && (r in t.records <==> r in s.records)
  {
  }

  lemma {:induction false} LayerReportsItsFailure<T>(
      c: Config, s: State<T>, outcome: Outcome, stuck: set<Request>, r: Request)
    requires s.queue != [] && s.queue[0].LayerJob?
    ensures r in WriteHead(c, s, outcome, stuck).newFailed <==>
            r in s.newFailed || (r == s.queue[0].r && outcome != Written)
  {
    WriteHeadCases(c, s, outcome, stuck);
    OpeningKeepsFailures(c, Taken(s), s.queue[0].r, stuck);
  }

  lemma {:induction false} RecordReportsItsFailure<T(!new)>(
      c: Config, ideal: Ideal<T>, acts: seq<Action<T>>, outcome: Outcome, stuck: set<Request>, r: Request)
    requires c.bs > 0 && IsRun(c, ideal, Init(), acts)
    requires var s := Run(c, Init(), acts); s.queue != [] && s.queue[0].MetaJob?
    ensures var s := Run(c, Init(), acts);
      r in WriteHead(c, s, outcome, stuck).newFailed <==>
        r in s.newFailed || (r == s.queue[0].r && outcome != Written)
  {
    var s := Run(c, Init(), acts);
    ReachableIsSound(c, ideal, acts);
    MetaCases(c, ideal, s, outcome);
    MetaKeepsStore(c, s, outcome, stuck);
  }

  /** The forward thread is told of exactly the donors with a write that failed, over every
      run: a job reports its donor when it fails, and at no other time. */
  lemma {:induction false} ReportedIffItsWriteFailed<T(!new)>(
      c: Config, ideal: Ideal<T>, acts: seq<Action<T>>, outcome: Outcome, stuck: set<Request>, r: Request)
    requires c.bs > 0 && IsRun(c, ideal, Init(), acts) && Run(c, Init(), acts).queue != []
    ensures var s := Run(c, Init(), acts);
      r in Step(c, s, Write(outcome, stuck)).newFailed <==>
        r in s.newFailed || (r == s.queue[0].r && outcome != Written)
  {
    if Run(c, Init(), acts).queue[0].LayerJob? {
      LayerReportsItsFailure(c, Run(c, Init(), acts), outcome, stuck, r);
    } else {
      RecordReportsItsFailure(c, ideal, acts, outcome, stuck, r);
    }
  }
}
