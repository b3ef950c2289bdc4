/** What the finish hook reads about a request's capture: the namespace its stores went under,
    and the reason it was turned away. */
module CaptureNotes {
  import opened Blocks
  import opened CaptureSchedule
  import opened LastWord

  /** The world after the first n events. */
  function At(cfg: Config, evs: seq<Event>, n: nat): World
    requires cfg.bs > 0 && n <= |evs|
  {
    Run(cfg, START, evs[..n])
  }

  lemma {:induction false} AtIsReachable(cfg: Config, evs: seq<Event>, n: nat)
    requires cfg.bs > 0 && IsRun(cfg, START, evs) && n <= |evs|
    ensures IsRun(cfg, START, evs[..n]) && Inv(cfg, At(cfg, evs, n))
    ensures n < |evs| ==> Enabled(At(cfg, evs, n), evs[n]) && At(cfg, evs, n + 1) == StepWorld(cfg, At(cfg, evs, n), evs[n])
  {
    PrefixIsRun(cfg, START, evs, n);
    RunKeepsInv(cfg, START, evs[..n]);
    if n < |evs| {
      LastEvent(cfg, START, evs[..n + 1]);
      assert evs[..n + 1][..n] == evs[..n];
    }
  }

  /** The i-th event emits a store for the request. */
  ghost predicate StoresAt(cfg: Config, evs: seq<Event>, r: Request, i: nat)
    requires cfg.bs > 0 && i < |evs|
  {
    StoresIn(At(cfg, evs, i + 1), r) != StoresIn(At(cfg, evs, i), r)
  }

  /** The i-th event turns the request's capture away: at its admission, or because a load was
      committed while it was open. */
  ghost predicate TurnsAwayAt(cfg: Config, evs: seq<Event>, r: Request, i: nat)
    requires cfg.bs > 0 && i < |evs|
  {
    (evs[i].Admit? && evs[i].n.r == r && TurnedAway(cfg, evs[..i], evs[i].n).Some?) || LoadMetAt(cfg, evs, r, i)
  }

  predicate IsOver(ev: Event, r: Request) { ev == Finish(r) || ev == RequestFinished(r) }

  ghost function Storing(cfg: Config, evs: seq<Event>, r: Request): nat -> bool
    requires cfg.bs > 0
  {
    (i: nat) => i < |evs| && StoresAt(cfg, evs, r, i)
  }

  ghost function TurningAway(cfg: Config, evs: seq<Event>, r: Request): nat -> bool
    requires cfg.bs > 0
  {
    (i: nat) => i < |evs| && TurnsAwayAt(cfg, evs, r, i)
  }

  ghost function Ending(evs: seq<Event>, r: Request): nat -> bool { (i: nat) => i < |evs| && IsOver(evs[i], r) }

  ghost function StoringOrEnding(cfg: Config, evs: seq<Event>, r: Request): nat -> bool
    requires cfg.bs > 0
  {
    (i: nat) => i < |evs| && (StoresAt(cfg, evs, r, i) || IsOver(evs[i], r))
  }

  ghost function Starting(cfg: Config, evs: seq<Event>, r: Request): nat -> bool
    requires cfg.bs > 0
  {
    (n: nat) => n <= |evs| && r in At(cfg, evs, n).s.started
  }

  ghost function Skipping(cfg: Config, evs: seq<Event>, r: Request): nat -> bool
    requires cfg.bs > 0
  {
    (n: nat) => n <= |evs| && r in At(cfg, evs, n).s.skipped
  }

  // -------------------------------------------------------------- one event

  lemma {:induction false} AdvanceNotes(cfg: Config, s: Scheduler, r: Request, c: Capture, computedEnd: nat)
    requires cfg.bs > 0
    ensures var o := Advance(cfg, s, r, c, computedEnd);
      && o.s.started == (if o.store.Some? then s.started[r := c.namespace] else s.started)
      && (forall x | x != r :: x in o.s.skipped <==> x in s.skipped)
      && (o.store.Some? ==> r !in o.s.skipped)
      && (o.store.None? && r in o.s.open ==> o.s.skipped == s.skipped)
  {
  }

  lemma {:induction false} AdmissionNotes(cfg: Config, s: Scheduler, n: Admission, scheduled: Scheduled)
    requires cfg.bs > 0 && n.r !in s.open
    ensures var o := AdmitOne(cfg, s, n, scheduled);
      && o.s.started == (if o.store.Some? then s.started[n.r := n.namespace] else s.started)
      && (forall x | x != n.r :: x in o.s.skipped <==> x in s.skipped)
      && (o.store.Some? ==> n.r !in o.s.skipped)
      && (o.store.None? && n.r in o.s.open ==> o.s.skipped == s.skipped)
  {
    if n.promptLen >= cfg.minPrompt && Allowed(cfg, s, n.r) && !n.declined && n.table.Some? {
      var u := ConsumeServed(s, n.r);
      var t := u.(boundaries := u.boundaries[n.r := n.computed]);
      var c := Capture(n.promptLen, n.table.value, n.namespace, 0);
      var end := ComputedEnd(n.r, n.computed, n.promptLen, scheduled);
      assert AdmitOne(cfg, s, n, scheduled) == Advance(cfg, t, n.r, c, end);
      AdvanceNotes(cfg, t, n.r, c, end);
    } else {
      RefusedAdmissionNotes(cfg, s, n, scheduled);
    }
  }

  lemma {:induction false} RefusedAdmissionNotes(cfg: Config, s: Scheduler, n: Admission, scheduled: Scheduled)
    requires cfg.bs > 0
    requires !(n.promptLen >= cfg.minPrompt && Allowed(cfg, s, n.r) && !n.declined && n.table.Some?)
    ensures var o := AdmitOne(cfg, s, n, scheduled);
      && o.store.None? && o.s.started == s.started && o.s.open == s.open
      && forall x | x != n.r :: x in o.s.skipped <==> x in s.skipped
  {
  }

  lemma {:induction false} RowNotes(cfg: Config, s: Scheduler, row: Row, scheduled: Scheduled)
    requires cfg.bs > 0 && (row.r in s.open ==> Cap(cfg, s.open[row.r].promptLen) > 0)
    ensures var o := ContinueOne(cfg, s, row, scheduled);
      var met := row.r in s.open && row.r in s.served && !cfg.captureServed;
      && (o.store.Some? ==> row.r in s.open && !met)
      && o.s.started == (if o.store.Some? then s.started[row.r := s.open[row.r].namespace] else s.started)
      && (forall x | x != row.r :: x in o.s.skipped <==> x in s.skipped)
      && (row.r in o.s.skipped <==> met || (row.r in s.skipped && o.store.None?))
  {
  }

  lemma {:induction false} OneStoreGained(w: World, v: World, store: Option<Store>, r: Request)
    requires Gains(w, v, Listed(store))
    ensures StoresIn(v, r) != StoresIn(w, r) <==> store.Some? && store.value.r == r
  {
    var was, own := StoresIn(w, r), OfRequest(Listed(store), r);
    assert StoresIn(v, r) == was + own;
    assert was + [] == was;
    assert own != [] ==> |was + own| > |was|;
    if store.Some? {
      assert Listed(store) == [store.value] && Listed(store)[1..] == [] && OfRequest([], r) == [];
      assert own == (if store.value.r == r then [store.value] else []) + [];
    }
  }

  lemma {:induction false} StoreIsItsOwn(cfg: Config, s: Scheduler, n: Admission, row: Row, scheduled: Scheduled)
    requires cfg.bs > 0
    ensures var o := AdmitOne(cfg, s, n, scheduled); o.store.Some? ==> o.store.value.r == n.r
    ensures var o := ContinueOne(cfg, s, row, scheduled); o.store.Some? ==> o.store.value.r == row.r
  {
  }

  const NOBODY := Admission("", 0, None, "", 0, false)
  const NO_ROW := Row("", None, false, 0, 0)

  lemma {:induction false} EventStarts(cfg: Config, w: World, ev: Event, r: Request)
    requires cfg.bs > 0 && Inv(cfg, w) && Enabled(w, ev)
    ensures var v := StepWorld(cfg, w, ev);
      r in v.s.started <==> StoresIn(v, r) != StoresIn(w, r) || (r in w.s.started && !IsOver(ev, r))
  {
    match ev
    case Admit(n, scheduled) =>
      AdmissionNotes(cfg, w.s, n, scheduled);
      AdmissionStoresItsOwn(cfg, w, n, scheduled, r);
    case Continue(row, scheduled) =>
      InvIsOwnOk(cfg, w, row.r);
      RowNotes(cfg, w.s, row, scheduled);
      ContinueGains(cfg, w, row, scheduled);
      StepStates(cfg, w, NOBODY, row, scheduled);
      StoreIsItsOwn(cfg, w.s, NOBODY, row, scheduled);
      OneStoreGained(w, StepWorld(cfg, w, ev), ContinueOne(cfg, w.s, row, scheduled).store, r);
    case _ => QuietEventStoresNothing(cfg, w, ev, r);
  }

  lemma {:induction false} QuietEventStoresNothing(cfg: Config, w: World, ev: Event, r: Request)
    requires cfg.bs > 0 && !ev.Admit? && !ev.Continue?
    ensures StoresIn(StepWorld(cfg, w, ev), r) == StoresIn(w, r)
  {
  }

  lemma {:induction false} StartingFollows(cfg: Config, evs: seq<Event>, r: Request)
    requires cfg.bs > 0 && IsRun(cfg, START, evs)
    ensures Follows(Starting(cfg, evs, r), Storing(cfg, evs, r), Ending(evs, r), |evs|)
  {
    assert evs[..0] == [];
    forall k: nat | k < |evs|
      ensures Turns(Starting(cfg, evs, r), Storing(cfg, evs, r), Ending(evs, r), k)
    {
      AtIsReachable(cfg, evs, k);
      EventStarts(cfg, At(cfg, evs, k), evs[k], r);
    }
  }

  /** The namespace kept for the finish hook: over every run one is kept exactly for a request
      a store was emitted for since it was last over. */
  lemma {:induction false} KeptIffStored(cfg: Config, evs: seq<Event>, r: Request, n: nat)
    requires cfg.bs > 0 && IsRun(cfg, START, evs) && n <= |evs|
    ensures r in At(cfg, evs, n).s.started <==> Since(Storing(cfg, evs, r), Ending(evs, r), n)
  {
    StartingFollows(cfg, evs, r);
    FollowsIsSince(Starting(cfg, evs, r), Storing(cfg, evs, r), Ending(evs, r), n, |evs|);
    assert Starting(cfg, evs, r)(n) <==> r in At(cfg, evs, n).s.started;
  }

  ghost predicate KeptIsOwn(w: World)
  {
    forall r | r in w.s.started :: r in w.traces && w.s.started[r] == w.traces[r].namespace
  }

  lemma {:induction false} EventKeepsOwn(cfg: Config, w: World, ev: Event)
    requires cfg.bs > 0 && Inv(cfg, w) && Enabled(w, ev) && KeptIsOwn(w)
    ensures KeptIsOwn(StepWorld(cfg, w, ev))
  {
    var v := StepWorld(cfg, w, ev);
    match ev
    case Admit(n, scheduled) =>
      AdmissionNotes(cfg, w.s, n, scheduled);
      AdmittedKeepsOwn(cfg, w, n, scheduled);
    case Continue(row, scheduled) =>
      InvIsOwnOk(cfg, w, row.r);
      RowNotes(cfg, w.s, row, scheduled);
      RowKeepsNamespaces(cfg, w, row, scheduled);
    case _ =>
  }

  lemma {:induction false} AdmittedKeepsOwn(cfg: Config, w: World, n: Admission, scheduled: Scheduled)
    requires cfg.bs > 0 && n.r !in w.traces
    ensures var v := StepWorld(cfg, w, Admit(n, scheduled)); var o := AdmitOne(cfg, w.s, n, scheduled);
      && v.s == o.s && (forall r | r in w.traces :: r in v.traces && v.traces[r] == w.traces[r])
      && (o.store.Some? ==> n.r in v.traces && v.traces[n.r].namespace == n.namespace)
  {
  }

  lemma {:induction false} RowKeepsNamespaces(cfg: Config, w: World, row: Row, scheduled: Scheduled)
    requires cfg.bs > 0
    ensures var v := StepWorld(cfg, w, Continue(row, scheduled));
      && v.s == ContinueOne(cfg, w.s, row, scheduled).s
      && forall r | r in w.traces :: r in v.traces && v.traces[r].namespace == w.traces[r].namespace
  {
  }

  /** And it is the capture's own, under which the worker writes the record. */
  lemma {:induction false} KeptIsTheCapturesOwn(cfg: Config, evs: seq<Event>, r: Request, n: nat)
    requires cfg.bs > 0 && IsRun(cfg, START, evs) && n <= |evs| && r in At(cfg, evs, n).s.started
    ensures var w := At(cfg, evs, n); r in w.traces && w.s.started[r] == w.traces[r].namespace
  {
    StaysOwn(cfg, evs, n);
  }

  lemma {:induction false} StaysOwn(cfg: Config, evs: seq<Event>, n: nat)
    requires cfg.bs > 0 && IsRun(cfg, START, evs) && n <= |evs|
    ensures KeptIsOwn(At(cfg, evs, n))
    decreases n
  {
    if n > 0 {
      StaysOwn(cfg, evs, n - 1);
      AtIsReachable(cfg, evs, n - 1);
      EventKeepsOwn(cfg, At(cfg, evs, n - 1), evs[n - 1]);
    }
  }

  // ------------------------------------------------------------------ skips

  lemma {:induction false} EventSkips(cfg: Config, evs: seq<Event>, k: nat, r: Request)
    requires cfg.bs > 0 && IsRun(cfg, START, evs) && k < |evs|
    ensures r in At(cfg, evs, k + 1).s.skipped <==>
      || TurnsAwayAt(cfg, evs, r, k)
      || (r in At(cfg, evs, k).s.skipped && !StoresAt(cfg, evs, r, k) && !IsOver(evs[k], r))
  {
    AtIsReachable(cfg, evs, k);
    match evs[k]
    case Admit(n, scheduled) => AdmissionSkips(cfg, evs, k, r);
    case Continue(row, scheduled) => RowSkips(cfg, evs, k, r);
    case _ => QuietEventStoresNothing(cfg, At(cfg, evs, k), evs[k], r);
  }

  lemma {:induction false} AdmissionMovesSkips(
      cfg: Config, s: Scheduler, n: Admission, scheduled: Scheduled, why: Option<Skip>, r: Request)
    requires cfg.bs > 0 && n.r !in s.open
    requires why == if n.promptLen < cfg.minPrompt then Some(ShortPrompt)
                    else if !cfg.captureServed && n.r in s.served then Some(Skip.Served)
                    else if n.declined then Some(PolicyDeclined)
                    else if n.table.None? then Some(NoBlockIds)
                    else if Cap(cfg, n.promptLen) <= 0 then Some(BelowOneBlock)
                    else None
    ensures var o := AdmitOne(cfg, s, n, scheduled);
      r in o.s.skipped <==> (r == n.r && why.Some?) || (r in s.skipped && !(o.store.Some? && r == n.r))
  {
    AdmissionNotes(cfg, s, n, scheduled);
    AdmissionOutcome(cfg, s, n, scheduled, why);
  }

  lemma {:induction false} AdmissionStoresItsOwn(cfg: Config, w: World, n: Admission, scheduled: Scheduled, r: Request)
    requires cfg.bs > 0 && Enabled(w, Admit(n, scheduled))
    ensures var v := StepWorld(cfg, w, Admit(n, scheduled)); var o := AdmitOne(cfg, w.s, n, scheduled);
      v.s == o.s && (StoresIn(v, r) != StoresIn(w, r) <==> o.store.Some? && r == n.r)
  {
    AdmitGains(cfg, w, n, scheduled);
    StepStates(cfg, w, n, NO_ROW, scheduled);
    StoreIsItsOwn(cfg, w.s, n, NO_ROW, scheduled);
    OneStoreGained(w, StepWorld(cfg, w, Admit(n, scheduled)), AdmitOne(cfg, w.s, n, scheduled).store, r);
  }

  lemma {:induction false} AdmissionSkips(cfg: Config, evs: seq<Event>, k: nat, r: Request)
    requires cfg.bs > 0 && IsRun(cfg, START, evs) && k < |evs| && evs[k].Admit?
    ensures r in At(cfg, evs, k + 1).s.skipped <==>
      || TurnsAwayAt(cfg, evs, r, k)
      || (r in At(cfg, evs, k).s.skipped && !StoresAt(cfg, evs, r, k) && !IsOver(evs[k], r))
  {
    var w, n, scheduled := At(cfg, evs, k), evs[k].n, evs[k].scheduled;
    assert Enabled(w, evs[k]) && At(cfg, evs, k + 1) == StepWorld(cfg, w, evs[k]) by { AtIsReachable(cfg, evs, k); }
    ServedIffLoadPending(cfg, evs[..k], n.r);
    CapIsABlock(cfg, n.promptLen);
    AdmissionMovesSkips(cfg, w.s, n, scheduled, TurnedAway(cfg, evs[..k], n), r);
    AdmissionStoresItsOwn(cfg, w, n, scheduled, r);
  }

  lemma {:induction false} RowSkips(cfg: Config, evs: seq<Event>, k: nat, r: Request)
    requires cfg.bs > 0 && IsRun(cfg, START, evs) && k < |evs| && evs[k].Continue?
    ensures r in At(cfg, evs, k + 1).s.skipped <==>
      || TurnsAwayAt(cfg, evs, r, k)
      || (r in At(cfg, evs, k).s.skipped && !StoresAt(cfg, evs, r, k) && !IsOver(evs[k], r))
  {
    AtIsReachable(cfg, evs, k);
    var w, row, scheduled := At(cfg, evs, k), evs[k].row, evs[k].scheduled;
    InvIsOwnOk(cfg, w, row.r);
    RowNotes(cfg, w.s, row, scheduled);
    ContinueGains(cfg, w, row, scheduled);
    StepStates(cfg, w, NOBODY, row, scheduled);
    StoreIsItsOwn(cfg, w.s, NOBODY, row, scheduled);
    OneStoreGained(w, At(cfg, evs, k + 1), ContinueOne(cfg, w.s, row, scheduled).store, r);
    ServedIffLoadPending(cfg, evs[..k], r);
  }

  lemma {:induction false} SkippingFollows(cfg: Config, evs: seq<Event>, r: Request)
    requires cfg.bs > 0 && IsRun(cfg, START, evs)
    ensures Follows(Skipping(cfg, evs, r), TurningAway(cfg, evs, r), StoringOrEnding(cfg, evs, r), |evs|)
  {
    assert evs[..0] == [];
    forall k: nat | k < |evs|
      ensures Turns(Skipping(cfg, evs, r), TurningAway(cfg, evs, r), StoringOrEnding(cfg, evs, r), k)
    {
      EventSkips(cfg, evs, k, r);
    }
  }

  /** The reason kept for the finish hook is the capture's last word: over every run one is
      kept exactly when the capture was turned away, and since then no store was emitted for
      the request and it was not over. An earlier reason never outlives a store, and a later
      one always does. */
  lemma {:induction false} SkippedIffLastWord(cfg: Config, evs: seq<Event>, r: Request, n: nat)
    requires cfg.bs > 0 && IsRun(cfg, START, evs) && n <= |evs|
    ensures r in At(cfg, evs, n).s.skipped <==>
            Since(TurningAway(cfg, evs, r), StoringOrEnding(cfg, evs, r), n)
  {
    SkippingFollows(cfg, evs, r);
    FollowsIsSince(Skipping(cfg, evs, r), TurningAway(cfg, evs, r), StoringOrEnding(cfg, evs, r), n, |evs|);
    assert Skipping(cfg, evs, r)(n) <==> r in At(cfg, evs, n).s.skipped;
  }
}
