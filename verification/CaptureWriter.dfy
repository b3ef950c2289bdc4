/** The capture writer: a bounded FIFO with one consumer, join accounting, a sentinel and a
    deadline close that abandons what is still queued (capture_writer.py). Every action is
    one atomic move of a submitting thread, of a closing one or of the writer thread; runs
    interleave any number of submits with the close and the writer in any order. */
module CaptureWriter {
  import opened Blocks

  /** A job is known by its ticket, its place in the order of acceptance. */
  datatype Item = Ticket(n: nat) | Sentinel

  datatype Thread = NotStarted | Waiting | Running(item: Item, reported: bool) | Checking | Stopped

  /** Where close stands: not called, waiting for room for the sentinel, handing back the
      queue, or past both. */
  datatype Closing = Open | Enqueuing | Abandoning | Done

  datatype State = State(
    depth: nat, queue: seq<Item>, unfinished: int, closed: bool, stopping: bool, thread: Thread, closing: Closing,
    pending: nat,           // submits that passed the check and wait for room
    accepted: nat,          // jobs put on the queue so far
    inTime: nat,            // of these, the ones put before it was too late
    taken: nat,             // jobs removed from it so far
    written: seq<nat>, failed: seq<nat>)

  function Fresh(depth: int): State
  {
    State(Max(1, depth), [], 0, false, false, NotStarted, Open, 0, 0, 0, 0, [], [])
  }

  datatype Action =
    | BeginSubmit            // open writer: the thread exists, the job looks for room
    | Put                    // there is room: the job is accepted
    | PutTimesOut            // a bounded submit gives the job back
    | Get                    // the writer takes the head of the queue
    | Finish(ok: bool)       // the write returned or raised; a failure is reported
    | TaskDone               // the queue is told
    | CheckStop              // the loop looks at the stop flag
    | BeginClose
    | PutSentinel
    | SentinelTimesOut
    | AbandonOne
    | AbandonEnds

  predicate Enabled(s: State, a: Action)
  {
    match a
    case BeginSubmit => !s.closed
    case Put => s.pending > 0 && |s.queue| < s.depth
    case PutTimesOut => s.pending > 0 && |s.queue| >= s.depth
    case Get => s.thread == Waiting && s.queue != []
    case Finish(ok) => s.thread.Running? && !s.thread.reported
    case TaskDone => s.thread.Running? && s.thread.reported
    case CheckStop => s.thread == Checking
    case BeginClose => !s.closed
    case PutSentinel => s.closing == Enqueuing && |s.queue| < s.depth
    case SentinelTimesOut => s.closing == Enqueuing && |s.queue| >= s.depth
    case AbandonOne => s.closing == Abandoning && s.queue != []
    case AbandonEnds => s.closing == Abandoning && s.queue == []
  }

  /** A put that comes when close is past both of its attempts, unless it is the one job a
      thread told to stop is still waiting for. */
  predicate LatePut(s: State)
  {
    s.closing == Done && !(s.stopping && s.thread == Waiting && s.queue == [])
  }

  function Step(s: State, a: Action): State
    requires Enabled(s, a)
  {
    match a
    case BeginSubmit => s.(pending := s.pending + 1, thread := if s.thread == NotStarted then Waiting else s.thread)
    case Put =>
      s.(pending := s.pending - 1, queue := s.queue + [Ticket(s.accepted)], unfinished := s.unfinished + 1,
         accepted := s.accepted + 1, inTime := if LatePut(s) then s.inTime else s.inTime + 1)
    case PutTimesOut => s.(pending := s.pending - 1)
    case Get =>
      s.(queue := s.queue[1..], thread := Running(s.queue[0], false),
         taken := s.taken + (if s.queue[0].Ticket? then 1 else 0))
    case Finish(ok) =>
      var next := s.(thread := Running(s.thread.item, true));
      if s.thread.item == Sentinel then next
      else if ok then next.(written := s.written + [s.thread.item.n])
      else next.(failed := s.failed + [s.thread.item.n])
    case TaskDone =>
      s.(unfinished := s.unfinished - 1, thread := if s.thread.item == Sentinel then Stopped else Checking)
    case CheckStop => s.(thread := if s.stopping then Stopped else Waiting)
    case BeginClose => s.(closed := true, closing := if s.thread == NotStarted then Done else Enqueuing)
    case PutSentinel => s.(queue := s.queue + [Sentinel], unfinished := s.unfinished + 1, closing := Done)
    case SentinelTimesOut => s.(stopping := true, closing := Abandoning)
    case AbandonOne =>
      var next := s.(queue := s.queue[1..], unfinished := s.unfinished - 1);
      if s.queue[0].Ticket? then next.(taken := s.taken + 1, failed := s.failed + [s.queue[0].n]) else next
    case AbandonEnds => s.(closing := Done)
  }

  ghost predicate IsRun(s: State, actions: seq<Action>)
    decreases |actions|
  {
    actions == [] || (Enabled(s, actions[0]) && IsRun(Step(s, actions[0]), actions[1..]))
  }

  function After(s: State, actions: seq<Action>): State
    requires IsRun(s, actions)
    decreases |actions|
  {
    if actions == [] then s else After(Step(s, actions[0]), actions[1..])
  }

  // -------------------------------------------------------------- invariant

  predicate InFlight(s: State, t: nat) { s.thread == Running(Ticket(t), false) }

  predicate Queued(s: State, t: nat) { s.taken <= t < s.accepted }

  predicate Settled(s: State, t: nat) { t in s.written || t in s.failed }

  predicate HasSentinel(s: State) { |s.queue| > s.accepted - s.taken }

  predicate TakesSentinel(s: State) { s.thread.Running? && s.thread.item == Sentinel }

  /** The queue is the tickets not yet taken, in order, with at most the sentinel among them:
      behind every ticket put in time and ahead of every late one. */
  ghost predicate QueueInOrder(s: State)
  {
    && s.taken <= s.inTime <= s.accepted
    && s.accepted - s.taken <= |s.queue| <= s.accepted - s.taken + 1
    && (forall i | 0 <= i < s.inTime - s.taken :: s.queue[i] == Ticket(s.taken + i))
    && if HasSentinel(s) then
         && s.queue[s.inTime - s.taken] == Sentinel
         && forall i | s.inTime - s.taken < i < |s.queue| :: s.queue[i] == Ticket(s.taken + i - 1)
       else forall i | s.inTime - s.taken <= i < |s.queue| :: s.queue[i] == Ticket(s.taken + i)
  }

  ghost predicate Increasing(ts: seq<nat>) { forall i, j | 0 <= i < j < |ts| :: ts[i] < ts[j] }

  ghost predicate NoRepeats(ts: seq<nat>) { forall i, j | 0 <= i < j < |ts| :: ts[i] != ts[j] }

  /** Of everything taken, the current job is pending and the rest was written or failed;
      no ticket appears twice. */
  ghost predicate Accounted(s: State)
  {
    && Increasing(s.written) && NoRepeats(s.failed)
    && (forall t: nat :: t in s.written ==> t < s.taken && t !in s.failed && !InFlight(s, t))
    && (forall t: nat :: t in s.failed ==> t < s.taken && !InFlight(s, t))
    && (forall t, w: nat :: InFlight(s, t) && w in s.written ==> w < t)
    && (forall t: nat :: t < s.taken ==> t in s.written || t in s.failed || InFlight(s, t))
  }

  /** Where the threads can be, and where the sentinel is. */
  ghost predicate Placed(s: State)
  {
    && (s.thread.Running? && s.thread.item.Ticket? ==> s.thread.item.n < s.taken)
    && (s.closed <==> s.closing != Open)
    && (s.stopping ==> s.closing == Abandoning || s.closing == Done)
    && (s.closing == Abandoning ==> s.stopping)
    && (s.thread == NotStarted ==>
          s.accepted == 0 && s.queue == [] && s.pending == 0 && s.closing != Enqueuing && !s.stopping)
    && (HasSentinel(s) || TakesSentinel(s) ==> s.closing == Done && !s.stopping)
    && !(HasSentinel(s) && TakesSentinel(s))
    && (TakesSentinel(s) ==> s.taken == s.inTime)
    && (s.thread == Stopped ==>
          (s.closing == Done && s.taken == s.inTime && !HasSentinel(s)) || s.closing == Abandoning)
  }

  /** What is left to do once close is past both of its attempts. */
  ghost predicate Closed(s: State)
  {
    && (s.inTime < s.accepted ==> s.closing == Done)
    && (s.closing == Done && !s.stopping && s.thread != NotStarted ==>
          HasSentinel(s) || TakesSentinel(s) || s.thread == Stopped)
    && (s.closing == Done && s.stopping ==>
          && s.inTime - s.taken <= (if s.thread == Waiting then 1 else 0)
          && (s.thread == Waiting && s.inTime < s.accepted ==> s.inTime - s.taken == 1))
  }

  ghost predicate Inv(s: State)
  {
    && s.depth >= 1 && |s.queue| <= s.depth
    && s.unfinished == |s.queue| + (if s.thread.Running? then 1 else 0)
    && QueueInOrder(s) && Accounted(s) && Placed(s) && Closed(s)
  }

  lemma {:induction false} FreshInv(depth: int)
    ensures Inv(Fresh(depth))
  {
  }

  lemma {:induction false} HeadIsNextTicket(s: State)
    requires Inv(s) && s.queue != [] && s.queue[0].Ticket?
    requires s.closing == Abandoning || s.thread == Waiting
    ensures s.inTime > s.taken && s.queue[0] == Ticket(s.taken)
  {
  }

  lemma {:induction false} HeadIsSentinel(s: State)
    requires Inv(s) && s.queue != [] && s.queue[0] == Sentinel
    ensures s.inTime == s.taken && HasSentinel(s)
  {
  }

  lemma {:induction false} TakingKeepsQueue(s: State, a: Action)
    requires Inv(s) && Enabled(s, a) && (a.Get? || a.AbandonOne?)
    ensures QueueInOrder(Step(s, a))
  {
    if s.queue[0].Ticket? { HeadIsNextTicket(s); } else { HeadIsSentinel(s); }
  }

  lemma {:induction false} PuttingKeepsQueue(s: State)
    requires Inv(s) && Enabled(s, Put)
    ensures QueueInOrder(Step(s, Put))
    ensures LatePut(s) || s.inTime == s.accepted
  {
    if s.inTime < s.accepted { assert s.queue != []; }
    if !LatePut(s) { assert !HasSentinel(s); }
  }

  lemma {:induction false} SealingKeepsQueue(s: State)
    requires Inv(s) && Enabled(s, PutSentinel)
    ensures QueueInOrder(Step(s, PutSentinel))
  {
    assert s.inTime == s.accepted && !HasSentinel(s);
  }

  lemma {:induction false} StepKeepsQueue(s: State, a: Action)
    requires Inv(s) && Enabled(s, a)
    ensures QueueInOrder(Step(s, a))
  {
    match a
    case Get => TakingKeepsQueue(s, a);
    case AbandonOne => TakingKeepsQueue(s, a);
    case Put => PuttingKeepsQueue(s);
    case PutSentinel => SealingKeepsQueue(s);
    case _ =>
  }

  lemma {:induction false} StepKeepsCount(s: State, a: Action)
    requires Inv(s) && Enabled(s, a)
    ensures var t := Step(s, a);
      t.depth >= 1 && |t.queue| <= t.depth && t.unfinished == |t.queue| + (if t.thread.Running? then 1 else 0)
  {
  }

  lemma {:induction false} PutKeepsPlaces(s: State)
    requires Inv(s) && Enabled(s, Put)
    ensures Placed(Step(s, Put)) && Closed(Step(s, Put))
  {
    PuttingKeepsQueue(s);
    assert HasSentinel(Step(s, Put)) <==> HasSentinel(s);
  }

  lemma {:induction false} TakingKeepsPlaces(s: State, a: Action)
    requires Inv(s) && Enabled(s, a) && (a.Get? || a.AbandonOne?)
    ensures Placed(Step(s, a)) && Closed(Step(s, a))
  {
    if s.queue[0].Ticket? { HeadIsNextTicket(s); } else { HeadIsSentinel(s); }
  }

  lemma {:induction false} StepKeepsPlaces(s: State, a: Action)
    requires Inv(s) && Enabled(s, a)
    ensures Placed(Step(s, a)) && Closed(Step(s, a))
  {
    if a.Put? {
      PutKeepsPlaces(s);
    } else if a.Get? || a.AbandonOne? {
      TakingKeepsPlaces(s, a);
    }
  }

  lemma {:induction false} FinishKeepsAccounts(s: State, ok: bool)
    requires Inv(s) && Enabled(s, Finish(ok)) && s.thread.item.Ticket?
    ensures Accounted(Step(s, Finish(ok)))
  {
    var n, t := Step(s, Finish(ok)), s.thread.item.n;
    assert InFlight(s, t);
    assert forall i | 0 <= i < |s.written| :: s.written[i] in s.written;
    assert forall x: nat :: x in n.written <==> x in s.written || (ok && x == t);
    assert forall x: nat :: x in n.failed <==> x in s.failed || (!ok && x == t);
  }

  lemma {:induction false} GetKeepsAccounts(s: State)
    requires Inv(s) && Enabled(s, Get)
    ensures Accounted(Step(s, Get))
  {
    if s.queue[0].Ticket? { HeadIsNextTicket(s); }
  }

  lemma {:induction false} AbandonKeepsAccounts(s: State)
    requires Inv(s) && Enabled(s, AbandonOne)
    ensures Accounted(Step(s, AbandonOne))
  {
    if s.queue[0].Ticket? {
      HeadIsNextTicket(s);
      assert forall i | 0 <= i < |s.failed| :: s.failed[i] in s.failed;
    }
  }

  lemma {:induction false} StepKeepsAccounts(s: State, a: Action)
    requires Inv(s) && Enabled(s, a)
    ensures Accounted(Step(s, a))
  {
    if a.Get? {
      GetKeepsAccounts(s);
    } else if a.AbandonOne? {
      AbandonKeepsAccounts(s);
    } else if a.Finish? && s.thread.item.Ticket? {
      FinishKeepsAccounts(s, a.ok);
    }
  }

  /** Every action of either thread keeps the accounts. */
  lemma {:induction false} StepKeepsInv(s: State, a: Action)
    requires Inv(s) && Enabled(s, a)
    ensures Inv(Step(s, a))
  {
    StepKeepsQueue(s, a);
    StepKeepsCount(s, a);
    StepKeepsAccounts(s, a);
    StepKeepsPlaces(s, a);
  }

  /** So does every run, whatever the interleaving. */
  lemma {:induction false} RunKeepsInv(s: State, actions: seq<Action>)
    requires Inv(s) && IsRun(s, actions)
    ensures Inv(After(s, actions))
    decreases |actions|
  {
    if actions != [] {
      StepKeepsInv(s, actions[0]);
      RunKeepsInv(Step(s, actions[0]), actions[1..]);
    }
  }

  lemma {:induction false} ReachableInv(depth: int, actions: seq<Action>)
    requires IsRun(Fresh(depth), actions)
    ensures Inv(After(Fresh(depth), actions))
  {
    FreshInv(depth);
    RunKeepsInv(Fresh(depth), actions);
  }

  // -------------------------------------------------------------- guarantees

  function Count(b: bool): nat { if b then 1 else 0 }

  /** Each accepted job is in exactly one place: written, failed, queued or in flight. */
  lemma {:induction false} EachJobIsInOnePlace(depth: int, actions: seq<Action>, t: nat)
    requires IsRun(Fresh(depth), actions)
    ensures var s := After(Fresh(depth), actions);
            t < s.accepted ==>
              Count(t in s.written) + Count(t in s.failed) + Count(Queued(s, t)) + Count(InFlight(s, t)) == 1
  {
    ReachableInv(depth, actions);
  }

  /** Written jobs are a subsequence of submission order, no outcome is reported twice and
      the queue stays within its bound. */
  lemma {:induction false} WritesFollowSubmission(depth: int, actions: seq<Action>)
    requires IsRun(Fresh(depth), actions)
    ensures var s := After(Fresh(depth), actions);
            && Increasing(s.written) && NoRepeats(s.failed)
            && (forall t: nat :: t in s.written || t in s.failed ==> t < s.accepted)
            && |s.queue| <= Max(1, depth) && s.unfinished >= 0
            && (Enabled(s, Put) <==> s.pending > 0 && |s.queue| < Max(1, depth))
  {
    ReachableInv(depth, actions);
    DepthIsFixed(Fresh(depth), actions);
  }

  lemma {:induction false} DepthIsFixed(s: State, actions: seq<Action>)
    requires IsRun(s, actions)
    ensures After(s, actions).depth == s.depth
    decreases |actions|
  {
    if actions != [] { DepthIsFixed(Step(s, actions[0]), actions[1..]); }
  }

  /** When join may return: no thread yet, a closed writer, or nothing unfinished. */
  predicate JoinReturns(s: State) { s.thread == NotStarted || s.closed || s.unfinished == 0 }

  /** On an open writer join returns only when every job submitted before it is settled,
      failed writes included. */
  lemma {:induction false} JoinMeansSettled(depth: int, actions: seq<Action>, t: nat)
    requires IsRun(Fresh(depth), actions)
    ensures var s := After(Fresh(depth), actions);
            JoinReturns(s) && !s.closed && t < s.accepted ==> t in s.written || t in s.failed
  {
    ReachableInv(depth, actions);
  }

  /** So at a join of an open writer the documented promise, every job written, is kept for
      exactly the jobs whose write did not fail. */
  lemma {:induction false} JoinMeansWrittenIffNothingFailed(depth: int, actions: seq<Action>)
    requires IsRun(Fresh(depth), actions)
    ensures var s := After(Fresh(depth), actions);
            JoinReturns(s) && !s.closed ==>
              && (forall t: nat | t < s.accepted :: t in s.written <==> t !in s.failed)
              && ((forall t: nat | t < s.accepted :: t in s.written) <==> s.failed == [])
  {
    ReachableInv(depth, actions);
    var s := After(Fresh(depth), actions);
    if JoinReturns(s) && !s.closed && s.failed != [] {
      assert s.failed[0] in s.failed;
    }
  }

  /** One write that fails: the join that follows returns with its job unwritten. */
  lemma {:induction false} JoinCanLeaveAJobUnwritten()
    ensures exists actions :: IsRun(Fresh(4), actions) && ReturnsUnwritten(After(Fresh(4), actions))
  {
    var s1 := Step(Fresh(4), BeginSubmit);
    var s2 := Step(s1, Put);
    var s3 := Step(s2, Get);
    var s4 := Step(s3, Finish(false));
    var s5 := Step(s4, TaskDone);
    NoAction(s5);
    OneMoreAction(s4, TaskDone, [], s5);
    OneMoreAction(s3, Finish(false), [TaskDone] + [], s5);
    var tail := [Finish(false)] + ([TaskDone] + []);
    OneMoreAction(s2, Get, tail, s5);
    OneMoreAction(s1, Put, [Get] + tail, s5);
    OneMoreAction(Fresh(4), BeginSubmit, [Put] + ([Get] + tail), s5);
  }

  predicate ReturnsUnwritten(s: State)
  {
    JoinReturns(s) && !s.closed && s.accepted == 1 && s.written == [] && s.failed == [0]
  }

  /** And an open writer with something unfinished is never stuck: its thread can move. */
  lemma {:induction false} OpenWriterMoves(depth: int, actions: seq<Action>)
    requires IsRun(Fresh(depth), actions)
    ensures var s := After(Fresh(depth), actions);
            !s.closed && s.unfinished > 0 ==>
              Enabled(s, Get) || Enabled(s, Finish(true)) || Enabled(s, TaskDone) || Enabled(s, CheckStop)
  {
    ReachableInv(depth, actions);
  }

  /** A close strands the late puts and nothing else. Once it is over and the thread has
      stopped, however it was told to, a job is settled exactly when it was put in time; and
      right after a close that abandoned, every job put in time was written, handed back as
      failed, is the one the wedged thread holds, or is the one it is waiting for. */
  lemma {:induction false} CloseStrandsOnlyLatePuts(depth: int, actions: seq<Action>, t: nat)
    requires IsRun(Fresh(depth), actions)
    ensures var s := After(Fresh(depth), actions);
            && (s.closing == Done && s.thread == Stopped && t < s.accepted ==> (Settled(s, t) <==> t < s.inTime))
            && (s.closing == Done && s.stopping && t < s.accepted ==>
                  (t < s.inTime <==> Settled(s, t) || InFlight(s, t) || (s.thread == Waiting && t == s.taken)))
  {
    ReachableInv(depth, actions);
  }

  /** A drain that was not abandoned writes or fails in order: with the sentinel taken,
      every job put in time has been through the thread, and no late one ever is. */
  lemma {:induction false} SentinelComesLast(depth: int, actions: seq<Action>, t: nat)
    requires IsRun(Fresh(depth), actions)
    ensures var s := After(Fresh(depth), actions);
            TakesSentinel(s) && t < s.accepted ==> (Settled(s, t) <==> t < s.inTime)
  {
    ReachableInv(depth, actions);
  }

  // ----------------------------------------------------------- puts and closes

  /** No close begins while a submit waits for room. */
  ghost predicate ClosesBetweenSubmits(s: State, actions: seq<Action>)
    requires IsRun(s, actions)
    decreases |actions|
  {
    actions != [] ==>
      (actions[0].BeginClose? ==> s.pending == 0) && ClosesBetweenSubmits(Step(s, actions[0]), actions[1..])
  }

  lemma {:induction false} NoLatePuts(s: State, actions: seq<Action>)
    requires Inv(s) && IsRun(s, actions) && ClosesBetweenSubmits(s, actions)
    requires s.inTime == s.accepted && (s.closed ==> s.pending == 0)
    ensures After(s, actions).inTime == After(s, actions).accepted
    decreases |actions|
  {
    if actions != [] {
      StepKeepsInv(s, actions[0]);
      NoLatePuts(Step(s, actions[0]), actions[1..]);
    }
  }

  /** So when submits and closes do not overlap, as when one thread makes them, nothing at
      all is stranded. */
  lemma {:induction false} CloseBetweenSubmitsStrandsNothing(depth: int, actions: seq<Action>, t: nat)
    requires IsRun(Fresh(depth), actions) && ClosesBetweenSubmits(Fresh(depth), actions)
    ensures var s := After(Fresh(depth), actions);
            s.closing == Done && s.thread == Stopped && t < s.accepted ==> Settled(s, t)
  {
    FreshInv(depth);
    NoLatePuts(Fresh(depth), actions);
    CloseStrandsOnlyLatePuts(depth, actions, t);
  }

  lemma {:induction false} OneStepTimeliness(s: State, a: Action)
    requires Inv(s) && Enabled(s, a)
    ensures var u := Step(s, a);
      s.inTime <= u.inTime && s.accepted <= u.accepted && (s.inTime < s.accepted ==> u.inTime == s.inTime)
  {
    if a.Put? { PuttingKeepsQueue(s); }
  }

  /** Tickets put in time stay so, and once one is late all that follow are. */
  lemma {:induction false} TimelinessStays(s: State, actions: seq<Action>)
    requires Inv(s) && IsRun(s, actions)
    ensures var u := After(s, actions);
      s.inTime <= u.inTime && s.accepted <= u.accepted && (s.inTime < s.accepted ==> u.inTime == s.inTime)
    decreases |actions|
  {
    if actions != [] {
      OneStepTimeliness(s, actions[0]);
      StepKeepsInv(s, actions[0]);
      TimelinessStays(Step(s, actions[0]), actions[1..]);
    }
  }

  /** A job put late stays in the queue for ever; one put at any other time is settled once
      the close is over and the thread has stopped. */
  lemma {:induction false} LatePutIsStranded(depth: int, before: seq<Action>, later: seq<Action>)
    requires IsRun(Fresh(depth), before) && Enabled(After(Fresh(depth), before), Put)
    requires IsRun(Step(After(Fresh(depth), before), Put), later)
    ensures var s := After(Fresh(depth), before); var t, u := s.accepted, After(Step(s, Put), later);
      && (LatePut(s) ==> Ticket(t) in u.queue && !Settled(u, t) && !InFlight(u, t))
      && (!LatePut(s) && u.closing == Done && u.thread == Stopped ==> Settled(u, t))
  {
    ReachableInv(depth, before);
    var s := After(Fresh(depth), before);
    var t, v := s.accepted, Step(s, Put);
    PuttingKeepsQueue(s);
    StepKeepsInv(s, Put);
    RunKeepsInv(v, later);
    TimelinessStays(v, later);
    var u := After(v, later);
    if LatePut(s) {
      assert u.inTime <= t < u.accepted;
      LateIsQueued(u, t);
    }
  }

  lemma {:induction false} LateIsQueued(s: State, t: nat)
    requires QueueInOrder(s) && s.inTime <= t < s.accepted
    ensures Ticket(t) in s.queue
  {
    var i := t - s.taken;
    assert s.queue[if HasSentinel(s) then i + 1 else i] == Ticket(t);
  }

  /** A job put in time can always be settled. */
  lemma {:induction false} InTimeIsSettled(s: State, t: nat) returns (more: seq<Action>)
    requires Inv(s) && t < s.inTime
    ensures IsRun(s, more) && Settled(After(s, more), t)
    decreases if s.taken > t then 0 else t + 1 - s.taken,
              match s.thread case Running(_, reported) => if reported then 2 else 3 case Checking => 1 case _ => 0
  {
    more := [];
    if !Settled(s, t) {
      var a :=
        if s.closing == Abandoning && !InFlight(s, t) then AbandonOne
        else if s.thread == Waiting then Get
        else if s.thread == Checking then CheckStop
        else if s.thread.Running? && s.thread.reported then TaskDone
        else Finish(true);
      StepKeepsInv(s, a);
      var rest := InTimeIsSettled(Step(s, a), t);
      OneMoreAction(s, a, rest, After(Step(s, a), rest));
      more := [a] + rest;
    }
  }

  /** Some run of the threads gets the job written or reported as failed. */
  ghost predicate CanSettle(s: State, t: nat) { exists more :: IsRun(s, more) && Settled(After(s, more), t) }

  /** The exact condition, which can be read off the writer before the put: the job can still
      be written or failed exactly when the put is not late. */
  lemma {:induction false} PutStrandsIffLate(depth: int, before: seq<Action>)
    requires IsRun(Fresh(depth), before) && Enabled(After(Fresh(depth), before), Put)
    ensures var s := After(Fresh(depth), before); LatePut(s) <==> !CanSettle(Step(s, Put), s.accepted)
  {
    var s := After(Fresh(depth), before);
    if LatePut(s) {
      forall later | IsRun(Step(s, Put), later) ensures !Settled(After(Step(s, Put), later), s.accepted) {
        LatePutIsStranded(depth, before, later);
      }
    } else {
      ReachableInv(depth, before);
      PuttingKeepsQueue(s);
      StepKeepsInv(s, Put);
      var later := InTimeIsSettled(Step(s, Put), s.accepted);
    }
  }

  /** And it happens: a close from another thread, between a submit's check and its put,
      leaves that job in a queue nobody reads. */
  lemma {:induction false} ForeignCloseStrandsAJob()
    ensures exists actions :: IsRun(Fresh(4), actions) && LeftBehind(After(Fresh(4), actions))
  {
    var s0 := Step(Fresh(4), BeginSubmit);
    var s1 := Step(s0, BeginClose);
    var later := StrandingRun(s1);
    OneMoreAction(s0, BeginClose, later, After(s1, later));
    OneMoreAction(Fresh(4), BeginSubmit, [BeginClose] + later, After(s1, later));
  }

  lemma {:induction false} StrandingRun(s1: State) returns (later: seq<Action>)
    requires s1 == Step(Step(Fresh(4), BeginSubmit), BeginClose)
    ensures IsRun(s1, later) && LeftBehind(After(s1, later))
  {
    var s2 := Step(s1, PutSentinel);
    var s3 := Step(s2, Get);
    var s4 := Step(s3, Finish(true));
    later := PutAtTheEnd(s4);
    var last := After(s4, later);
    OneMoreAction(s3, Finish(true), later, last);
    later := [Finish(true)] + later;
    OneMoreAction(s2, Get, later, last);
    later := [Get] + later;
    OneMoreAction(s1, PutSentinel, later, last);
    later := [PutSentinel] + later;
  }

  /** The thread marks the sentinel done and is gone; only then does the submit put. */
  lemma {:induction false} PutAtTheEnd(s: State) returns (later: seq<Action>)
    requires s.thread == Running(Sentinel, true) && s.closing == Done && s.closed && s.queue == [] && s.depth > 0
    requires s.pending == 1 && s.accepted == 0 && s.written == [] && s.failed == []
    ensures IsRun(s, later) && LeftBehind(After(s, later))
  {
    var t := Step(s, TaskDone);
    var u := Step(t, Put);
    assert u.queue == [Ticket(0)];
    NoAction(u);
    OneMoreAction(t, Put, [], u);
    OneMoreAction(s, TaskDone, [Put] + [], u);
    later := [TaskDone] + ([Put] + []);
  }

  predicate LeftBehind(s: State)
  {
    && s.thread == Stopped && s.closing == Done && JoinReturns(s)
    && s.accepted == 1 && s.written == [] && s.failed == [] && s.queue == [Ticket(0)]
  }

  // ------------------------------------------------- the thread after a deadline

  lemma {:induction false} NoAction(s: State)
    ensures IsRun(s, []) && After(s, []) == s
  {
  }

  lemma {:induction false} OneMoreAction(s: State, a: Action, rest: seq<Action>, last: State)
    requires Enabled(s, a) && IsRun(Step(s, a), rest) && After(Step(s, a), rest) == last
    ensures IsRun(s, [a] + rest) && After(s, [a] + rest) == last
  {
    assert ([a] + rest)[0] == a && ([a] + rest)[1..] == rest;
  }

  /** A thread that waits for a job when none is queued and no submit is on its way. */
  predicate Starved(s: State) { s.thread == Waiting && s.queue == [] && s.pending == 0 }

  /** Once a deadline close has handed the queue back, a starved thread waits for ever:
      nothing is enabled any more. */
  lemma {:induction false} NothingMoves(s: State, more: seq<Action>)
    requires Inv(s) && s.closing == Done && s.stopping && Starved(s) && IsRun(s, more)
    ensures more == []
  {
  }

  /** A thread that was anywhere else reaches its exit test and stops. */
  lemma {:induction false} ThreadStops(s: State) returns (more: seq<Action>)
    requires Inv(s) && s.stopping && !Starved(s) && s.closing == Done
    ensures IsRun(s, more) && After(s, more).thread == Stopped
    decreases
      match s.thread
      case Running(_, reported) => if reported then 2 else 3
      case Checking => 1
      case Waiting => if s.queue == [] then 5 else 4
      case _ => 0
  {
    more := [];
    if s.thread != Stopped {
      var a :=
        if s.thread == Waiting then if s.queue == [] then Put else Get
        else if s.thread == Checking then CheckStop
        else if s.thread.reported then TaskDone else Finish(true);
      StepKeepsInv(s, a);
      var rest := ThreadStops(Step(s, a));
      OneMoreAction(s, a, rest, After(Step(s, a), rest));
      more := [a] + rest;
    }
  }

  /** After a close that abandoned, over every run: the thread can still stop exactly when it
      is not starved. A starved one stays blocked on an empty queue, and no action of any
      thread is left to wake it. */
  lemma {:induction false} AbandonedThreadStopsIffNotStarved(depth: int, actions: seq<Action>)
    requires IsRun(Fresh(depth), actions)
    ensures var s := After(Fresh(depth), actions);
      s.closing == Done && s.stopping ==>
        && ((exists more :: IsRun(s, more) && After(s, more).thread == Stopped) <==> !Starved(s))
        && (Starved(s) ==> forall more | IsRun(s, more) :: After(s, more) == s)
  {
    ReachableInv(depth, actions);
    var s := After(Fresh(depth), actions);
    if s.closing == Done && s.stopping {
      if Starved(s) {
        forall more | IsRun(s, more) ensures After(s, more) == s {
          NothingMoves(s, more);
        }
      } else {
        var more := ThreadStops(s);
      }
    }
  }

  /** A thread left waiting by a close that handed job 0 back. */
  predicate LeftWaiting(s: State)
  {
    s.closing == Done && s.stopping && Starved(s) && s.failed == [0]
  }

  /** And it happens: one job queued, the deadline passes before the thread takes it, the
      job is handed back, and the thread is left waiting. */
  lemma {:induction false} DeadlineCanStrandTheThread()
    ensures exists actions :: IsRun(Fresh(1), actions) && LeftWaiting(After(Fresh(1), actions))
  {
    var s1 := Step(Fresh(1), BeginSubmit);
    var s2 := Step(s1, Put);
    var s3 := Step(s2, BeginClose);
    var tail := HandingBack(s3);
    var last := After(s3, tail);
    OneMoreAction(s2, BeginClose, tail, last);
    tail := [BeginClose] + tail;
    OneMoreAction(s1, Put, tail, last);
    tail := [Put] + tail;
    OneMoreAction(Fresh(1), BeginSubmit, tail, last);
  }

  lemma {:induction false} HandingBack(s: State) returns (tail: seq<Action>)
    requires s.closing == Enqueuing && s.depth == 1 && s.queue == [Ticket(0)] && s.failed == []
    requires s.thread == Waiting && s.pending == 0
    ensures IsRun(s, tail) && LeftWaiting(After(s, tail))
  {
    var t := Step(s, SentinelTimesOut);
    var u := Step(t, AbandonOne);
    var v := Step(u, AbandonEnds);
    assert v.failed == [0];
    NoAction(v);
    OneMoreAction(u, AbandonEnds, [], v);
    OneMoreAction(t, AbandonOne, [AbandonEnds] + [], v);
    tail := [AbandonOne] + ([AbandonEnds] + []);
    OneMoreAction(s, SentinelTimesOut, tail, v);
    tail := [SentinelTimesOut] + tail;
  }

  // -------------------------------------------------------------- the object

  /** What closing hands back: everything queued is failed, nothing is left. */
  function AbandonAll(s: State): (r: State)
    requires s.closing == Abandoning
    ensures r.closing == Abandoning && r.queue == []
    decreases |s.queue|
  {
    if s.queue == [] then s else AbandonAll(Step(s, AbandonOne))
  }

  /** Handing the queue back in one go is a run of single abandonments. */
  lemma {:induction false} AbandonAllIsARun(s: State) returns (actions: seq<Action>)
    requires s.closing == Abandoning
    ensures IsRun(s, actions) && After(s, actions) == AbandonAll(s)
    decreases |s.queue|
  {
    if s.queue == [] {
      actions := [];
    } else {
      var rest := AbandonAllIsARun(Step(s, AbandonOne));
      actions := [AbandonOne] + rest;
      assert actions[1..] == rest;
    }
  }

  lemma {:induction false} AfterInTwo(s: State, xs: seq<Action>, ys: seq<Action>)
    requires IsRun(s, xs) && IsRun(After(s, xs), ys)
    ensures IsRun(s, xs + ys) && After(s, xs + ys) == After(After(s, xs), ys)
    decreases |xs|
  {
    if xs == [] {
      assert xs + ys == ys;
    } else {
      assert (xs + ys)[0] == xs[0] && (xs + ys)[1..] == xs[1..] + ys;
      AfterInTwo(Step(s, xs[0]), xs[1..], ys);
    }
  }

  /** What offering the sentinel leaves. */
  function Offered(s: State): State
    requires s.closing == Enqueuing
  {
    if |s.queue| < s.depth then Step(s, PutSentinel) else Step(AbandonAll(Step(s, SentinelTimesOut)), AbandonEnds)
  }

  /** The rest of close, hand-back included, is a run of single actions, so the guarantees
      over runs are guarantees of that code. */
  lemma {:induction false} OfferingIsARun(s: State)
    requires s.closing == Enqueuing
    ensures exists actions :: IsRun(s, actions) && After(s, actions) == Offered(s)
  {
    if |s.queue| < s.depth {
      OneMoreAction(s, PutSentinel, [], Step(s, PutSentinel));
    } else {
      var t := Step(s, SentinelTimesOut);
      var handed := AbandonAllIsARun(t);
      var u := AbandonAll(t);
      OneMoreAction(u, AbandonEnds, [], Step(u, AbandonEnds));
      AfterInTwo(t, handed, [AbandonEnds] + []);
      OneMoreAction(s, SentinelTimesOut, handed + ([AbandonEnds] + []), Offered(s));
    }
  }

  /** The writer's fields, changed by one atomic action at a time: submit and close on the
      submitting thread, the loop on the writer thread. */
  class Writer {
    const depth: nat
    var queue: seq<Item>
    var unfinished: int
    var closed: bool
    var stopping: bool
    var thread: Thread
    var closing: Closing
    var pending: nat
    ghost var accepted: nat
    ghost var inTime: nat
    ghost var taken: nat
    ghost var written: seq<nat>
    ghost var failed: seq<nat>

    ghost function Now(): State
      reads this
    {
      State(depth, queue, unfinished, closed, stopping, thread, closing, pending, accepted, inTime, taken, written,
            failed)
    }

    constructor (maxQueueDepth: int)
      ensures Now() == Fresh(maxQueueDepth)
    {
      depth := Max(1, maxQueueDepth);
      queue, unfinished, closed, stopping, thread, closing, pending := [], 0, false, false, NotStarted, Open, 0;
      accepted, inTime, taken, written, failed := 0, 0, 0, [], [];
    }

    /** The first half of submit: refuse on a closed writer, otherwise start the thread. */
    method EnsureThread() returns (refused: bool)
      modifies this
      ensures refused == old(closed)
      ensures Now() == if refused then old(Now()) else Step(old(Now()), BeginSubmit)
    {
      if closed {
        return true;
      }
      if thread == NotStarted {
        thread := Waiting;
      }
      pending := pending + 1;
      return false;
    }

    /** The second half, once there is room; the job's ticket is its acceptance number. */
    method Enqueue(ghost ticket: nat, item: Item)
      requires pending > 0 && |queue| < depth && ticket == accepted && item == Ticket(ticket)
      modifies this
      ensures Now() == Step(old(Now()), Put)
    {
      inTime := if LatePut(Now()) then inTime else inTime + 1;
      queue := queue + [item];
      unfinished := unfinished + 1;
      pending := pending - 1;
      accepted := accepted + 1;
    }

    method TakeNext()
      requires Enabled(Now(), Get)
      modifies this
      ensures Now() == Step(old(Now()), Get)
    {
      thread := Running(queue[0], false);
      if queue[0].Ticket? {
        taken := taken + 1;
      }
      queue := queue[1..];
    }

    /** Run the job; one bad job is reported and does not stop the writer. */
    method Execute(ok: bool)
      requires Enabled(Now(), Finish(ok))
      modifies this
      ensures Now() == Step(old(Now()), Finish(ok))
    {
      var item := thread.item;
      thread := Running(item, true);
      if item.Ticket? {
        if ok {
          written := written + [item.n];
        } else {
          failed := failed + [item.n];
        }
      }
    }

    /** task_done, then the loop's own exit test. */
    method Settle()
      requires Enabled(Now(), TaskDone)
      modifies this
      ensures Now() == Step(old(Now()), TaskDone)
    {
      unfinished := unfinished - 1;
      thread := if thread.item == Sentinel then Stopped else Checking;
    }

    method LoopTest()
      requires Enabled(Now(), CheckStop)
      modifies this
      ensures Now() == Step(old(Now()), CheckStop)
    {
      thread := if stopping then Stopped else Waiting;
    }

    /** The start of close; a second close and a writer without a thread return at once. */
    method Shut()
      modifies this
      ensures Now() == if old(closed) then old(Now()) else Step(old(Now()), BeginClose)
    {
      if closed {
        return;
      }
      closed := true;
      closing := if thread == NotStarted then Done else Enqueuing;
    }

    /** The sentinel's bounded put: in when there is room, otherwise the queue is handed
        back job by job until it is empty. */
    method OfferSentinel()
      requires closing == Enqueuing
      modifies this
      ensures Now() == Offered(old(Now()))
    {
      if |queue| < depth {
        queue := queue + [Sentinel];
        unfinished := unfinished + 1;
        closing := Done;
        return;
      }
      stopping := true;
      closing := Abandoning;
      AbandonQueued();
      closing := Done;
    }

    method AbandonQueued()
      requires closing == Abandoning
      modifies this
      ensures Now() == AbandonAll(old(Now()))
    {
      while queue != []
        invariant closing == Abandoning && AbandonAll(Now()) == AbandonAll(old(Now()))
        decreases |queue|
      {
        AbandonNext();
      }
    }

    /** Hand one queued job back as failed, and tell the queue it is done. */
    method AbandonNext()
      requires Enabled(Now(), AbandonOne)
      modifies this
      ensures Now() == Step(old(Now()), AbandonOne)
    {
      if queue[0].Ticket? {
        taken := taken + 1;
        failed := failed + [queue[0].n];
      }
      queue := queue[1..];
      unfinished := unfinished - 1;
    }

    method MayReturnFromJoin() returns (now: bool)
      ensures now == JoinReturns(Now())
    {
      now := thread == NotStarted || closed || unfinished == 0;
    }
  }
}
