/** Holding a finished donor until the worker publishes its capture, for a bounded number of
    scheduler steps. */
module DeferredRegistration {
  import opened Blocks

  type Request = string
  type Namespace = string

  /** One finish that offers a donor; serial tells finishes of a reused id apart. namespace
      is the capture's own, None when the request opened no capture. */
  datatype Offer = Offer(id: Request, serial: nat, namespace: Option<Namespace>, openedAt: nat)

  /** What one pass meets: the records the worker has published, and the donors the provider
      raises on. */
  datatype Sight = Sight(published: set<(Request, Namespace)>, raising: set<Request>)

  datatype Config = Config(budget: int, minPrompt: nat)

  datatype State = State(
    step: nat, held: map<Request, Offer>, finishes: nat,
    offered: set<Offer>,     // handed to the provider
    refused: set<Offer>,     // of these, the ones it raised on
    declined: set<Offer>, skipped: set<Offer>, lost: set<Offer>)

  const FRESH := State(0, map[], 0, {}, {}, {}, {}, {})

  function Registered(s: State): set<Offer> { s.offered - s.refused }

  predicate Published(o: Offer, seen: Sight) { o.namespace.Some? && (o.id, o.namespace.value) in seen.published }

  predicate Due(c: Config, s: State, o: Offer) { Max(0, s.step - o.openedAt) >= c.budget }

  predicate Leaves(c: Config, s: State, o: Offer, seen: Sight, final: bool)
  {
    Published(o, seen) || Due(c, s, o) || final
  }

  function Leaving(c: Config, s: State, seen: Sight, final: bool): set<Request>
  {
    set r | r in s.held && Leaves(c, s, s.held[r], seen, final)
  }

  /** The provider registers a donor or raises; either way the donor is done with. */
  function Hand(s: State, o: Offer, seen: Sight): State
  {
    s.(offered := s.offered + {o}, refused := if o.id in seen.raising then s.refused + {o} else s.refused)
  }

  /** Every held donor whose record is there is handed to the provider; of the others those
      out of budget, or all of them on the last pass, are declined. */
  function Retry(c: Config, s: State, seen: Sight, final: bool): State
  {
    var out := Leaving(c, s, seen, final);
    s.(held := s.held - out,
       offered := s.offered + set r | r in out && Published(s.held[r], seen) :: s.held[r],
       refused := s.refused + set r | r in out && Published(s.held[r], seen) && s.held[r].id in seen.raising :: s.held[r],
       declined := s.declined + set r | r in out && !Published(s.held[r], seen) :: s.held[r])
  }

  /** What a finish does with its own donor, after the retry. */
  function Offered(c: Config, s: State, r: Request, promptLen: nat, captureSkipped: bool, namespace: Option<Namespace>, seen: Sight): State
  {
    var o := Offer(r, s.finishes, namespace, s.step);
    var t := s.(finishes := s.finishes + 1);
    if promptLen < c.minPrompt || captureSkipped then t.(skipped := t.skipped + {o})
    else if namespace.None? || Published(o, seen) then Hand(t, o, seen)
    else if c.budget <= 0 then t.(declined := t.declined + {o})
    else t.(held := t.held[r := o], lost := if r in t.held then t.lost + {t.held[r]} else t.lost)
  }

  datatype Event =
    | BuildStep(seen: Sight)
    | Finish(r: Request, promptLen: nat, captureSkipped: bool, namespace: Option<Namespace>,
             before: Sight, seen: Sight)   // published at the retry, and at its own check
    | Shutdown(seen: Sight)

  function Step(c: Config, s: State, ev: Event): State
  {
    match ev
    case BuildStep(seen) => Retry(c, s.(step := s.step + 1), seen, false)
    case Finish(r, promptLen, captureSkipped, namespace, before, seen) =>
      Offered(c, Retry(c, s, before, false), r, promptLen, captureSkipped, namespace, seen)
    case Shutdown(seen) => Retry(c, s, seen, true)
  }

  function Run(c: Config, s: State, evs: seq<Event>): State
    decreases |evs|
  {
    if evs == [] then s else Run(c, Step(c, s, evs[0]), evs[1..])
  }

  // -------------------------------------------------------------- invariants

  function HeldOffers(s: State): set<Offer> { set r | r in s.held :: s.held[r] }

  /** Offers resolved or held by this state, class by class. */
  function Everyone(s: State): set<Offer> { s.offered + s.declined + s.skipped + s.lost + HeldOffers(s) }

  /** No offer is in two classes. */
  ghost predicate Apart(s: State)
  {
    && s.offered !! s.declined !! s.skipped !! s.lost !! HeldOffers(s)
    && s.refused <= s.offered
  }

  ghost predicate Covers(s: State, serial: nat) { exists o :: o in Everyone(s) && o.serial == serial }

  /** Exactly one offer for every finish so far. */
  ghost predicate OnePerFinish(s: State)
  {
    && (forall o | o in Everyone(s) :: o.serial < s.finishes)
    && (forall o, p | o in Everyone(s) && p in Everyone(s) && o.serial == p.serial :: o == p)
    && (forall n | 0 <= n < s.finishes :: Covers(s, n))
  }

  ghost predicate Young(c: Config, s: State)
  {
    forall r | r in s.held :: s.held[r].id == r && s.held[r].namespace.Some?
                              && s.held[r].openedAt <= s.step && s.step - s.held[r].openedAt < c.budget
  }

  ghost predicate Inv(c: Config, s: State) { Apart(s) && OnePerFinish(s) && Young(c, s) }

  lemma {:induction false} RetryMovesHeld(c: Config, s: State, seen: Sight, final: bool)
    requires Apart(s) && forall r | r in s.held :: s.held[r].id == r
    ensures var t := Retry(c, s, seen, final);
      && Apart(t) && Everyone(t) == Everyone(s)
      && (forall o | o in t.offered && o !in s.offered :: o in HeldOffers(s) && Published(o, seen))
      && (forall o | o in t.declined && o !in s.declined ::
            o in HeldOffers(s) && !Published(o, seen) && (final || Due(c, s, o)))
      && (forall r | r in t.held :: r in s.held && t.held[r] == s.held[r] && !Leaves(c, s, s.held[r], seen, final))
  {
    var t := Retry(c, s, seen, final);
    forall o | o in HeldOffers(s) ensures o in Everyone(t) {
      var r :| r in s.held && s.held[r] == o;
      assert r !in Leaving(c, s, seen, final) ==> r in t.held && t.held[r] == o;
    }
  }

  lemma {:induction false} RetryKeepsInv(c: Config, s: State, seen: Sight, final: bool)
    requires Apart(s) && OnePerFinish(s)
    requires forall r | r in s.held :: s.held[r].id == r && s.held[r].namespace.Some? && s.held[r].openedAt <= s.step
    ensures Inv(c, Retry(c, s, seen, final))
    ensures final ==> Retry(c, s, seen, final).held == map[]
  {
    RetryMovesHeld(c, s, seen, final);
    var t := Retry(c, s, seen, final);
    forall n | 0 <= n < t.finishes ensures Covers(t, n) {
      assert Covers(s, n);
      var o :| o in Everyone(s) && o.serial == n;
      assert o in Everyone(t);
    }
  }

  /** The offer a finish makes is new, and lands in exactly one class; a donor still held
      under the same id is the only one displaced. */
  lemma {:induction false} OfferedLands(
      c: Config, s: State, r: Request, promptLen: nat, captureSkipped: bool, namespace: Option<Namespace>,
      seen: Sight)
    requires Inv(c, s)
    ensures var t := Offered(c, s, r, promptLen, captureSkipped, namespace, seen);
      var o := Offer(r, s.finishes, namespace, s.step);
      Apart(t) && Everyone(t) == Everyone(s) + {o}
  {
    var t := Offered(c, s, r, promptLen, captureSkipped, namespace, seen);
    var o := Offer(r, s.finishes, namespace, s.step);
    assert o !in Everyone(s);
    if t.held != s.held {
      assert t.held == s.held[r := o];
      forall x ensures x in HeldOffers(t) <==> x == o || (x in HeldOffers(s) && !(r in s.held && x == s.held[r])) {
        if x in HeldOffers(s) && !(r in s.held && x == s.held[r]) {
          var q :| q in s.held && s.held[q] == x;
          assert q in t.held && t.held[q] == x;
        }
        if x == o {
          assert r in t.held && t.held[r] == o;
        }
        if x in HeldOffers(t) && x != o {
          var q :| q in t.held && t.held[q] == x;
          assert q != r && s.held[q].id == q;
        }
      }
    } else {
      assert HeldOffers(t) == HeldOffers(s);
    }
  }

  lemma {:induction false} OfferedKeepsInv(
      c: Config, s: State, r: Request, promptLen: nat, captureSkipped: bool, namespace: Option<Namespace>,
      seen: Sight)
    requires Inv(c, s)
    ensures Inv(c, Offered(c, s, r, promptLen, captureSkipped, namespace, seen))
  {
    OfferedLands(c, s, r, promptLen, captureSkipped, namespace, seen);
    var t := Offered(c, s, r, promptLen, captureSkipped, namespace, seen);
    OneMoreFinish(s, t, Offer(r, s.finishes, namespace, s.step));
    assert Young(c, t);
  }

  lemma {:induction false} OneMoreFinish(s: State, t: State, o: Offer)
    requires OnePerFinish(s) && o.serial == s.finishes
    requires t.finishes == s.finishes + 1 && Everyone(t) == Everyone(s) + {o}
    ensures OnePerFinish(t)
  {
    forall n | 0 <= n < t.finishes ensures Covers(t, n) {
      if n < s.finishes {
        assert Covers(s, n);
        var p :| p in Everyone(s) && p.serial == n;
        assert p in Everyone(t);
      } else {
        assert o in Everyone(t);
      }
    }
  }

  lemma {:induction false} StepKeepsInv(c: Config, s: State, ev: Event)
    requires Inv(c, s)
    ensures Inv(c, Step(c, s, ev))
  {
    match ev
    case BuildStep(seen) =>
      var t := s.(step := s.step + 1);
      TickOffersNothing(s);
      assert forall n | 0 <= n < t.finishes :: Covers(s, n) ==> Covers(t, n);
      RetryKeepsInv(c, t, seen, false);
    case Finish(r, promptLen, captureSkipped, namespace, before, seen) =>
      RetryKeepsInv(c, s, before, false);
      OfferedKeepsInv(c, Retry(c, s, before, false), r, promptLen, captureSkipped, namespace, seen);
    case Shutdown(seen) => RetryKeepsInv(c, s, seen, true);
  }

  lemma {:induction false} RunKeepsInv(c: Config, s: State, evs: seq<Event>)
    requires Inv(c, s)
    ensures Inv(c, Run(c, s, evs))
    decreases |evs|
  {
    if evs != [] {
      StepKeepsInv(c, s, evs[0]);
      RunKeepsInv(c, Step(c, s, evs[0]), evs[1..]);
    }
  }

  lemma {:induction false} FreshIsSound(c: Config)
    ensures Inv(c, FRESH)
  {
    assert Everyone(FRESH) == {};
  }

  // ---------------------------------------------------------------- theorems

  /** Over every run each finish is resolved exactly once: its one offer is registered,
      refused by the provider, declined, skipped, displaced by a reuse of its id, or still
      held, and never two of these. */
  lemma {:induction false} EachFinishResolvedOnce(c: Config, evs: seq<Event>, n: nat)
    requires n < Run(c, FRESH, evs).finishes
    ensures var s := Run(c, FRESH, evs);
      && (exists o :: o in Everyone(s) && o.serial == n && forall p | p in Everyone(s) && p.serial == n :: p == o)
      && Everyone(s) == Registered(s) + s.refused + s.declined + s.skipped + s.lost + HeldOffers(s)
      && Registered(s) !! s.refused !! s.declined !! s.skipped !! s.lost !! HeldOffers(s)
  {
    FreshIsSound(c);
    RunKeepsInv(c, FRESH, evs);
    var s := Run(c, FRESH, evs);
    assert Covers(s, n);
  }

  /** After every hook, a donor still held has waited fewer steps than the budget, however
      many finishes ran inside one step. */
  lemma {:induction false} WaitsUnderBudget(c: Config, evs: seq<Event>, r: Request)
    requires r in Run(c, FRESH, evs).held
    ensures var s := Run(c, FRESH, evs); s.held[r].openedAt <= s.step && s.step - s.held[r].openedAt < c.budget
  {
    FreshIsSound(c);
    RunKeepsInv(c, FRESH, evs);
  }

  /** The last pass leaves nobody held. */
  lemma {:induction false} ShutdownHoldsNobody(c: Config, evs: seq<Event>, seen: Sight)
    ensures Step(c, Run(c, FRESH, evs), Shutdown(seen)).held == map[]
  {
    FreshIsSound(c);
    RunKeepsInv(c, FRESH, evs);
    RetryKeepsInv(c, Run(c, FRESH, evs), seen, true);
  }

  /** What a hook's retry meets. */
  function AtRetry(ev: Event): Sight
  {
    match ev
    case BuildStep(seen) => seen
    case Finish(_, _, _, _, before, _) => before
    case Shutdown(seen) => seen
  }

  /** A pass registers the held donors it sees a record of and the provider takes. */
  predicate TakenUp(s: State, o: Offer, seen: Sight)
  {
    && o in HeldOffers(s) && o.namespace.Some? && (o.id, o.namespace.value) in seen.published
    && o.id !in seen.raising
  }

  /** A finish registers its own donor at once when it emitted no store, or its record is
      there at the finish's own check, and the provider takes it. */
  predicate TakenAtOnce(c: Config, s: State, ev: Event, o: Offer)
  {
    && ev.Finish? && o == Offer(ev.r, s.finishes, ev.namespace, s.step)
    && ev.promptLen >= c.minPrompt && !ev.captureSkipped
    && (o.namespace.Some? ==> (o.id, o.namespace.value) in ev.seen.published) && o.id !in ev.seen.raising
  }

  lemma {:induction false} RetryTakesUp(c: Config, s: State, seen: Sight, final: bool, o: Offer)
    requires Apart(s) && forall r | r in s.held :: s.held[r].id == r
    ensures var t := Retry(c, s, seen, final);
      && (o in t.offered <==> o in s.offered || (o in HeldOffers(s) && Published(o, seen)))
      && (o in Registered(t) <==> o in Registered(s) || TakenUp(s, o, seen))
  {
    var out := Leaving(c, s, seen, final);
    if o in HeldOffers(s) && Published(o, seen) {
      assert s.held[o.id] == o && o.id in out;
    }
  }

  lemma {:induction false} FinishTakesAtOnce(c: Config, s: State, t: State, ev: Event, o: Offer)
    requires ev.Finish? && t.finishes == s.finishes && t.step == s.step && t.refused <= t.offered
    requires forall p | p in t.offered :: p.serial < t.finishes
    ensures var u := Offered(c, t, ev.r, ev.promptLen, ev.captureSkipped, ev.namespace, ev.seen);
      o in Registered(u) <==> o in Registered(t) || TakenAtOnce(c, s, ev, o)
  {
  }

  /** Each registration, over every run, is tied to one check: a donor becomes registered in
      a hook exactly when it was held and the hook's retry saw its record under its capture's
      namespace, or it is the finish's own and had no store or its record at that finish's
      own check; and the provider did not raise on it there. */
  lemma {:induction false} RegisteredOnlyOnRecord(c: Config, evs: seq<Event>, ev: Event, o: Offer)
    ensures var s := Run(c, FRESH, evs);
      o in Registered(Step(c, s, ev)) && o !in Registered(s)
      <==> TakenUp(s, o, AtRetry(ev)) || TakenAtOnce(c, s, ev, o)
  {
    FreshIsSound(c);
    RunKeepsInv(c, FRESH, evs);
    var s := Run(c, FRESH, evs);
    match ev
    case BuildStep(seen) =>
      assert Apart(s.(step := s.step + 1));
      RetryTakesUp(c, s.(step := s.step + 1), seen, false, o);
    case Finish(r, promptLen, captureSkipped, namespace, before, seen) =>
      RetryTakesUp(c, s, before, false, o);
      RetryKeepsInv(c, s, before, false);
      FinishTakesAtOnce(c, s, Retry(c, s, before, false), ev, o);
    case Shutdown(seen) => RetryTakesUp(c, s, seen, true, o);
  }

  /** And a held donor is never given up on while its record is there to see, not even on
      the step its budget runs out or on the last pass: it is handed to the provider, and
      registered exactly when the provider does not raise on it. */
  lemma {:induction false} PublishedInTimeIsRegistered(c: Config, evs: seq<Event>, ev: Event, r: Request)
    requires r in Run(c, FRESH, evs).held && Published(Run(c, FRESH, evs).held[r], AtRetry(ev))
    ensures var s := Run(c, FRESH, evs); var o := s.held[r];
      && o in Step(c, s, ev).offered
      && (o in Registered(Step(c, s, ev)) <==> r !in AtRetry(ev).raising)
  {
    FreshIsSound(c);
    RunKeepsInv(c, FRESH, evs);
    var s := Run(c, FRESH, evs);
    var t := if ev.BuildStep? then s.(step := s.step + 1) else s;
    assert s.held[r] in HeldOffers(s);
    HandedInTime(c, t, AtRetry(ev), ev.Shutdown?, r);
  }

  lemma {:induction false} HandedInTime(c: Config, s: State, seen: Sight, final: bool, r: Request)
    requires r in s.held && s.held[r].id == r && s.held[r] !in s.refused && Published(s.held[r], seen)
    ensures var t := Retry(c, s, seen, final);
      s.held[r] in t.offered && (s.held[r] in t.refused <==> r in seen.raising)
  {
    assert r in Leaving(c, s, seen, final);
  }

  // ------------------------------------------------- read off the events alone

  /** How many steps the scheduler has built. */
  function Steps(evs: seq<Event>): nat
  {
    if evs == [] then 0 else Steps(evs[..|evs| - 1]) + if evs[|evs| - 1].BuildStep? then 1 else 0
  }

  function Finishes(evs: seq<Event>): nat
  {
    if evs == [] then 0 else Finishes(evs[..|evs| - 1]) + if evs[|evs| - 1].Finish? then 1 else 0
  }

  /** The offer the i-th event makes when it is a finish. */
  function OfferOf(evs: seq<Event>, i: nat): Offer
    requires i < |evs| && evs[i].Finish?
  {
    Offer(evs[i].r, Finishes(evs[..i]), evs[i].namespace, Steps(evs[..i]))
  }

  lemma {:induction false} LastStep(c: Config, s: State, evs: seq<Event>)
    requires evs != []
    ensures Run(c, s, evs) == Step(c, Run(c, s, evs[..|evs| - 1]), evs[|evs| - 1])
    decreases |evs|
  {
    if |evs| > 1 {
      LastStep(c, Step(c, s, evs[0]), evs[1..]);
      assert evs[1..][..|evs| - 2] == evs[..|evs| - 1][1..];
    }
  }

  lemma {:induction false} CountersCount(c: Config, evs: seq<Event>)
    ensures Run(c, FRESH, evs).step == Steps(evs) && Run(c, FRESH, evs).finishes == Finishes(evs)
  {
    if evs != [] {
      CountersCount(c, evs[..|evs| - 1]);
      LastStep(c, FRESH, evs);
    }
  }

  /** A step makes no offer but its finish's own. */
  lemma {:induction false} StepOffers(c: Config, s: State, ev: Event)
    requires Inv(c, s)
    ensures Everyone(Step(c, s, ev)) ==
            Everyone(s) + if ev.Finish? then {Offer(ev.r, s.finishes, ev.namespace, s.step)} else {}
  {
    if ev.Finish? {
      FinishOffers(c, s, ev);
    } else {
      PassOffersNothing(c, s, ev);
    }
  }

  lemma {:induction false} TickOffersNothing(s: State)
    requires Apart(s)
    ensures var t := s.(step := s.step + 1); HeldOffers(t) == HeldOffers(s) && Everyone(t) == Everyone(s) && Apart(t)
  {
    assert HeldOffers(s.(step := s.step + 1)) == HeldOffers(s);
  }

  lemma {:induction false} PassOffersNothing(c: Config, s: State, ev: Event)
    requires Inv(c, s) && !ev.Finish?
    ensures Everyone(Step(c, s, ev)) == Everyone(s)
  {
    var t := if ev.BuildStep? then s.(step := s.step + 1) else s;
    TickOffersNothing(s);
    RetryMovesHeld(c, t, AtRetry(ev), ev.Shutdown?);
    assert Step(c, s, ev) == Retry(c, t, AtRetry(ev), ev.Shutdown?);
  }

  lemma {:induction false} FinishOffers(c: Config, s: State, ev: Event)
    requires Inv(c, s) && ev.Finish?
    ensures Everyone(Step(c, s, ev)) == Everyone(s) + {Offer(ev.r, s.finishes, ev.namespace, s.step)}
  {
    RetryMovesHeld(c, s, ev.before, false);
    RetryKeepsInv(c, s, ev.before, false);
    OfferedLands(c, Retry(c, s, ev.before, false), ev.r, ev.promptLen, ev.captureSkipped, ev.namespace, ev.seen);
  }

  /** Some finish among the events made the offer. */
  ghost predicate Made(evs: seq<Event>, o: Offer)
  {
    exists i :: 0 <= i < |evs| && evs[i].Finish? && o == OfferOf(evs, i)
  }

  lemma {:induction false} MadeOneLater(evs: seq<Event>, o: Offer)
    requires evs != []
    ensures var n := |evs| - 1;
      Made(evs, o) <==> Made(evs[..n], o) || (evs[n].Finish? && o == OfferOf(evs, n))
  {
    var n := |evs| - 1;
    forall i | 0 <= i < n && evs[i].Finish?
      ensures OfferOf(evs[..n], i) == OfferOf(evs, i)
    {
      assert evs[..n][..i] == evs[..i];
    }
    if Made(evs[..n], o) {
      var i :| 0 <= i < n && evs[..n][i].Finish? && o == OfferOf(evs[..n], i);
      assert evs[i].Finish? && o == OfferOf(evs, i);
    }
    if Made(evs, o) {
      var i :| 0 <= i < |evs| && evs[i].Finish? && o == OfferOf(evs, i);
      assert i < n ==> evs[..n][i].Finish? && o == OfferOf(evs[..n], i);
    }
  }

  /** The offers are the finishes' own, each opened at the step its finish ran in. */
  lemma {:induction false} OffersAreFinishes(c: Config, evs: seq<Event>, o: Offer)
    ensures o in Everyone(Run(c, FRESH, evs)) <==> Made(evs, o)
  {
    if evs == [] {
      assert Everyone(FRESH) == {};
    } else {
      var n := |evs| - 1;
      OffersAreFinishes(c, evs[..n], o);
      LastStep(c, FRESH, evs);
      FreshIsSound(c);
      RunKeepsInv(c, FRESH, evs[..n]);
      StepOffers(c, Run(c, FRESH, evs[..n]), evs[n]);
      CountersCount(c, evs[..n]);
      MadeOneLater(evs, o);
    }
  }

  /** A held donor out of time: on the last pass, or when the scheduler has built at least
      the budget's number of steps since its finish, this hook's own included. */
  predicate OutOfTime(c: Config, evs: seq<Event>, ev: Event, o: Offer)
  {
    ev.Shutdown? || Steps(evs + [ev]) >= o.openedAt + c.budget
  }

  /** A finish's own donor given up on at once: no record, and no steps to wait for one. */
  predicate NotWaitedFor(c: Config, s: State, ev: Event, o: Offer)
  {
    && ev.Finish? && o == Offer(ev.r, s.finishes, ev.namespace, s.step)
    && ev.promptLen >= c.minPrompt && !ev.captureSkipped
    && o.namespace.Some? && !Published(o, ev.seen) && c.budget <= 0
  }

  lemma {:induction false} RetryDeclines(c: Config, s: State, seen: Sight, final: bool, o: Offer)
    requires Apart(s) && forall r | r in s.held :: s.held[r].id == r && s.held[r].openedAt <= s.step
    ensures o in Retry(c, s, seen, final).declined <==>
            o in s.declined || (o in HeldOffers(s) && !Published(o, seen) && (final || s.step >= o.openedAt + c.budget))
  {
    if o in HeldOffers(s) {
      assert s.held[o.id] == o;
      assert o.id in Leaving(c, s, seen, final) <==> Leaves(c, s, o, seen, final);
    }
  }

  lemma {:induction false} FinishDeclines(c: Config, s: State, t: State, ev: Event, o: Offer)
    requires ev.Finish? && t.finishes == s.finishes && t.step == s.step
    ensures o in Offered(c, t, ev.r, ev.promptLen, ev.captureSkipped, ev.namespace, ev.seen).declined <==>
            o in t.declined || NotWaitedFor(c, s, ev, o)
  {
  }

  /** Neither early nor late: over every run a hook declines a donor exactly when it was held,
      its record is not to be seen and it is out of time, or it is the finish's own and the
      budget is nothing. */
  lemma {:induction false} DeclinedIffOutOfTime(c: Config, evs: seq<Event>, ev: Event, o: Offer)
    ensures var s := Run(c, FRESH, evs);
      o in Step(c, s, ev).declined && o !in s.declined
      <==> || (o in HeldOffers(s) && !Published(o, AtRetry(ev)) && OutOfTime(c, evs, ev, o))
           || NotWaitedFor(c, s, ev, o)
  {
    FreshIsSound(c);
    RunKeepsInv(c, FRESH, evs);
    CountersCount(c, evs);
    assert (evs + [ev])[..|evs|] == evs;
    var s := Run(c, FRESH, evs);
    assert Apart(s) && (o in HeldOffers(s) ==> o !in s.declined);
    match ev
    case BuildStep(seen) =>
      assert Apart(s.(step := s.step + 1));
      RetryDeclines(c, s.(step := s.step + 1), seen, false, o);
    case Finish(r, promptLen, captureSkipped, namespace, before, seen) =>
      RetryDeclines(c, s, before, false, o);
      FinishDeclines(c, s, Retry(c, s, before, false), ev, o);
      assert NotWaitedFor(c, s, ev, o) ==> o !in Everyone(s);
    case Shutdown(seen) => RetryDeclines(c, s, seen, true, o);
  }

  // --------------------------------------------------------------- reused ids

  /** Whether a finish is held for later, after its retry. */
  predicate Defers(c: Config, ev: Event, o: Offer)
    requires ev.Finish?
  {
    ev.promptLen >= c.minPrompt && !ev.captureSkipped && ev.namespace.Some? && !Published(o, ev.seen) && c.budget > 0
  }

  lemma {:induction false} DeferralDisplaces(c: Config, s: State, ev: Event)
    requires ev.Finish? && s.lost !! HeldOffers(s)
    ensures var o := Offer(ev.r, s.finishes, ev.namespace, s.step);
      Offered(c, s, ev.r, ev.promptLen, ev.captureSkipped, ev.namespace, ev.seen).lost != s.lost
      <==> ev.r in s.held && Defers(c, ev, o)
  {
    if ev.r in s.held {
      assert s.held[ev.r] in HeldOffers(s);
      assert s.held[ev.r] !in s.lost;
    }
  }

  /** A held donor is dropped unresolved exactly when a finish under the same id is deferred
      while it is still held. */
  lemma {:induction false} LostIffIdReusedWhileHeld(c: Config, evs: seq<Event>, ev: Event)
    ensures var s := Run(c, FRESH, evs);
      Step(c, s, ev).lost != s.lost
      <==> ev.Finish? && ev.r in Retry(c, s, ev.before, false).held
           && Defers(c, ev, Offer(ev.r, s.finishes, ev.namespace, s.step))
  {
    if ev.Finish? {
      FreshIsSound(c);
      RunKeepsInv(c, FRESH, evs);
      var s := Run(c, FRESH, evs);
      RetryKeepsInv(c, s, ev.before, false);
      DeferralDisplaces(c, Retry(c, s, ev.before, false), ev);
    }
  }

  /** With every request id finishing once, no donor is ever lost. */
  lemma {:induction false} DistinctIdsLoseNobody(c: Config, s: State, evs: seq<Event>)
    requires s.lost == {}
    requires forall i | 0 <= i < |evs| && evs[i].Finish? :: evs[i].r !in s.held
    requires forall i, j | 0 <= i < j < |evs| && evs[i].Finish? && evs[j].Finish? :: evs[i].r != evs[j].r
    ensures Run(c, s, evs).lost == {}
    decreases |evs|
  {
    if evs != [] {
      var t := Step(c, s, evs[0]);
      assert forall r | r in t.held :: r in s.held || (evs[0].Finish? && r == evs[0].r);
      forall i | 0 <= i < |evs[1..]| && evs[1..][i].Finish? ensures evs[1..][i].r !in t.held {
        assert evs[1..][i] == evs[i + 1];
      }
      DistinctIdsLoseNobody(c, t, evs[1..]);
    }
  }

  /** A reused id does lose one: two captures still unpublished when they finish. */
  lemma {:induction false} ReusedIdLosesADonor()
    ensures var c := Config(2, 0);
      var finish := Finish("a", 16, false, Some("n"), Sight({}, {}), Sight({}, {}));
      Run(c, FRESH, [finish, finish]).lost == {Offer("a", 0, Some("n"), 0)}
  {
    var c := Config(2, 0);
    var finish := Finish("a", 16, false, Some("n"), Sight({}, {}), Sight({}, {}));
    var s := Step(c, FRESH, finish);
    assert Retry(c, FRESH, Sight({}, {}), false).held == map[];
    assert s.held == map["a" := Offer("a", 0, Some("n"), 0)];
    assert Retry(c, s, Sight({}, {}), false).held == s.held;
    assert [finish, finish][1..] == [finish] && [finish][1..] == [];
    assert Run(c, s, [finish]) == Run(c, Step(c, s, finish), []);
  }

  // ------------------------------------------------------ the scheduler's code

  function RetryOne(c: Config, s: State, o: Offer, r: Request, seen: Sight, final: bool): State
  {
    if Published(o, seen) then Hand(s.(held := s.held - {r}), o, seen)
    else if Due(c, s, o) || final then s.(held := s.held - {r}, declined := s.declined + {o})
    else s
  }

  lemma {:induction false} RestLeaves(c: Config, s: State, t: State, r: Request, seen: Sight, final: bool)
    requires r in s.held && t.step == s.step && t.held == s.held - {r} && Leaves(c, s, s.held[r], seen, final)
    ensures Leaving(c, s, seen, final) == Leaving(c, t, seen, final) + {r} && r !in Leaving(c, t, seen, final)
    ensures s.held - Leaving(c, s, seen, final) == t.held - Leaving(c, t, seen, final)
  {
  }

  lemma {:induction false} RetryAfterOne(c: Config, s: State, r: Request, seen: Sight, final: bool)
    requires r in s.held
    ensures Retry(c, RetryOne(c, s, s.held[r], r, seen, final), seen, final) == Retry(c, s, seen, final)
  {
    var o := s.held[r];
    var t := RetryOne(c, s, o, r, seen, final);
    if Leaves(c, s, o, seen, final) {
      RestLeaves(c, s, t, r, seen, final);
      var all, some := Retry(c, s, seen, final), Retry(c, t, seen, final);
      assert all.offered == some.offered;
      assert all.declined == some.declined;
      assert all.refused == some.refused;
    }
  }

  /** Nobody outside ids is to leave. */
  ghost predicate OthersStay(c: Config, s: State, ids: set<Request>, seen: Sight, final: bool)
  {
    forall r | r in s.held && r !in ids :: !Leaves(c, s, s.held[r], seen, final)
  }

  /** Visiting one held donor first changes nothing about where the pass ends up. */
  lemma {:induction false} RetryOneThenAll(
      c: Config, s: State, ids: set<Request>, r: Request, seen: Sight, final: bool)
    requires ids <= s.held.Keys && r in ids && OthersStay(c, s, ids, seen, final)
    ensures var t := RetryOne(c, s, s.held[r], r, seen, final);
      && Retry(c, t, seen, final) == Retry(c, s, seen, final)
      && ids - {r} <= t.held.Keys && OthersStay(c, t, ids - {r}, seen, final)
  {
    RetryAfterOne(c, s, r, seen, final);
  }

  lemma {:induction false} NobodyLeaves(c: Config, s: State, seen: Sight, final: bool)
    requires OthersStay(c, s, {}, seen, final)
    ensures Retry(c, s, seen, final) == s
  {
    var out := Leaving(c, s, seen, final);
    assert out == {} && s.held - out == s.held;
    var t := Retry(c, s, seen, final);
    assert t.offered == s.offered && t.refused == s.refused && t.declined == s.declined;
  }

  class DonorRegistry {
    const c: Config
    var step: nat
    var held: map<Request, Offer>
    var finishes: nat        // only to tell the offers of a reused id apart
    var offered: set<Offer>
    var refused: set<Offer>
    var declined: set<Offer>
    var skipped: set<Offer>
    ghost var lost: set<Offer>

    ghost function View(): State
      reads this
    {
      State(step, held, finishes, offered, refused, declined, skipped, lost)
    }

    constructor (c: Config)
      ensures this.c == c && View() == FRESH
    {
      this.c := c;
      step, held, finishes, offered, refused, declined, skipped, lost := 0, map[], 0, {}, {}, {}, {}, {};
    }

    /** One donor goes to the provider; when that raises, the donor is not registered and is
        not tried again. */
    method RegisterPendingDonor(o: Offer, seen: Sight)
      modifies this`offered, this`refused
      ensures View() == Hand(old(View()), o, seen)
    {
      offered := offered + {o};
      if o.id in seen.raising {
        refused := refused + {o};
      }
    }

    method RetryOneRegistration(r: Request, seen: Sight, final: bool)
      requires r in held
      modifies this`held, this`offered, this`refused, this`declined
      ensures View() == RetryOne(c, old(View()), old(held)[r], r, seen, final)
    {
      var o := held[r];
      var waited := Max(0, step - o.openedAt);
      if o.namespace.Some? && (o.id, o.namespace.value) in seen.published {
        held := held - {r};
        RegisterPendingDonor(o, seen);
      } else if waited < c.budget && !final {
        return;
      } else {
        held := held - {r};
        declined := declined + {o};
      }
    }

    method RetryDeferredRegistrations(seen: Sight, final: bool)
      modifies this`held, this`offered, this`refused, this`declined
      ensures View() == Retry(c, old(View()), seen, final)
    {
      var ids := held.Keys;
      while ids != {}
        invariant ids <= held.Keys && OthersStay(c, View(), ids, seen, final)
        invariant Retry(c, View(), seen, final) == Retry(c, old(View()), seen, final)
        decreases |ids|
      {
        var r :| r in ids;
        RetryOneThenAll(c, View(), ids, r, seen, final);
        RetryOneRegistration(r, seen, final);
        ids := ids - {r};
      }
      NobodyLeaves(c, View(), seen, final);
    }

    method BuildStep(seen: Sight)
      modifies this
      ensures View() == Step(c, old(View()), Event.BuildStep(seen))
    {
      step := step + 1;
      RetryDeferredRegistrations(seen, false);
    }

    /** Other donors first, then this request's own. */
    method RequestFinished(
        r: Request, promptLen: nat, captureSkipped: bool, namespace: Option<Namespace>, before: Sight, seen: Sight)
      modifies this
      ensures View() == Step(c, old(View()), Finish(r, promptLen, captureSkipped, namespace, before, seen))
    {
      RetryDeferredRegistrations(before, false);
      var o := Offer(r, finishes, namespace, step);
      finishes := finishes + 1;
      if promptLen < c.minPrompt || captureSkipped {
        skipped := skipped + {o};
      } else if namespace.Some? && (r, namespace.value) !in seen.published {
        DeferDonorRegistration(o);
      } else {
        RegisterPendingDonor(o, seen);
      }
    }

    method DeferDonorRegistration(o: Offer)
      modifies this`held, this`declined, this`lost
      ensures c.budget <= 0 ==> held == old(held) && lost == old(lost) && declined == old(declined) + {o}
      ensures c.budget > 0 ==> held == old(held)[o.id := o] && declined == old(declined)
      ensures c.budget > 0 ==> lost == if o.id in old(held) then old(lost) + {old(held)[o.id]} else old(lost)
    {
      if c.budget <= 0 {
        declined := declined + {o};
        return;
      }
      if o.id in held {
        lost := lost + {held[o.id]};
      }
      held := held[o.id := o];
    }
  }
}
