/** Which donor the memory tier's cap takes, over whole runs: the one whose last use, a load
    that read it or a write of one of its layers, is longest ago. */
module CaptureRecency {
  import opened Blocks
  import opened PagedKv
  import opened CapturePipeline
  import opened CaptureHonesty

  /** The step writes a layer of the donor, up to opening its entry. */
  predicate Opens<T>(s: State<T>, a: Action<T>, r: Request)
  {
    a.Write? && !a.outcome.FailsEarly? && s.queue != [] && s.queue[0].LayerJob? && s.queue[0].r == r
  }

  /** The step uses the donor: a load reads it, or one of its layers is written. */
  predicate Uses<T>(s: State<T>, a: Action<T>, r: Request)
  {
    (a.Touched? && a.r == r) || Opens(s, a, r)
  }

  /** The index of the last action before the n-th that used the donor; -1 when none did. */
  function LastUse<T>(c: Config, acts: seq<Action<T>>, r: Request, n: nat): (i: int)
    requires c.bs > 0 && n <= |acts|
    ensures -1 <= i < n
    decreases n
  {
    if n == 0 then -1
    else if Uses(At(c, acts, n - 1), acts[n - 1], r) then n - 1
    else LastUse(c, acts, r, n - 1)
  }

  type Age = Request -> int

  ghost function UseAt<T>(c: Config, acts: seq<Action<T>>, n: nat): Age
    requires c.bs > 0 && n <= |acts|
  {
    (r: Request) => LastUse(c, acts, r, n)
  }

  ghost predicate Ascends(order: seq<Request>, age: Age)
  {
    forall i, j | 0 <= i < j < |order| :: age(order[i]) < age(order[j])
  }

  /** now is age after r alone was used, later than anything before. */
  ghost predicate Younger(age: Age, now: Age, r: Request)
  {
    && (forall x | x != r :: now(x) == age(x))
    && (forall x | x != r :: now(x) < now(r))
  }

  lemma {:induction false} MovedAscends(order: seq<Request>, r: Request, age: Age, now: Age)
    requires Ascends(order, age) && Younger(age, now, r) && Distinct(order)
    ensures Ascends(MovedToEnd(order, r), now)
    ensures forall x | x in MovedToEnd(order, r) :: x == r || x in order
    decreases |order|
  {
    if order != [] {
      var rest := order[1..];
      assert order == [order[0]] + rest && order[0] !in rest;
      assert Ascends(rest, age);
      if order[0] == r {
        AppendedAscends(rest, r, age, now);
      } else {
        MovedAscends(rest, r, age, now);
        forall x | x in MovedToEnd(rest, r) ensures now(order[0]) < now(x) {
          if x != r {
            var k :| 0 <= k < |rest| && rest[k] == x;
            assert order[k + 1] == x;
          }
        }
      }
    }
  }

  lemma {:induction false} AppendedAscends(order: seq<Request>, r: Request, age: Age, now: Age)
    requires Ascends(order, age) && Younger(age, now, r) && r !in order
    ensures Ascends(order + [r], now)
  {
  }

  lemma {:induction false} OpenedAscends<T>(
      c: Config, s: State<T>, r: Request, stuck: set<Request>, age: Age, now: Age)
    requires c.memory && Listed(c, s) && Ascends(s.order, age) && Younger(age, now, r)
    ensures Ascends(OpenEntry(c, s, r, stuck).order, now)
  {
    if r in s.store {
      MovedAscends(s.order, r, age, now);
    } else if |s.order| < Limit(c) {
      AppendedAscends(s.order, r, age, now);
    } else {
      assert s.order[0] in s.order;
      OverTheCap(c, s, r, stuck);
      AppendedAscends(s.order[1..], r, age, now);
    }
  }

  lemma {:induction false} TouchedAscends<T>(c: Config, s: State<T>, r: Request, age: Age, now: Age)
    requires c.memory && Listed(c, s) && Ascends(s.order, age) && Younger(age, now, r)
    ensures Ascends(Touch(c, s, r).order, now)
  {
    if r in s.store { MovedAscends(s.order, r, age, now); }
  }

  lemma {:induction false} WrittenOrder<T>(c: Config, s: State<T>, outcome: Outcome, stuck: set<Request>)
    requires s.queue != [] && s.queue[0].LayerJob?
    ensures WriteHead(c, s, outcome, stuck).order ==
      if outcome.FailsEarly? then s.order else OpenEntry(c, Taken(s), s.queue[0].r, stuck).order
  {
    WriteHeadCases(c, s, outcome, stuck);
  }

  lemma {:induction false} OtherStepsKeepOrder<T>(c: Config, s: State<T>, a: Action<T>)
    requires c.bs > 0 && !a.Touched? && (a.Write? && s.queue != [] ==> s.queue[0].MetaJob?)
    ensures Step(c, s, a).order == s.order
  {
    if a.Write? && s.queue != [] { MetaKeepsOrder(c, s, a.outcome, a.stuck); }
  }

  lemma {:induction false} MetaKeepsOrder<T>(c: Config, s: State<T>, outcome: Outcome, stuck: set<Request>)
    requires s.queue != [] && s.queue[0].MetaJob?
    ensures WriteHead(c, s, outcome, stuck).order == s.order
  {
  }

  /** One step: whoever it uses becomes the youngest, and nobody else changes place. */
  lemma {:induction false} StepAscends<T>(c: Config, s: State<T>, a: Action<T>, age: Age, now: Age)
    requires c.bs > 0 && c.memory && Listed(c, s) && Ascends(s.order, age)
    requires forall r | Uses(s, a, r) :: Younger(age, now, r)
    requires (forall r :: !Uses(s, a, r)) ==> forall x :: now(x) == age(x)
    ensures Ascends(Step(c, s, a).order, now)
  {
    if a.Touched? {
      assert Uses(s, a, a.r);
      TouchedAscends(c, s, a.r, age, now);
    } else if a.Write? && s.queue != [] && s.queue[0].LayerJob? {
      WrittenOrder(c, s, a.outcome, a.stuck);
      if !a.outcome.FailsEarly? {
        assert Uses(s, a, s.queue[0].r);
        OpenedAscends(c, Taken(s), s.queue[0].r, a.stuck, age, now);
      }
    } else {
      OtherStepsKeepOrder(c, s, a);
    }
  }

  lemma {:induction false} UseMakesYoungest<T>(c: Config, acts: seq<Action<T>>, n: nat, r: Request)
    requires c.bs > 0 && n < |acts| && Uses(At(c, acts, n), acts[n], r)
    ensures Younger(UseAt(c, acts, n), UseAt(c, acts, n + 1), r)
  {
    forall x | x != r
      ensures LastUse(c, acts, x, n + 1) == LastUse(c, acts, x, n) < LastUse(c, acts, r, n + 1)
    {
      assert !Uses(At(c, acts, n), acts[n], x);
    }
  }

  /** Over every run the memory tier's order, oldest first, is the order of last use. */
  lemma {:induction false} OrderIsByLastUse<T(!new)>(c: Config, ideal: Ideal<T>, acts: seq<Action<T>>, n: nat)
    requires c.bs > 0 && c.memory && IsRun(c, ideal, Init(), acts) && n <= |acts|
    ensures var order := At(c, acts, n).order;
      forall i, j | 0 <= i < j < |order| :: LastUse(c, acts, order[i], n) < LastUse(c, acts, order[j], n)
    decreases n
  {
    if n > 0 {
      OrderIsByLastUse(c, ideal, acts, n - 1);
      OrderStaysByLastUse(c, ideal, acts, n - 1);
    }
  }

  lemma {:induction false} OrderStaysByLastUse<T(!new)>(c: Config, ideal: Ideal<T>, acts: seq<Action<T>>, n: nat)
    requires c.bs > 0 && c.memory && IsRun(c, ideal, Init(), acts) && n < |acts|
    requires Ascends(At(c, acts, n).order, UseAt(c, acts, n))
    ensures Ascends(At(c, acts, n + 1).order, UseAt(c, acts, n + 1))
  {
    AtIsReachable(c, ideal, acts, n);
    var s, a := At(c, acts, n), acts[n];
    forall r | Uses(s, a, r) ensures Younger(UseAt(c, acts, n), UseAt(c, acts, n + 1), r) {
      UseMakesYoungest(c, acts, n, r);
    }
    StepAscends(c, s, a, UseAt(c, acts, n), UseAt(c, acts, n + 1));
  }

  /** r is resident, and every other resident was used after its last use. */
  ghost predicate LeastRecent<T>(c: Config, acts: seq<Action<T>>, r: Request, n: nat)
    requires c.bs > 0 && n <= |acts|
  {
    && r in At(c, acts, n).store
    && forall x | x in At(c, acts, n).store && x != r :: LastUse(c, acts, r, n) < LastUse(c, acts, x, n)
  }

  /** The step writes a donor the tier does not hold while it is at its cap. */
  predicate Overflows<T>(c: Config, s: State<T>, a: Action<T>)
  {
    a.Write? && s.queue != [] && Opens(s, a, s.queue[0].r) && s.queue[0].r !in s.store && |s.store| == Max(1, c.cap)
  }

  lemma {:induction false} LayerEvictsTheHead<T>(c: Config, s: State<T>, a: Action<T>, r: Request)
    requires c.bs > 0 && c.memory && Listed(c, s) && a.Write? && s.queue != [] && s.queue[0].LayerJob?
    ensures Evicts(c, s, a, r) <==> Overflows(c, s, a) && s.order != [] && r == s.order[0]
  {
    ListingCounts(s.order, s.store.Keys);
    var out := OpeningEvictsTheOldest(c, Taken(s), s.queue[0].r, a.stuck);
    if r in s.store {
      LayerWriteCases(c, s, a.outcome, a.stuck, r);
    }
    assert s.order != [] ==> s.order[0] in s.order;
  }

  lemma {:induction false} EvictsTheHead<T>(c: Config, s: State<T>, a: Action<T>, r: Request)
    requires c.bs > 0 && c.memory && Listed(c, s)
    ensures Evicts(c, s, a, r) <==> Overflows(c, s, a) && s.order != [] && r == s.order[0]
  {
    if a.Write? && s.queue != [] {
      if s.queue[0].LayerJob? {
        LayerEvictsTheHead(c, s, a, r);
      } else {
        MetaKeepsStore(c, s, a.outcome, a.stuck);
      }
    }
  }

  lemma {:induction false} HeadIsLeastRecent<T(!new)>(
      c: Config, ideal: Ideal<T>, acts: seq<Action<T>>, r: Request, n: nat)
    requires c.bs > 0 && c.memory && IsRun(c, ideal, Init(), acts) && n <= |acts|
    ensures LeastRecent(c, acts, r, n) <==> At(c, acts, n).order != [] && r == At(c, acts, n).order[0]
  {
    AtIsReachable(c, ideal, acts, n);
    OrderIsByLastUse(c, ideal, acts, n);
    var s := At(c, acts, n);
    assert r in s.order <==> r in s.store;
    if s.order != [] {
      var q := s.order[0];
      assert q in s.order;
      forall x | x in s.store && x != q ensures LastUse(c, acts, q, n) < LastUse(c, acts, x, n) {
        assert x in s.order;
        var k :| 0 <= k < |s.order| && s.order[k] == x;
      }
    }
  }

  /** The cap is a cap on recency, over every run: a step evicts a donor exactly when it
      writes one the tier does not hold while the tier is at its cap, and then it evicts the
      resident whose last use is longest ago. */
  lemma {:induction false} EvictionTakesTheLeastRecent<T(!new)>(
      c: Config, ideal: Ideal<T>, acts: seq<Action<T>>, r: Request, n: nat)
    requires c.bs > 0 && c.memory && IsRun(c, ideal, Init(), acts) && n < |acts|
    ensures Evicts(c, At(c, acts, n), acts[n], r)
      <==> Overflows(c, At(c, acts, n), acts[n]) && LeastRecent(c, acts, r, n)
  {
    AtIsReachable(c, ideal, acts, n);
    HeadIsLeastRecent(c, ideal, acts, r, n);
    EvictsTheHead(c, At(c, acts, n), acts[n], r);
  }
}
