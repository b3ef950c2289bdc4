/** Keeping connector-filled blocks out of the engine's exact prefix cache: the tracker of
    each served request, the pool's hash table, and the ledger that compares the evicting
    arm with the one that leaves the blocks cached. */
module FillTracking {
  import opened Blocks

  type Request = string

  /** What one committed load is tracked by: the request's block table, the index its fill
      starts at, the blocks already acted on and the index scanning resumes from. */
  datatype Filled = Filled(table: seq<nat>, first: nat, settled: set<nat>, scanFrom: nat)

  /** evict is the knob; stages are the requests whose blocks are left cached regardless. */
  datatype Setup = Setup(evict: bool, stages: set<Request>, nullBlock: Option<nat>)

  /** One arm's state: the hash table's blocks, the trackers, the distinct-block ledger and
      what evict_blocks was passed for each request since its table was last replaced. */
  datatype Arm = Arm(
    cached: set<nat>, filled: map<Request, Filled>, ledger: map<Request, set<nat>>,
    passed: map<Request, multiset<nat>>)

  function Ledger(a: Arm, r: Request): set<nat> { if r in a.ledger then a.ledger[r] else {} }

  function Passed(a: Arm, r: Request): multiset<nat> { if r in a.passed then a.passed[r] else multiset{} }

  function ScanStart(f: Filled): nat { Max(f.first, f.scanFrom) }

  predicate IsBlock(s: Setup, b: nat) { s.nullBlock != Some(b) }

  /** The request's blocks at or past the start of its fill. */
  function Range(s: Setup, f: Filled): set<nat>
  {
    set i | f.first <= i < |f.table| && IsBlock(s, f.table[i]) :: f.table[i]
  }

  /** The unsettled blocks of the scanned tail that the hash table names. */
  function CachedFill(s: Setup, cached: set<nat>, f: Filled): set<nat>
  {
    set i | ScanStart(f) <= i < |f.table| && IsBlock(s, f.table[i]) && f.table[i] !in f.settled && f.table[i] in cached
      :: f.table[i]
  }

  /** The cursor moves past a contiguous run of settled blocks. */
  function Advance(table: seq<nat>, cursor: nat, settled: set<nat>): (r: nat)
    ensures cursor <= r <= Max(cursor, |table|)
    ensures forall i | cursor <= i < r :: table[i] in settled
    ensures r < |table| ==> table[r] !in settled
    decreases |table| - cursor
  {
    if cursor < |table| && table[cursor] in settled then Advance(table, cursor + 1, settled) else cursor
  }

  function Settle(f: Filled, handled: set<nat>): Filled
  {
    var settled := f.settled + handled;
    f.(settled := settled, scanFrom := Advance(f.table, ScanStart(f), settled))
  }

  predicate Evicts(s: Setup, r: Request) { s.evict && r !in s.stages }

  /** One pass over a tracker: act on what is cached, settle it and count it. A failed
      eviction changes nothing. */
  function Pass(s: Setup, a: Arm, r: Request, f: Filled, ok: bool): Arm
  {
    var found := CachedFill(s, a.cached, f);
    if found == {} || (Evicts(s, r) && !ok) then a.(filled := a.filled[r := f])
    else
      Arm(if Evicts(s, r) then a.cached - found else a.cached,
          a.filled[r := Settle(f, found)],
          a.ledger[r := Ledger(a, r) + found],
          if Evicts(s, r) then a.passed[r := Passed(a, r) + multiset(found)] else a.passed)
  }

  /** What evict_blocks is called with, {} when it is not called. */
  function Handed(s: Setup, a: Arm, r: Request, f: Filled): set<nat>
  {
    if Evicts(s, r) then CachedFill(s, a.cached, f) else {}
  }

  // ----------------------------------------------------------------- engine

  /** The engine's side, the same in both arms: who a block was allocated to and last
      allocated to, what was hashed for a request since it was last preempted, each request's
      own block table and the index a committed load started filling it at, which of those
      tables are current, and which requests are over. */
  datatype Engine = Engine(
    owner: map<nat, Request>, last: map<nat, Request>, hashed: map<Request, set<nat>>,
    tables: map<Request, seq<nat>>, fills: map<Request, nat>,
    current: set<Request>, finished: set<Request>)

  function HashedFor(e: Engine, r: Request): set<nat> { if r in e.hashed then e.hashed[r] else {} }

  datatype Event =
    | Alloc(r: Request, b: nat)        // the pool reallocates a block, dropping its hash
    | Hash(r: Request, b: nat)         // the pool hashes a block of the request
    | Preempt(r: Request)              // its blocks are freed, their hashes stay
    | Admit(r: Request, table: seq<nat>, first: Option<nat>, ok: bool)
                                       // the allocation hook; first, when it commits a load
    | Row(r: Request, added: Option<seq<nat>>, resumed: bool, ok: bool)
                                       // the request's line in a step's diff
    | Finish(r: Request)

  /** Non-null blocks of a table are distinct. */
  ghost predicate DistinctBlocks(s: Setup, table: seq<nat>)
  {
    forall i, j | 0 <= i < j < |table| && IsBlock(s, table[i]) :: table[i] != table[j]
  }

  /** A table the request really holds: from the fill on, blocks allocated to it now. */
  ghost predicate OwnsFrom(s: Setup, e: Engine, r: Request, table: seq<nat>, first: nat)
  {
    && DistinctBlocks(s, table)
    && forall i | first <= i < |table| && IsBlock(s, table[i]) :: table[i] in e.owner && e.owner[table[i]] == r
  }

  ghost predicate Holds(s: Setup, e: Engine, r: Request, f: Filled) { OwnsFrom(s, e, r, f.table, f.first) }

  function TableOf(e: Engine, r: Request): seq<nat> { if r in e.tables then e.tables[r] else [] }

  /** The engine's own table after a step: new blocks at its end, or, for a request that
      comes back, the whole table anew. */
  function NextTable(e: Engine, r: Request, added: Option<seq<nat>>, resumed: bool): seq<nat>
  {
    match added
    case None => TableOf(e, r)
    case Some(blocks) => if resumed then blocks else TableOf(e, r) + blocks
  }

  function Extend(f: Filled, added: Option<seq<nat>>, resumed: bool): Filled
  {
    var table := ExtendTable(f.table, added, resumed);
    if resumed then Filled(table, f.first, {}, 0) else f.(table := table)
  }

  /** The engine's own rules: a block in a running request's table is not reallocated, a
      block is hashed at most once per admission and for the request that holds it, a
      preempted request comes back as an admission or a resumed row, and a finished
      request does not come back. */
  ghost predicate Enabled(s: Setup, e: Engine, ev: Event)
  {
    && (ev.Finish? || ev.r !in e.finished)
    && match ev
       case Alloc(r, b) =>
         forall q, i | q in e.current && q in e.fills && e.fills[q] <= i < |TableOf(e, q)| && IsBlock(s, TableOf(e, q)[i]) ::
           TableOf(e, q)[i] != b
       case Hash(r, b) => b in e.owner && e.owner[b] == r && b !in HashedFor(e, r)
       case Preempt(r) => true
       case Admit(r, table, first, ok) => first.Some? ==> OwnsFrom(s, e, r, table, first.value)
       case Row(r, added, resumed, ok) =>
         r in e.fills ==> (resumed || r in e.current) && OwnsFrom(s, e, r, NextTable(e, r, added, resumed), e.fills[r])
       case Finish(r) => true
  }

  function Without(m: map<nat, Request>, v: Request): map<nat, Request>
  {
    map b | b in m && m[b] != v :: m[b]
  }

  function EngineStep(e: Engine, ev: Event): Engine
  {
    match ev
    case Alloc(r, b) => e.(owner := e.owner[b := r], last := e.last[b := r])
    case Hash(r, b) => e.(hashed := e.hashed[r := HashedFor(e, r) + {b}])
    case Preempt(r) => e.(owner := Without(e.owner, r), hashed := e.hashed - {r}, current := e.current - {r})
    case Admit(r, table, first, ok) =>
      e.(tables := e.tables[r := table],
         fills := if first.Some? then e.fills[r := first.value] else e.fills - {r},
         current := if first.Some? then e.current + {r} else e.current - {r})
    case Row(r, added, resumed, ok) =>
      e.(tables := e.tables[r := NextTable(e, r, added, resumed)],
         current := if r in e.fills then e.current + {r} else e.current)
    case Finish(r) =>
      e.(owner := Without(e.owner, r), hashed := e.hashed - {r}, tables := e.tables - {r}, fills := e.fills - {r},
         current := e.current - {r}, finished := e.finished + {r})
  }

  function ArmStep(s: Setup, a: Arm, ev: Event): Arm
  {
    match ev
    case Alloc(r, b) => a.(cached := a.cached - {b})
    case Hash(r, b) => a.(cached := a.cached + {b})
    case Preempt(r) => a
    case Admit(r, table, first, ok) =>
      var dropped := a.(filled := a.filled - {r}, passed := a.passed - {r});
      if first.None? then dropped else Pass(s, dropped, r, Filled(table, first.value, {}, 0), ok)
    case Row(r, added, resumed, ok) =>
      if r !in a.filled then a
      else
        Pass(s, if resumed then a.(passed := a.passed - {r}) else a, r, Extend(a.filled[r], added, resumed), ok)
    case Finish(r) => a.(filled := a.filled - {r}, ledger := a.ledger - {r}, passed := a.passed - {r})
  }

  const NO_ENGINE := Engine(map[], map[], map[], map[], map[], {}, {})
  const NO_ARM := Arm({}, map[], map[], map[])

  // --------------------------------------------------- one arm: invariants

  /** Everything the scan skips was settled. */
  ghost predicate CursorOk(f: Filled)
  {
    && ScanStart(f) <= Max(f.first, |f.table|)
    && forall i | f.first <= i < ScanStart(f) :: f.table[i] in f.settled
  }

  /** What a tracker guarantees even after its request was preempted. */
  ghost predicate Tracked(s: Setup, a: Arm, r: Request, f: Filled)
  {
    && CursorOk(f)
    && f.settled <= Ledger(a, r)
    && f.settled <= Range(s, f)
    && (Evicts(s, r) ==> Passed(a, r) == multiset(f.settled))
  }

  /** What it guarantees while the request holds the tracked table. */
  ghost predicate Live(s: Setup, e: Engine, a: Arm, r: Request, f: Filled)
  {
    && Holds(s, e, r, f)
    && (Evicts(s, r) ==> f.settled <= HashedFor(e, r) && f.settled !! a.cached)
  }

  ghost predicate PoolOk(e: Engine, a: Arm)
  {
    && (forall b | b in e.owner :: b in e.last && e.last[b] == e.owner[b])
    && (forall b | b in e.owner && b in a.cached :: b in HashedFor(e, e.owner[b]))
  }

  ghost predicate TrackersOk(s: Setup, e: Engine, a: Arm)
  {
    && (forall r | r in a.filled :: r !in e.finished && Tracked(s, a, r, a.filled[r]))
    && (forall r | r in e.current :: r in a.filled && Live(s, e, a, r, a.filled[r]))
  }

  ghost predicate Sound(s: Setup, e: Engine, a: Arm) { PoolOk(e, a) && TrackersOk(s, e, a) }

  /** The trackers are those of the committed loads, and each follows its request's own
      table. */
  ghost predicate Mirrors(e: Engine, a: Arm)
  {
    && a.filled.Keys == e.fills.Keys
    && forall r | r in a.filled :: r in e.tables && a.filled[r].table == e.tables[r] && a.filled[r].first == e.fills[r]
  }

  ghost predicate Inv(s: Setup, e: Engine, a: Arm) { Sound(s, e, a) && Mirrors(e, a) }

  /** A pass that did not fail on a request whose blocks are evicted leaves none of its fill
      in the hash table. */
  ghost predicate Clean(s: Setup, a: Arm, r: Request)
  {
    r in a.filled ==> Range(s, a.filled[r]) !! a.cached
  }

  lemma {:induction false} MultisetOfUnion(a: set<nat>, b: set<nat>)
    requires a !! b
    ensures multiset(a + b) == multiset(a) + multiset(b)
  {
    forall x ensures multiset(a + b)[x] == (multiset(a) + multiset(b))[x] {
      assert x in a ==> x !in b;
    }
  }

  /** A found block lies in the fill's range, and whatever of the range is not found is
      settled or not cached. */
  lemma {:induction false} FoundIsTheCachedRest(s: Setup, cached: set<nat>, f: Filled)
    requires CursorOk(f)
    ensures CachedFill(s, cached, f) == Range(s, f) * cached - f.settled
  {
    forall b | b in Range(s, f) && b in cached && b !in f.settled ensures b in CachedFill(s, cached, f) {
      var i :| f.first <= i < |f.table| && IsBlock(s, f.table[i]) && f.table[i] == b;
      assert i >= ScanStart(f);
    }
  }

  lemma {:induction false} SameRange(s: Setup, f: Filled, g: Filled)
    requires f.table == g.table && f.first == g.first
    ensures Range(s, f) == Range(s, g)
  {
  }

  lemma {:induction false} SettledPrefixGrows(s: Setup, f: Filled, handled: set<nat>)
    requires CursorOk(f)
    ensures var g := Settle(f, handled);
      && g.table == f.table && g.first == f.first && g.settled == f.settled + handled && CursorOk(g)
  {
  }

  lemma {:induction false} SettleKeepsTracked(s: Setup, a: Arm, r: Request, f: Filled, ok: bool)
    requires Tracked(s, a, r, f)
    ensures Tracked(s, Pass(s, a, r, f, ok), r, Pass(s, a, r, f, ok).filled[r])
  {
    var found := CachedFill(s, a.cached, f);
    var b := Pass(s, a, r, f, ok);
    if found == {} || (Evicts(s, r) && !ok) {
      assert b.ledger == a.ledger && b.passed == a.passed;
    } else {
      FoundIsTheCachedRest(s, a.cached, f);
      MultisetOfUnion(f.settled, found);
      SettledPrefixGrows(s, f, found);
      SameRange(s, f, b.filled[r]);
    }
  }

  lemma {:induction false} PassKeepsOwn(s: Setup, e: Engine, a: Arm, r: Request, f: Filled, ok: bool)
    requires PoolOk(e, a) && Tracked(s, a, r, f) && Live(s, e, a, r, f)
    ensures var b := Pass(s, a, r, f, ok);
      && PoolOk(e, b)
      && Tracked(s, b, r, b.filled[r])
      && Live(s, e, b, r, b.filled[r])
      && (Evicts(s, r) && ok ==> Clean(s, b, r))
  {
    SettleKeepsTracked(s, a, r, f, ok);
    FoundIsTheCachedRest(s, a.cached, f);
    var g := Pass(s, a, r, f, ok).filled[r];
    SettledPrefixGrows(s, f, CachedFill(s, a.cached, f));
    SameRange(s, f, g);
    assert Holds(s, e, r, g);
  }

  lemma {:induction false} PassKeepsOthers(s: Setup, e: Engine, a: Arm, r: Request, f: Filled, ok: bool, q: Request)
    requires q in a.filled && q != r
    ensures var b := Pass(s, a, r, f, ok);
      && q in b.filled && b.filled[q] == a.filled[q]
      && (Tracked(s, a, q, a.filled[q]) ==> Tracked(s, b, q, b.filled[q]))
      && (Live(s, e, a, q, a.filled[q]) ==> Live(s, e, b, q, b.filled[q]))
  {
  }

  /** Every tracker but r's is in order. */
  ghost predicate OthersOk(s: Setup, e: Engine, a: Arm, r: Request)
  {
    && (forall q | q in a.filled && q != r :: q !in e.finished && Tracked(s, a, q, a.filled[q]))
    && (forall q | q in e.current && q != r :: q in a.filled && Live(s, e, a, q, a.filled[q]))
  }

  lemma {:induction false} PassKeepsOthersOk(s: Setup, e: Engine, a: Arm, r: Request, f: Filled, ok: bool)
    requires OthersOk(s, e, a, r)
    ensures OthersOk(s, e, Pass(s, a, r, f, ok), r)
  {
    var b := Pass(s, a, r, f, ok);
    assert b.filled.Keys == a.filled.Keys + {r};
    forall q | q in b.filled && q != r
      ensures q !in e.finished && Tracked(s, b, q, b.filled[q])
      ensures q in e.current ==> Live(s, e, b, q, b.filled[q])
    {
      PassKeepsOthers(s, e, a, r, f, ok, q);
    }
  }

  lemma {:induction false} Gathered(s: Setup, e: Engine, a: Arm, r: Request)
    requires PoolOk(e, a) && OthersOk(s, e, a, r) && r !in e.finished
    requires r in a.filled && Tracked(s, a, r, a.filled[r]) && Live(s, e, a, r, a.filled[r])
    ensures Sound(s, e.(current := e.current + {r}), a)
  {
    var e1 := e.(current := e.current + {r});
    forall q | q in e1.current ensures q in a.filled && Live(s, e1, a, q, a.filled[q]) {
      assert Live(s, e, a, q, a.filled[q]);
    }
  }

  lemma {:induction false} PassKeepsInv(s: Setup, e: Engine, a: Arm, r: Request, f: Filled, ok: bool)
    requires PoolOk(e, a) && Tracked(s, a, r, f) && Live(s, e, a, r, f) && r !in e.finished
    requires OthersOk(s, e, a, r)
    ensures Sound(s, e.(current := e.current + {r}), Pass(s, a, r, f, ok))
    ensures Evicts(s, r) && ok ==> Clean(s, Pass(s, a, r, f, ok), r)
  {
    PassKeepsOwn(s, e, a, r, f, ok);
    PassKeepsOthersOk(s, e, a, r, f, ok);
    Gathered(s, e, Pass(s, a, r, f, ok), r);
  }

  lemma {:induction false} ForgettingKeepsOthers(s: Setup, e: Engine, a: Arm, b: Arm, r: Request)
    requires TrackersOk(s, e, a) && b.cached == a.cached
    requires b.ledger == a.ledger && b.passed == a.passed - {r}
    requires b.filled == a.filled || b.filled == a.filled - {r}
    ensures OthersOk(s, e, b, r)
  {
    forall q | q in b.filled && q != r
      ensures q !in e.finished && Tracked(s, b, q, b.filled[q])
      ensures q in e.current ==> Live(s, e, b, q, b.filled[q])
    {
      assert Tracked(s, a, q, a.filled[q]);
      assert Passed(b, q) == Passed(a, q) && Ledger(b, q) == Ledger(a, q);
    }
  }

  /** What a pass works on: the tracker the event leaves, before the pass. */
  function Dropped(a: Arm, r: Request): Arm { a.(filled := a.filled - {r}, passed := a.passed - {r}) }

  function Reclaimed(a: Arm, r: Request, resumed: bool): Arm
  {
    if resumed then a.(passed := a.passed - {r}) else a
  }

  lemma {:induction false} ExtendKeepsTracked(
      s: Setup, e: Engine, a: Arm, r: Request, added: Option<seq<nat>>, resumed: bool)
    requires Sound(s, e, a) && r in a.filled && (resumed || r in e.current)
    requires Holds(s, e, r, Extend(a.filled[r], added, resumed))
    ensures var f := Extend(a.filled[r], added, resumed);
      && Tracked(s, Reclaimed(a, r, resumed), r, f)
      && Live(s, e, Reclaimed(a, r, resumed), r, f)
  {
    var f := a.filled[r];
    var g := Extend(f, added, resumed);
    if resumed {
      assert Passed(Reclaimed(a, r, resumed), r) == multiset(g.settled);
    } else {
      assert CursorOk(g);
      forall b | b in Range(s, f) ensures b in Range(s, g) {
        var i :| f.first <= i < |f.table| && IsBlock(s, f.table[i]) && f.table[i] == b;
        assert g.table[i] == b;
      }
    }
  }

  lemma {:induction false} AllocKeepsSound(s: Setup, e: Engine, a: Arm, r: Request, b: nat)
    requires Inv(s, e, a) && Enabled(s, e, Alloc(r, b))
    ensures Sound(s, EngineStep(e, Alloc(r, b)), ArmStep(s, a, Alloc(r, b)))
  {
    var f, n := EngineStep(e, Alloc(r, b)), ArmStep(s, a, Alloc(r, b));
    forall q | q in f.current ensures q in n.filled && Live(s, f, n, q, n.filled[q]) {
      assert Live(s, e, a, q, a.filled[q]) && TableOf(e, q) == a.filled[q].table;
    }
    forall q | q in n.filled ensures q !in f.finished && Tracked(s, n, q, n.filled[q]) {
      assert Tracked(s, a, q, a.filled[q]);
    }
  }

  lemma {:induction false} HashKeepsSound(s: Setup, e: Engine, a: Arm, r: Request, b: nat)
    requires Sound(s, e, a) && Enabled(s, e, Hash(r, b))
    ensures Sound(s, EngineStep(e, Hash(r, b)), ArmStep(s, a, Hash(r, b)))
  {
    var f, n := EngineStep(e, Hash(r, b)), ArmStep(s, a, Hash(r, b));
    HashKeepsPool(s, e, a, r, b);
    forall q | q in f.current ensures q in n.filled && Live(s, f, n, q, n.filled[q]) {
      HashKeepsLive(s, e, a, r, b, q);
    }
    forall q | q in n.filled ensures q !in f.finished && Tracked(s, n, q, n.filled[q]) {
      assert Tracked(s, a, q, a.filled[q]);
    }
  }

  lemma {:induction false} HashKeepsPool(s: Setup, e: Engine, a: Arm, r: Request, b: nat)
    requires PoolOk(e, a) && Enabled(s, e, Hash(r, b))
    ensures PoolOk(EngineStep(e, Hash(r, b)), ArmStep(s, a, Hash(r, b)))
  {
  }

  /** The block hashed was not yet hashed for its holder, so it is in no fill settled. */
  lemma {:induction false} HashKeepsLive(s: Setup, e: Engine, a: Arm, r: Request, b: nat, q: Request)
    requires Sound(s, e, a) && Enabled(s, e, Hash(r, b)) && q in e.current
    ensures q in a.filled
    ensures Live(s, EngineStep(e, Hash(r, b)), ArmStep(s, a, Hash(r, b)), q, a.filled[q])
  {
    var f := a.filled[q];
    assert Live(s, e, a, q, f);
    assert Evicts(s, q) && b in f.settled ==> b in Range(s, f);
  }

  lemma {:induction false} LeaveKeepsPool(e: Engine, a: Arm, f: Engine, r: Request)
    requires PoolOk(e, a) && f.owner == Without(e.owner, r) && f.last == e.last && f.hashed == e.hashed - {r}
    ensures PoolOk(f, a)
  {
  }

  lemma {:induction false} LeaveKeepsLive(s: Setup, e: Engine, a: Arm, f: Engine, r: Request, q: Request)
    requires q != r && q in a.filled && Live(s, e, a, q, a.filled[q])
    requires f.owner == Without(e.owner, r) && f.hashed == e.hashed - {r}
    ensures Live(s, f, a, q, a.filled[q])
  {
  }

  lemma {:induction false} PreemptKeepsSound(s: Setup, e: Engine, a: Arm, r: Request)
    requires Sound(s, e, a)
    ensures Sound(s, EngineStep(e, Preempt(r)), a)
  {
    var f := EngineStep(e, Preempt(r));
    LeaveKeepsPool(e, a, f, r);
    forall q | q in f.current ensures q in a.filled && Live(s, f, a, q, a.filled[q]) {
      LeaveKeepsLive(s, e, a, f, r, q);
    }
  }

  lemma {:induction false} FinishKeepsSound(s: Setup, e: Engine, a: Arm, r: Request)
    requires Sound(s, e, a)
    ensures Sound(s, EngineStep(e, Finish(r)), ArmStep(s, a, Finish(r)))
  {
    var f, b := EngineStep(e, Finish(r)), ArmStep(s, a, Finish(r));
    LeaveKeepsPool(e, a, f, r);
    forall q | q in b.filled
      ensures q !in f.finished && Tracked(s, b, q, b.filled[q])
    {
      assert Tracked(s, a, q, a.filled[q]) && Ledger(b, q) == Ledger(a, q) && Passed(b, q) == Passed(a, q);
    }
    forall q | q in f.current ensures q in b.filled && Live(s, f, b, q, b.filled[q]) {
      LeaveKeepsLive(s, e, a, f, r, q);
    }
  }

  /** The invariant of the trackers does not look at the engine's tables. */
  lemma {:induction false} TablesDoNotMatter(s: Setup, e: Engine, f: Engine, a: Arm)
    requires Sound(s, e, a) && f == e.(tables := f.tables, fills := f.fills)
    ensures Sound(s, f, a)
  {
    forall q | q in f.current ensures q in a.filled && Live(s, f, a, q, a.filled[q]) {
      assert Live(s, e, a, q, a.filled[q]);
    }
  }

  lemma {:induction false} UntrackedAdmission(s: Setup, e: Engine, a: Arm, r: Request)
    requires Sound(s, e, a)
    ensures Sound(s, e.(current := e.current - {r}), Dropped(a, r))
  {
    ForgettingKeepsOthers(s, e, a, Dropped(a, r), r);
    var f, b := e.(current := e.current - {r}), Dropped(a, r);
    forall q | q in f.current ensures q in b.filled && Live(s, f, b, q, b.filled[q]) {
      assert Live(s, e, b, q, b.filled[q]);
    }
  }

  lemma {:induction false} AdmitKeepsSound(
      s: Setup, e: Engine, a: Arm, r: Request, table: seq<nat>, first: Option<nat>, ok: bool)
    requires Sound(s, e, a) && Enabled(s, e, Admit(r, table, first, ok))
    ensures Sound(s, EngineStep(e, Admit(r, table, first, ok)), ArmStep(s, a, Admit(r, table, first, ok)))
    ensures ok && Evicts(s, r) ==> Clean(s, ArmStep(s, a, Admit(r, table, first, ok)), r)
  {
    var b := ArmStep(s, a, Admit(r, table, first, ok));
    if first.Some? {
      ForgettingKeepsOthers(s, e, a, Dropped(a, r), r);
      PassKeepsInv(s, e, Dropped(a, r), r, Filled(table, first.value, {}, 0), ok);
      TablesDoNotMatter(s, e.(current := e.current + {r}), EngineStep(e, Admit(r, table, first, ok)), b);
    } else {
      UntrackedAdmission(s, e, a, r);
      TablesDoNotMatter(s, e.(current := e.current - {r}), EngineStep(e, Admit(r, table, first, ok)), b);
    }
  }

  /** A tracker that follows the engine's table follows it over a row. */
  lemma {:induction false} ExtendFollowsTable(e: Engine, f: Filled, r: Request, added: Option<seq<nat>>, resumed: bool)
    requires r in e.tables && f.table == e.tables[r]
    ensures Extend(f, added, resumed).table == NextTable(e, r, added, resumed)
    ensures Extend(f, added, resumed).first == f.first
  {
  }

  lemma {:induction false} RowKeepsSound(
      s: Setup, e: Engine, a: Arm, r: Request, added: Option<seq<nat>>, resumed: bool, ok: bool)
    requires Inv(s, e, a) && Enabled(s, e, Row(r, added, resumed, ok))
    ensures Sound(s, EngineStep(e, Row(r, added, resumed, ok)), ArmStep(s, a, Row(r, added, resumed, ok)))
    ensures ok && Evicts(s, r) ==> Clean(s, ArmStep(s, a, Row(r, added, resumed, ok)), r)
  {
    var b := ArmStep(s, a, Row(r, added, resumed, ok));
    if r in a.filled {
      ExtendFollowsTable(e, a.filled[r], r, added, resumed);
      ExtendKeepsTracked(s, e, a, r, added, resumed);
      if resumed {
        ForgettingKeepsOthers(s, e, a, Reclaimed(a, r, resumed), r);
      }
      PassKeepsInv(s, e, Reclaimed(a, r, resumed), r, Extend(a.filled[r], added, resumed), ok);
      TablesDoNotMatter(s, e.(current := e.current + {r}), EngineStep(e, Row(r, added, resumed, ok)), b);
    } else {
      TablesDoNotMatter(s, e, EngineStep(e, Row(r, added, resumed, ok)), a);
    }
  }

  lemma {:induction false} PassKeepsShape(s: Setup, a: Arm, r: Request, f: Filled, ok: bool)
    ensures var b := Pass(s, a, r, f, ok);
      && b.filled.Keys == a.filled.Keys + {r}
      && b.filled[r].table == f.table && b.filled[r].first == f.first
      && forall q | q in a.filled && q != r :: b.filled[q] == a.filled[q]
  {
  }

  /** What a pass leaves mirrors the engine when its tracker has the engine's new table. */
  lemma {:induction false} PassMirrors(
      s: Setup, e: Engine, n: Engine, a: Arm, b: Arm, r: Request, f: Filled, ok: bool)
    requires Mirrors(e, a) && r in n.tables && r in n.fills && f.table == n.tables[r] && f.first == n.fills[r]
    requires forall q | q != r :: (q in n.fills <==> q in e.fills) && (q in e.fills ==> n.fills[q] == e.fills[q])
    requires forall q | q != r :: (q in n.tables <==> q in e.tables) && (q in e.tables ==> n.tables[q] == e.tables[q])
    requires forall q | q != r :: (q in b.filled <==> q in a.filled) && (q in a.filled ==> b.filled[q] == a.filled[q])
    ensures Mirrors(n, Pass(s, b, r, f, ok))
  {
    PassKeepsShape(s, b, r, f, ok);
    var c := Pass(s, b, r, f, ok);
    forall q ensures q in c.filled <==> q in n.fills {
      assert q != r ==> (q in c.filled <==> q in a.filled);
    }
    forall q | q in c.filled && q != r
      ensures q in n.tables && c.filled[q].table == n.tables[q] && c.filled[q].first == n.fills[q]
    {
      assert q in a.filled && c.filled[q] == a.filled[q];
    }
  }

  lemma {:induction false} AdmitKeepsMirrors(
      s: Setup, e: Engine, a: Arm, r: Request, table: seq<nat>, first: Option<nat>, ok: bool)
    requires Mirrors(e, a)
    ensures Mirrors(EngineStep(e, Admit(r, table, first, ok)), ArmStep(s, a, Admit(r, table, first, ok)))
  {
    if first.Some? {
      PassMirrors(s, e, EngineStep(e, Admit(r, table, first, ok)), a, Dropped(a, r), r,
        Filled(table, first.value, {}, 0), ok);
    }
  }

  lemma {:induction false} RowKeepsMirrors(
      s: Setup, e: Engine, a: Arm, r: Request, added: Option<seq<nat>>, resumed: bool, ok: bool)
    requires Mirrors(e, a)
    ensures Mirrors(EngineStep(e, Row(r, added, resumed, ok)), ArmStep(s, a, Row(r, added, resumed, ok)))
  {
    if r in a.filled {
      ExtendFollowsTable(e, a.filled[r], r, added, resumed);
      PassMirrors(s, e, EngineStep(e, Row(r, added, resumed, ok)), a, Reclaimed(a, r, resumed), r,
        Extend(a.filled[r], added, resumed), ok);
    }
  }

  lemma {:induction false} StepKeepsMirrors(s: Setup, e: Engine, a: Arm, ev: Event)
    requires Mirrors(e, a)
    ensures Mirrors(EngineStep(e, ev), ArmStep(s, a, ev))
  {
    match ev
    case Admit(r, table, first, ok) => AdmitKeepsMirrors(s, e, a, r, table, first, ok);
    case Row(r, added, resumed, ok) => RowKeepsMirrors(s, e, a, r, added, resumed, ok);
    case _ =>
  }

  predicate IsPass(ev: Event) { ev.Admit? || ev.Row? }

  /** Every engine event keeps the invariant, and a pass that did not fail leaves its
      request's fill uncached. */
  lemma {:induction false} StepKeepsInv(s: Setup, e: Engine, a: Arm, ev: Event)
    requires Inv(s, e, a) && Enabled(s, e, ev)
    ensures Inv(s, EngineStep(e, ev), ArmStep(s, a, ev))
    ensures IsPass(ev) && ev.ok && Evicts(s, ev.r) ==> Clean(s, ArmStep(s, a, ev), ev.r)
  {
    StepKeepsMirrors(s, e, a, ev);
    match ev
    case Alloc(r, b) => AllocKeepsSound(s, e, a, r, b);
    case Hash(r, b) => HashKeepsSound(s, e, a, r, b);
    case Preempt(r) => PreemptKeepsSound(s, e, a, r);
    case Finish(r) => FinishKeepsSound(s, e, a, r);
    case Admit(r, table, first, ok) => AdmitKeepsSound(s, e, a, r, table, first, ok);
    case Row(r, added, resumed, ok) => RowKeepsSound(s, e, a, r, added, resumed, ok);
  }

  // ------------------------------------------------------------------ runs

  datatype World = World(e: Engine, a: Arm)

  function StepWorld(s: Setup, w: World, ev: Event): World
  {
    World(EngineStep(w.e, ev), ArmStep(s, w.a, ev))
  }

  function After(s: Setup, evs: seq<Event>): World
  {
    if evs == [] then World(NO_ENGINE, NO_ARM) else StepWorld(s, After(s, evs[..|evs| - 1]), evs[|evs| - 1])
  }

  ghost predicate IsRun(s: Setup, evs: seq<Event>)
  {
    evs != [] ==>
      && IsRun(s, evs[..|evs| - 1])
      && Enabled(s, After(s, evs[..|evs| - 1]).e, evs[|evs| - 1])
  }

  lemma {:induction false} RunKeepsInv(s: Setup, evs: seq<Event>)
    requires IsRun(s, evs)
    ensures Inv(s, After(s, evs).e, After(s, evs).a)
    decreases |evs|
  {
    if evs != [] {
      var before := evs[..|evs| - 1];
      RunKeepsInv(s, before);
      StepKeepsInv(s, After(s, before).e, After(s, before).a, evs[|evs| - 1]);
    }
  }

  /** Over every run the trackers are those of the requests a load was committed for at
      their last admission, and each holds its request's own block table, as the engine
      admitted, appended to and replaced it, from the load's first block on. */
  lemma {:induction false} TrackersFollowTables(s: Setup, evs: seq<Event>, r: Request)
    requires IsRun(s, evs)
    ensures var w := After(s, evs);
      && (r in w.a.filled <==> r in w.e.fills)
      && (r in w.a.filled ==>
            r in w.e.tables && w.a.filled[r].table == w.e.tables[r] && w.a.filled[r].first == w.e.fills[r])
  {
    RunKeepsInv(s, evs);
  }

  /** The tracker a pass works on, None when the event runs no pass. */
  function PassTracker(a: Arm, ev: Event): Option<Filled>
  {
    match ev
    case Admit(r, table, first, ok) => if first.Some? then Some(Filled(table, first.value, {}, 0)) else None
    case Row(r, added, resumed, ok) => if r in a.filled then Some(Extend(a.filled[r], added, resumed)) else None
    case _ => None
  }

  /** The arm it starts from: a new or replaced table is a new claim. */
  function PassArm(a: Arm, ev: Event): Arm
  {
    match ev
    case Admit(r, table, first, ok) => Dropped(a, r)
    case Row(r, added, resumed, ok) => Reclaimed(a, r, resumed)
    case _ => a
  }

  lemma {:induction false} PassIsReady(s: Setup, e: Engine, a: Arm, ev: Event)
    requires Inv(s, e, a) && Enabled(s, e, ev) && PassTracker(a, ev).Some?
    ensures var f := PassTracker(a, ev).value;
      && PassArm(a, ev).cached == a.cached && PassArm(a, ev).ledger == a.ledger && PassArm(a, ev).filled.Keys <= a.filled.Keys
      && Tracked(s, PassArm(a, ev), ev.r, f) && Live(s, e, PassArm(a, ev), ev.r, f)
      && PoolOk(e, PassArm(a, ev)) && ev.r !in e.finished
      && ArmStep(s, a, ev) == Pass(s, PassArm(a, ev), ev.r, f, ev.ok)
  {
    if ev.Row? {
      ExtendFollowsTable(e, a.filled[ev.r], ev.r, ev.added, ev.resumed);
      ExtendKeepsTracked(s, e, a, ev.r, ev.added, ev.resumed);
    }
  }

  /** A non-null block of the request's own table, at or past the start of its fill. */
  ghost predicate InFill(s: Setup, e: Engine, r: Request, b: nat)
  {
    && r in e.fills && r in e.tables && s.nullBlock != Some(b)
    && exists i :: e.fills[r] <= i < |e.tables[r]| && e.tables[r][i] == b
  }

  lemma {:induction false} RangeIsTheFill(s: Setup, e: Engine, a: Arm, r: Request, b: nat)
    requires Mirrors(e, a) && r in a.filled
    ensures b in Range(s, a.filled[r]) <==> InFill(s, e, r, b)
  {
    var f := a.filled[r];
    if InFill(s, e, r, b) {
      var i :| e.fills[r] <= i < |e.tables[r]| && e.tables[r][i] == b;
      assert f.table[i] == b && IsBlock(s, f.table[i]);
    }
  }

  lemma {:induction false} PassTakesTheRange(s: Setup, a: Arm, r: Request, f: Filled, ok: bool)
    requires CursorOk(f) && (Evicts(s, r) ==> f.settled !! a.cached)
    ensures Pass(s, a, r, f, ok).cached == if Evicts(s, r) && ok then a.cached - Range(s, f) else a.cached
  {
    FoundIsTheCachedRest(s, a.cached, f);
    if Evicts(s, r) && ok {
      var found := CachedFill(s, a.cached, f);
      assert a.cached - found == a.cached - Range(s, f);
      assert found == {} ==> a.cached - found == a.cached;
    }
  }

  lemma {:induction false} PassTakesTheFill(s: Setup, e: Engine, a: Arm, ev: Event)
    requires Inv(s, e, a) && Enabled(s, e, ev) && PassTracker(a, ev).Some?
    ensures var n := ArmStep(s, a, ev);
      ev.r in n.filled &&
      n.cached == if Evicts(s, ev.r) && ev.ok then a.cached - Range(s, n.filled[ev.r]) else a.cached
  {
    PassIsReady(s, e, a, ev);
    var b, f := PassArm(a, ev), PassTracker(a, ev).value;
    PassTakesTheRange(s, b, ev.r, f, ev.ok);
    PassKeepsShape(s, b, ev.r, f, ev.ok);
    SameRange(s, f, Pass(s, b, ev.r, f, ev.ok).filled[ev.r]);
  }

  /** In every run a pass takes out of the hash table exactly the non-null blocks of the
      request's own table at or past the start of its fill, when its blocks are evicted and
      the eviction goes through; otherwise it takes nothing. So none of the fill stays in, and
      no other block is lost. */
  lemma {:induction false} PassDecontaminates(s: Setup, evs: seq<Event>, b: nat)
    requires IsRun(s, evs) && evs != [] && IsPass(evs[|evs| - 1])
    ensures var ev := evs[|evs| - 1]; var w := After(s, evs); var before := After(s, evs[..|evs| - 1]);
      b in w.a.cached <==>
        b in before.a.cached && !(s.evict && ev.r !in s.stages && ev.ok && InFill(s, w.e, ev.r, b))
  {
    var before := After(s, evs[..|evs| - 1]);
    RunKeepsInv(s, evs[..|evs| - 1]);
    var w, ev := After(s, evs), evs[|evs| - 1];
    StepKeepsInv(s, before.e, before.a, ev);
    if PassTracker(before.a, ev).Some? {
      PassTakesTheFill(s, before.e, before.a, ev);
      RangeIsTheFill(s, w.e, w.a, ev.r, b);
    } else {
      assert ev.r !in w.a.filled && w.a.cached == before.a.cached;
    }
  }

  /** What a pass, at admission or on a row, hands to evict_blocks, in any run: blocks of
      the request's table at or past its fill, none of them null or at an earlier index,
      and none it was handed before while the same table was kept. */
  lemma {:induction false} PassHandsOverFreshFill(s: Setup, evs: seq<Event>, ev: Event)
    requires IsRun(s, evs) && Enabled(s, After(s, evs).e, ev)
    requires PassTracker(After(s, evs).a, ev).Some?
    ensures var a := After(s, evs).a; var f := PassTracker(a, ev).value;
      forall b | b in Handed(s, PassArm(a, ev), ev.r, f) ::
        && s.nullBlock != Some(b) && b in a.cached
        && (exists i | f.first <= i < |f.table| :: f.table[i] == b)
        && (forall i | 0 <= i < f.first && i < |f.table| :: f.table[i] != b)
        && Passed(PassArm(a, ev), ev.r)[b] == 0
  {
    RunKeepsInv(s, evs);
    var w := After(s, evs);
    PassIsReady(s, w.e, w.a, ev);
    FoundIsTheCachedRest(s, w.a.cached, PassTracker(w.a, ev).value);
  }

  /** So, over any run, evict_blocks has completed at most once for a block while one table
      is kept, and what it completed for is the fill of that table. */
  lemma {:induction false} PassedAtMostOnce(s: Setup, evs: seq<Event>, r: Request, b: nat)
    requires IsRun(s, evs) && r in After(s, evs).a.filled && s.evict && r !in s.stages
    ensures var a := After(s, evs).a;
      Passed(a, r)[b] == (if b in a.filled[r].settled then 1 else 0)
    ensures b in After(s, evs).a.filled[r].settled ==> b in Range(s, After(s, evs).a.filled[r])
  {
    RunKeepsInv(s, evs);
    assert Tracked(s, After(s, evs).a, r, After(s, evs).a.filled[r]);
  }

  // -------------------------------------------------------------- two arms

  ghost predicate SameShape(on: Arm, off: Arm)
  {
    && on.filled.Keys == off.filled.Keys
    && forall r | r in on.filled ::
         on.filled[r].table == off.filled[r].table && on.filled[r].first == off.filled[r].first
  }

  /** What failed passes found and did not count, by request, until the request is over. */
  type Misses = map<Request, set<nat>>

  function Missed(m: Misses, r: Request): set<nat> { if r in m then m[r] else {} }

  function MissStep(s: Setup, a: Arm, m: Misses, ev: Event): Misses
  {
    if ev.Finish? then m - {ev.r}
    else if !IsPass(ev) || ev.ok || !Evicts(s, ev.r) || PassTracker(a, ev).None? then m
    else m[ev.r := Missed(m, ev.r) + CachedFill(s, a.cached, PassTracker(a, ev).value)]
  }

  /** Over a whole run of one arm. */
  function MissesOf(s: Setup, evs: seq<Event>): Misses
  {
    if evs == [] then map[]
    else MissStep(s, After(s, evs[..|evs| - 1]).a, MissesOf(s, evs[..|evs| - 1]), evs[|evs| - 1])
  }

  /** The control arm's ledger is the evicting arm's and what its failed passes missed, and
      everything it still has cached beyond the evicting arm is in the ledger of the request
      it was last given to, unless that request is over. */
  ghost predicate LedgersTied(e: Engine, on: Arm, off: Arm, m: Misses)
  {
    && (forall r :: Ledger(off, r) == Ledger(on, r) + Missed(m, r))
    && on.cached <= off.cached
    && forall b | b in off.cached && b !in on.cached ::
         b in e.last && (e.last[b] in e.finished || b in Ledger(on, e.last[b]))
  }

  ghost predicate Tied(e: Engine, on: Arm, off: Arm, m: Misses) { SameShape(on, off) && LedgersTied(e, on, off, m) }

  lemma {:induction false} KnobDoesNotMoveTheScan(s: Setup, cached: set<nat>, f: Filled, evict: bool)
    ensures Range(s.(evict := evict), f) == Range(s, f)
    ensures CachedFill(s.(evict := evict), cached, f) == CachedFill(s, cached, f)
  {
  }

  /** The two passes find different blocks, but with what each arm counted before and the
      evicting arm missed they come to the same set. */
  lemma {:induction false} PassesFindTheSame(
      s: Setup, e: Engine, on: Arm, off: Arm, m: Misses, r: Request, f: Filled, g: Filled)
    requires f.table == g.table && f.first == g.first && CursorOk(f) && CursorOk(g)
    requires f.settled <= Ledger(on, r) && g.settled <= Ledger(off, r)
    requires PoolOk(e, off) && Holds(s, e, r, f) && r !in e.finished
    requires LedgersTied(e, on, off, m)
    ensures Ledger(on, r) + Missed(m, r) + CachedFill(s, on.cached, f)
         == Ledger(off, r) + CachedFill(s, off.cached, g)
    ensures CachedFill(s, on.cached, f) <= Range(s, f) * on.cached
  {
    FoundIsTheCachedRest(s, on.cached, f);
    FoundIsTheCachedRest(s, off.cached, g);
    SameRange(s, f, g);
    forall b | b in Range(s, f) && b in off.cached && b !in on.cached ensures b in Ledger(on, r) {
      assert b in e.owner && e.last[b] == r;
    }
  }

  /** What a pass acts on: what it finds, or nothing when the eviction fails. */
  function Acted(s: Setup, a: Arm, r: Request, f: Filled, ok: bool): set<nat>
  {
    if Evicts(s, r) && !ok then {} else CachedFill(s, a.cached, f)
  }

  /** A pass adds what it acts on to its own request's ledger, and takes that or nothing out
      of the hash table. */
  lemma {:induction false} PassEffect(s: Setup, a: Arm, r: Request, f: Filled, ok: bool)
    ensures var b := Pass(s, a, r, f, ok); var acted := Acted(s, a, r, f, ok);
      && Ledger(b, r) == Ledger(a, r) + acted
      && (forall q | q != r :: Ledger(b, q) == Ledger(a, q))
      && b.cached == (if Evicts(s, r) then a.cached - acted else a.cached)
      && b.filled.Keys == a.filled.Keys + {r}
      && b.filled[r].table == f.table && b.filled[r].first == f.first
      && forall q | q in a.filled && q != r :: b.filled[q] == a.filled[q]
  {
  }

  ghost predicate SameOtherShape(on: Arm, off: Arm, r: Request)
  {
    && on.filled.Keys - {r} == off.filled.Keys - {r}
    && forall q | q in on.filled && q != r ::
         q in off.filled && on.filled[q].table == off.filled[q].table && on.filled[q].first == off.filled[q].first
  }

  /** The misses after the evicting arm's pass. */
  function MissesAfter(s: Setup, on: Arm, m: Misses, r: Request, f: Filled, ok: bool): Misses
  {
    if Evicts(s.(evict := true), r) && !ok then m[r := Missed(m, r) + CachedFill(s, on.cached, f)] else m
  }

  /** Two arms after a pass each, described by what the passes acted on. */
  lemma {:induction false} ActedKeepsLedgersTied(
      e: Engine, on: Arm, off: Arm, m: Misses, p: Arm, q: Arm, n: Misses, r: Request,
      range: set<nat>, found: set<nat>, acted: set<nat>, other: set<nat>, evicts: bool)
    requires LedgersTied(e, on, off, m)
    requires Ledger(on, r) + Missed(m, r) + found == Ledger(off, r) + other
    requires acted == found || acted == {}
    requires found <= range * on.cached && forall b | b in range :: b in e.last && e.last[b] == r
    requires Ledger(p, r) == Ledger(on, r) + acted && forall x | x != r :: Ledger(p, x) == Ledger(on, x)
    requires Ledger(q, r) == Ledger(off, r) + other && forall x | x != r :: Ledger(q, x) == Ledger(off, x)
    requires Missed(n, r) == Missed(m, r) + (found - acted) && forall x | x != r :: Missed(n, x) == Missed(m, x)
    requires p.cached == (if evicts then on.cached - acted else on.cached) && q.cached == off.cached
    ensures LedgersTied(e, p, q, n)
  {
    forall x ensures Ledger(q, x) == Ledger(p, x) + Missed(n, x) {
      if x == r {
        assert Ledger(p, r) + Missed(n, r) == Ledger(on, r) + Missed(m, r) + found;
      }
    }
    forall b | b in q.cached && b !in p.cached
      ensures b in e.last && (e.last[b] in e.finished || b in Ledger(p, e.last[b]))
    {
      if b in on.cached {
        assert b in acted && b in range;
      } else {
        GrownLedger(on, p, r, acted, e.last[b]);
      }
    }
  }

  lemma {:induction false} GrownLedger(on: Arm, p: Arm, r: Request, acted: set<nat>, x: Request)
    requires Ledger(p, r) == Ledger(on, r) + acted && forall y | y != r :: Ledger(p, y) == Ledger(on, y)
    ensures Ledger(on, x) <= Ledger(p, x)
  {
  }

  /** The evicting arm's pass and what it misses. */
  lemma {:induction false} EvictingPassEffect(s: Setup, on: Arm, m: Misses, r: Request, f: Filled, ok: bool, acted: set<nat>)
    requires acted == if Evicts(s.(evict := true), r) && !ok then {} else CachedFill(s, on.cached, f)
    ensures var p := Pass(s.(evict := true), on, r, f, ok); var n := MissesAfter(s, on, m, r, f, ok);
      && Ledger(p, r) == Ledger(on, r) + acted && (forall x | x != r :: Ledger(p, x) == Ledger(on, x))
      && p.cached == (if Evicts(s.(evict := true), r) then on.cached - acted else on.cached)
      && Missed(n, r) == Missed(m, r) + (CachedFill(s, on.cached, f) - acted)
      && (forall x | x != r :: Missed(n, x) == Missed(m, x))
  {
    KnobDoesNotMoveTheScan(s, on.cached, f, true);
    PassEffect(s.(evict := true), on, r, f, ok);
    var found := CachedFill(s, on.cached, f);
    assert found - {} == found && found - found == {};
  }

  /** The control arm's. */
  lemma {:induction false} ControlPassEffect(s: Setup, off: Arm, r: Request, g: Filled, ok: bool)
    ensures var q := Pass(s.(evict := false), off, r, g, ok);
      && Ledger(q, r) == Ledger(off, r) + CachedFill(s, off.cached, g)
      && (forall x | x != r :: Ledger(q, x) == Ledger(off, x))
      && q.cached == off.cached
  {
    KnobDoesNotMoveTheScan(s, off.cached, g, false);
    PassEffect(s.(evict := false), off, r, g, ok);
  }

  lemma {:induction false} FillWasLastHis(s: Setup, e: Engine, off: Arm, r: Request, f: Filled)
    requires PoolOk(e, off) && Holds(s, e, r, f)
    ensures forall b | b in Range(s, f) :: b in e.last && e.last[b] == r
  {
  }

  lemma {:induction false} PassKeepsLedgersTied(
      s: Setup, e: Engine, on: Arm, off: Arm, m: Misses, r: Request, f: Filled, g: Filled, ok: bool)
    requires f.table == g.table && f.first == g.first && CursorOk(f) && CursorOk(g)
    requires f.settled <= Ledger(on, r) && g.settled <= Ledger(off, r)
    requires PoolOk(e, off) && Holds(s, e, r, f) && r !in e.finished
    requires LedgersTied(e, on, off, m)
    ensures LedgersTied(e, Pass(s.(evict := true), on, r, f, ok), Pass(s.(evict := false), off, r, g, ok),
                        MissesAfter(s, on, m, r, f, ok))
  {
    var found := CachedFill(s, on.cached, f);
    var acted := if Evicts(s.(evict := true), r) && !ok then {} else found;
    PassesFindTheSame(s, e, on, off, m, r, f, g);
    EvictingPassEffect(s, on, m, r, f, ok, acted);
    ControlPassEffect(s, off, r, g, ok);
    FillWasLastHis(s, e, off, r, f);
    ActedKeepsLedgersTied(e, on, off, m,
      Pass(s.(evict := true), on, r, f, ok), Pass(s.(evict := false), off, r, g, ok), MissesAfter(s, on, m, r, f, ok),
      r, Range(s, f), found, acted, CachedFill(s, off.cached, g), Evicts(s.(evict := true), r));
  }

  lemma {:induction false} PassKeepsTied(
      s: Setup, e: Engine, on: Arm, off: Arm, m: Misses, r: Request, f: Filled, g: Filled, ok: bool)
    requires f.table == g.table && f.first == g.first && CursorOk(f) && CursorOk(g)
    requires f.settled <= Ledger(on, r) && g.settled <= Ledger(off, r)
    requires PoolOk(e, off) && Holds(s, e, r, f) && r !in e.finished
    requires LedgersTied(e, on, off, m) && SameOtherShape(on, off, r)
    ensures Tied(e, Pass(s.(evict := true), on, r, f, ok), Pass(s.(evict := false), off, r, g, ok),
                 MissesAfter(s, on, m, r, f, ok))
  {
    PassEffect(s.(evict := true), on, r, f, ok);
    PassEffect(s.(evict := false), off, r, g, ok);
    PassKeepsLedgersTied(s, e, on, off, m, r, f, g, ok);
    PassedShapes(on, off, Pass(s.(evict := true), on, r, f, ok), Pass(s.(evict := false), off, r, g, ok), r);
  }

  lemma {:induction false} PassedShapes(on: Arm, off: Arm, p: Arm, q: Arm, r: Request)
    requires SameOtherShape(on, off, r)
    requires p.filled.Keys == on.filled.Keys + {r} && q.filled.Keys == off.filled.Keys + {r}
    requires p.filled[r].table == q.filled[r].table && p.filled[r].first == q.filled[r].first
    requires forall x | x in on.filled && x != r :: p.filled[x] == on.filled[x]
    requires forall x | x in off.filled && x != r :: q.filled[x] == off.filled[x]
    ensures SameShape(p, q)
  {
    assert p.filled.Keys == (on.filled.Keys - {r}) + {r};
    assert q.filled.Keys == (off.filled.Keys - {r}) + {r};
  }

  lemma {:induction false} KnobDoesNotMoveHolding(s: Setup, e: Engine, r: Request, f: Filled, g: Filled, evict: bool)
    requires f.table == g.table && f.first == g.first
    ensures Holds(s.(evict := evict), e, r, f) == Holds(s, e, r, g)
  {
    KnobDoesNotMoveTheScan(s, {}, f, evict);
    SameRange(s, f, g);
  }

  lemma {:induction false} KnobDoesNotMoveEngine(s: Setup, e: Engine, ev: Event)
    requires Enabled(s.(evict := true), e, ev)
    ensures Enabled(s.(evict := false), e, ev)
  {
    forall b ensures IsBlock(s.(evict := true), b) == IsBlock(s.(evict := false), b) {}
  }

  lemma {:induction false} PassArmsStayTied(e: Engine, on: Arm, off: Arm, m: Misses, ev: Event)
    requires Tied(e, on, off, m) && IsPass(ev)
    ensures LedgersTied(e, PassArm(on, ev), PassArm(off, ev), m)
    ensures SameOtherShape(PassArm(on, ev), PassArm(off, ev), ev.r)
  {
    var a, b := PassArm(on, ev), PassArm(off, ev);
    assert forall q :: Ledger(a, q) == Ledger(on, q) && Ledger(b, q) == Ledger(off, q);
  }

  lemma {:induction false} TrackersCorrespond(s: Setup, on: Arm, off: Arm, ev: Event)
    requires SameShape(on, off)
    ensures PassTracker(on, ev).Some? <==> PassTracker(off, ev).Some?
    ensures PassTracker(on, ev).Some? ==>
      PassTracker(on, ev).value.table == PassTracker(off, ev).value.table
      && PassTracker(on, ev).value.first == PassTracker(off, ev).value.first
  {
  }

  lemma {:induction false} PassEventKeepsTied(s: Setup, e: Engine, on: Arm, off: Arm, m: Misses, ev: Event)
    requires Tied(e, on, off, m) && PassTracker(on, ev).Some?
    requires Inv(s.(evict := true), e, on) && Inv(s.(evict := false), e, off)
    requires Enabled(s.(evict := true), e, ev) && Enabled(s.(evict := false), e, ev)
    ensures Tied(e, ArmStep(s.(evict := true), on, ev), ArmStep(s.(evict := false), off, ev),
                 MissStep(s.(evict := true), on, m, ev))
  {
    TrackersCorrespond(s, on, off, ev);
    var f, g := PassTracker(on, ev).value, PassTracker(off, ev).value;
    PassIsReady(s.(evict := true), e, on, ev);
    PassIsReady(s.(evict := false), e, off, ev);
    PassArmsStayTied(e, on, off, m, ev);
    KnobDoesNotMoveHolding(s, e, ev.r, f, f, true);
    MissStepIsThePass(s, on, m, ev);
    PassKeepsTied(s, e, PassArm(on, ev), PassArm(off, ev), m, ev.r, f, g, ev.ok);
  }

  lemma {:induction false} MissStepIsThePass(s: Setup, on: Arm, m: Misses, ev: Event)
    requires PassTracker(on, ev).Some?
    ensures MissStep(s.(evict := true), on, m, ev)
         == MissesAfter(s, PassArm(on, ev), m, ev.r, PassTracker(on, ev).value, ev.ok)
  {
    KnobDoesNotMoveTheScan(s, on.cached, PassTracker(on, ev).value, true);
  }

  /** A request that is over takes its ledgers and its misses with it. */
  lemma {:induction false} FinishKeepsTied(s: Setup, e: Engine, on: Arm, off: Arm, m: Misses, r: Request)
    requires Tied(e, on, off, m)
    ensures Tied(EngineStep(e, Finish(r)), ArmStep(s, on, Finish(r)), ArmStep(s, off, Finish(r)), m - {r})
  {
    var p, q := ArmStep(s, on, Finish(r)), ArmStep(s, off, Finish(r));
    forall x ensures Ledger(q, x) == Ledger(p, x) + Missed(m - {r}, x) {
      assert x != r ==> Ledger(p, x) == Ledger(on, x) && Ledger(q, x) == Ledger(off, x) && Missed(m - {r}, x) == Missed(m, x);
    }
  }

  /** Events without a pass: the engine's own, or a row or an admission of nothing tracked. */
  lemma {:induction false} QuietEventKeepsTied(
      s: Setup, e: Engine, on: Arm, off: Arm, m: Misses, ev: Event)
    requires Tied(e, on, off, m) && PassTracker(on, ev).None?
    ensures Tied(EngineStep(e, ev), ArmStep(s.(evict := true), on, ev), ArmStep(s.(evict := false), off, ev),
                 MissStep(s.(evict := true), on, m, ev))
  {
    if ev.Finish? {
      FinishKeepsTied(s, e, on, off, m, ev.r);
    } else {
      var p, q := ArmStep(s.(evict := true), on, ev), ArmStep(s.(evict := false), off, ev);
      assert forall x :: Ledger(p, x) == Ledger(on, x) && Ledger(q, x) == Ledger(off, x);
    }
  }

  lemma {:induction false} EngineDoesNotMoveTied(e: Engine, on: Arm, off: Arm, m: Misses, ev: Event)
    requires Tied(e, on, off, m) && IsPass(ev)
    ensures Tied(EngineStep(e, ev), on, off, m)
  {
  }

  lemma {:induction false} StepKeepsTied(s: Setup, e: Engine, on: Arm, off: Arm, m: Misses, ev: Event)
    requires Tied(e, on, off, m)
    requires Inv(s.(evict := true), e, on) && Inv(s.(evict := false), e, off)
    requires Enabled(s.(evict := true), e, ev)
    ensures Tied(EngineStep(e, ev), ArmStep(s.(evict := true), on, ev),
                 ArmStep(s.(evict := false), off, ev), MissStep(s.(evict := true), on, m, ev))
  {
    KnobDoesNotMoveEngine(s, e, ev);
    if PassTracker(on, ev).Some? {
      PassEventKeepsTied(s, e, on, off, m, ev);
      EngineDoesNotMoveTied(e, ArmStep(s.(evict := true), on, ev), ArmStep(s.(evict := false), off, ev),
        MissStep(s.(evict := true), on, m, ev), ev);
    } else {
      QuietEventKeepsTied(s, e, on, off, m, ev);
    }
  }

  lemma {:induction false} RunsStayTied(s: Setup, evs: seq<Event>)
    requires IsRun(s.(evict := true), evs)
    ensures var on := After(s.(evict := true), evs); var off := After(s.(evict := false), evs);
      && IsRun(s.(evict := false), evs) && on.e == off.e
      && Tied(on.e, on.a, off.a, MissesOf(s.(evict := true), evs))
    decreases |evs|
  {
    if evs != [] {
      var before, ev := evs[..|evs| - 1], evs[|evs| - 1];
      RunsStayTied(s, before);
      RunKeepsInv(s.(evict := true), before);
      RunKeepsInv(s.(evict := false), before);
      var on, off := After(s.(evict := true), before), After(s.(evict := false), before);
      KnobDoesNotMoveEngine(s, on.e, ev);
      StepKeepsTied(s, on.e, on.a, off.a, MissesOf(s.(evict := true), before), ev);
    }
  }

  lemma {:induction false} NothingMissed(s: Setup, evs: seq<Event>)
    requires forall i | 0 <= i < |evs| :: IsPass(evs[i]) ==> evs[i].ok
    ensures MissesOf(s, evs) == map[]
    decreases |evs|
  {
    if evs != [] {
      NothingMissed(s, evs[..|evs| - 1]);
    }
  }

  /** The two-run theorem. Over one engine history, failing evictions included, the control
      arm's distinct-block ledger of every request is the evicting arm's and what its failed
      passes found. So the arms agree on a request exactly when everything a failed pass of
      it found has been counted since, and on every request at every point when no eviction
      fails; although the arms' passes find different blocks, and the control arm keeps every
      counted block cached. What the control arm has cached and the evicting one has not is
      exactly contamination: the ledger of the block's last holder names it, unless that
      request is over. */
  lemma {:induction false} ArmsKeepOneLedger(s: Setup, evs: seq<Event>, r: Request)
    requires IsRun(s.(evict := true), evs)
    ensures IsRun(s.(evict := false), evs)
    ensures var on := After(s.(evict := true), evs); var off := After(s.(evict := false), evs);
      var missed := Missed(MissesOf(s.(evict := true), evs), r);
      && on.e == off.e && SameShape(on.a, off.a)
      && Ledger(off.a, r) == Ledger(on.a, r) + missed
      && (Ledger(on.a, r) == Ledger(off.a, r) <==> missed <= Ledger(on.a, r))
      && on.a.cached <= off.a.cached
      && (forall b | b in off.a.cached && b !in on.a.cached ::
            b in on.e.last && (on.e.last[b] in on.e.finished || b in Ledger(on.a, on.e.last[b])))
    ensures (forall i | 0 <= i < |evs| :: IsPass(evs[i]) ==> evs[i].ok) ==>
      Ledger(After(s.(evict := true), evs).a, r) == Ledger(After(s.(evict := false), evs).a, r)
  {
    RunsStayTied(s, evs);
    if forall i | 0 <= i < |evs| :: IsPass(evs[i]) ==> evs[i].ok {
      NothingMissed(s.(evict := true), evs);
    }
  }

  function HashedOnce(r: Request, b: nat): World
  {
    World(Engine(map[b := r], map[b := r], map[r := {b}], map[], map[], {}, {}), Arm({b}, map[], map[], map[]))
  }

  lemma {:induction false} OneMoreEvent(s: Setup, evs: seq<Event>, ev: Event)
    requires IsRun(s, evs) && Enabled(s, After(s, evs).e, ev)
    ensures IsRun(s, evs + [ev]) && After(s, evs + [ev]) == StepWorld(s, After(s, evs), ev)
  {
    var all := evs + [ev];
    assert all[..|all| - 1] == evs && all[|all| - 1] == ev;
  }

  lemma {:induction false} HashesOneBlock(s: Setup, r: Request, b: nat)
    ensures IsRun(s, [Alloc(r, b), Hash(r, b)]) && After(s, [Alloc(r, b), Hash(r, b)]) == HashedOnce(r, b)
  {
    OneMoreEvent(s, [], Alloc(r, b));
    assert [] + [Alloc(r, b)] == [Alloc(r, b)];
    var one := After(s, [Alloc(r, b)]);
    assert one.e.owner == map[b := r] && one.e.last == map[b := r] && one.a.cached == {};
    assert After(s, [Alloc(r, b)]) == World(Engine(map[b := r], map[b := r], map[], map[], map[], {}, {}), NO_ARM);
    OneMoreEvent(s, [Alloc(r, b)], Hash(r, b));
    assert [Alloc(r, b)] + [Hash(r, b)] == [Alloc(r, b), Hash(r, b)];
    var two := After(s, [Alloc(r, b), Hash(r, b)]);
    assert HashedFor(one.e, r) + {b} == {b} && {} + {b} == {b};
    assert two.e.hashed == map[r := {b}];
    assert two.a.cached == {b};
  }

  lemma {:induction false} OneBlockFills(s: Setup, r: Request, b: nat)
    requires IsBlock(s, b)
    ensures var f := Filled([b], 0, {}, 0);
      && CachedFill(s, {b}, f) == {b} && CachedFill(s, {}, f) == {}
      && Range(s, f) == {b} && Holds(s, HashedOnce(r, b).e, r, f)
  {
    assert Filled([b], 0, {}, 0).table[0] == b;
  }

  function OneFill(r: Request, b: nat, ok: bool): seq<Event>
  {
    [Alloc(r, b), Hash(r, b), Admit(r, [b], Some(0), ok)]
  }

  lemma {:induction false} OneFillIsARun(s: Setup, r: Request, b: nat, ok: bool)
    requires IsBlock(s, b)
    ensures IsRun(s, OneFill(r, b, ok))
    ensures After(s, OneFill(r, b, ok)) == StepWorld(s, HashedOnce(r, b), Admit(r, [b], Some(0), ok))
  {
    assert OneFill(r, b, ok) == [Alloc(r, b), Hash(r, b)] + [Admit(r, [b], Some(0), ok)];
    HashesOneBlock(s, r, b);
    OneBlockFills(s, r, b);
    OneMoreEvent(s, [Alloc(r, b), Hash(r, b)], Admit(r, [b], Some(0), ok));
  }

  /** The passes themselves do differ: a block hashed, acted on at admission and offered
      again by a replaced table is found a second time only where it was left cached. */
  lemma {:induction false} PassSetsDiffer(s: Setup, r: Request, b: nat)
    requires r !in s.stages && s.nullBlock != Some(b)
    ensures var evs := OneFill(r, b, true);
      var on := After(s.(evict := true), evs); var off := After(s.(evict := false), evs);
      && IsRun(s.(evict := true), evs) && IsRun(s.(evict := false), evs)
      && Enabled(s.(evict := true), on.e, Row(r, Some([b]), true, true))
      && r in on.a.filled && r in off.a.filled
      && CachedFill(s, on.a.cached, Extend(on.a.filled[r], Some([b]), true)) == {}
      && CachedFill(s, off.a.cached, Extend(off.a.filled[r], Some([b]), true)) == {b}
  {
    var evs := OneFill(r, b, true);
    OneFillIsARun(s.(evict := true), r, b, true);
    OneFillIsARun(s.(evict := false), r, b, true);
    OneBlockFills(s, r, b);
    OneBlockFills(s.(evict := true), r, b);
    OneBlockFills(s.(evict := false), r, b);
    var f := Filled([b], 0, {}, 0);
    var on, off := After(s.(evict := true), evs), After(s.(evict := false), evs);
    assert on.a.cached == {} && off.a.cached == {b};
    assert Extend(on.a.filled[r], Some([b]), true) == f && Extend(off.a.filled[r], Some([b]), true) == f;
    assert Holds(s.(evict := true), on.e, r, f);
  }

  /** And an eviction that fails does split the ledgers, until a later pass makes it up. */
  lemma {:induction false} FailedPassSplitsTheLedgers(s: Setup, r: Request, b: nat)
    requires r !in s.stages && s.nullBlock != Some(b)
    ensures IsRun(s.(evict := true), OneFill(r, b, false))
    ensures Ledger(After(s.(evict := true), OneFill(r, b, false)).a, r) == {}
    ensures Ledger(After(s.(evict := false), OneFill(r, b, false)).a, r) == {b}
  {
    OneFillIsARun(s.(evict := true), r, b, false);
    OneFillIsARun(s.(evict := false), r, b, false);
    OneBlockFills(s.(evict := true), r, b);
    OneBlockFills(s.(evict := false), r, b);
  }

  // ------------------------------------------------------ the scheduler's code

  /** A sequence of events on one arm, first to last. */
  function ArmRun(s: Setup, a: Arm, evs: seq<Event>): Arm
    decreases |evs|
  {
    if evs == [] then a else ArmRun(s, ArmStep(s, a, evs[0]), evs[1..])
  }

  function Finishes(ids: seq<Request>): seq<Event> { seq(|ids|, i requires 0 <= i < |ids| => Finish(ids[i])) }

  lemma {:induction false} ArmRunInTwo(s: Setup, a: Arm, xs: seq<Event>, ys: seq<Event>)
    ensures ArmRun(s, a, xs + ys) == ArmRun(s, ArmRun(s, a, xs), ys)
    decreases |xs|
  {
    if xs == [] {
      assert xs + ys == ys;
    } else {
      assert (xs + ys)[0] == xs[0] && (xs + ys)[1..] == xs[1..] + ys;
      ArmRunInTwo(s, ArmStep(s, a, xs[0]), xs[1..], ys);
    }
  }

  /** The code's own order of passes is the run the theorems speak of. */
  lemma {:induction false} ArmRunFollowsRun(s: Setup, evs: seq<Event>, more: seq<Event>)
    ensures After(s, evs + more).a == ArmRun(s, After(s, evs).a, more)
    decreases |more|
  {
    if more == [] {
      assert evs + more == evs;
    } else {
      var next := evs + [more[0]];
      assert next[..|next| - 1] == evs;
      assert evs + more == next + more[1..];
      ArmRunFollowsRun(s, next, more[1..]);
    }
  }

  lemma {:induction false} RowsNeedATracker(s: Setup, a: Arm, rows: seq<Event>)
    requires a.filled == map[] && forall ev | ev in rows :: ev.Row?
    ensures ArmRun(s, a, rows) == a
    decreases |rows|
  {
    if rows != [] {
      assert rows[0] in rows;
      RowsNeedATracker(s, a, rows[1..]);
    }
  }

  class FillTracker {
    const setup: Setup
    var cached: set<nat>                    // the pool's hash table
    var filled: map<Request, Filled>
    var reported: map<Request, set<nat>>    // the distinct-block ledger
    ghost var passed: map<Request, multiset<nat>>

    ghost function View(): Arm reads this { Arm(cached, filled, reported, passed) }

    constructor (s: Setup)
      ensures setup == s && View() == NO_ARM
    {
      setup := s;
      cached, filled, reported, passed := {}, map[], map[], map[];
    }

    method CachedFillBlocks(f: Filled) returns (found: set<nat>)
      ensures found == CachedFill(setup, cached, f)
    {
      found := {};
      var i := ScanStart(f);
      while i < |f.table|
        invariant i >= ScanStart(f)
        invariant found == set k | ScanStart(f) <= k < i && k < |f.table| && IsBlock(setup, f.table[k])
            && f.table[k] !in f.settled && f.table[k] in cached :: f.table[k]
      {
        var b := f.table[i];
        if IsBlock(setup, b) && b !in f.settled && b in cached {
          found := found + {b};
        }
        i := i + 1;
      }
    }

    static method SettleBlocks(f: Filled, handled: set<nat>) returns (g: Filled)
      ensures g == Settle(f, handled)
    {
      var settled := f.settled + handled;
      var cursor := Max(f.first, f.scanFrom);
      while cursor < |f.table| && f.table[cursor] in settled
        invariant Advance(f.table, cursor, settled) == Advance(f.table, ScanStart(f), settled)
        decreases |f.table| - cursor
      {
        cursor := cursor + 1;
      }
      g := f.(settled := settled, scanFrom := cursor);
    }

    /** ok says whether the pool's eviction goes through; the control arm never calls it. */
    method TrackFilledBlocks(r: Request, f: Filled, ok: bool)
      modifies this
      ensures View() == Pass(setup, old(View()), r, f, ok)
    {
      var found := CachedFillBlocks(f);
      var evicts := setup.evict && r !in setup.stages;
      if found == {} || (evicts && !ok) {
        filled := filled[r := f];
      } else {
        if evicts {
          cached := cached - found;
          passed := passed[r := Passed(View(), r) + multiset(found)];
        }
        reported := reported[r := (if r in reported then reported[r] else {}) + found];
        var g := SettleBlocks(f, found);
        filled := filled[r := g];
      }
    }

    /** The hook's effect on the tracker: the block table, and the first filled index when the
        hook goes on to commit a load. */
    method UpdateStateAfterAlloc(r: Request, table: seq<nat>, first: Option<nat>, ok: bool)
      modifies this
      ensures View() == ArmStep(setup, old(View()), Admit(r, table, first, ok))
    {
      filled := filled - {r};
      passed := passed - {r};
      if first.Some? {
        TrackFilledBlocks(r, Filled(table, first.value, {}, 0), ok);
      }
    }

    /** Requests over since the last step are retired first, then each row of the step's diff
        extends or replaces its request's table and runs a pass. */
    method TrackRunningFills(finishedIds: seq<Request>, rows: seq<Event>)
      requires forall ev | ev in rows :: ev.Row?
      modifies this
      ensures View() == ArmRun(setup, old(View()), Finishes(finishedIds) + rows)
    {
      ghost var start := View();
      ghost var over := Finishes(finishedIds);
      var i := 0;
      while i < |finishedIds|
        invariant 0 <= i <= |finishedIds|
        invariant ArmRun(setup, View(), over[i..]) == ArmRun(setup, start, over)
      {
        filled := filled - {finishedIds[i]};
        reported := reported - {finishedIds[i]};
        passed := passed - {finishedIds[i]};
        assert over[i..][0] == Finish(finishedIds[i]) && over[i..][1..] == over[i + 1..];
        i := i + 1;
      }
      assert over[i..] == [];
      ArmRunInTwo(setup, start, over, rows);
      ghost var retired := View();
      if filled == map[] {
        RowsNeedATracker(setup, retired, rows);
        return;
      }
      var j := 0;
      while j < |rows|
        invariant 0 <= j <= |rows|
        invariant ArmRun(setup, View(), rows[j..]) == ArmRun(setup, retired, rows)
      {
        var row := rows[j];
        assert rows[j..][0] == row && rows[j..][1..] == rows[j + 1..];
        assert row in rows;
        if row.r in filled {
          var f := Extend(filled[row.r], row.added, row.resumed);
          if row.resumed {
            passed := passed - {row.r};
          }
          TrackFilledBlocks(row.r, f, row.ok);
        }
        j := j + 1;
      }
      assert rows[j..] == [];
    }
  }
}
