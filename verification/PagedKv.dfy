/** Slots of a block table, and the paged tensors behind them. */
module PagedKv {
  import opened Blocks

  // ------------------------------------------------------------ slot mapping

  datatype SlotError = MultiGroup | NotCovered
  datatype Slots = Refused(error: SlotError) | Mapped(slots: seq<nat>)

  /** Python's s[lo:hi] for non-negative bounds. */
  function Slice<T>(s: seq<T>, lo: nat, hi: nat): (r: seq<T>)
    ensures lo <= hi <= |s| ==> r == s[lo..hi]
  {
    if lo >= |s| || hi <= lo then [] else s[lo..Min(hi, |s|)]
  }

  /** Every slot of every block, block after block. */
  function Flatten(group: seq<nat>, bs: nat): (r: seq<nat>)
    requires bs > 0
    ensures |r| == |group| * bs
  {
    seq(|group| * bs, i requires 0 <= i < |group| * bs => BlockSlot(group, i, bs))
  }

  function BlockSlot(group: seq<nat>, i: nat, bs: nat): nat
    requires bs > 0 && i < |group| * bs
  {
    IndexInBlocks(|group|, i, bs);
    group[i / bs] * bs + i % bs
  }

  function WindowBlocks(table: seq<nat>, start: nat, count: nat, bs: nat): seq<nat>
    requires bs > 0
  {
    Slice(table, start / bs, CeilTo(start + count, bs) / bs)
  }

  function SlotMapping(tables: seq<seq<nat>>, count: nat, bs: nat, start: nat): Slots
    requires bs > 0
  {
    if |tables| != 1 then Refused(MultiGroup)
    else
      var group := WindowBlocks(tables[0], start, count, bs);
      var offset := start % bs;
      if |group| * bs - offset < count then Refused(NotCovered)
      else Mapped(Flatten(group, bs)[offset..offset + count])
  }

  /** The slot token p of a request lives in. */
  function Slot(table: seq<nat>, p: nat, bs: nat): (r: nat)
    requires bs > 0 && p / bs < |table|
    ensures r / bs == table[p / bs] && r % bs == p % bs
  {
    Unique(table[p / bs] * bs + p % bs, bs, table[p / bs], p % bs);
    table[p / bs] * bs + p % bs
  }

  /** Whether the table holds every block of [start, start + count). */
  predicate TableCovers(table: seq<nat>, end: nat, bs: nat) { end <= |table| * bs }

  lemma {:induction false} WindowBounds(start: nat, count: nat, bs: nat)
    requires bs > 0 && count > 0
    ensures var s, e := start / bs, CeilTo(start + count, bs) / bs;
            s < e && s * bs == start - start % bs && start + count <= e * bs < start + count + bs
  {
    var c := CeilTo(start + count, bs);
    Split(start, bs);
    Split(c, bs);
    MulOrder(c / bs, start / bs, bs);
  }

  lemma {:induction false} CoveredIffEnoughBlocks(blocks: nat, start: nat, count: nat, bs: nat)
    requires bs > 0 && count > 0
    ensures CeilTo(start + count, bs) / bs <= blocks <==> start + count <= blocks * bs
  {
    var c := CeilTo(start + count, bs);
    Split(c, bs);
    Product(blocks, bs);
    AlignedBounds(blocks * bs, start + count, bs);
    MulOrder(c / bs, blocks, bs);
  }

  /** The slots of the blocks from start's own to the n-th, past start's offset. */
  lemma {:induction false} SlotsLeft(start: nat, n: nat, bs: nat)
    requires bs > 0
    ensures n >= start / bs ==> (n - start / bs) * bs - start % bs == n * bs - start
    ensures n < start / bs ==> n * bs <= start
  {
    Split(start, bs);
    MulOrder(start / bs, n, bs);
    MulOrder(n, start / bs, bs);
  }

  lemma {:induction false} WindowLength(table: seq<nat>, start: nat, count: nat, bs: nat)
    requires bs > 0 && count > 0
    ensures var group, s, e := WindowBlocks(table, start, count, bs), start / bs, CeilTo(start + count, bs) / bs;
            && s < e
            && (|group| * bs - start % bs >= count <==> TableCovers(table, start + count, bs))
            && (TableCovers(table, start + count, bs) ==> e <= |table| && group == table[s..e])
  {
    var s, e, n := start / bs, CeilTo(start + count, bs) / bs, |table|;
    var group := WindowBlocks(table, start, count, bs);
    WindowBounds(start, count, bs);
    CoveredIffEnoughBlocks(n, start, count, bs);
    if e <= n {
      assert |group| == e - s;
      SlotsLeft(start, e, bs);
    } else if n >= s {
      assert |group| == n - s;
      SlotsLeft(start, n, bs);
    } else {
      assert |group| == 0;
      assert |group| * bs == 0;
    }
  }

  /** For a positive count the mapping is refused exactly when there is not one table, or it
      is too short. */
  lemma {:induction false} RefusesExactlyShortTables(tables: seq<seq<nat>>, count: nat, bs: nat, start: nat)
    requires bs > 0 && count > 0
    ensures SlotMapping(tables, count, bs, start).Mapped? <==> |tables| == 1 && start + count <= |tables[0]| * bs
  {
    if |tables| == 1 {
      WindowLength(tables[0], start, count, bs);
    }
  }

  predicate IsSlot(slot: nat, table: seq<nat>, p: nat, bs: nat)
    requires bs > 0
  {
    p / bs < |table| && slot == Slot(table, p, bs)
  }

  /** slots lists the slots of positions start, start + 1, ... in order. */
  ghost predicate Pointwise(slots: seq<nat>, table: seq<nat>, start: nat, bs: nat)
    requires bs > 0
  {
    forall k | 0 <= k < |slots| :: IsSlot(slots[k], table, start + k, bs)
  }

  /** Otherwise it is the pointwise map of the window. */
  lemma {:induction false} MapsPointwise(table: seq<nat>, count: nat, bs: nat, start: nat)
    requires bs > 0 && count > 0 && TableCovers(table, start + count, bs)
    ensures var m := SlotMapping([table], count, bs, start);
            m.Mapped? && |m.slots| == count && Pointwise(m.slots, table, start, bs)
  {
    RefusesExactlyShortTables([table], count, bs, start);
    var slots := SlotMapping([table], count, bs, start).slots;
    forall k | 0 <= k < count
      ensures IsSlot(slots[k], table, start + k, bs)
    {
      WindowSlot(table, start, count, bs, k);
    }
  }

  /** The k-th position of a window, counted in whole blocks from the window's first. */
  lemma {:induction false} PositionInWindow(start: nat, k: nat, bs: nat)
    requires bs > 0
    ensures (start + k) / bs == start / bs + (start % bs + k) / bs
    ensures (start + k) % bs == (start % bs + k) % bs
  {
    var s, i := start / bs, start % bs + k;
    Split(start, bs);
    Split(i, bs);
    MulOrder(s, s + i / bs, bs);
    Unique(start + k, bs, s + i / bs, i % bs);
  }

  lemma {:induction false} LastBlockCovers(start: nat, count: nat, bs: nat, k: nat)
    requires bs > 0 && k < count
    ensures (start + k) / bs < CeilTo(start + count, bs) / bs
  {
    WindowBounds(start, count, bs);
    IndexInBlocks(CeilTo(start + count, bs) / bs, start + k, bs);
  }

  lemma {:induction false} WindowIsSlice(table: seq<nat>, start: nat, count: nat, bs: nat)
    requires bs > 0 && count > 0 && TableCovers(table, start + count, bs)
    ensures var s, e := start / bs, CeilTo(start + count, bs) / bs;
            0 <= s < e <= |table| && WindowBlocks(table, start, count, bs) == table[s..e]
  {
    assert CeilTo(start + count, bs) / bs <= |table| by { CoveredIffEnoughBlocks(|table|, start, count, bs); }
    assert start / bs < CeilTo(start + count, bs) / bs by { WindowBounds(start, count, bs); }
  }

  /** The window's block list, indexed from the window's own offset. */
  lemma {:induction false} WindowIndex(table: seq<nat>, start: nat, count: nat, bs: nat, k: nat)
    requires bs > 0 && k < count && TableCovers(table, start + count, bs)
    ensures 0 <= (start % bs + k) / bs < |WindowBlocks(table, start, count, bs)|
    ensures 0 <= (start + k) / bs < |table|
    ensures WindowBlocks(table, start, count, bs)[(start % bs + k) / bs] == table[(start + k) / bs]
    ensures (start + k) % bs == (start % bs + k) % bs
  {
    WindowIsSlice(table, start, count, bs);
    PositionInWindow(start, k, bs);
    LastBlockCovers(start, count, bs, k);
  }

  lemma {:induction false} FlattenedAt(group: seq<nat>, bs: nat, i: nat)
    requires bs > 0 && i / bs < |group|
    ensures i < |group| * bs && Flatten(group, bs)[i] == group[i / bs] * bs + i % bs
  {
    Split(i, bs);
    MulOrder(i / bs + 1, |group|, bs);
  }

  lemma {:induction false} MappedWindow(table: seq<nat>, start: nat, count: nat, bs: nat)
    requires bs > 0 && count > 0 && TableCovers(table, start + count, bs)
    ensures var m, all := SlotMapping([table], count, bs, start), Flatten(WindowBlocks(table, start, count, bs), bs);
            m.Mapped? && start % bs + count <= |all| && m.slots == all[start % bs..start % bs + count]
  {
    WindowLength(table, start, count, bs);
  }

  lemma {:induction false} WindowSlot(table: seq<nat>, start: nat, count: nat, bs: nat, k: nat)
    requires bs > 0 && k < count && TableCovers(table, start + count, bs)
    ensures (start + k) / bs < |table|
    ensures SlotMapping([table], count, bs, start).Mapped?
    ensures SlotMapping([table], count, bs, start).slots[k] == Slot(table, start + k, bs)
  {
    MappedWindow(table, start, count, bs);
    WindowIndex(table, start, count, bs, k);
    FlattenedAt(WindowBlocks(table, start, count, bs), bs, start % bs + k);
  }

  ghost predicate Distinct<T>(s: seq<T>) { forall i, j | 0 <= i < j < |s| :: s[i] != s[j] }

  /** The blocks from index first on occur nowhere else in the table; before it a null block
      may be repeated. */
  ghost predicate OwnFrom(table: seq<nat>, first: nat)
  {
    forall i, j | first <= i < |table| && 0 <= j < |table| && i != j :: table[i] != table[j]
  }

  lemma {:induction false} SlotsDiffer(table: seq<nat>, p: nat, q: nat, x: nat, y: nat, bs: nat)
    requires bs > 0 && IsSlot(x, table, p, bs) && IsSlot(y, table, q, bs) && p != q
    requires p / bs == q / bs || table[p / bs] != table[q / bs]
    ensures x != y
  {
    Split(p, bs);
    Split(q, bs);
  }

  /** So a slot of the window is the slot of no other position. */
  lemma {:induction false} OwnSlotsDiffer(table: seq<nat>, first: nat, p: nat, q: nat, x: nat, y: nat, bs: nat)
    requires bs > 0 && IsSlot(x, table, p, bs) && IsSlot(y, table, q, bs) && p != q
    requires OwnFrom(table, first) && first <= p / bs
    ensures x != y
  {
    if p / bs != q / bs {
      assert table[p / bs] != table[q / bs];
    }
    SlotsDiffer(table, p, q, x, y, bs);
  }

  /** Position base on, the request's blocks are its own. */
  ghost predicate OwnFromPosition(table: seq<nat>, base: nat, bs: nat)
    requires bs > 0
  {
    OwnFrom(table, base / bs)
  }

  lemma {:induction false} OwnSlotIsNobodyElses(table: seq<nat>, base: nat, p: nat, q: nat, s: nat, bs: nat)
    requires bs > 0 && base <= p && OwnFromPosition(table, base, bs)
    requires IsSlot(s, table, p, bs) && IsSlot(s, table, q, bs)
    ensures p == q
  {
    DivOrder(base, p, bs);
    if p != q {
      OwnSlotsDiffer(table, base / bs, p, q, s, s, bs);
    }
  }

  lemma {:induction false} PointwiseIsInjective(slots: seq<nat>, table: seq<nat>, base: nat, start: nat, bs: nat)
    requires bs > 0 && base <= start && OwnFromPosition(table, base, bs) && Pointwise(slots, table, start, bs)
    ensures Distinct(slots)
  {
    forall i, j | 0 <= i < j < |slots|
      ensures slots[i] != slots[j]
    {
      if slots[i] == slots[j] {
        OwnSlotIsNobodyElses(table, base, start + i, start + j, slots[i], bs);
      }
    }
  }

  lemma {:induction false} WindowSlotsDiffer(
      table: seq<nat>, start: nat, count: nat, bs: nat, i: nat, j: nat, x: nat, y: nat)
    requires bs > 0 && i < count && j < count && i != j && TableCovers(table, start + count, bs)
    requires Distinct(WindowBlocks(table, start, count, bs))
    requires IsSlot(x, table, start + i, bs) && IsSlot(y, table, start + j, bs)
    ensures x != y
  {
    var b := WindowBlockOf(table, start, count, bs, i);
    var c := WindowBlockOf(table, start, count, bs, j);
    SlotsDiffer(table, start + i, start + j, x, y, bs);
  }

  /** Which of the window's blocks a position is in. */
  lemma {:induction false} WindowBlockOf(table: seq<nat>, start: nat, count: nat, bs: nat, k: nat) returns (b: nat)
    requires bs > 0 && k < count && TableCovers(table, start + count, bs)
    ensures b < |WindowBlocks(table, start, count, bs)| && (start + k) / bs == start / bs + b
    ensures (start + k) / bs < |table|
    ensures WindowBlocks(table, start, count, bs)[b] == table[(start + k) / bs]
  {
    WindowIndex(table, start, count, bs, k);
    PositionInWindow(start, k, bs);
    b := (start % bs + k) / bs;
  }

  /** Distinct blocks in the window give distinct slots, whatever the rest of the table
      repeats. */
  lemma {:induction false} MappingIsInjective(table: seq<nat>, count: nat, bs: nat, start: nat)
    requires bs > 0 && count > 0 && TableCovers(table, start + count, bs)
    requires Distinct(WindowBlocks(table, start, count, bs))
    ensures SlotMapping([table], count, bs, start).Mapped?
    ensures Distinct(SlotMapping([table], count, bs, start).slots)
  {
    MapsPointwise(table, count, bs, start);
    var slots := SlotMapping([table], count, bs, start).slots;
    forall i, j | 0 <= i < j < |slots|
      ensures slots[i] != slots[j]
    {
      assert IsSlot(slots[i], table, start + i, bs) && IsSlot(slots[j], table, start + j, bs);
      WindowSlotsDiffer(table, start, count, bs, i, j, slots[i], slots[j]);
    }
  }

  /** Blocks a load would have written, reported for recompute. */
  function DestinationBlocks(tables: seq<seq<nat>>, start: nat, count: nat, bs: nat): set<nat>
    requires bs > 0
  {
    if tables == [] || tables[0] == [] then {}
    else set b | b in WindowBlocks(tables[0], start, count, bs)
  }

  /** The blocks handed back are exactly the blocks of the slots the load would write. */
  lemma {:induction false} DestinationsAreTheSlotsBlocks(table: seq<nat>, start: nat, count: nat, bs: nat, b: nat)
    requires bs > 0 && count > 0 && TableCovers(table, start + count, bs)
    ensures SlotMapping([table], count, bs, start).Mapped?
    ensures b in DestinationBlocks([table], start, count, bs) <==>
            exists x :: x in SlotMapping([table], count, bs, start).slots && x / bs == b
  {
    MapsPointwise(table, count, bs, start);
    var slots := SlotMapping([table], count, bs, start).slots;
    var group := WindowBlocks(table, start, count, bs);
    BlocksOfSlots(slots, group, table, start, count, bs, b);
    assert table == [] ==> group == [];
  }

  lemma {:induction false} BlocksOfSlots(
      slots: seq<nat>, group: seq<nat>, table: seq<nat>, start: nat, count: nat, bs: nat, b: nat)
    requires bs > 0 && count > 0 && TableCovers(table, start + count, bs)
    requires group == WindowBlocks(table, start, count, bs)
    requires |slots| == count && Pointwise(slots, table, start, bs)
    ensures b in group <==> exists x :: x in slots && x / bs == b
  {
    if b in group {
      var i :| 0 <= i < |group| && group[i] == b;
      var k := WindowBlockIsHit(table, start, count, bs, i);
      assert IsSlot(slots[k], table, start + k, bs);
      assert slots[k] in slots && slots[k] / bs == b;
    }
    if exists x :: x in slots && x / bs == b {
      var x :| x in slots && x / bs == b;
      var k :| 0 <= k < count && slots[k] == x;
      assert IsSlot(slots[k], table, start + k, bs);
      SlotBlockInWindow(table, start, count, bs, k);
    }
  }

  lemma {:induction false} SlotBlockInWindow(table: seq<nat>, start: nat, count: nat, bs: nat, k: nat)
    requires bs > 0 && k < count && TableCovers(table, start + count, bs)
    ensures (start + k) / bs < |table| && table[(start + k) / bs] in WindowBlocks(table, start, count, bs)
  {
    WindowIndex(table, start, count, bs, k);
  }

  /** Some position of the window falls in its i-th block. */
  lemma {:induction false} WindowBlockIsHit(table: seq<nat>, start: nat, count: nat, bs: nat, i: nat)
    returns (k: nat)
    requires bs > 0 && count > 0 && TableCovers(table, start + count, bs)
    requires i < |WindowBlocks(table, start, count, bs)|
    ensures k < count && (start + k) / bs < |table|
    ensures table[(start + k) / bs] == WindowBlocks(table, start, count, bs)[i]
  {
    WindowIsSlice(table, start, count, bs);
    k := HitInBlock(start, count, bs, start / bs + i);
  }

  lemma {:induction false} HitInBlock(start: nat, count: nat, bs: nat, b: nat) returns (k: nat)
    requires bs > 0 && count > 0 && start / bs <= b < CeilTo(start + count, bs) / bs
    ensures k < count && (start + k) / bs == b
  {
    WindowBounds(start, count, bs);
    Split(start, bs);
    k := FirstInBlock(start / bs, CeilTo(start + count, bs) / bs, b, start, count, bs);
  }

  lemma {:induction false} FirstInBlock(s: int, e: int, b: int, start: nat, count: nat, bs: nat) returns (k: nat)
    requires bs > 0 && s <= b < e
    requires s * bs <= start < s * bs + bs && start + count <= e * bs < start + count + bs && count > 0
    ensures k < count && (start + k) / bs == b
  {
    MulOrder(b + 1, e, bs);
    MulOrder(b, b + 1, bs);
    MulOrder(s + 1, b, bs);
    MulOrder(s, s + 1, bs);
    var p := Max(start, b * bs);
    Unique(p, bs, b, p - b * bs);
    k := p - start;
  }

  /** Position p of a request lies in block b. */
  predicate LiesIn(table: seq<nat>, p: nat, bs: nat, b: nat)
    requires bs > 0
  {
    p / bs < |table| && table[p / bs] == b
  }

  lemma {:induction false} SliceHolds(table: seq<nat>, lo: nat, hi: nat, b: nat)
    ensures b in Slice(table, lo, hi) <==> exists i :: lo <= i < hi && i < |table| && table[i] == b
  {
    var part := Slice(table, lo, hi);
    if b in part {
      var k :| 0 <= k < |part| && part[k] == b;
      assert table[lo + k] == b;
    }
    if exists i :: lo <= i < hi && i < |table| && table[i] == b {
      var i :| lo <= i < hi && i < |table| && table[i] == b;
      assert part[i - lo] == b;
    }
  }

  lemma {:induction false} PositionBlockInWindow(start: nat, count: nat, bs: nat, p: nat)
    requires bs > 0 && start <= p < start + count
    ensures start / bs <= p / bs < CeilTo(start + count, bs) / bs
  {
    LastBlockCovers(start, count, bs, p - start);
    DivOrder(start, p, bs);
  }

  /** They are the blocks some position of the window lies in, so far as the table goes. */
  lemma {:induction false} DestinationsHoldTheWindow(table: seq<nat>, start: nat, count: nat, bs: nat, b: nat)
    requires bs > 0 && count > 0
    ensures b in DestinationBlocks([table], start, count, bs) <==>
            exists p: nat :: start <= p < start + count && LiesIn(table, p, bs, b)
  {
    var s, e := start / bs, CeilTo(start + count, bs) / bs;
    SliceHolds(table, s, e, b);
    if b in WindowBlocks(table, start, count, bs) {
      var i :| s <= i < e && i < |table| && table[i] == b;
      var k := HitInBlock(start, count, bs, i);
      assert LiesIn(table, start + k, bs, b);
    }
    forall p: nat | start <= p < start + count && LiesIn(table, p, bs, b)
      ensures b in WindowBlocks(table, start, count, bs)
    {
      PositionBlockInWindow(start, count, bs, p);
    }
  }

  // ------------------------------------------------------- cells and windows

  /** One token's cached rows in one layer. */
  datatype Cell = Cell(k: seq<real>, v: seq<real>)

  predicate InRange(slots: seq<nat>, n: nat) { forall i | 0 <= i < |slots| :: slots[i] < n }

  function WriteCells<T>(view: seq<T>, slots: seq<nat>, src: seq<T>): (r: seq<T>)
    requires |slots| == |src| && InRange(slots, |view|)
    ensures |r| == |view|
  {
    if slots == [] then view else
      var n := |slots| - 1;
      WriteCells(view, slots[..n], src[..n])[slots[n] := src[n]]
  }

  function ReadCells<T>(view: seq<T>, slots: seq<nat>): seq<T>
    requires InRange(slots, |view|)
  {
    seq(|slots|, i requires 0 <= i < |slots| => view[slots[i]])
  }

  /** Over a duplicate-free mapping, cell slots[i] holds src[i] and nothing else moved. */
  lemma {:induction false} WritesLand<T>(view: seq<T>, slots: seq<nat>, src: seq<T>)
    requires |slots| == |src| && InRange(slots, |view|) && Distinct(slots)
    ensures forall i | 0 <= i < |slots| :: slots[i] < |view| && WriteCells(view, slots, src)[slots[i]] == src[i]
    ensures forall s | 0 <= s < |view| && s !in slots :: WriteCells(view, slots, src)[s] == view[s]
  {
    if slots != [] {
      var n := |slots| - 1;
      WritesLand(view, slots[..n], src[..n]);
      assert slots == slots[..n] + [slots[n]];
      forall i | 0 <= i < |slots|
        ensures slots[i] < |view| && WriteCells(view, slots, src)[slots[i]] == src[i]
      {
        if i < n { assert slots[..n][i] == slots[i]; }
      }
    }
  }

  /** Extract after inject returns what was injected. */
  lemma {:induction false} ReadsBack<T>(view: seq<T>, slots: seq<nat>, src: seq<T>)
    requires |slots| == |src| && InRange(slots, |view|) && Distinct(slots)
    ensures ReadCells(WriteCells(view, slots, src), slots) == src
  {
    WritesLand(view, slots, src);
  }

  // ------------------------------------------------------------ paged layers

  /** Where K and V sit in a layer's tensor. */
  datatype Layout = KvFirst | BlocksFirst | Packed

  /** The connector's reading of a tensor's shape: rank 4 is packed K|V content, rank 5
      has the K/V axis first or second; anything else is refused. */
  function LayoutOf(shape: seq<nat>): Option<Layout>
  {
    if |shape| == 4 then Some(Packed)
    else if |shape| != 5 then None
    else if shape[0] == 2 then Some(KvFirst)
    else if shape[1] == 2 then Some(BlocksFirst)
    else None
  }

  /** The shape a layer of `blocks` blocks really has under a layout. */
  function ShapeOf(layout: Layout, blocks: nat, bs: nat, heads: nat, dim: nat): seq<nat>
  {
    match layout
    case KvFirst => [2, blocks, bs, heads, dim]
    case BlocksFirst => [blocks, 2, bs, heads, dim]
    case Packed => [blocks, heads, bs, 2 * dim]
  }

  /** The reading is right for every pool except a blocks-first one of two blocks, which
      is taken for a K/V-first one. */
  lemma {:induction false} LayoutIsRead(layout: Layout, blocks: nat, bs: nat, heads: nat, dim: nat)
    ensures LayoutOf(ShapeOf(layout, blocks, bs, heads, dim)) == Some(layout) <==>
            !(layout == BlocksFirst && blocks == 2)
  {
    var shape := ShapeOf(layout, blocks, bs, heads, dim);
    assert |shape| == if layout == Packed then 4 else 5;
  }

  lemma {:induction false} ColumnInHead(c: nat, heads: nat, dim: nat)
    requires c < heads * dim
    ensures dim > 0 && 0 <= c / dim < heads && 0 <= c % dim < dim && (c / dim) * dim + c % dim == c
  {
    assert dim == 0 ==> heads * dim == 0;
    IndexInBlocks(heads, c, dim);
    Split(c, dim);
  }

  lemma {:induction false} HeadColumn(h: nat, d: nat, heads: nat, dim: nat)
    requires h < heads && d < dim
    ensures h * dim + d < heads * dim && (h * dim + d) / dim == h && (h * dim + d) % dim == d
  {
    MulOrder(h + 1, heads, dim);
    MulOrder(h, h + 1, dim);
    Unique(h * dim + d, dim, h, d);
  }

  /** One layer's paged KV tensor: rank 5 or rank 4, addressed by page and offset. */
  class PagedLayer {
    const five: array5?<real>
    const four: array4?<real>

    /** A layer as the engine allocates it, in any of the layouts. */
    constructor (layout: Layout, blocks: nat, bs: nat, heads: nat, dim: nat)
      requires bs > 0
      ensures Valid() && Shape() == ShapeOf(layout, blocks, bs, heads, dim) && fresh(Repr())
    {
      if layout == KvFirst {
        five, four := new real[2, blocks, bs, heads, dim], null;
      } else if layout == BlocksFirst {
        five, four := new real[blocks, 2, bs, heads, dim], null;
      } else {
        five, four := null, new real[blocks, heads, bs, 2 * dim];
      }
      new;
      assert Shape() == ShapeOf(layout, blocks, bs, heads, dim);
    }

    function Shape(): seq<nat>
    {
      if four != null then [four.Length0, four.Length1, four.Length2, four.Length3]
      else if five != null then [five.Length0, five.Length1, five.Length2, five.Length3, five.Length4]
      else []
    }

    predicate Valid()
    {
      && LayoutOf(Shape()).Some?
      && Shape()[2] > 0
      && (four != null ==> four.Length3 % 2 == 0)
    }

    function Layout(): Layout requires Valid() { LayoutOf(Shape()).value }

    function BlockSize(): nat requires Valid() { Shape()[2] }

    function Blocks(): nat
      requires Valid()
    {
      if Layout() == KvFirst then Shape()[1] else Shape()[0]
    }

    function Heads(): nat requires Valid() { if four != null then four.Length1 else five.Length3 }

    function Dim(): nat requires Valid() { if four != null then four.Length3 / 2 else five.Length4 }

    function Capacity(): nat requires Valid() { Blocks() * BlockSize() }

    /** Blocks, block size, heads and head width account for the whole tensor. */
    lemma {:induction false} ShapeIsAccountedFor()
      requires Valid()
      ensures Shape() == ShapeOf(Layout(), Blocks(), BlockSize(), Heads(), Dim())
    {
      assert |Shape()| == if four != null then 4 else 5;
    }

    ghost function Repr(): set<object>
    {
      (if four != null then {four} else {}) + (if five != null then {five} else {})
    }

    /** The element of one page position: kv 0 is K, 1 is V. */
    function At(kv: nat, page: nat, offset: nat, h: nat, d: nat): real
      requires Valid() && kv < 2 && page < Blocks() && offset < BlockSize() && h < Heads() && d < Dim()
      reads Repr()
    {
      match Layout()
      case KvFirst => five[kv, page, offset, h, d]
      case BlocksFirst => five[page, kv, offset, h, d]
      case Packed => four[page, h, offset, kv * Dim() + d]
    }

    function Row(kv: nat, slot: nat): (r: seq<real>)
      requires Valid() && kv < 2 && slot < Capacity()
      reads Repr()
      ensures |r| == Heads() * Dim()
    {
      IndexInBlocks(Blocks(), slot, BlockSize());
      seq(Heads() * Dim(), c requires 0 <= c < Heads() * Dim() reads Repr() =>
        ColumnInHead(c, Heads(), Dim());
        At(kv, slot / BlockSize(), slot % BlockSize(), c / Dim(), c % Dim()))
    }

    /** The whole tensor, one cell per slot. */
    ghost function View(): (r: seq<Cell>)
      requires Valid()
      reads Repr()
      ensures |r| == Capacity()
    {
      seq(Capacity(), s requires 0 <= s < Capacity() reads Repr() => Cell(Row(0, s), Row(1, s)))
    }

    /** Scatter the host rows of n tokens into their slots. */
    method Inject(src: seq<Cell>, slots: seq<nat>)
      requires Valid() && |src| == |slots| && InRange(slots, Capacity())
      requires forall i | 0 <= i < |src| :: |src[i].k| == |src[i].v| == Heads() * Dim()
      modifies Repr()
      ensures View() == WriteCells(old(View()), slots, src)
    {
      for i := 0 to |slots|
        invariant View() == WriteCells(old(View()), slots[..i], src[..i])
      {
        Put(slots[i], src[i]);
        assert slots[..i + 1][..i] == slots[..i] && src[..i + 1][..i] == src[..i];
      }
      assert slots[..|slots|] == slots && src[..|src|] == src;
    }

    /** Gather the rows of n slots into host memory. */
    method Extract(slots: seq<nat>) returns (cells: seq<Cell>)
      requires Valid() && InRange(slots, Capacity())
      ensures cells == ReadCells(View(), slots)
    {
      cells := [];
      for i := 0 to |slots|
        invariant |cells| == i && forall j | 0 <= j < i :: cells[j] == View()[slots[j]]
      {
        cells := cells + [Cell(Row(0, slots[i]), Row(1, slots[i]))];
      }
    }

    /** Write one token's K and V rows at a slot, in place. */
    method Put(slot: nat, cell: Cell)
      requires Valid() && slot < Capacity()
      requires |cell.k| == |cell.v| == Heads() * Dim()
      modifies Repr()
      ensures View() == old(View())[slot := cell]
    {
      IndexInBlocks(Blocks(), slot, BlockSize());
      var page, offset := slot / BlockSize(), slot % BlockSize();
      ghost var was := View();
      ViewHolds();
      if Layout() == Packed {
        PutPacked(page, offset, cell, was);
      } else if Layout() == KvFirst {
        PutKvFirst(page, offset, cell, was);
      } else {
        PutBlocksFirst(page, offset, cell, was);
      }
      OnlySlotMoved(was, slot, cell);
      HoldsIsView(was[slot := cell]);
    }

    ghost predicate Shaped(cells: seq<Cell>)
      requires Valid()
    {
      |cells| == Capacity() &&
      forall s | 0 <= s < |cells| :: |cells[s].k| == |cells[s].v| == Heads() * Dim()
    }

    /** The cell a page position belongs to. */
    ghost function CellAt(cells: seq<Cell>, page: nat, offset: nat): (cell: Cell)
      requires Valid() && Shaped(cells) && page < Blocks() && offset < BlockSize()
      ensures |cell.k| == |cell.v| == Heads() * Dim()
    {
      HeadColumn(page, offset, Blocks(), BlockSize());
      cells[page * BlockSize() + offset]
    }

    /** The tensor holds exactly these cells. */
    ghost predicate Holds(cells: seq<Cell>)
      requires Valid() && Shaped(cells)
      reads Repr()
    {
      forall kv: nat, p: nat, o: nat, h: nat, d: nat
        | kv < 2 && p < Blocks() && o < BlockSize() && h < Heads() && d < Dim() ::
        At(kv, p, o, h, d) == Element(CellAt(cells, p, o), kv, h, d)
    }

    lemma {:induction false} ViewHolds()
      requires Valid()
      ensures Shaped(View()) && Holds(View())
    {
      forall kv: nat, p: nat, o: nat, h: nat, d: nat
        | kv < 2 && p < Blocks() && o < BlockSize() && h < Heads() && d < Dim()
        ensures At(kv, p, o, h, d) == Element(CellAt(View(), p, o), kv, h, d)
      {
        ViewElement(kv, p, o, h, d);
      }
    }

    lemma {:induction false} ViewElement(kv: nat, p: nat, o: nat, h: nat, d: nat)
      requires Valid() && kv < 2 && p < Blocks() && o < BlockSize() && h < Heads() && d < Dim()
      ensures At(kv, p, o, h, d) == Element(CellAt(View(), p, o), kv, h, d)
    {
      HeadColumn(h, d, Heads(), Dim());
      HeadColumn(p, o, Blocks(), BlockSize());
      assert CellAt(View(), p, o) == View()[p * BlockSize() + o];
      assert Row(kv, p * BlockSize() + o)[h * Dim() + d] == At(kv, p, o, h, d);
    }

    lemma {:induction false} RowIsHeld(cells: seq<Cell>, kv: nat, s: nat)
      requires Valid() && Shaped(cells) && Holds(cells) && kv < 2 && s < Capacity()
      ensures Row(kv, s) == if kv == 0 then cells[s].k else cells[s].v
    {
      IndexInBlocks(Blocks(), s, BlockSize());
      Split(s, BlockSize());
      assert CellAt(cells, s / BlockSize(), s % BlockSize()) == cells[s];
      forall c | 0 <= c < Heads() * Dim()
        ensures Row(kv, s)[c] == (if kv == 0 then cells[s].k else cells[s].v)[c]
      {
        ColumnInHead(c, Heads(), Dim());
        Split(c, Dim());
      }
    }

    lemma {:induction false} HoldsIsView(cells: seq<Cell>)
      requires Valid() && Shaped(cells) && Holds(cells)
      ensures View() == cells
    {
      forall s | 0 <= s < Capacity()
        ensures View()[s] == cells[s]
      {
        RowIsHeld(cells, 0, s);
        RowIsHeld(cells, 1, s);
      }
    }

    lemma {:induction false} OnlySlotMoved(was: seq<Cell>, slot: nat, cell: Cell)
      requires Valid() && Shaped(was) && slot < Capacity()
      requires |cell.k| == |cell.v| == Heads() * Dim()
      requires slot / BlockSize() < Blocks() && Placed(was, slot / BlockSize(), slot % BlockSize(), cell)
      ensures Holds(was[slot := cell])
    {
      Split(slot, BlockSize());
      forall p: nat, o: nat | p < Blocks() && o < BlockSize()
        ensures CellAt(was[slot := cell], p, o) ==
                if p == slot / BlockSize() && o == slot % BlockSize() then cell else CellAt(was, p, o)
      {
        HeadColumn(p, o, Blocks(), BlockSize());
      }
    }

    /** The tensor holds `was` except for one page position. */
    ghost predicate Placed(was: seq<Cell>, page: nat, offset: nat, cell: Cell)
      requires Valid() && Shaped(was) && page < Blocks() && offset < BlockSize()
      requires |cell.k| == |cell.v| == Heads() * Dim()
      reads Repr()
    {
      forall kv: nat, p: nat, o: nat, h: nat, d: nat
        | kv < 2 && p < Blocks() && o < BlockSize() && h < Heads() && d < Dim() ::
        At(kv, p, o, h, d) ==
          Element(if p == page && o == offset then cell else CellAt(was, p, o), kv, h, d)
    }

    function Element(cell: Cell, kv: nat, h: nat, d: nat): real
      requires Valid() && |cell.k| == |cell.v| == Heads() * Dim()
      requires h < Heads() && d < Dim()
    {
      HeadColumn(h, d, Heads(), Dim());
      (if kv == 0 then cell.k else cell.v)[h * Dim() + d]
    }

    /** A packed row's column: the head's keys, then its values. */
    function PackedElement(cell: Cell, h: nat, c: nat): real
      requires Valid() && |cell.k| == |cell.v| == Heads() * Dim()
      requires h < Heads() && c < 2 * Dim()
    {
      if c < Dim() then Element(cell, 0, h, c) else Element(cell, 1, h, c - Dim())
    }

    method PutKvFirst(page: nat, offset: nat, cell: Cell, ghost was: seq<Cell>)
      requires Valid() && Layout() == KvFirst && page < Blocks() && offset < BlockSize()
      requires |cell.k| == |cell.v| == Heads() * Dim()
      requires Shaped(was) && Holds(was)
      modifies Repr()
      ensures Placed(was, page, offset, cell)
    {
      forall kv: nat, h: nat, d: nat | kv < 2 && h < Heads() && d < Dim() {
        five[kv, page, offset, h, d] := Element(cell, kv, h, d);
      }
    }

    method PutBlocksFirst(page: nat, offset: nat, cell: Cell, ghost was: seq<Cell>)
      requires Valid() && Layout() == BlocksFirst && page < Blocks() && offset < BlockSize()
      requires |cell.k| == |cell.v| == Heads() * Dim()
      requires Shaped(was) && Holds(was)
      modifies Repr()
      ensures Placed(was, page, offset, cell)
    {
      forall kv: nat, h: nat, d: nat | kv < 2 && h < Heads() && d < Dim() {
        five[page, kv, offset, h, d] := Element(cell, kv, h, d);
      }
    }

    /** The packed page holds cat(K, V) along its content dimension. */
    method PutPacked(page: nat, offset: nat, cell: Cell, ghost was: seq<Cell>)
      requires Valid() && Layout() == Packed && page < Blocks() && offset < BlockSize()
      requires |cell.k| == |cell.v| == Heads() * Dim()
      requires Shaped(was) && Holds(was)
      modifies Repr()
      ensures Placed(was, page, offset, cell)
    {
      forall h: nat, c: nat | h < Heads() && c < 2 * Dim() {
        four[page, h, offset, c] := PackedElement(cell, h, c);
      }
      forall kv: nat, p: nat, o: nat, h: nat, d: nat
        | kv < 2 && p < Blocks() && o < BlockSize() && h < Heads() && d < Dim()
        ensures At(kv, p, o, h, d) == Element(if p == page && o == offset then cell else CellAt(was, p, o), kv, h, d)
      {
        assert kv * Dim() == if kv == 0 then 0 else Dim();
        assert p != page || o != offset ==> At(kv, p, o, h, d) == old(At(kv, p, o, h, d));
      }
    }
  }
}
