/** Block arithmetic shared by the planner, the scheduler role and the worker. */
module Blocks {

  /** The last block edge at or before p (Python's floor division). */
  function FloorTo(p: int, bs: int): (r: int)
    requires bs > 0
    ensures r <= p < r + bs && r % bs == 0
  {
    Product(p / bs, bs);
    (p / bs) * bs
  }

  /** The first block edge at or after p. */
  function CeilTo(p: int, bs: int): (r: int)
    requires bs > 0
    ensures p <= r < p + bs && r % bs == 0
  {
    FloorTo(p + bs - 1, bs)
  }

  lemma {:induction false} Product(q: int, bs: int)
    requires bs > 0
    ensures (q * bs) % bs == 0
    ensures (q * bs) / bs == q
  {
    Unique(q * bs, bs, q, 0);
  }

  /** Quotient and remainder are determined by p == q * bs + r with 0 <= r < bs. */
  lemma {:induction false} Unique(p: int, bs: int, q: int, r: int)
    requires bs > 0 && p == q * bs + r && 0 <= r < bs
    ensures p / bs == q && p % bs == r
  {
    var d := p / bs - q;
    assert p == (p / bs) * bs + p % bs;
    assert d * bs == r - p % bs by { assert (p / bs) * bs - q * bs == d * bs; }
    assert d > 0 ==> d * bs >= bs;
    assert d < 0 ==> d * bs <= -bs;
  }

  lemma {:induction false} MulOrder(a: int, b: int, bs: int)
    requires bs > 0
    ensures a <= b <==> a * bs <= b * bs
    ensures (b - a) * bs == b * bs - a * bs
  {
    assert (b - a) * bs == b * bs - a * bs;
    assert a <= b ==> (b - a) * bs >= 0;
    assert a > b ==> (b - a) * bs < 0;
  }

  lemma {:induction false} Split(p: int, bs: int)
    requires bs > 0
    ensures p == (p / bs) * bs + p % bs
  {
  }

  lemma {:induction false} DivOrder(a: int, b: int, bs: int)
    requires bs > 0 && a <= b
    ensures a / bs <= b / bs
  {
    Split(a, bs);
    Split(b, bs);
    MulOrder(a / bs, b / bs + 1, bs);
  }

  /** Index i of n blocks laid end to end falls in one of them. */
  lemma {:induction false} IndexInBlocks(n: int, i: int, bs: int)
    requires bs > 0 && 0 <= i < n * bs
    ensures 0 <= i / bs < n
  {
    Split(i, bs);
    MulOrder(n, i / bs, bs);
    MulOrder(i / bs, -1, bs);
  }

  lemma {:induction false} AlignedSum(a: int, b: int, bs: int)
    requires bs > 0 && a % bs == 0 && b % bs == 0
    ensures (a + b) % bs == 0 && (a - b) % bs == 0
  {
    var x, y := a / bs, b / bs;
    assert a == x * bs && b == y * bs;
    assert a + b == (x + y) * bs && a - b == (x - y) * bs;
    Product(x + y, bs);
    Product(x - y, bs);
  }

  /** An aligned a never crosses p's floor from below, nor its ceiling from above. */
  lemma {:induction false} AlignedBounds(a: int, p: int, bs: int)
    requires bs > 0 && a % bs == 0
    ensures a <= p ==> a <= FloorTo(p, bs)
    ensures a >= p ==> a >= CeilTo(p, bs)
  {
    var f := FloorTo(p, bs);
    AlignedSum(a, f, bs);
    if f < a <= p {
      Unique(a - f, bs, 0, a - f);
      assert false;
    }
    var c := CeilTo(p, bs);
    AlignedSum(c, a, bs);
    if p <= a < c {
      Unique(c - a, bs, 0, c - a);
      assert false;
    }
  }

  lemma {:induction false} FloorFixed(a: int, bs: int)
    requires bs > 0 && a % bs == 0
    ensures FloorTo(a, bs) == a && CeilTo(a, bs) == a
  {
    AlignedBounds(a, a, bs);
  }

  /** The largest block-aligned prefix vLLM may treat as computed: one token is
      always left to compute. */
  function CacheablePrefix(numTokens: int, bs: int): (r: int)
    requires bs > 0
    ensures r >= 0 && r % bs == 0
    ensures numTokens >= 2 ==> r <= numTokens - 2
    ensures numTokens < 2 ==> r == 0
  {
    var eligible := if numTokens - 1 > 0 then numTokens - 1 else 0;
    if eligible <= 0 then
      Product(0, bs);
      0
    else
      AlignedBounds(0, eligible - 1, bs);
      FloorTo(eligible - 1, bs)
  }

  lemma {:induction false} CacheableIsLargest(numTokens: int, bs: int, a: int)
    requires bs > 0 && a % bs == 0 && 0 <= a
    ensures numTokens >= 2 && a <= numTokens - 2 ==> a <= CacheablePrefix(numTokens, bs)
  {
    AlignedBounds(a, numTokens - 2, bs);
  }

  function Min(a: int, b: int): int { if a <= b then a else b }

  function Max(a: int, b: int): int { if a >= b then a else b }

  datatype Option<+T> = None | Some(value: T)

  /** A scheduler row's change to a block table: nothing, an addition, or for a resumed
      request the whole new table. */
  function ExtendTable(current: seq<nat>, added: Option<seq<nat>>, replaced: bool): seq<nat>
  {
    if added.None? then current else if replaced then added.value else current + added.value
  }
}
