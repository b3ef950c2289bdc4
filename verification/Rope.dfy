/** Rotary position embedding and the constant-delta re-rotation of cached keys.
    A frequency is the rotation one position makes, a unit pair (cos, sin) over the
    reals; position p rotates by its p-th integer power. */
module Rope {
  import opened Blocks

  datatype Turn = Turn(c: real, s: real)

  const STILL := Turn(1.0, 0.0)

  ghost predicate Unit(t: Turn) { t.c * t.c + t.s * t.s == 1.0 }

  function Mul(a: Turn, b: Turn): Turn
  {
    Turn(a.c * b.c - a.s * b.s, a.s * b.c + a.c * b.s)
  }

  function Inverse(a: Turn): Turn { Turn(a.c, -a.s) }

  /** The rotation n positions make, for either sign of n. */
  function Power(u: Turn, n: int): Turn
    decreases if n < 0 then -n else n
  {
    if n == 0 then STILL
    else if n > 0 then Mul(u, Power(u, n - 1))
    else Mul(Inverse(u), Power(u, n + 1))
  }

  lemma {:induction false} MulAssociates(a: Turn, b: Turn, d: Turn)
    ensures Mul(Mul(a, b), d) == Mul(a, Mul(b, d))
  {
  }

  lemma {:induction false} PowerNext(u: Turn, n: int)
    requires Unit(u)
    ensures Power(u, n + 1) == Mul(u, Power(u, n))
    ensures Power(u, n - 1) == Mul(Inverse(u), Power(u, n))
  {
    assert Mul(u, Inverse(u)) == STILL && Mul(Inverse(u), u) == STILL;
    if n < 0 {
      MulAssociates(u, Inverse(u), Power(u, n + 1));
    }
    if n > 0 {
      MulAssociates(Inverse(u), u, Power(u, n - 1));
    }
  }

  /** Rotations compose: powers add, for every pair of signs. */
  lemma {:induction false} PowerAdds(u: Turn, m: int, n: int)
    requires Unit(u)
    ensures Power(u, m + n) == Mul(Power(u, m), Power(u, n))
    decreases if m < 0 then -m else m
  {
    if m > 0 {
      PowerAdds(u, m - 1, n);
      PowerNext(u, m - 1 + n);
      MulAssociates(u, Power(u, m - 1), Power(u, n));
    } else if m < 0 {
      PowerAdds(u, m + 1, n);
      PowerNext(u, m + 1 + n);
      MulAssociates(Inverse(u), Power(u, m + 1), Power(u, n));
    }
  }

  /** One token's key row: heads of |freqs| * 2 values each, laid end to end. */
  predicate RowShape(row: seq<real>, freqs: seq<Turn>)
  {
    |freqs| > 0 && |row| % (2 * |freqs|) == 0
  }

  /** Column c's head keeps its two halves |freqs| columns apart. */
  lemma {:induction false} PartnerColumn(row: seq<real>, freqs: seq<Turn>, c: int)
    requires RowShape(row, freqs) && 0 <= c < |row|
    ensures var h, j := |freqs|, c % (2 * |freqs|);
            if j < h then c + h < |row| && (c + h) % (2 * h) == j + h
            else 0 <= c - h && (c - h) % (2 * h) == j - h
  {
    ColumnShift(|row|, 2 * |freqs|, |freqs|, c);
  }

  lemma {:induction false} ColumnShift(width: int, d: int, h: int, c: int)
    requires 0 < h && d == h + h && width % d == 0 && 0 <= c < width
    ensures c % d < h ==> c + h < width && (c + h) % d == c % d + h
    ensures c % d >= h ==> 0 <= c - h && (c - h) % d == c % d - h
  {
    if c % d < h { ShiftUp(width, d, h, c); } else { ShiftDown(d, h, c); }
  }

  lemma {:induction false} ShiftDown(d: int, h: int, c: int)
    requires 0 < h && d == h + h && 0 <= c && c % d >= h
    ensures 0 <= c - h && (c - h) % d == c % d - h
  {
    Unique(c - h, d, c / d, c % d - h);
  }

  lemma {:induction false} ShiftUp(width: int, d: int, h: int, c: int)
    requires 0 < h && d == h + h && width % d == 0 && 0 <= c < width && c % d < h
    ensures c + h < width && (c + h) % d == c % d + h
  {
    Unique(c + h, d, c / d, c % d + h);
    WholeHeadFits(width, d, c);
  }

  /** The head a column is in ends inside the row. */
  lemma {:induction false} WholeHeadFits(width: int, d: int, c: int)
    requires 0 < d && width % d == 0 && 0 <= c < width
    ensures c - c % d + d <= width
  {
    var start := (c / d) * d;
    Product(c / d, d);
    AlignedSum(width, start, d);
    if width - start < d {
      Unique(width - start, d, 0, width - start);
    }
  }

  function Lower(x: real, y: real, t: Turn): real { x * t.c - y * t.s }

  function Upper(x: real, y: real, t: Turn): real { y * t.c + x * t.s }

  /** The half-split rotation of every head by n positions. */
  function RotateColumn(row: seq<real>, freqs: seq<Turn>, n: int, c: int): real
    requires RowShape(row, freqs) && 0 <= c < |row|
  {
    PartnerColumn(row, freqs, c);
    var j := c % (2 * |freqs|);
    if j < |freqs| then
      var t := Power(freqs[j], n);
      Lower(row[c], row[c + |freqs|], t)
    else
      var t := Power(freqs[j - |freqs|], n);
      Upper(row[c - |freqs|], row[c], t)
  }

  function RotateRow(row: seq<real>, freqs: seq<Turn>, n: int): (r: seq<real>)
    requires RowShape(row, freqs)
    ensures |r| == |row|
    ensures forall c | 0 <= c < |row| :: r[c] == RotateColumn(row, freqs, n, c)
  {
    seq(|row|, c requires 0 <= c < |row| => RotateColumn(row, freqs, n, c))
  }

  /** The two halves of a rotated pair. */
  lemma {:induction false} RotateTwice(x: real, y: real, a: Turn, b: Turn)
    ensures Lower(Lower(x, y, a), Upper(x, y, a), b) == Lower(x, y, Mul(a, b))
    ensures Upper(Lower(x, y, a), Upper(x, y, a), b) == Upper(x, y, Mul(a, b))
  {
  }

  lemma {:induction false} RotateColumnAdds(row: seq<real>, freqs: seq<Turn>, m: int, n: int, c: int)
    requires RowShape(row, freqs) && 0 <= c < |row|
    requires forall f | f in freqs :: Unit(f)
    ensures RotateColumn(RotateRow(row, freqs, m), freqs, n, c) == RotateColumn(row, freqs, m + n, c)
  {
    var h, j := |freqs|, c % (2 * |freqs|);
    PartnerColumn(row, freqs, c);
    var low := if j < h then c else c - h;
    PartnerColumn(row, freqs, low);
    PartnerColumn(row, freqs, low + h);
    var f := freqs[if j < h then j else j - h];
    PowerAdds(f, m, n);
    RotateTwice(row[low], row[low + h], Power(f, m), Power(f, n));
  }

  /** Rotating by m and then by n positions is rotating by m + n. */
  lemma {:induction false} RotationsCompose(row: seq<real>, freqs: seq<Turn>, m: int, n: int)
    requires RowShape(row, freqs)
    requires forall f | f in freqs :: Unit(f)
    ensures RotateRow(RotateRow(row, freqs, m), freqs, n) == RotateRow(row, freqs, m + n)
  {
    var twice, once := RotateRow(RotateRow(row, freqs, m), freqs, n), RotateRow(row, freqs, m + n);
    forall c | 0 <= c < |row|
      ensures twice[c] == once[c]
    {
      RotateColumnAdds(row, freqs, m, n, c);
    }
  }

  /** n positions turn the pair (j, j + h) of the head that starts at b by the n-th power of
      frequency j's unit pair. */
  lemma {:induction false} PositionsTurn(row: seq<real>, freqs: seq<Turn>, n: int, b: int, j: int)
    requires |freqs| > 0 && |row| % (2 * |freqs|) == 0
    requires 0 <= b && b % (2 * |freqs|) == 0 && b + 2 * |freqs| <= |row| && 0 <= j < |freqs|
    ensures var r, h, t := RotateRow(row, freqs, n), |freqs|, Power(freqs[j], n);
            && |r| == |row|
            && r[b + j] == row[b + j] * t.c - row[b + j + h] * t.s
            && r[b + j + h] == row[b + j + h] * t.c + row[b + j] * t.s
  {
    PairRotates(row, freqs, n, b, j);
  }

  lemma {:induction false} PairRotates(row: seq<real>, freqs: seq<Turn>, n: int, b: int, j: int)
    requires RowShape(row, freqs)
    requires 0 <= b && b % (2 * |freqs|) == 0 && b + 2 * |freqs| <= |row| && 0 <= j < |freqs|
    ensures var r, low, high, t := RotateRow(row, freqs, n), b + j, b + j + |freqs|, Power(freqs[j], n);
            r[low] == Lower(row[low], row[high], t) && r[high] == Upper(row[low], row[high], t)
  {
    ColumnOfHead(2 * |freqs|, b, j);
    ColumnOfHead(2 * |freqs|, b, j + |freqs|);
    var low, high := b + j, b + j + |freqs|;
    assert RotateRow(row, freqs, n)[low] == RotateColumn(row, freqs, n, low);
    assert RotateRow(row, freqs, n)[high] == RotateColumn(row, freqs, n, high);
    assert high - |freqs| == low;
  }

  lemma {:induction false} ColumnOfHead(d: int, b: int, j: int)
    requires d > 0 && b % d == 0 && 0 <= j < d
    ensures (b + j) % d == j
  {
    Unique(b, d, b / d, 0);
    Unique(b + j, d, b / d, j);
  }

  /** One position turns it by the unit pair itself. With the two laws of composition this is
      every rotation there is. */
  lemma {:induction false} OnePositionTurns(row: seq<real>, freqs: seq<Turn>, b: int, j: int)
    requires |freqs| > 0 && |row| % (2 * |freqs|) == 0
    requires 0 <= b && b % (2 * |freqs|) == 0 && b + 2 * |freqs| <= |row| && 0 <= j < |freqs|
    ensures var r, h, f := RotateRow(row, freqs, 1), |freqs|, freqs[j];
            && |r| == |row|
            && r[b + j] == row[b + j] * f.c - row[b + j + h] * f.s
            && r[b + j + h] == row[b + j + h] * f.c + row[b + j] * f.s
  {
    PositionsTurn(row, freqs, 1, b, j);
    FirstPower(freqs[j]);
  }

  lemma {:induction false} FirstPower(u: Turn)
    ensures Power(u, 1) == u
  {
    assert Power(u, 0) == STILL;
  }

  lemma {:induction false} RotateByNothing(row: seq<real>, freqs: seq<Turn>)
    requires RowShape(row, freqs)
    ensures RotateRow(row, freqs, 0) == row
  {
    forall c | 0 <= c < |row|
      ensures RotateRow(row, freqs, 0)[c] == row[c]
    {
      PartnerColumn(row, freqs, c);
    }
  }

  /** Re-rotate a window of cached keys, one row per token. */
  function Rerotate(k: seq<seq<real>>, donorStart: int, targetStart: int, freqs: seq<Turn>): (r: seq<seq<real>>)
    requires forall row | row in k :: RowShape(row, freqs)
    ensures |r| == |k|
  {
    if donorStart == targetStart then k
    else seq(|k|, i requires 0 <= i < |k| => RotateRow(k[i], freqs, targetStart - donorStart))
  }

  /** The same-position shortcut and the rotation agree: every row turns by the delta. */
  lemma {:induction false} RerotateTurnsEveryRow(
      k: seq<seq<real>>, donorStart: int, targetStart: int, freqs: seq<Turn>, i: int)
    requires forall row | row in k :: RowShape(row, freqs)
    requires 0 <= i < |k|
    ensures Rerotate(k, donorStart, targetStart, freqs)[i] == RotateRow(k[i], freqs, targetStart - donorStart)
  {
    RotateByNothing(k[i], freqs);
  }

  /** A key cached at donor position donorStart + i becomes exactly the key for target
      position targetStart + i, for every token, frequency and sign of the delta. */
  lemma {:induction false} RerotateMovesKeys(
      raw: seq<seq<real>>, k: seq<seq<real>>, donorStart: int, targetStart: int, freqs: seq<Turn>)
    requires |k| == |raw| && forall f | f in freqs :: Unit(f)
    requires forall i | 0 <= i < |raw| :: RowShape(raw[i], freqs) && k[i] == RotateRow(raw[i], freqs, donorStart + i)
    ensures forall row | row in k :: RowShape(row, freqs)
    ensures forall i | 0 <= i < |raw| ::
      Rerotate(k, donorStart, targetStart, freqs)[i] == RotateRow(raw[i], freqs, targetStart + i)
  {
    forall i | 0 <= i < |raw|
      ensures Rerotate(k, donorStart, targetStart, freqs)[i] == RotateRow(raw[i], freqs, targetStart + i)
    {
      RerotateTurnsEveryRow(k, donorStart, targetStart, freqs, i);
      RotationsCompose(raw[i], freqs, donorStart + i, targetStart - donorStart);
    }
  }

  /** Moving a window and moving it back restores every cached value. */
  lemma {:induction false} RerotateUndoes(k: seq<seq<real>>, a: int, b: int, freqs: seq<Turn>)
    requires forall f | f in freqs :: Unit(f)
    requires forall row | row in k :: RowShape(row, freqs)
    ensures forall row | row in Rerotate(k, a, b, freqs) :: RowShape(row, freqs)
    ensures Rerotate(Rerotate(k, a, b, freqs), b, a, freqs) == k
  {
    var moved := Rerotate(k, a, b, freqs);
    forall i | 0 <= i < |k|
      ensures RowShape(moved[i], freqs) && RotateRow(moved[i], freqs, a - b) == k[i]
    {
      RerotateTurnsEveryRow(k, a, b, freqs, i);
      RotationsCompose(k[i], freqs, b - a, a - b);
      RotateByNothing(k[i], freqs);
    }
  }
}
