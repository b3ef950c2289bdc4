/** Python's order of strings, by code point, and sorted() over a set of them. */
module TextOrder {

  predicate Before(a: string, b: string)
  {
    a == [] || (b != [] && (a[0] < b[0] || (a[0] == b[0] && Before(a[1..], b[1..]))))
  }

  /** Where two strings part after k equal characters, the shorter one or the one with the
      smaller character comes first. */
  lemma {:induction false} BeforeIsLexicographic(a: string, b: string, k: nat)
    requires k <= |a| && k <= |b| && a[..k] == b[..k]
    requires k == |a| || k == |b| || a[k] != b[k]
    ensures Before(a, b) <==> k == |a| || (k < |b| && a[k] < b[k])
  {
    if k > 0 {
      assert a[0] == a[..k][0] == b[..k][0] == b[0];
      assert a[1..][..k - 1] == a[..k][1..] && b[1..][..k - 1] == b[..k][1..];
      BeforeIsLexicographic(a[1..], b[1..], k - 1);
    }
  }

  lemma {:induction false} BeforeIsTotal(a: string, b: string)
    ensures Before(a, b) || Before(b, a)
    ensures Before(a, b) && Before(b, a) ==> a == b
  {
    if a != [] && b != [] && a[0] == b[0] {
      BeforeIsTotal(a[1..], b[1..]);
      assert a == [a[0]] + a[1..] && b == [b[0]] + b[1..];
    }
  }

  lemma {:induction false} BeforeChains(a: string, b: string, c: string)
    requires Before(a, b) && Before(b, c)
    ensures Before(a, c)
  {
    if a != [] && a[0] == b[0] == c[0] {
      BeforeChains(a[1..], b[1..], c[1..]);
    }
  }

  predicate IsFirst(a: string, s: set<string>) { a in s && forall b | b in s :: Before(a, b) }

  lemma {:induction false} SomeoneIsFirst(s: set<string>)
    requires s != {}
    ensures exists a :: IsFirst(a, s)
    decreases |s|
  {
    var a :| a in s;
    var rest := s - {a};
    if rest == {} {
      BeforeIsTotal(a, a);
      assert s == {a} && IsFirst(a, s);
    } else {
      SomeoneIsFirst(rest);
      var b :| IsFirst(b, rest);
      BeforeIsTotal(a, b);
      BeforeIsTotal(a, a);
      var c := if Before(a, b) then a else b;
      forall x | x in s ensures Before(c, x) {
        if x != a && c == a { BeforeChains(a, b, x); }
      }
      assert IsFirst(c, s);
    }
  }

  lemma {:induction false} OneIsFirst(a: string, b: string, s: set<string>)
    requires IsFirst(a, s) && IsFirst(b, s)
    ensures a == b
  {
    BeforeIsTotal(a, b);
  }

  ghost function First(s: set<string>): (a: string)
    requires s != {}
    ensures IsFirst(a, s)
  {
    SomeoneIsFirst(s);
    var a :| IsFirst(a, s);
    a
  }

  /** The elements in order. */
  ghost function Sorted(s: set<string>): (r: seq<string>)
    ensures forall x :: x in r <==> x in s
    decreases |s|
  {
    if s == {} then [] else [First(s)] + Sorted(s - {First(s)})
  }

  lemma {:induction false} SortedFrom(a: string, s: set<string>)
    requires IsFirst(a, s)
    ensures Sorted(s) == [a] + Sorted(s - {a})
  {
    OneIsFirst(a, First(s), s);
  }

  /** Earlier elements come before later ones, and none is repeated. */
  ghost predicate Ascending(r: seq<string>)
  {
    forall i, j | 0 <= i < j < |r| :: Before(r[i], r[j]) && r[i] != r[j]
  }

  lemma {:induction false} PrependedAscends(a: string, t: seq<string>)
    requires Ascending(t) && forall x | x in t :: Before(a, x) && x != a
    ensures Ascending([a] + t)
  {
  }

  lemma {:induction false} SortedAscends(s: set<string>)
    ensures Ascending(Sorted(s))
    decreases |s|
  {
    if s != {} {
      SortedAscends(s - {First(s)});
      PrependedAscends(First(s), Sorted(s - {First(s)}));
    }
  }
}
