/** Python's sorted(): a stable sort by an integer key. */
module StableSort {

  function Insert<T>(x: T, s: seq<T>, key: T -> int): seq<T>
  {
    if s == [] || key(x) <= key(s[0]) then [x] + s
    else [s[0]] + Insert(x, s[1..], key)
  }

  function SortBy<T>(s: seq<T>, key: T -> int): seq<T>
  {
    if s == [] then [] else Insert(s[0], SortBy(s[1..], key), key)
  }

  ghost predicate Ordered<T>(s: seq<T>, key: T -> int)
  {
    forall i, j | 0 <= i < j < |s| :: key(s[i]) <= key(s[j])
  }

  /** The elements of s whose key is k, in their order in s. */
  function WithKey<T>(s: seq<T>, key: T -> int, k: int): seq<T>
  {
    if s == [] then []
    else if key(s[0]) == k then [s[0]] + WithKey(s[1..], key, k)
    else WithKey(s[1..], key, k)
  }

  lemma {:induction false} InsertPermutes<T>(x: T, s: seq<T>, key: T -> int)
    ensures multiset(Insert(x, s, key)) == multiset{x} + multiset(s)
  {
    if s != [] && key(x) > key(s[0]) {
      InsertPermutes(x, s[1..], key);
      assert s == [s[0]] + s[1..];
    }
  }

  lemma {:induction false} InsertOrders<T>(x: T, s: seq<T>, key: T -> int)
    requires Ordered(s, key)
    ensures Ordered(Insert(x, s, key), key)
  {
    if s != [] && key(x) > key(s[0]) {
      InsertOrders(x, s[1..], key);
      var t := Insert(x, s[1..], key);
      InsertPermutes(x, s[1..], key);
      forall y | y in t
        ensures key(s[0]) <= key(y)
      {
        assert y in multiset(t);
        assert y == x || y in s[1..];
      }
    }
  }

  lemma {:induction false} InsertStable<T>(x: T, s: seq<T>, key: T -> int, k: int)
    requires Ordered(s, key)
    ensures WithKey(Insert(x, s, key), key, k) == if key(x) == k then [x] + WithKey(s, key, k) else WithKey(s, key, k)
  {
    if s == [] || key(x) <= key(s[0]) {
      assert ([x] + s)[1..] == s;
    } else {
      var t := Insert(x, s[1..], key);
      InsertStable(x, s[1..], key, k);
      assert ([s[0]] + t)[1..] == t;
      assert key(x) == k ==> key(s[0]) != k;
    }
  }

  /** The result is ordered, is a permutation, and keeps the order of equal keys. */
  lemma {:induction false} SortIsStable<T>(s: seq<T>, key: T -> int)
    ensures Ordered(SortBy(s, key), key)
    ensures multiset(SortBy(s, key)) == multiset(s)
    ensures forall k :: WithKey(SortBy(s, key), key, k) == WithKey(s, key, k)
  {
    if s != [] {
      var t := SortBy(s[1..], key);
      SortIsStable(s[1..], key);
      InsertPermutes(s[0], t, key);
      InsertOrders(s[0], t, key);
      assert s == [s[0]] + s[1..];
      forall k
        ensures WithKey(SortBy(s, key), key, k) == WithKey(s, key, k)
      {
        InsertStable(s[0], t, key, k);
      }
    }
  }
}
