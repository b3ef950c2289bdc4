/** What holds since some event: one event turns it on, another off. */
module LastWord {

  ghost predicate Quiet(q: nat -> bool, i: nat, n: nat) { forall j: nat | i < j < n :: !q(j) }

  /** p held at some point before n, and q at none after it. */
  ghost predicate Since(p: nat -> bool, q: nat -> bool, n: nat)
  {
    exists i: nat :: i < n && p(i) && Quiet(q, i, n)
  }

  lemma {:induction false} QuietShorter(q: nat -> bool, i: nat, n: nat)
    requires i + 1 < n && Quiet(q, i, n)
    ensures !q(n - 1) && Quiet(q, i, n - 1)
  {
  }

  lemma {:induction false} QuietWeakens(q: nat -> bool, e: nat -> bool, i: nat, n: nat)
    requires Quiet(q, i, n) && forall k: nat | e(k) :: q(k)
    ensures Quiet(e, i, n)
  {
  }

  /** From k on x is true when p holds at k, and false when only q does. */
  ghost predicate Turns(x: nat -> bool, p: nat -> bool, q: nat -> bool, k: nat)
  {
    x(k + 1) <==> p(k) || (x(k) && !q(k))
  }

  ghost predicate Follows(x: nat -> bool, p: nat -> bool, q: nat -> bool, bound: nat)
  {
    !x(0) && forall k: nat | k < bound :: Turns(x, p, q, k)
  }

  lemma {:induction false} FollowsIsSince(x: nat -> bool, p: nat -> bool, q: nat -> bool, n: nat, bound: nat)
    requires n <= bound && Follows(x, p, q, bound)
    ensures x(n) <==> Since(p, q, n)
    decreases n
  {
    if n > 0 {
      FollowsIsSince(x, p, q, n - 1, bound);
      SinceOneMore(p, q, n - 1);
      assert Turns(x, p, q, n - 1);
    }
  }

  lemma {:induction false} SinceOneMore(p: nat -> bool, q: nat -> bool, n: nat)
    ensures Since(p, q, n + 1) <==> p(n) || (Since(p, q, n) && !q(n))
  {
    if p(n) { assert Quiet(q, n, n + 1); }
    if Since(p, q, n) && !q(n) {
      var i: nat :| i < n && p(i) && Quiet(q, i, n);
      assert Quiet(q, i, n + 1);
    }
    if Since(p, q, n + 1) && !p(n) {
      var i: nat :| i < n + 1 && p(i) && Quiet(q, i, n + 1);
      assert Quiet(q, i, n);
    }
  }
}
