/** Finite runs of a transition relation. */
module Runs {
  ghost predicate Steps<S(!new)>(next: (S, S) -> bool, s: S, n: nat, t: S) {
    if n == 0 then s == t else exists r :: Steps(next, s, n - 1, r) && next(r, t)
  }

  ghost predicate Reaches<S(!new)>(next: (S, S) -> bool, s: S, t: S) {
    exists n :: Steps(next, s, n, t)
  }

  lemma Self<S(!new)>(next: (S, S) -> bool, s: S)
    ensures Reaches(next, s, s)
  {
    assert Steps(next, s, 0, s);
  }

  lemma One<S(!new)>(next: (S, S) -> bool, s: S, t: S)
    requires next(s, t)
    ensures Reaches(next, s, t)
  {
    assert Steps(next, s, 0, s);
    assert Steps(next, s, 1, t);
  }

  lemma {:induction false} Compose<S(!new)>(next: (S, S) -> bool, s: S, n: nat, t: S, k: nat, u: S)
    requires Steps(next, s, n, t) && Steps(next, t, k, u)
    ensures Steps(next, s, n + k, u)
  {
    if k > 0 {
      var r :| Steps(next, t, k - 1, r) && next(r, u);
      Compose(next, s, n, t, k - 1, r);
      assert Steps(next, s, n + k - 1, r);
    }
  }

  lemma Transitive<S(!new)>(next: (S, S) -> bool, s: S, t: S, u: S)
    requires Reaches(next, s, t) && Reaches(next, t, u)
    ensures Reaches(next, s, u)
  {
    var n :| Steps(next, s, n, t);
    var k :| Steps(next, t, k, u);
    Compose(next, s, n, t, k, u);
  }

  /** What every step keeps holds at the end of a run. */
  lemma {:induction false} Holds<S(!new)>(next: (S, S) -> bool, inv: S -> bool, s: S, n: nat, t: S)
    requires inv(s) && Steps(next, s, n, t) && forall x, y :: inv(x) && next(x, y) ==> inv(y)
    ensures inv(t)
  {
    if n > 0 {
      var r :| Steps(next, s, n - 1, r) && next(r, t);
      Holds(next, inv, s, n - 1, r);
    }
  }

  /** A preorder that every step from a good state respects relates the ends of a run. */
  lemma {:induction false} Keeps<S(!new)>(next: (S, S) -> bool, inv: S -> bool, later: (S, S) -> bool, s: S, n: nat, t: S)
    requires inv(s) && Steps(next, s, n, t)
    requires forall x, y :: inv(x) && next(x, y) ==> inv(y) && later(x, y)
    requires forall x :: inv(x) ==> later(x, x)
    requires forall x, y, z :: inv(x) && later(x, y) && later(y, z) ==> later(x, z)
    ensures inv(t) && later(s, t)
  {
    if n > 0 {
      var r :| Steps(next, s, n - 1, r) && next(r, t);
      Keeps(next, inv, later, s, n - 1, r);
    }
  }
}
