/** Small vocabulary shared by every module: optional values, results, instants,
    and the few facts about finite sets the other proofs need. */
module Base {

  datatype Option<+T> = None | Some(value: T)

  datatype Result<+T, +E> = Ok(value: T) | Err(error: E)

  /** Nanoseconds since the Unix epoch. */
  type Instant = int

  /** Go's zero time.Time, the first instant of year 1. */
  const ZERO_TIME: Instant := -62135596800 * 1000000000

  /** Some member of a non-empty set of integers is its largest. */
  lemma {:induction false} MaxExists(s: set<int>)
    requires |s| > 0
    ensures exists m :: m in s && forall k | k in s :: k <= m
  {
    assert (forall k :: k !in s) ==> s == {};
    var x :| x in s;
    var rest := s - {x};
    assert forall k | k in s :: k == x || k in rest;
    if |rest| == 0 {
      assert x in s && forall k | k in s :: k <= x;
    } else {
      MaxExists(rest);
      var m :| m in rest && forall k | k in rest :: k <= m;
      var top := if x <= m then m else x;
      assert top in s && forall k | k in s :: k <= top;
    }
  }

  /** The largest member. */
  function Max(s: set<int>): (m: int)
    requires |s| > 0
    ensures m in s && forall k | k in s :: k <= m
  {
    MaxExists(s);
    var m :| m in s && forall k | k in s :: k <= m;
    m
  }

  /** Some member of a non-empty set of naturals is its smallest. */
  lemma {:induction false} LeastExists(s: set<nat>)
    requires |s| > 0
    ensures exists m :: m in s && forall k | k in s :: m <= k
  {
    assert (forall k :: k !in s) ==> s == {};
    var x :| x in s;
    LeastUpTo(s, x);
  }

  lemma {:induction false} LeastUpTo(s: set<nat>, x: nat)
    requires x in s
    ensures exists m :: m in s && forall k | k in s :: m <= k
  {
    if y :| y in s && y < x { LeastUpTo(s, y); }
  }

  function Least(s: set<nat>): (m: nat)
    requires |s| > 0
    ensures m in s && forall k | k in s :: m <= k
  {
    LeastExists(s);
    var m :| m in s && forall k | k in s :: m <= k;
    m
  }

  /** Two maps that undo each other have the same number of entries. */
  lemma {:induction false} InverseMapsHaveEqualSize<X, Y>(f: map<X, Y>, g: map<Y, X>)
    requires forall x | x in f :: f[x] in g && g[f[x]] == x
    requires forall y | y in g :: g[y] in f && f[g[y]] == y
    ensures |f.Keys| == |g.Keys|
    decreases |f|
  {
    if f.Keys == {} {
      assert g.Keys == {} by {
        if y :| y in g { assert g[y] in f.Keys; }
      }
    } else {
      var x :| x in f;
      var y := f[x];
      var f', g' := f - {x}, g - {y};
      assert f'.Keys == f.Keys - {x} && g'.Keys == g.Keys - {y};
      assert |f'| < |f| by { assert |f.Keys| == |f| && |f'.Keys| == |f'|; }
      InverseMapsHaveEqualSize(f', g');
    }
  }
}
