/** Small value types shared by the component models. */
module Common {

  datatype Option<+T> = None | Some(value: T)
}

/** Quotients and products of natural numbers. */
module Arithmetic {
  lemma MulCancel(a: nat, b: nat, d: nat)
    ensures a * d < b * d ==> a < b
  {
    if a >= b {
      assert a * d == b * d + (a - b) * d;
    }
  }

  lemma QuotientIs(a: nat, d: nat, q: nat, r: nat)
    requires d > 0 && a == q * d + r && r < d
    ensures a / d == q && a % d == r
  {
    MulCancel(a / d, q + 1, d);
    MulCancel(q, a / d + 1, d);
  }

  lemma QuotientAtLeast(a: nat, d: nat, q: nat)
    requires d >= 1 && q * d <= a
    ensures a / d >= q
  {
    MulCancel(q, a / d + 1, d);
  }

  lemma ProductSign(a: int, w: nat)
    requires a <= 0
    ensures a * w <= 0
  {
  }

  lemma NegativeTimes(t: int, w: nat)
    requires t < 0
    ensures t * w + w <= 0
  {
    ProductSign(t + 1, w);
    assert (t + 1) * w == t * w + w;
  }

  lemma RemainderIs(a: nat, w: nat, r: nat, t: int)
    requires r < w && a == r + t * w
    ensures a % w == r
  {
    if t < 0 {
      NegativeTimes(t, w);
      assert false;
    }
    QuotientIs(a, w, t, r);
  }

  /** Multiplying by m undoes multiplying by i, when m * i leaves 1. */
  lemma Undone(x: nat, i: nat, m: nat, c: nat, w: nat, p: nat, q: nat)
    requires i * m == 1 + c * w && x * i == q * w + p
    ensures p * m == x + w * (x * c - q * m)
  {
    assert p * m == (x * i - q * w) * m == x * i * m - q * w * m;
    assert x * i * m == x * (i * m) == x * (1 + c * w) == x + x * c * w;
    assert x * c * w - q * w * m == w * (x * c - q * m);
  }

  lemma SumModulo(a: nat, b: nat, m: nat)
    requires m > 0
    ensures (a % m + b % m) % m == (a + b) % m
  {
    assert a == a / m * m + a % m && b == b / m * m + b % m;
    assert (a + b) % m == (a % m + b % m) % m by {
      RemainderIs(a + b, m, (a % m + b % m) % m, a / m + b / m + (a % m + b % m) / m);
    }
  }
}

/** Interleavings: the states that steps lead to from a start. */
module Executions {
  /** Consecutive states are linked by a step. */
  ghost predicate Execution<S(!new)>(start: S -> bool, step: (S, S) -> bool, path: seq<S>) {
    && path != [] && start(path[0])
    && forall j, k :: 0 <= j && k == j + 1 && k < |path| ==> step(path[j], path[k])
  }

  ghost predicate Reaches<S(!new)>(start: S -> bool, step: (S, S) -> bool, s: S) {
    exists path: seq<S> :: Execution(start, step, path) && path[|path| - 1] == s
  }

  lemma Starts<S(!new)>(start: S -> bool, step: (S, S) -> bool, s: S)
    requires start(s)
    ensures Reaches(start, step, s)
  {
    var path := [s];
    assert Execution(start, step, path) && path[|path| - 1] == s;
  }

  lemma Continues<S(!new)>(start: S -> bool, step: (S, S) -> bool, s: S, t: S)
    requires Reaches(start, step, s) && step(s, t)
    ensures Reaches(start, step, t)
  {
    var path: seq<S> :| Execution(start, step, path) && path[|path| - 1] == s;
    var longer := path + [t];
    assert longer[0] == path[0];
    assert Execution(start, step, longer) && longer[|longer| - 1] == t;
  }

  lemma {:induction false} EveryState<S(!new)>(start: S -> bool, step: (S, S) -> bool, holds: S -> bool, path: seq<S>)
    requires forall s :: start(s) ==> holds(s)
    requires forall s, t :: holds(s) && step(s, t) ==> holds(t)
    requires Execution(start, step, path)
    ensures holds(path[|path| - 1])
    decreases |path|
  {
    var last := |path| - 1;
    if last > 0 {
      var before := path[..last];
      assert before[last - 1] == path[last - 1] && before[0] == path[0];
      assert forall j :: 0 <= j < last ==> before[j] == path[j];
      EveryState(start, step, holds, before);
      assert step(path[last - 1], path[last]);
    }
  }

  /** What holds at the start and is kept by every step holds in every state that is reached. */
  lemma Induction<S(!new)>(start: S -> bool, step: (S, S) -> bool, holds: S -> bool, s: S)
    requires forall s :: start(s) ==> holds(s)
    requires forall s, t :: holds(s) && step(s, t) ==> holds(t)
    requires Reaches(start, step, s)
    ensures holds(s)
  {
    var path: seq<S> :| Execution(start, step, path) && path[|path| - 1] == s;
    EveryState(start, step, holds, path);
  }

  /** A run can be continued by another one from where it ends. */
  lemma Joins<S(!new)>(start: S -> bool, step: (S, S) -> bool, s: S, t: S)
    requires Reaches(start, step, s) && Reaches(u => u == s, step, t)
    ensures Reaches(start, step, t)
  {
    forall u, v | Reaches(start, step, u) && step(u, v) ensures Reaches(start, step, v) {
      Continues(start, step, u, v);
    }
    ghost var fromStart := (u: S) => Reaches(start, step, u);
    Induction(u => u == s, step, fromStart, t);
  }
}
