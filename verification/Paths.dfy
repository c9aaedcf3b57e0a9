/** Finite stretches of the runs of a step relation. */
module Paths {

  function Front<T>(xs: seq<T>): seq<T>
    requires xs != []
  {
    xs[..|xs| - 1]
  }

  function Last<T>(xs: seq<T>): T
    requires xs != []
  {
    xs[|xs| - 1]
  }

  /** The steps lead from `a` to `b`. */
  ghost predicate Leads<S(!new), T>(next: (S, T, S) -> bool, a: S, steps: seq<T>, b: S) {
    if steps == [] then a == b
    else exists mid :: Leads(next, a, Front(steps), mid) && next(mid, Last(steps), b)
  }

  lemma LeadsPlus<S(!new), T>(next: (S, T, S) -> bool, a: S, steps: seq<T>, b: S, step: T, c: S)
    requires Leads(next, a, steps, b) && next(b, step, c)
    ensures Leads(next, a, steps + [step], c)
  {
    assert Front(steps + [step]) == steps;
  }

  lemma LeadsOne<S(!new), T>(next: (S, T, S) -> bool, a: S, step: T, b: S)
    requires next(a, step, b)
    ensures Leads(next, a, [step], b)
  {
    LeadsPlus(next, a, [], a, step, b);
    assert [] + [step] == [step];
  }

  lemma LeadsTwo<S(!new), T>(next: (S, T, S) -> bool, a: S, x: T, b: S, y: T, c: S)
    requires next(a, x, b) && next(b, y, c)
    ensures Leads(next, a, [x, y], c)
  {
    LeadsOne(next, a, x, b);
    LeadsPlus(next, a, [x], b, y, c);
    assert [x] + [y] == [x, y];
  }

  /** The first step of a stretch, and the rest of it. */
  lemma {:induction false} LeadsFirst<S(!new), T>(next: (S, T, S) -> bool, a: S, steps: seq<T>, b: S) returns (mid: S)
    requires Leads(next, a, steps, b) && steps != []
    ensures next(a, steps[0], mid) && Leads(next, mid, steps[1..], b)
  {
    var last :| Leads(next, a, Front(steps), last) && next(last, Last(steps), b);
    if |steps| == 1 {
      mid := b;
    } else {
      mid := LeadsFirst(next, a, Front(steps), last);
      LeadsPlus(next, mid, Front(steps)[1..], last, Last(steps), b);
      assert Front(steps)[1..] + [Last(steps)] == steps[1..];
    }
  }

  lemma {:induction false} LeadsConcat<S(!new), T>(next: (S, T, S) -> bool, a: S, xs: seq<T>, b: S, ys: seq<T>, c: S)
    requires Leads(next, a, xs, b) && Leads(next, b, ys, c)
    ensures Leads(next, a, xs + ys, c)
    decreases |ys|
  {
    if ys == [] {
      assert xs + ys == xs;
    } else {
      var mid :| Leads(next, b, Front(ys), mid) && next(mid, Last(ys), c);
      LeadsConcat(next, a, xs, b, Front(ys), mid);
      LeadsPlus(next, a, xs + Front(ys), mid, Last(ys), c);
      assert xs + Front(ys) + [Last(ys)] == xs + ys;
    }
  }

  /** An invariant of the steps holds at the end of every stretch that starts in it. */
  lemma {:induction false} LeadsKeeps<S(!new), T(!new)>(next: (S, T, S) -> bool, inv: S -> bool, a: S, steps: seq<T>,
                                        b: S)
    requires Leads(next, a, steps, b) && inv(a)
    requires forall s, step, s' :: inv(s) && next(s, step, s') ==> inv(s')
    ensures inv(b)
    decreases |steps|
  {
    if steps == [] {
    } else {
      var mid :| Leads(next, a, Front(steps), mid) && next(mid, Last(steps), b);
      LeadsKeeps(next, inv, a, Front(steps), mid);
    }
  }

  ghost predicate Follows<S(!new), T(!new)>(next: (S, T, S) -> bool, states: seq<S>, steps: seq<T>) {
    |states| == |steps| + 1 && forall i :: 0 <= i < |steps| ==> next(states[i], steps[i], states[i + 1])
  }

  /** A stretch that starts where a sequence of steps ends continues it. */
  lemma {:induction false} Continues<S(!new), T(!new)>(next: (S, T, S) -> bool, states: seq<S>, steps: seq<T>,
                                       more: seq<T>, b: S)
    returns (longer: seq<S>)
    requires Follows(next, states, steps) && Leads(next, Last(states), more, b)
    ensures Follows(next, longer, steps + more) && states <= longer && Last(longer) == b
    decreases |more|
  {
    if more == [] {
      longer := states;
      assert steps + more == steps;
    } else {
      var mid :| Leads(next, Last(states), Front(more), mid) && next(mid, Last(more), b);
      var prefix := Continues(next, states, steps, Front(more), mid);
      longer := prefix + [b];
      assert steps + more == steps + Front(more) + [Last(more)];
    }
  }
}
