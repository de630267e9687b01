/** Sums over the activations and the futures of a state, and what the moves of a step do to them. */
module FutureTally {
  import opened FutureState
  import opened FutureMachine

  function Sum<T>(xs: seq<T>, w: T -> nat): nat {
    if xs == [] then 0 else Sum(xs[..|xs| - 1], w) + w(xs[|xs| - 1])
  }

  lemma {:induction false} SumUpdated<T>(xs: seq<T>, i: nat, x: T, w: T -> nat)
    requires i < |xs|
    ensures Sum(xs[i := x], w) == Sum(xs, w) - w(xs[i]) + w(x)
    decreases xs
  {
    var n := |xs| - 1;
    if i < n {
      SumUpdated(xs[..n], i, x, w);
      assert xs[i := x][..n] == xs[..n][i := x];
    } else {
      assert xs[i := x][..n] == xs[..n];
    }
  }

  lemma SumAppended<T>(xs: seq<T>, x: T, w: T -> nat)
    ensures Sum(xs + [x], w) == Sum(xs, w) + w(x)
  {
    assert (xs + [x])[..|xs|] == xs;
  }

  lemma SumOfOne<T>(x: T, w: T -> nat)
    ensures Sum([x], w) == w(x)
  {
    SumAppended([], x, w);
    assert [] + [x] == [x];
  }

  /** No element counts more than the sum. */
  lemma {:induction false} SumAt<T>(xs: seq<T>, i: nat, w: T -> nat)
    requires i < |xs|
    ensures w(xs[i]) <= Sum(xs, w)
    decreases xs
  {
    if i < |xs| - 1 {
      SumAt(xs[..|xs| - 1], i, w);
    }
  }

  /** Two different elements together do not either. */
  lemma {:induction false} SumAtTwo<T>(xs: seq<T>, i: nat, j: nat, w: T -> nat)
    requires i < j < |xs|
    ensures w(xs[i]) + w(xs[j]) <= Sum(xs, w)
    decreases xs
  {
    if j < |xs| - 1 {
      SumAtTwo(xs[..|xs| - 1], i, j, w);
    } else {
      SumAt(xs[..|xs| - 1], i, w);
    }
  }

  // ---- states ----

  function Total(s: State, aw: Activation -> nat, fw: Future -> nat): nat {
    Sum(s.acts, aw) + Sum(s.futures, fw)
  }

  lemma TotalMove(s: State, a: nat, p: Pc, f: nat, y: Future, aw: Activation -> nat, fw: Future -> nat)
    requires a < |s.acts| && f < |s.futures|
    ensures Total(Move(s, a, p, f, y), aw, fw)
            == Total(s, aw, fw) - aw(s.acts[a]) + aw(s.acts[a].(pc := p)) - fw(s.futures[f]) + fw(y)
  {
    SumUpdated(s.acts, a, s.acts[a].(pc := p), aw);
    SumUpdated(s.futures, f, y, fw);
  }

  lemma TotalGoto(s: State, a: nat, p: Pc, aw: Activation -> nat, fw: Future -> nat)
    requires a < |s.acts|
    ensures Total(Goto(s, a, p), aw, fw) == Total(s, aw, fw) - aw(s.acts[a]) + aw(s.acts[a].(pc := p))
  {
    SumUpdated(s.acts, a, s.acts[a].(pc := p), aw);
  }

  /** Revived workers count for nothing where a new worker does. */
  lemma {:induction false} TotalRevived(s: State, k: Kind, n: nat, aw: Activation -> nat, fw: Future -> nat)
    requires n <= |PoolOf(s, k).slots| && forall i: nat :: aw(Activation(Worker(k), i, [], WkPop)) == 0
    ensures Total(RevivedUpTo(s, k, n), aw, fw) == Total(s, aw, fw)
  {
    if n > 0 {
      TotalRevived(s, k, n - 1, aw, fw);
      var t := RevivedUpTo(s, k, n - 1);
      SumAppended(t.acts, Activation(Worker(k), |t.acts|, [], WkPop), aw);
    }
  }

  /** A step from p to q on y starts a callback. */
  predicate Starts(p: Pc, q: Pc, y: Future) {
    (p.RegDecide? && q.RegRun? && BlockOf(y, p.side).Some?) || (p.WkDecide? && q.WkRun? && DueBlock(y))
  }

  /** What that callback will do. */
  function Started(p: Pc, q: Pc, y: Future): seq<Op> {
    if p.RegDecide? && q.RegRun? && BlockOf(y, p.side).Some? then BlockOf(y, p.side).value.body
    else if p.WkDecide? && q.WkRun? && DueBlock(y) then BlockOf(y, Due(y.outcome)).value.body
    else []
  }

  /** What a step does besides its move adds the callback it starts. */
  lemma TotalSideEffect(t: State, a: nat, p: Pc, f: nat, aw: Activation -> nat, fw: Future -> nat)
    requires a < |t.acts| && f < |t.futures|
    requires forall k, i: nat :: aw(Activation(Worker(k), i, [], WkPop)) == 0
    ensures Total(SideEffect(t, a, p, f), aw, fw)
            == Total(t, aw, fw) + if Starts(p, t.acts[a].pc, t.futures[f])
                                  then aw(Activation(Callback(a, f), t.acts[a].thread, Started(p, t.acts[a].pc, t.futures[f]), Idle)) else 0
  {
    if p.RegRevive? {
      TotalRevived(t, t.futures[f].kind, |PoolOf(t, t.futures[f].kind).slots|, aw, fw);
    } else if Starts(p, t.acts[a].pc, t.futures[f]) {
      SumAppended(t.acts, Activation(Callback(a, f), t.acts[a].thread, Started(p, t.acts[a].pc, t.futures[f]), Idle), aw);
    }
  }
}
