/**
 What every step keeps. The invariant comes in three parts: the futures and the
 claims activations have on them, the tree of callbacks, and the pools.
 */
module FutureInvariant {
  import opened Prelude
  import opened FutureState
  import opened FutureLocal
  import opened FutureMachine

  function HolderPc(s: State, f: nat): Pc
    requires f < |s.futures|
  {
    var h := s.futures[f].holder;
    if h.Some? && h.value < |s.acts| then s.acts[h.value].pc else Idle
  }

  function HolderId(s: State, f: nat): nat
    requires f < |s.futures|
  {
    if s.futures[f].holder.Some? then s.futures[f].holder.value else 0
  }

  /** The holder and the claimers of future f know that they are. */
  ghost predicate Links(s: State, f: nat)
    requires f < |s.futures|
  {
    var y := s.futures[f];
    && (y.holder.Some? ==> y.holder.value < |s.acts| && Inside(s.acts[y.holder.value].pc) && On(s.acts[y.holder.value].pc, f))
    && (forall w :: w in y.log.undecided ==> w < |s.acts| && UndecidedPc(s.acts[w].pc) && On(s.acts[w].pc, f))
    && (forall w :: w in y.log.decided ==> w < |s.acts| && DecidedPc(s.acts[w].pc) && On(s.acts[w].pc, f))
  }

  /** Future f is consistent, alone and with its holder, its queue and its claimers. */
  ghost predicate FutureInv(s: State, f: nat)
    requires f < |s.futures|
  {
    && FutureOk(s.futures[f])
    && HeldOk(s.futures[f], HolderId(s, f), HolderPc(s, f), Queued(s, f))
    && Links(s, f)
  }

  ghost predicate ActInv(s: State, a: nat)
    requires a < |s.acts|
  {
    var p := s.acts[a].pc;
    !OffFuture(p) ==> p.future < |s.futures| && OnOk(a, p, s.futures[p.future])
  }

  ghost predicate Futures(s: State) {
    && (forall f :: 0 <= f < |s.futures| ==> FutureInv(s, f))
    && (forall a :: 0 <= a < |s.acts| ==> ActInv(s, a))
  }

  /** Callback activations and the parents waiting for them. */
  ghost predicate TreeInv(s: State, a: nat)
    requires a < |s.acts|
  {
    var x := s.acts[a];
    && (x.role.Callback? && !x.pc.Ended? ==>
          && x.role.parent < a
          && s.acts[x.role.parent].thread == x.thread
          && Running(s.acts[x.role.parent].pc)
          && s.acts[x.role.parent].pc.child == a
          && s.acts[x.role.parent].pc.future == x.role.future)
    && (Running(x.pc) ==>
          && a < x.pc.child < |s.acts|
          && s.acts[x.pc.child].role == Callback(a, x.pc.future)
          && !s.acts[x.pc.child].pc.Ended?)
    && (x.role.Worker? <==> WorkerPc(x.pc) || (x.role.Worker? && x.pc.Ended?))
  }

  ghost predicate Tree(s: State) {
    forall a :: 0 <= a < |s.acts| ==> TreeInv(s, a)
  }

  ghost function DeadSlots(s: State, k: Kind): set<nat> {
    set i: nat | 0 <= i < |PoolOf(s, k).slots| && SlotDead(s, PoolOf(s, k).slots[i])
  }

  /** Somebody has pushed on pool k and has still to revive its workers. */
  ghost predicate RevivalDue(s: State, k: Kind) {
    exists a :: 0 <= a < |s.acts| && s.acts[a].pc.RegRevive? && s.acts[a].pc.future < |s.futures|
                && s.futures[s.acts[a].pc.future].kind == k
  }

  ghost predicate PoolInv(s: State, k: Kind) {
    var p := PoolOf(s, k);
    && |p.queue| <= QUEUE_MAX
    && p.pushed == p.popped + p.queue
    && (forall i :: 0 <= i < |p.queue| ==> p.queue[i] < |s.futures| && s.futures[p.queue[i]].kind == k)
  }

  /** The slots hold distinct workers of their pool. */
  ghost predicate SlotsHeld(s: State, k: Kind) {
    var slots := PoolOf(s, k).slots;
    && |slots| == THREAD_MAX
    && (forall i :: 0 <= i < THREAD_MAX && slots[i].Some? ==> slots[i].value < |s.acts| && s.acts[slots[i].value].role == Worker(k))
    && (forall i, j :: 0 <= i < j < THREAD_MAX && slots[i].Some? ==> slots[i] != slots[j])
  }

  /** Since the last revival pass no more slots have died than workers have raised. */
  ghost predicate SlotsInv(s: State, k: Kind) {
    var p := PoolOf(s, k);
    && SlotsHeld(s, k)
    && (p.revivals > 0 ==> |DeadSlots(s, k)| <= p.raised)
    && (p.pushed != [] && p.revivals == 0 ==> RevivalDue(s, k))
  }

  ghost predicate Inv(s: State) {
    && Futures(s)
    && Tree(s)
    && PoolInv(s, Prepare)
    && PoolInv(s, Execute)
    && SlotsInv(s, Prepare)
    && SlotsInv(s, Execute)
  }

  // ---- the futures part ----

  /** Queue contents of every future but f are the same in s and t. */
  ghost predicate SameQueuesBut(s: State, t: State, f: nat)
    requires |s.futures| == |t.futures|
  {
    forall g :: 0 <= g < |s.futures| && g != f ==> Queued(s, g) == Queued(t, g)
  }

  /** t differs from s in one activation a and one future f, and fairly. */
  ghost predicate FairChange(s: State, t: State, a: nat, f: nat) {
    && a < |s.acts| == |t.acts|
    && f < |s.futures| == |t.futures|
    && (forall g :: 0 <= g < |s.futures| && g != f ==> t.futures[g] == s.futures[g])
    && (forall b :: 0 <= b < |s.acts| && b != a ==> t.acts[b].pc == s.acts[b].pc)
    && SameQueuesBut(s, t, f)
    && (OffFuture(s.acts[a].pc) || On(s.acts[a].pc, f))
    && (OffFuture(t.acts[a].pc) || On(t.acts[a].pc, f))
    && Fair(a, s.futures[f], t.futures[f])
  }

  lemma FairStepOther(s: State, t: State, a: nat, f: nat, g: nat)
    requires FairChange(s, t, a, f)
    requires g < |s.futures| && g != f && FutureInv(s, g) && ActInv(s, a)
    ensures FutureInv(t, g)
  {
    var y := s.futures[g];
    assert y.holder != Some(a);
    assert a !in y.log.undecided && a !in y.log.decided;
    assert HolderPc(t, g) == HolderPc(s, g);
    assert HolderId(t, g) == HolderId(s, g);
    assert Queued(t, g) == Queued(s, g);
  }

  lemma FairStepAct(s: State, t: State, a: nat, f: nat, b: nat)
    requires FairChange(s, t, a, f)
    requires b < |s.acts| && b != a && ActInv(s, b)
    ensures ActInv(t, b)
  {
  }

  lemma FairStepThis(s: State, t: State, a: nat, f: nat)
    requires FairChange(s, t, a, f)
    requires Links(s, f)
    requires var y, p := t.futures[f], t.acts[a].pc;
      && (y.holder == Some(a) ==> Inside(p))
      && (a in y.log.undecided ==> UndecidedPc(p))
      && (a in y.log.decided ==> DecidedPc(p))
    ensures Links(t, f)
  {
  }

  /**
   The futures part of the invariant survives a fair change after which the changed
   future and the moved activation are consistent with each other.
   */
  lemma FairStep(s: State, t: State, a: nat, f: nat)
    requires Futures(s)
    requires FairChange(s, t, a, f)
    requires Local(t.futures[f], a, t.acts[a].pc, HolderId(t, f), HolderPc(t, f), Queued(t, f))
    ensures Futures(t)
  {
    assert ActInv(s, a) && FutureInv(s, f);
    FairStepThis(s, t, a, f);
    assert FutureInv(t, f) && ActInv(t, a);
    forall g | 0 <= g < |t.futures| ensures FutureInv(t, g) {
      if g != f {
        assert FutureInv(s, g);
        FairStepOther(s, t, a, f, g);
      }
    }
    forall b | 0 <= b < |t.acts| ensures ActInv(t, b) {
      if b != a {
        assert ActInv(s, b);
        FairStepAct(s, t, a, f, b);
      }
    }
  }

  /** New activations that are on no future, and moves off every future, disturb nothing. */
  lemma OffStep(s: State, t: State)
    requires Futures(s)
    requires t.futures == s.futures && t.prepare.queue == s.prepare.queue && t.execute.queue == s.execute.queue
    requires |s.acts| <= |t.acts|
    requires forall b :: 0 <= b < |s.acts| ==> t.acts[b].pc == s.acts[b].pc || (OffFuture(s.acts[b].pc) && OffFuture(t.acts[b].pc))
    requires forall b :: |s.acts| <= b < |t.acts| ==> OffFuture(t.acts[b].pc)
    ensures Futures(t)
  {
    forall g | 0 <= g < |t.futures| ensures FutureInv(t, g) {
      assert FutureInv(s, g);
      assert HolderPc(t, g) == HolderPc(s, g);
      assert Queued(t, g) == Queued(s, g);
    }
    forall b | 0 <= b < |t.acts| ensures ActInv(t, b) {
      if b < |s.acts| {
        assert ActInv(s, b);
      }
    }
  }

  /** An activation and the future it is on, or any future if it is on none. */
  lemma LocalOf(s: State, a: nat, f: nat)
    requires Futures(s) && a < |s.acts| && f < |s.futures|
    requires OffFuture(s.acts[a].pc) || On(s.acts[a].pc, f)
    ensures Local(s.futures[f], a, s.acts[a].pc, HolderId(s, f), HolderPc(s, f), Queued(s, f))
  {
    assert ActInv(s, a) && FutureInv(s, f);
  }

  /** A revival pass only adds workers that are about to pop, and only fills slots. */
  lemma {:induction false} RevivalKeeps(s: State, k: Kind, n: nat)
    requires n <= |PoolOf(s, k).slots|
    ensures var t := RevivedUpTo(s, k, n);
      && t.futures == s.futures
      && |s.acts| <= |t.acts| && (forall b :: 0 <= b < |s.acts| ==> t.acts[b] == s.acts[b])
      && (forall b :: |s.acts| <= b < |t.acts| ==> t.acts[b] == Activation(Worker(k), b, [], WkPop))
      && PoolOf(t, k) == PoolOf(s, k).(slots := PoolOf(t, k).slots)
      && (forall j: Kind :: j != k ==> PoolOf(t, j) == PoolOf(s, j))
  {
    if n > 0 {
      RevivalKeeps(s, k, n - 1);
    }
  }

  // ---- the futures part, step by step ----

  /** A step on a future, before its side effects: as Moved, and a push already counted in the queue. */
  lemma MovedKeepsFutures(s: State, t: State, a: nat)
    requires Futures(s) && Enabled(s, a) && !OffFuture(s.acts[a].pc)
    requires var f := s.acts[a].pc.future;
      && t.futures == Moved(s, a).futures && t.acts == Moved(s, a).acts
      && SameQueuesBut(s, t, f)
      && Queued(t, f) == if s.acts[a].pc.RegPush? then Queued(s, f) + 1 else Queued(s, f)
    ensures Futures(t)
  {
    var p := s.acts[a].pc;
    var f := p.future;
    LocalOf(s, a, f);
    assert FutureInv(s, f);
    NextKeeps(s.futures[f], a, p, HolderId(s, f), HolderPc(s, f), Queued(s, f), |s.acts|);
    MovedHolder(s, t, a);
    FairStep(s, t, a, f);
  }

  lemma MovedHolder(s: State, t: State, a: nat)
    requires Enabled(s, a) && !OffFuture(s.acts[a].pc)
    requires t.futures == Moved(s, a).futures && t.acts == Moved(s, a).acts
    requires Links(s, s.acts[a].pc.future)
    requires Fair(a, s.futures[s.acts[a].pc.future], t.futures[s.acts[a].pc.future])
    ensures var p, f := s.acts[a].pc, s.acts[a].pc.future;
      && HolderId(t, f) == HolderAfter(s.futures[f], t.futures[f], a, HolderId(s, f))
      && HolderPc(t, f) == PcAfter(s.futures[f], t.futures[f], a, t.acts[a].pc, HolderPc(s, f))
  {
  }

  lemma NextKind(y: Future, a: nat, p: Pc, child: nat)
    requires Ready(y, p)
    ensures Next(y, a, p, child).1.kind == y.kind
  {
  }

  lemma PushKeepsFutures(s: State, a: nat)
    requires Futures(s) && Enabled(s, a) && s.acts[a].pc.RegPush?
    ensures Futures(StepOn(s, a))
  {
    var f := s.acts[a].pc.future;
    var q := PoolOf(s, s.futures[f].kind).queue;
    assert multiset(q + [f]) == multiset(q) + multiset{f};
    MovedKeepsFutures(s, StepOn(s, a), a);
  }

  /** The side effects other than a push add activations that are on no future, or only count. */
  lemma SideEffectOff(t: State, a: nat, p: Pc, f: nat)
    requires a < |t.acts| && f < |t.futures| && !p.RegPush?
    ensures var u := SideEffect(t, a, p, f);
      && u.futures == t.futures && u.prepare.queue == t.prepare.queue && u.execute.queue == t.execute.queue
      && |t.acts| <= |u.acts|
      && (forall b :: 0 <= b < |t.acts| ==> u.acts[b] == t.acts[b])
      && (forall b :: |t.acts| <= b < |u.acts| ==> OffFuture(u.acts[b].pc))
  {
    if p.RegRevive? {
      RevivalKeeps(t, t.futures[f].kind, |PoolOf(t, t.futures[f].kind).slots|);
      assert forall j: Kind :: PoolOf(Revived(t, t.futures[f].kind), j).queue == PoolOf(t, j).queue;
      assert PoolOf(Revived(t, t.futures[f].kind), Prepare).queue == PoolOf(t, Prepare).queue;
      assert PoolOf(Revived(t, t.futures[f].kind), Execute).queue == PoolOf(t, Execute).queue;
    }
  }

  lemma StepOnKeepsFutures(s: State, a: nat)
    requires Futures(s) && Enabled(s, a) && !OffFuture(s.acts[a].pc)
    ensures Futures(StepOn(s, a))
  {
    var p := s.acts[a].pc;
    if p.RegPush? {
      PushKeepsFutures(s, a);
    } else {
      NextKind(s.futures[p.future], a, p, |s.acts|);
      MovedKeepsFutures(s, Moved(s, a), a);
      SideEffectOff(Moved(s, a), a, p, p.future);
      OffStep(Moved(s, a), StepOn(s, a));
    }
  }

  lemma PopFair(s: State, a: nat)
    requires PoolInv(s, Prepare) && PoolInv(s, Execute) && Enabled(s, a) && s.acts[a].pc.WkPop?
    requires Links(s, PoolOf(s, s.acts[a].role.kind).queue[0])
    ensures var f := PoolOf(s, s.acts[a].role.kind).queue[0];
            var t := StepPop(s, a);
            && Queued(s, f) > 0 && Queued(t, f) == Queued(s, f) - 1
            && SameQueuesBut(s, t, f)
            && HolderId(t, f) == HolderId(s, f) && HolderPc(t, f) == HolderPc(s, f)
  {
    var q := PoolOf(s, s.acts[a].role.kind).queue;
    assert q == [q[0]] + q[1..];
    assert multiset(q) == multiset{q[0]} + multiset(q[1..]);
    assert s.futures[q[0]].kind == s.acts[a].role.kind;
  }

  lemma PopKeepsFutures(s: State, a: nat)
    requires Futures(s) && PoolInv(s, Prepare) && PoolInv(s, Execute) && Enabled(s, a) && s.acts[a].pc.WkPop?
    ensures Futures(StepPop(s, a))
  {
    var f := PoolOf(s, s.acts[a].role.kind).queue[0];
    var t := StepPop(s, a);
    LocalOf(s, a, f);
    assert Links(s, f) by { assert FutureInv(s, f); }
    PopFair(s, a);
    PopKeeps(s.futures[f], a, f, HolderId(s, f), HolderPc(s, f), Queued(s, f));
    assert t.futures[f] == Claimed(s.futures[f], a) && t.acts[a].pc == WkWait(f);
    FairStep(s, t, a, f);
  }

  lemma ResumeKeepsFutures(s: State, p: nat, raised: bool)
    requires Futures(s) && p < |s.acts| && Running(s.acts[p].pc) && s.acts[p].pc.future < |s.futures|
    ensures Futures(ParentResumed(s, p, raised))
  {
    var f := s.acts[p].pc.future;
    LocalOf(s, p, f);
    assert s.futures[f].holder == Some(p) && HolderId(s, f) == p && HolderPc(s, f) == s.acts[p].pc;
    CallEndKeeps(s.futures[f], p, s.acts[p].pc, Resumed(s.acts[p].pc, raised), Queued(s, f));
    ResumeFair(s, p, raised);
    FairStep(s, ParentResumed(s, p, raised), p, f);
  }

  lemma ResumeFair(s: State, p: nat, raised: bool)
    requires p < |s.acts| && Running(s.acts[p].pc) && s.acts[p].pc.future < |s.futures|
    requires s.futures[s.acts[p].pc.future].holder == Some(p)
    ensures FairChange(s, ParentResumed(s, p, raised), p, s.acts[p].pc.future)
    ensures HolderPc(ParentResumed(s, p, raised), s.acts[p].pc.future) == Resumed(s.acts[p].pc, raised)
  {
  }

  lemma ReturnKeepsFutures(s: State, a: nat, raised: bool)
    requires Futures(s) && InRange(s, a) && OffFuture(s.acts[a].pc)
    requires s.acts[a].role.Callback? && !s.acts[a].pc.Ended?
    ensures Futures(Returned(s, a, raised))
  {
    var p := s.acts[a].role.parent;
    ResumeKeepsFutures(s, p, raised);
    OffStep(ParentResumed(s, p, raised), Returned(s, a, raised));
  }

  /** Starting an operation: the activation comes to stand before the unlocked check or the lock. */
  lemma StartKeepsFutures(s: State, a: nat)
    requires Futures(s) && Enabled(s, a) && s.acts[a].pc.Idle? && s.acts[a].todo != []
    requires s.acts[a].todo[0].future < |s.futures|
    ensures Futures(StepIdle(s, a, false))
  {
    var t := StepIdle(s, a, false);
    var f := s.acts[a].todo[0].future;
    assert FutureInv(s, f);
    forall g | 0 <= g < |t.futures| ensures FutureInv(t, g) {
      StartKeepsFuture(s, a, g);
    }
    forall b | 0 <= b < |t.acts| ensures ActInv(t, b) {
      assert ActInv(s, b);
    }
  }

  lemma StartKeepsFuture(s: State, a: nat, g: nat)
    requires Futures(s) && Enabled(s, a) && s.acts[a].pc.Idle? && s.acts[a].todo != [] && g < |s.futures|
    requires s.acts[a].todo[0].future < |s.futures|
    ensures FutureInv(StepIdle(s, a, false), g)
  {
    var t := StepIdle(s, a, false);
    assert FutureInv(s, g);
    assert Queued(t, g) == Queued(s, g) && HolderPc(t, g) == HolderPc(s, g);
  }

  lemma StepKeepsFutures(s: State, a: nat, choice: bool)
    requires Futures(s) && PoolInv(s, Prepare) && PoolInv(s, Execute) && Enabled(s, a)
    ensures Futures(Step(s, a, choice))
  {
    var x := s.acts[a];
    if x.pc.Idle? && !choice && x.todo != [] {
      if x.todo[0].future >= |s.futures| {
        OffStep(s, StepIdle(s, a, choice));
      } else {
        StartKeepsFutures(s, a);
      }
    } else if x.pc.Raising? && choice {
      OffStep(s, StepRaising(s, a, choice));
    } else if x.pc.Idle? || x.pc.Raising? {
      var raised := x.pc.Raising? || choice;
      if x.role.Callback? {
        ReturnKeepsFutures(s, a, raised);
      } else {
        OffStep(s, Finished(s, a, raised));
      }
    } else if x.pc.WkPop? {
      PopKeepsFutures(s, a);
    } else {
      StepOnKeepsFutures(s, a);
    }
  }

  /** A change of one future that moves nobody: what the driver and the unblock function do. */
  lemma EnvironmentKeepsFutures(s: State, f: nat, y: Future)
    requires Futures(s) && f < |s.futures|
    requires y.kind == s.futures[f].kind && y.holder == s.futures[f].holder
    requires y.log.undecided == s.futures[f].log.undecided && y.log.decided == s.futures[f].log.decided
    requires y.log.awaiter == s.futures[f].log.awaiter && y.log.waits == s.futures[f].log.waits
    requires HasBlock(y) == HasBlock(s.futures[f]) && (s.futures[f].outcome != Pending ==> y.outcome == s.futures[f].outcome)
    requires FutureOk(y) && HeldOk(y, HolderId(s, f), HolderPc(s, f), Queued(s, f))
    ensures Futures(s.(futures := s.futures[f := y]))
  {
    var t := s.(futures := s.futures[f := y]);
    forall g | 0 <= g < |t.futures| ensures FutureInv(t, g) {
      assert FutureInv(s, g);
      assert HolderPc(t, g) == HolderPc(s, g) && HolderId(t, g) == HolderId(s, g) && Queued(t, g) == Queued(s, g);
    }
    forall b | 0 <= b < |t.acts| ensures ActInv(t, b) {
      assert ActInv(s, b);
    }
  }

  lemma ApplyKeepsFutures(s: State, e: Event)
    requires Futures(s) && PoolInv(s, Prepare) && PoolInv(s, Execute) && Allowed(s, e)
    ensures Futures(Apply(s, e))
  {
    match e {
      case Act(a, choice) => StepKeepsFutures(s, a, choice);
      case Resolve(f, o) =>
        assert FutureInv(s, f);
        ResolveKeeps(s.futures[f], HolderId(s, f), HolderPc(s, f), Queued(s, f), o);
        EnvironmentKeepsFutures(s, f, Resolved(s.futures[f], o));
      case Interrupt(a) =>
        var f := s.acts[a].pc.future;
        assert FutureInv(s, f);
        InterruptKeeps(s.futures[f], HolderId(s, f), HolderPc(s, f), Queued(s, f));
        EnvironmentKeepsFutures(s, f, Interrupted(s.futures[f]));
    }
  }

  /** Blocks only travel from the registration's argument to the block field of its side. */
  lemma NextBlocks(y: Future, a: nat, p: Pc, child: nat)
    requires Ready(y, p)
    ensures var n := Next(y, a, p, child);
      && (OffFuture(n.0) || n.0.future == p.future)
      && !n.0.RegCheck?
      && (n.0.RegLock? || n.0.RegWrite? ==> (p.RegCheck? || p.RegLock?) && n.0.block == p.block)
      && n.1.kind == y.kind
      && (n.1.onSuccess == y.onSuccess || (p.RegWrite? && p.side.OnSuccess? && n.1.onSuccess == Some(p.block)))
      && (n.1.onFailure == y.onFailure || (p.RegWrite? && p.side.OnFailure? && n.1.onFailure == Some(p.block)))
  {
  }

  // ---- the tree of callbacks ----

  lemma NextPc(y: Future, a: nat, p: Pc, child: nat)
    requires Ready(y, p)
    ensures var n := Next(y, a, p, child);
      && (Running(n.0) ==> n.0.child == child && n.0.future == p.future)
      && (n.0.RegRun? ==> p.RegDecide? && BlockOf(n.1, p.side).Some?)
      && (n.0.WkRun? ==> p.WkDecide? && DueBlock(n.1))
      && (WorkerPc(n.0) ==> WorkerPc(p))
      && (WorkerPc(p) ==> WorkerPc(n.0) || n.0.Ended?)
      && (n.0.Ended? ==> p.WkPost? && p.raised)
      && (n.0.RegRevive? ==> p.RegPush?)
  {
  }

  /** The activations after a step of a: a itself at p, perhaps its new child, perhaps new workers, the rest unmoved. */
  ghost predicate ActsAfter(s: State, u: State, a: nat, p: Pc, f: nat)
    requires a < |s.acts|
  {
    && |s.acts| <= |u.acts|
    && (forall b :: 0 <= b < |s.acts| && b != a ==> u.acts[b] == s.acts[b])
    && u.acts[a] == s.acts[a].(pc := p)
    && (Running(p) ==>
          && |u.acts| == |s.acts| + 1
          && u.acts[|s.acts|].role == Callback(a, f)
          && u.acts[|s.acts|].thread == s.acts[a].thread
          && u.acts[|s.acts|].pc.Idle?)
    && (!Running(p) ==> forall b :: |s.acts| <= b < |u.acts| ==> u.acts[b].role.Worker? && u.acts[b].pc.WkPop?)
  }

  lemma StepOnActs(s: State, a: nat)
    requires Enabled(s, a) && !OffFuture(s.acts[a].pc)
    ensures ActsAfter(s, StepOn(s, a), a, Moved(s, a).acts[a].pc, s.acts[a].pc.future)
  {
    var p := s.acts[a].pc;
    var t := Moved(s, a);
    NextPc(s.futures[p.future], a, p, |s.acts|);
    if p.RegRevive? {
      RevivalKeeps(t, t.futures[p.future].kind, |PoolOf(t, t.futures[p.future].kind).slots|);
    }
  }

  lemma ActsAfterKeepTree(s: State, u: State, a: nat, p: Pc, f: nat)
    requires Tree(s) && a < |s.acts| && ActsAfter(s, u, a, p, f)
    requires !Running(s.acts[a].pc) && !s.acts[a].pc.Ended?
    requires Running(p) ==> p.child == |s.acts| && p.future == f
    requires WorkerPc(p) ==> WorkerPc(s.acts[a].pc)
    requires WorkerPc(s.acts[a].pc) ==> WorkerPc(p) || p.Ended?
    requires p.Ended? ==> !s.acts[a].role.Callback?
    ensures Tree(u)
  {
    assert TreeInv(s, a);
    forall b | 0 <= b < |u.acts| ensures TreeInv(u, b) {
      if b < |s.acts| {
        assert TreeInv(s, b);
      }
    }
  }

  lemma ReturnKeepsTree(s: State, a: nat, raised: bool)
    requires Tree(s) && InRange(s, a) && (s.acts[a].pc.Idle? || s.acts[a].pc.Raising?) && s.acts[a].role.Callback?
    ensures Tree(Returned(s, a, raised))
  {
    var u := Returned(s, a, raised);
    assert TreeInv(s, a) && TreeInv(s, s.acts[a].role.parent);
    forall b | 0 <= b < |u.acts| ensures TreeInv(u, b) {
      ReturnKeepsTreeAt(s, a, raised, b);
    }
  }

  lemma ReturnKeepsTreeAt(s: State, a: nat, raised: bool, b: nat)
    requires Tree(s) && InRange(s, a) && (s.acts[a].pc.Idle? || s.acts[a].pc.Raising?) && s.acts[a].role.Callback? && b < |s.acts|
    ensures TreeInv(Returned(s, a, raised), b)
  {
    assert TreeInv(s, a) && TreeInv(s, s.acts[a].role.parent) && TreeInv(s, b);
  }

  lemma StartKeepsTree(s: State, a: nat, u: State)
    requires Tree(s) && a < |s.acts| && (s.acts[a].pc.Idle? || s.acts[a].pc.Raising? || s.acts[a].pc.WkPop?)
    requires |u.acts| == |s.acts| && forall b :: 0 <= b < |s.acts| && b != a ==> u.acts[b] == s.acts[b]
    requires u.acts[a].role == s.acts[a].role && u.acts[a].thread == s.acts[a].thread && !Running(u.acts[a].pc)
    requires WorkerPc(u.acts[a].pc) <==> WorkerPc(s.acts[a].pc)
    requires u.acts[a].pc.Ended? ==> u.acts[a].role.Main?
    ensures Tree(u)
  {
    assert TreeInv(s, a);
    forall b | 0 <= b < |u.acts| ensures TreeInv(u, b) {
      assert TreeInv(s, b);
    }
  }

  lemma StepKeepsTree(s: State, a: nat, choice: bool)
    requires Tree(s) && Enabled(s, a)
    ensures Tree(Step(s, a, choice))
  {
    var x := s.acts[a];
    assert TreeInv(s, a);
    if x.role.Callback? && x.pc.Idle? && (choice || x.todo == []) {
      ReturnKeepsTree(s, a, choice);
    } else if x.role.Callback? && x.pc.Raising? && !choice {
      ReturnKeepsTree(s, a, true);
    } else if OffFuture(x.pc) {
      StartKeepsTree(s, a, Step(s, a, choice));
    } else {
      StepOnActs(s, a);
      NextPc(s.futures[x.pc.future], a, x.pc, |s.acts|);
      ActsAfterKeepTree(s, StepOn(s, a), a, Moved(s, a).acts[a].pc, x.pc.future);
    }
  }

  // ---- the pools ----

  lemma RevivedPool(t: State, own: Kind, k: Kind)
    ensures var p, u := PoolOf(t, k), PoolOf(Revived(t, own), k);
      && u.queue == p.queue && u.pushed == p.pushed && u.popped == p.popped
      && (k != own ==> u == p)
      && (k == own ==> u.revivals == p.revivals + 1 && u.raised == 0)
  {
    RevivalKeeps(t, own, |PoolOf(t, own).slots|);
    var m := RevivedUpTo(t, own, |PoolOf(t, own).slots|);
    if k != own {
      assert PoolOf(m, k) == PoolOf(t, k);
    }
  }

  /** What a step on a future does to the queues. */
  lemma StepOnQueue(s: State, a: nat, k: Kind)
    requires Enabled(s, a) && !OffFuture(s.acts[a].pc)
    ensures var p, u := PoolOf(s, k), PoolOf(StepOn(s, a), k);
            var f := s.acts[a].pc.future;
      && u.popped == p.popped
      && u.queue == (if s.acts[a].pc.RegPush? && s.futures[f].kind == k then p.queue + [f] else p.queue)
      && u.pushed == (if s.acts[a].pc.RegPush? && s.futures[f].kind == k then p.pushed + [f] else p.pushed)
  {
    var p := s.acts[a].pc;
    NextKind(s.futures[p.future], a, p, |s.acts|);
    if p.RegRevive? {
      RevivedPool(Moved(s, a), s.futures[p.future].kind, k);
    }
  }

  lemma StepOnKinds(s: State, a: nat)
    requires Enabled(s, a) && !OffFuture(s.acts[a].pc)
    ensures var u := StepOn(s, a);
      |u.futures| == |s.futures| && forall f :: 0 <= f < |s.futures| ==> u.futures[f].kind == s.futures[f].kind
  {
    var p := s.acts[a].pc;
    NextKind(s.futures[p.future], a, p, |s.acts|);
    if !p.RegPush? {
      SideEffectOff(Moved(s, a), a, p, p.future);
    }
  }

  lemma StepKeepsPool(s: State, a: nat, choice: bool, k: Kind)
    requires PoolInv(s, k) && Enabled(s, a)
    ensures PoolInv(Step(s, a, choice), k)
  {
    var p := s.acts[a].pc;
    if p.WkPop? {
      PopKeepsPool(s, a, k);
    } else if !OffFuture(p) {
      StepOnKeepsPool(s, a, k);
    }
  }

  lemma PopKeepsPool(s: State, a: nat, k: Kind)
    requires PoolInv(s, k) && Enabled(s, a) && s.acts[a].pc.WkPop?
    ensures PoolInv(StepPop(s, a), k)
  {
    var q := PoolOf(s, s.acts[a].role.kind).queue;
    assert [q[0]] + q[1..] == q;
  }

  lemma StepOnKeepsPool(s: State, a: nat, k: Kind)
    requires PoolInv(s, k) && Enabled(s, a) && !OffFuture(s.acts[a].pc)
    ensures PoolInv(StepOn(s, a), k)
  {
    StepOnQueue(s, a, k);
    StepOnKinds(s, a);
  }

  /** Slots of a pool that is not touched, by a step that ends none of its workers. */
  lemma SlotsFrame(s: State, u: State, k: Kind)
    requires SlotsInv(s, k)
    requires PoolOf(u, k).slots == PoolOf(s, k).slots && PoolOf(u, k).pushed == PoolOf(s, k).pushed
    requires PoolOf(u, k).revivals == PoolOf(s, k).revivals && PoolOf(u, k).raised == PoolOf(s, k).raised
    requires |s.acts| <= |u.acts|
    requires forall b :: 0 <= b < |s.acts| ==> u.acts[b].role == s.acts[b].role
    requires forall b :: 0 <= b < |s.acts| && s.acts[b].role == Worker(k) ==> (u.acts[b].pc.Ended? <==> s.acts[b].pc.Ended?)
    requires RevivalDue(s, k) ==> RevivalDue(u, k)
    ensures SlotsInv(u, k)
  {
    assert DeadSlots(u, k) == DeadSlots(s, k);
  }

  /** A worker dies: at most one slot with it. */
  lemma SlotsDeath(s: State, u: State, a: nat, k: Kind)
    requires SlotsInv(s, k) && a < |s.acts| == |u.acts|
    requires PoolOf(u, k) == PoolOf(s, k).(raised := PoolOf(s, k).raised + 1)
    requires forall b :: 0 <= b < |s.acts| ==> u.acts[b].role == s.acts[b].role
    requires forall b :: 0 <= b < |s.acts| && b != a ==> u.acts[b].pc == s.acts[b].pc
    requires RevivalDue(s, k) ==> RevivalDue(u, k)
    ensures SlotsInv(u, k)
  {
    var slots := PoolOf(s, k).slots;
    if i :| 0 <= i < THREAD_MAX && slots[i] == Some(a) {
      assert DeadSlots(u, k) <= DeadSlots(s, k) + {i};
      SubsetSize(DeadSlots(u, k), DeadSlots(s, k) + {i});
    } else {
      assert DeadSlots(u, k) <= DeadSlots(s, k);
      SubsetSize(DeadSlots(u, k), DeadSlots(s, k));
    }
  }

  lemma {:induction false} SubsetSize(x: set<nat>, y: set<nat>)
    requires x <= y
    ensures |x| <= |y|
    decreases x
  {
    if e :| e in x {
      SubsetSize(x - {e}, y - {e});
    }
  }

  /** One round leaves a live worker in its slot, and does no harm to the others. */
  lemma RoundFills(s: State, k: Kind, i: nat)
    requires SlotsHeld(s, k) && i < THREAD_MAX
    ensures var t := RevivedSlot(s, k, i);
      && SlotsHeld(t, k) && !SlotDead(t, PoolOf(t, k).slots[i])
      && (forall j :: 0 <= j < THREAD_MAX && j != i ==> PoolOf(t, k).slots[j] == PoolOf(s, k).slots[j])
      && (forall j :: 0 <= j < THREAD_MAX && j != i && !SlotDead(s, PoolOf(s, k).slots[j]) ==> !SlotDead(t, PoolOf(t, k).slots[j]))
  {
  }

  /** t differs from s by n rounds of a revival pass: its first n slots are live, the others as they were. */
  ghost predicate Filled(s: State, t: State, k: Kind, n: nat)
    requires SlotsHeld(s, k)
  {
    && SlotsHeld(t, k)
    && (forall i :: 0 <= i < n && i < THREAD_MAX ==> !SlotDead(t, PoolOf(t, k).slots[i]))
    && (forall i :: n <= i < THREAD_MAX ==> PoolOf(t, k).slots[i] == PoolOf(s, k).slots[i])
  }

  lemma OneRoundMore(s: State, t: State, k: Kind, n: nat)
    requires SlotsHeld(s, k) && n < THREAD_MAX && Filled(s, t, k, n)
    ensures Filled(s, RevivedSlot(t, k, n), k, n + 1)
  {
    RoundFills(t, k, n);
  }

  /** After the first n rounds of a revival pass the first n slots are live. */
  lemma {:induction false} RevivalFills(s: State, k: Kind, n: nat)
    requires SlotsHeld(s, k) && n <= THREAD_MAX
    ensures Filled(s, RevivedUpTo(s, k, n), k, n)
  {
    if n > 0 {
      RevivalFills(s, k, n - 1);
      OneRoundMore(s, RevivedUpTo(s, k, n - 1), k, n - 1);
    }
  }

  lemma RevivedSlots(s: State, k: Kind)
    requires SlotsHeld(s, k)
    ensures SlotsInv(Revived(s, k), k) && DeadSlots(Revived(s, k), k) == {}
  {
    RevivalFills(s, k, THREAD_MAX);
    var t := RevivedUpTo(s, k, THREAD_MAX);
    var u := Revived(s, k);
    assert PoolOf(u, k).slots == PoolOf(t, k).slots && u.acts == t.acts;
    assert forall i :: 0 <= i < THREAD_MAX ==> !SlotDead(u, PoolOf(u, k).slots[i]);
    assert DeadSlots(u, k) == {};
  }

  lemma ReviverStays(s: State, u: State, a: nat, k: Kind)
    requires |u.futures| == |s.futures| && forall f :: 0 <= f < |s.futures| ==> u.futures[f].kind == s.futures[f].kind
    requires |s.acts| <= |u.acts| && a < |s.acts| && !s.acts[a].pc.RegRevive?
    requires forall b :: 0 <= b < |s.acts| && s.acts[b].pc.RegRevive? ==> u.acts[b].pc == s.acts[b].pc
    ensures RevivalDue(s, k) ==> RevivalDue(u, k)
  {
  }

  lemma ReturnKeepsSlots(s: State, a: nat, raised: bool, k: Kind)
    requires Tree(s) && SlotsInv(s, k) && InRange(s, a) && s.acts[a].role.Callback? && (s.acts[a].pc.Idle? || s.acts[a].pc.Raising?)
    ensures SlotsInv(Returned(s, a, raised), k)
  {
    assert TreeInv(s, a) && TreeInv(s, s.acts[a].role.parent);
    assert PoolOf(Returned(s, a, raised), k) == PoolOf(s, k);
    ReviverStays(s, Returned(s, a, raised), a, k);
    SlotsFrame(s, Returned(s, a, raised), k);
  }

  lemma StepOffKeepsSlots(s: State, a: nat, choice: bool, k: Kind)
    requires Tree(s) && SlotsInv(s, k) && Enabled(s, a) && OffFuture(s.acts[a].pc)
    ensures SlotsInv(Step(s, a, choice), k)
  {
    var x := s.acts[a];
    assert TreeInv(s, a);
    if x.role.Callback? && x.pc.Idle? && (choice || x.todo == []) {
      ReturnKeepsSlots(s, a, choice, k);
    } else if x.role.Callback? && x.pc.Raising? && !choice {
      ReturnKeepsSlots(s, a, true, k);
    } else {
      OffStepKeepsSlots(s, a, choice, k);
    }
  }

  lemma OffStepKeepsSlots(s: State, a: nat, choice: bool, k: Kind)
    requires Tree(s) && SlotsInv(s, k) && Enabled(s, a) && OffFuture(s.acts[a].pc)
    requires !(s.acts[a].role.Callback? && s.acts[a].pc.Idle? && (choice || s.acts[a].todo == []))
    requires !(s.acts[a].role.Callback? && s.acts[a].pc.Raising? && !choice)
    ensures SlotsInv(Step(s, a, choice), k)
  {
    assert TreeInv(s, a);
    ReviverStays(s, Step(s, a, choice), a, k);
    SlotsFrame(s, Step(s, a, choice), k);
  }

  lemma ReviveKeepsSlots(s: State, a: nat, k: Kind)
    requires Tree(s) && SlotsInv(s, k) && Enabled(s, a) && s.acts[a].pc.RegRevive?
    ensures SlotsInv(StepOn(s, a), k)
  {
    var own := s.futures[s.acts[a].pc.future].kind;
    if own == k {
      assert SlotsHeld(Moved(s, a), k);
      RevivedSlots(Moved(s, a), k);
    } else {
      RevivedPool(Moved(s, a), own, k);
      StepOnActs(s, a);
      StepOnOtherReviver(s, a, k);
      SlotsFrame(s, StepOn(s, a), k);
    }
  }

  /** The pusher itself is about to run a revival pass, and touches no slot. */
  lemma PushIsDue(s: State, a: nat, k: Kind)
    requires Enabled(s, a) && s.acts[a].pc.RegPush? && s.futures[s.acts[a].pc.future].kind == k
    ensures var u := StepOn(s, a);
      && RevivalDue(u, k) && |u.acts| == |s.acts|
      && PoolOf(u, k) == PoolOf(s, k).(queue := PoolOf(u, k).queue, pushed := PoolOf(u, k).pushed)
      && forall b :: 0 <= b < |s.acts| ==> u.acts[b].role == s.acts[b].role && (u.acts[b].pc.Ended? <==> s.acts[b].pc.Ended?)
  {
    var u := StepOn(s, a);
    assert u.acts[a].pc == RegRevive(s.acts[a].pc.future);
  }

  lemma SlotsFrameAfterPush(s: State, u: State, k: Kind)
    requires SlotsInv(s, k) && RevivalDue(u, k) && |u.acts| == |s.acts|
    requires PoolOf(u, k) == PoolOf(s, k).(queue := PoolOf(u, k).queue, pushed := PoolOf(u, k).pushed)
    requires forall b :: 0 <= b < |s.acts| ==> u.acts[b].role == s.acts[b].role && (u.acts[b].pc.Ended? <==> s.acts[b].pc.Ended?)
    ensures SlotsInv(u, k)
  {
    assert DeadSlots(u, k) == DeadSlots(s, k);
  }

  lemma PushKeepsSlots(s: State, a: nat, k: Kind)
    requires Tree(s) && SlotsInv(s, k) && Enabled(s, a) && s.acts[a].pc.RegPush?
    ensures SlotsInv(StepOn(s, a), k)
  {
    var u := StepOn(s, a);
    ReviverStays(s, u, a, k);
    if s.futures[s.acts[a].pc.future].kind == k {
      PushIsDue(s, a, k);
      SlotsFrameAfterPush(s, u, k);
    } else {
      SlotsFrame(s, u, k);
    }
  }

  lemma OtherStepOnKeepsSlots(s: State, a: nat, k: Kind)
    requires Tree(s) && SlotsInv(s, k) && Enabled(s, a) && !OffFuture(s.acts[a].pc)
    requires !s.acts[a].pc.RegRevive? && !s.acts[a].pc.RegPush?
    ensures SlotsInv(StepOn(s, a), k)
  {
    var p := s.acts[a].pc;
    var u := StepOn(s, a);
    assert TreeInv(s, a);
    NextPc(s.futures[p.future], a, p, |s.acts|);
    StepOnActs(s, a);
    StepOnKinds(s, a);
    ReviverStays(s, u, a, k);
    SideEffectPools(s, a, k);
    if p.WkPost? && p.raised && s.acts[a].role == Worker(k) {
      SlotsDeath(s, u, a, k);
    } else {
      SlotsFrame(s, u, k);
    }
  }

  lemma SideEffectPools(s: State, a: nat, k: Kind)
    requires Enabled(s, a) && !OffFuture(s.acts[a].pc) && !s.acts[a].pc.RegRevive? && !s.acts[a].pc.RegPush?
    ensures var p := s.acts[a].pc;
      PoolOf(StepOn(s, a), k) == if p.WkPost? && p.raised && s.acts[a].role == Worker(k) then PoolOf(s, k).(raised := PoolOf(s, k).raised + 1)
                                 else PoolOf(s, k)
  {
  }

  lemma StepOnKeepsSlots(s: State, a: nat, k: Kind)
    requires Tree(s) && SlotsInv(s, k) && Enabled(s, a) && !OffFuture(s.acts[a].pc)
    ensures SlotsInv(StepOn(s, a), k)
  {
    if s.acts[a].pc.RegRevive? {
      ReviveKeepsSlots(s, a, k);
    } else if s.acts[a].pc.RegPush? {
      PushKeepsSlots(s, a, k);
    } else {
      OtherStepOnKeepsSlots(s, a, k);
    }
  }

  lemma StepOnOtherReviver(s: State, a: nat, k: Kind)
    requires Enabled(s, a) && s.acts[a].pc.RegRevive? && s.futures[s.acts[a].pc.future].kind != k
    ensures RevivalDue(s, k) ==> RevivalDue(StepOn(s, a), k)
  {
    StepOnActs(s, a);
    StepOnKinds(s, a);
    if b :| 0 <= b < |s.acts| && s.acts[b].pc.RegRevive? && s.acts[b].pc.future < |s.futures|
            && s.futures[s.acts[b].pc.future].kind == k {
      assert StepOn(s, a).acts[b] == s.acts[b];
    }
  }

  // ---- every step, every run ----

  /** Every step of every thread, of the driver and of the unblock function keeps the invariant. */
  lemma ApplyKeepsInv(s: State, e: Event)
    requires Inv(s) && Allowed(s, e)
    ensures Inv(Apply(s, e))
  {
    ApplyKeepsFutures(s, e);
    match e {
      case Act(a, choice) =>
        StepKeepsTree(s, a, choice);
        StepKeepsPool(s, a, choice, Prepare);
        StepKeepsPool(s, a, choice, Execute);
        if OffFuture(s.acts[a].pc) {
          StepOffKeepsSlots(s, a, choice, Prepare);
          StepOffKeepsSlots(s, a, choice, Execute);
        } else {
          StepOnKeepsSlots(s, a, Prepare);
          StepOnKeepsSlots(s, a, Execute);
        }
      case Resolve(_, _) => EnvironmentKeepsRest(s, Apply(s, e));
      case Interrupt(_) => EnvironmentKeepsRest(s, Apply(s, e));
    }
  }

  lemma EnvironmentKeepsRest(s: State, u: State)
    requires Tree(s) && PoolInv(s, Prepare) && PoolInv(s, Execute) && SlotsInv(s, Prepare) && SlotsInv(s, Execute)
    requires u.acts == s.acts && u.prepare == s.prepare && u.execute == s.execute
    requires |u.futures| == |s.futures| && forall f :: 0 <= f < |s.futures| ==> u.futures[f].kind == s.futures[f].kind
    ensures Tree(u) && PoolInv(u, Prepare) && PoolInv(u, Execute) && SlotsInv(u, Prepare) && SlotsInv(u, Execute)
  {
    forall b | 0 <= b < |u.acts| ensures TreeInv(u, b) {
      assert TreeInv(s, b);
    }
    forall k: Kind ensures SlotsInv(u, k) {
      assert SlotsInv(s, k);
      assert PoolOf(u, k) == PoolOf(s, k);
      SlotsFrame(s, u, k);
    }
  }

  lemma {:induction false} RunKeepsInv(s: State, events: seq<Event>)
    requires Inv(s) && IsRun(s, events)
    ensures Inv(After(s, events))
    decreases events
  {
    if events != [] {
      ApplyKeepsInv(s, events[0]);
      RunKeepsInv(Apply(s, events[0]), events[1..]);
    }
  }

  lemma InitialInv(s: State)
    requires Initial(s)
    ensures Inv(s)
  {
    forall f | 0 <= f < |s.futures| ensures FutureInv(s, f) {
      assert s.futures[f] == Created(s.futures[f].kind);
    }
    forall a | 0 <= a < |s.acts| ensures ActInv(s, a) && TreeInv(s, a) {
      assert s.acts[a] == Activation(Main, a, s.acts[a].todo, Idle);
    }
  }

  lemma ReachableInv(s0: State, s: State)
    requires Reachable(s0, s)
    ensures Inv(s)
  {
    var events :| IsRun(s0, events) && After(s0, events) == s;
    InitialInv(s0);
    RunKeepsInv(s0, events);
  }

  lemma InRangeByInv(s: State, a: nat)
    requires Inv(s) && a < |s.acts|
    ensures InRange(s, a)
  {
    assert ActInv(s, a) && TreeInv(s, a);
    if s.acts[a].role.Callback? && !s.acts[a].pc.Ended? {
      assert ActInv(s, s.acts[a].role.parent);
    }
  }
}
