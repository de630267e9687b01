/**
 Every run is finite: a weight goes down with every step of every thread and of the
 driver, whatever callbacks do and however registrations race.
 */
module FutureTermination {
  import opened Prelude
  import opened FutureState
  import opened FutureMachine
  import opened FutureInvariant
  import opened FutureTheorems
  import opened FutureProgress
  import opened FutureRegistrations
  import opened FutureTally

  // ---- weights ----

  /** What a block still costs when it is stored: running it, and one step to call it. */
  function BlockWeight(block: Block): nat
    decreases block
  {
    4 + OpsWeight(block.body)
  }

  function OpsWeight(ops: seq<Op>): nat
    decreases ops
  {
    if ops == [] then 0 else OpWeight(ops[0]) + OpsWeight(ops[1..])
  }

  function OpWeight(op: Op): nat
    decreases op
  {
    if op.Register? then 60 + BlockWeight(op.block) else 12
  }

  const QUEUE_WEIGHT := 20

  function PcWeight(p: Pc): nat {
    match p
    case Idle => 1
    case Raising => 2
    case Ended => 0
    case RegCheck(_, _, block) => 50 + BlockWeight(block)
    case RegLock(_, _, block) => 49 + BlockWeight(block)
    case RegWrite(_, _, block) => 48 + BlockWeight(block)
    case RegTest(_, _, _) => 47
    case RegPost(_, _) => 46
    case RegDecide(_, _) => 45
    case RegRun(_, _) => 8
    case RegPush(_) => 40
    case RegRevive(_) => 6
    case RegUnlock(_, _) => 3
    case AwLock(_) => 10
    case AwTest(_) => 9
    case AwUnlock(_, _) => 8
    case AwResolve(_) => 7
    case AwCheck(_) => 6
    case AwSem(_) => 5
    case WkPop => 0
    case WkWait(_) => 15
    case WkLock(_) => 14
    case WkDecide(_) => 13
    case WkRun(_, _) => 9
    case WkFlag(_) => 6
    case WkUnlock(_, _) => 5
    case WkPost(_, _) => 4
  }

  function ActWeight(x: Activation): nat {
    if x.pc.Ended? then 0 else PcWeight(x.pc) + OpsWeight(x.todo)
  }

  function StoredWeight(b: Option<Block>): nat {
    if b.Some? then BlockWeight(b.value) else 0
  }

  function FutureWeight(y: Future): nat {
    (if y.outcome == Pending then 1 else 0)
    + if y.yielded then 0 else StoredWeight(y.onSuccess) + StoredWeight(y.onFailure)
  }

  function ActWeights(): Activation -> nat {
    x => ActWeight(x)
  }

  function FutureWeights(): Future -> nat {
    y => FutureWeight(y)
  }

  function Weight(s: State): nat {
    Total(s, ActWeights(), FutureWeights()) + QUEUE_WEIGHT * (|s.prepare.queue| + |s.execute.queue|)
  }

  lemma MoveWeight(s: State, a: nat, p: Pc, f: nat, y: Future)
    requires a < |s.acts| && f < |s.futures|
    ensures Weight(Move(s, a, p, f, y)) ==
      Weight(s) - ActWeight(s.acts[a]) + ActWeight(s.acts[a].(pc := p)) - FutureWeight(s.futures[f]) + FutureWeight(y)
  {
    TotalMove(s, a, p, f, y, ActWeights(), FutureWeights());
  }

  lemma GotoWeight(s: State, a: nat, p: Pc)
    requires a < |s.acts|
    ensures Weight(Goto(s, a, p)) == Weight(s) - ActWeight(s.acts[a]) + ActWeight(s.acts[a].(pc := p))
  {
    TotalGoto(s, a, p, ActWeights(), FutureWeights());
  }

  // ---- one step ----

  /** What the side effect of a step from p to n.0 adds to the weight. */
  function Extra(p: Pc, n: (Pc, Future)): nat {
    if p.RegPush? then QUEUE_WEIGHT
    else if Starts(p, n.0, n.1) then 1 + OpsWeight(Started(p, n.0, n.1))
    else 0
  }

  lemma NextWeight(y: Future, a: nat, p: Pc, child: nat)
    requires Ready(y, p)
    ensures var n := Next(y, a, p, child);
      PcWeight(n.0) + FutureWeight(n.1) + Extra(p, n) < PcWeight(p) + FutureWeight(y)
  {
    if RegisterPc(p) {
      RegisterWeight(y, a, p, child);
    } else if WorkerPc(p) {
      WorkerWeight(y, a, p, child);
    } else {
      AwaitWeight(y, a, p);
    }
  }

  lemma RegisterWeight(y: Future, a: nat, p: Pc, child: nat)
    requires Ready(y, p) && RegisterPc(p)
    ensures var n := RegisterStep(y, a, p, child);
      PcWeight(n.0) + FutureWeight(n.1) + Extra(p, n) < PcWeight(p) + FutureWeight(y)
  {
  }

  lemma WorkerWeight(y: Future, a: nat, p: Pc, child: nat)
    requires Ready(y, p) && WorkerPc(p)
    ensures var n := WorkerStep(y, a, p, child);
      PcWeight(n.0) + FutureWeight(n.1) + Extra(p, n) < PcWeight(p) + FutureWeight(y)
  {
  }

  lemma AwaitWeight(y: Future, a: nat, p: Pc)
    requires Ready(y, p) && !RegisterPc(p) && !WorkerPc(p)
    ensures var n := AwaitStep(y, a, p);
      PcWeight(n.0) + FutureWeight(n.1) + Extra(p, n) < PcWeight(p) + FutureWeight(y)
  {
  }

  lemma SideEffectWeight(t: State, a: nat, p: Pc, f: nat)
    requires a < |t.acts| && f < |t.futures|
    ensures Weight(SideEffect(t, a, p, f)) <= Weight(t) + Extra(p, (t.acts[a].pc, t.futures[f]))
  {
    TotalSideEffect(t, a, p, f, ActWeights(), FutureWeights());
    if p.RegRevive? {
      RevivalQueues(t, t.futures[f].kind);
    }
  }

  lemma RevivalQueues(t: State, k: Kind)
    ensures Revived(t, k).prepare.queue == t.prepare.queue && Revived(t, k).execute.queue == t.execute.queue
  {
    RevivalKeeps(t, k, |PoolOf(t, k).slots|);
    assert forall j: Kind :: PoolOf(Revived(t, k), j).queue == PoolOf(t, j).queue;
    assert PoolOf(Revived(t, k), Prepare).queue == t.prepare.queue && PoolOf(Revived(t, k), Execute).queue == t.execute.queue;
  }

  lemma StepOnWeight(s: State, a: nat)
    requires Enabled(s, a) && !OffFuture(s.acts[a].pc)
    ensures Weight(StepOn(s, a)) < Weight(s)
  {
    var p := s.acts[a].pc;
    var n := Next(s.futures[p.future], a, p, |s.acts|);
    NextWeight(s.futures[p.future], a, p, |s.acts|);
    MoveWeight(s, a, n.0, p.future, n.1);
    SideEffectWeight(Moved(s, a), a, p, p.future);
  }

  lemma ReturnWeight(s: State, a: nat, raised: bool)
    requires InRange(s, a) && s.acts[a].role.Callback? && (s.acts[a].pc.Idle? || s.acts[a].pc.Raising?)
    ensures Weight(Returned(s, a, raised)) < Weight(s)
  {
    var q := s.acts[a].role.parent;
    var f := s.acts[q].pc.future;
    MoveWeight(s, q, Resumed(s.acts[q].pc, raised), f, CallEnded(s.futures[f]));
    GotoWeight(ParentResumed(s, q, raised), a, Ended);
  }

  lemma StepWeight(s: State, a: nat, choice: bool)
    requires Enabled(s, a)
    ensures Weight(Step(s, a, choice)) < Weight(s)
  {
    var x := s.acts[a];
    if !OffFuture(x.pc) {
      StepOnWeight(s, a);
    } else if x.pc.WkPop? {
      var f := PoolOf(s, x.role.kind).queue[0];
      MoveWeight(s, a, WkWait(f), f, Claimed(s.futures[f], a));
    } else if x.pc.Idle? && !choice && x.todo != [] {
      SumUpdated(s.acts, a, Step(s, a, choice).acts[a], ActWeights());
      assert OpsWeight(x.todo) == OpWeight(x.todo[0]) + OpsWeight(x.todo[1..]);
    } else if x.pc.Raising? && choice {
      GotoWeight(s, a, Idle);
    } else if x.role.Callback? {
      ReturnWeight(s, a, x.pc.Raising? || choice);
    } else {
      GotoWeight(s, a, Ended);
    }
  }

  /** Every step of a thread or of the driver lowers the weight; an interrupt leaves it. */
  lemma ApplyWeight(s: State, e: Event)
    requires Allowed(s, e)
    ensures e.Interrupt? ==> Weight(Apply(s, e)) == Weight(s)
    ensures !e.Interrupt? ==> Weight(Apply(s, e)) < Weight(s)
  {
    match e {
      case Act(a, choice) => StepWeight(s, a, choice);
      case Resolve(f, o) => SumUpdated(s.futures, f, Resolved(s.futures[f], o), FutureWeights());
      case Interrupt(a) =>
        var f := s.acts[a].pc.future;
        SumUpdated(s.futures, f, Interrupted(s.futures[f]), FutureWeights());
    }
  }

  function Work(events: seq<Event>): nat {
    if events == [] then 0 else (if events[0].Interrupt? then 0 else 1) + Work(events[1..])
  }

  /** No run has more steps than its start weighs, with no hypothesis on callbacks or registrations. */
  lemma {:induction false} RunsAreFinite(s: State, events: seq<Event>)
    requires IsRun(s, events)
    ensures Work(events) + Weight(After(s, events)) <= Weight(s)
    decreases events
  {
    if events != [] {
      ApplyWeight(s, events[0]);
      RunsAreFinite(Apply(s, events[0]), events[1..]);
    }
  }

  lemma AllDoneIsQuiescent(s: State, f: nat)
    requires Inv(s) && AllDone(s) && f < |s.futures|
    ensures Quiescent(s, f)
  {
    assert FutureInv(s, f);
    forall a | 0 <= a < |s.acts| ensures OffFuture(s.acts[a].pc) {
      assert TreeInv(s, a);
    }
    assert s.futures[f].log.undecided == {} && s.futures[f].log.decided == {};
  }

  /**
   Every maximal run of a disciplined program ends with all threads finished and with
   every registered block of the right kind called exactly once: such a run is finite,
   and where it stops nothing is left to do.
   */
  lemma MaximalRunsDeliverEverything(s0: State, events: seq<Event>)
    requires Initial(s0) && Disciplined(s0) && IsRun(s0, events)
    requires forall f :: 0 <= f < |s0.futures| ==> RegistersOnce(s0, f)
    requires Stuck(After(s0, events))
    requires var s := After(s0, events);
      && (forall f :: 0 <= f < |s.futures| ==> s.futures[f].outcome != Pending)
      && s.prepare.raised < THREAD_MAX && s.execute.raised < THREAD_MAX
    ensures Work(events) <= Weight(s0)
    ensures var s := After(s0, events);
      && AllDone(s)
      && forall f :: 0 <= f < |s.futures| ==>
           var y := s.futures[f];
           y.log.calls == (if DueBlock(y) then [Due(y.outcome)] else []) && y.log.ended == |y.log.calls|
  {
    var s := After(s0, events);
    RunsAreFinite(s0, events);
    assert Reachable(s0, s);
    ReachableInv(s0, s);
    DeadlockFree(s0, s);
    forall f | 0 <= f < |s.futures|
      ensures var y := s.futures[f];
        y.log.calls == (if DueBlock(y) then [Due(y.outcome)] else []) && y.log.ended == |y.log.calls|
    {
      AllDoneIsQuiescent(s, f);
      ExactlyOnceAtQuiescence(s0, s, f);
    }
  }
}
