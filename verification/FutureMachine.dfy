/**
 The protocol of future.c as a transition system: any number of futures, any number
 of application threads, and two pools of workers. An activation is one stretch of
 Ruby code on some thread: an application thread's main code, a pool worker's loop,
 or one invocation of a callback. A callback runs as a child activation of whoever
 invoked it, on the same thread, and its parent waits for it. Every step is one
 atomic update; a step of the driver may fall between any two of them.
 */
module FutureMachine {
  import opened Prelude
  import opened FutureState

  const THREAD_MAX := 5
  const QUEUE_MAX := 100

  datatype Role =
    | Main
    | Callback(parent: nat, future: nat)
    | Worker(kind: Kind)

  /** thread is the activation at the bottom of the same Ruby thread's stack. */
  datatype Activation = Activation(role: Role, thread: nat, todo: seq<Op>, pc: Pc)

  /** A future_thread_pool: the sized queue, the five slots, and a log. */
  datatype Pool = Pool(
    queue: seq<nat>,
    slots: seq<Option<nat>>,
    pushed: seq<nat>,          // everything ever pushed, in order
    popped: seq<nat>,          // everything ever popped, in order
    revivals: nat,             // revival passes completed
    raised: nat)               // workers that died of a raising callback since the last pass

  datatype State = State(
    futures: seq<Future>,
    acts: seq<Activation>,
    prepare: Pool,
    execute: Pool)

  function PoolOf(s: State, k: Kind): Pool {
    if k.Prepare? then s.prepare else s.execute
  }

  function WithPool(s: State, k: Kind, p: Pool): State {
    if k.Prepare? then s.(prepare := p) else s.(execute := p)
  }

  function Queued(s: State, f: nat): nat
    requires f < |s.futures|
  {
    multiset(PoolOf(s, s.futures[f].kind).queue)[f]
  }

  /** Moves activation a to p. */
  function Goto(s: State, a: nat, p: Pc): State
    requires a < |s.acts|
  {
    s.(acts := s.acts[a := s.acts[a].(pc := p)])
  }

  /** Moves activation a to p and replaces future f. */
  function Move(s: State, a: nat, p: Pc, f: nat, y: Future): State
    requires a < |s.acts| && f < |s.futures|
  {
    Goto(s, a, p).(futures := s.futures[f := y])
  }

  function Spawned(s: State, x: Activation): State {
    s.(acts := s.acts + [x])
  }

  /** Runs a block as a callback of future f: rb_proc_call on the calling thread. */
  function Child(s: State, a: nat, f: nat, block: Block): Activation
    requires a < |s.acts|
  {
    Activation(Callback(a, f), s.acts[a].thread, block.body, Idle)
  }

  // ---- worker slots ----

  predicate SlotDead(s: State, slot: Option<nat>) {
    slot.None? || slot.value >= |s.acts| || s.acts[slot.value].pc.Ended?
  }

  /** One round of the loop in future_thread_pool_prepare_thread. */
  function RevivedSlot(s: State, k: Kind, i: nat): State
    requires i < |PoolOf(s, k).slots|
  {
    var p := PoolOf(s, k);
    if SlotDead(s, p.slots[i]) then
      WithPool(Spawned(s, Activation(Worker(k), |s.acts|, [], WkPop)), k, p.(slots := p.slots[i := Some(|s.acts|)]))
    else
      s
  }

  function RevivedUpTo(s: State, k: Kind, n: nat): (t: State)
    requires n <= |PoolOf(s, k).slots|
    ensures |PoolOf(t, k).slots| == |PoolOf(s, k).slots|
  {
    if n == 0 then s else RevivedSlot(RevivedUpTo(s, k, n - 1), k, n - 1)
  }

  /** The whole pass, counted. */
  function Revived(s: State, k: Kind): State {
    var t := RevivedUpTo(s, k, |PoolOf(s, k).slots|);
    WithPool(t, k, PoolOf(t, k).(revivals := PoolOf(t, k).revivals + 1, raised := 0))
  }

  // ---- steps of an activation ----

  /** The mutex is held on the same Ruby thread: locking it again raises ThreadError. */
  predicate HeldByOwnThread(s: State, a: nat, f: nat)
    requires a < |s.acts| && f < |s.futures|
  {
    var h := s.futures[f].holder;
    h.Some? && h.value < |s.acts| && s.acts[h.value].thread == s.acts[a].thread
  }

  predicate InRange(s: State, a: nat) {
    && a < |s.acts|
    && var x := s.acts[a];
    && (!OffFuture(x.pc) ==> x.pc.future < |s.futures|)
    && (x.role.Callback? && !x.pc.Ended? ==>
          && x.role.parent < |s.acts|
          && Running(s.acts[x.role.parent].pc)
          && s.acts[x.role.parent].pc.future < |s.futures|)
  }

  predicate Enabled(s: State, a: nat) {
    && InRange(s, a)
    && var x := s.acts[a];
       if x.pc.Idle? then x.role.Callback? || (x.role.Main? && x.todo != [])
       else if x.pc.Raising? then true
       else if x.pc.Ended? then false
       else if x.pc.WkPop? then
         x.role.Worker? && PoolOf(s, x.role.kind).queue != [] && PoolOf(s, x.role.kind).queue[0] < |s.futures|
       else
         var y := s.futures[x.pc.future];
         && Ready(y, x.pc)
         && (x.pc.RegLock? || x.pc.AwLock? ==> y.holder.None? || HeldByOwnThread(s, a, x.pc.future))
         && (x.pc.WkLock? ==> y.holder.None?)
         && (x.pc.RegPush? ==> |PoolOf(s, y.kind).queue| < QUEUE_MAX)
  }

  /** Where a parent goes on when its callback is over: a raising callback skips to the unlock. */
  function Resumed(p: Pc, raised: bool): Pc
    requires Running(p)
  {
    if p.RegRun? then RegUnlock(p.future, raised)
    else if raised then WkUnlock(p.future, true)
    else WkFlag(p.future)
  }

  /** The callback run by activation p is over. */
  function ParentResumed(s: State, p: nat, raised: bool): State
    requires p < |s.acts| && Running(s.acts[p].pc) && s.acts[p].pc.future < |s.futures|
  {
    var f := s.acts[p].pc.future;
    Move(s, p, Resumed(s.acts[p].pc, raised), f, CallEnded(s.futures[f]))
  }

  /** A callback activation is over; its parent goes on, or unwinds if it raised. */
  function Returned(s: State, a: nat, raised: bool): State
    requires InRange(s, a) && s.acts[a].role.Callback? && !s.acts[a].pc.Ended?
  {
    Goto(ParentResumed(s, s.acts[a].role.parent, raised), a, Ended)
  }

  /** The Ruby code of an activation ends; an uncaught exception reaches the parent of a callback. */
  function Finished(s: State, a: nat, raised: bool): State
    requires InRange(s, a) && !s.acts[a].pc.Ended?
  {
    if s.acts[a].role.Callback? then Returned(s, a, raised) else Goto(s, a, Ended)
  }

  /** Ruby code going on: the next operation, the normal end of a callback, or (choice) an exception of its own. */
  function StepIdle(s: State, a: nat, choice: bool): State
    requires Enabled(s, a) && s.acts[a].pc.Idle?
  {
    var x := s.acts[a];
    if choice || x.todo == [] then Finished(s, a, choice)
    else
      var op := x.todo[0];
      var p := if op.future >= |s.futures| then Raising
               else if op.Register? then RegCheck(op.future, op.side, op.block)
               else AwLock(op.future);
      s.(acts := s.acts[a := x.(pc := p, todo := x.todo[1..])])
  }

  /** An exception raised by this library is rescued (choice) or leaves the activation. */
  function StepRaising(s: State, a: nat, choice: bool): State
    requires Enabled(s, a) && s.acts[a].pc.Raising?
  {
    if choice then Goto(s, a, Idle) else Finished(s, a, true)
  }

  /** future_queue_pop by an idle worker. */
  function StepPop(s: State, a: nat): State
    requires Enabled(s, a) && s.acts[a].pc.WkPop?
  {
    var k := s.acts[a].role.kind;
    var p := PoolOf(s, k);
    var f := p.queue[0];
    WithPool(Move(s, a, WkWait(f), f, Claimed(s.futures[f], a)), k,
             p.(queue := p.queue[1..], popped := p.popped + [f]))
  }

  /** What a step on future f does besides moving a and changing f. */
  function SideEffect(t: State, a: nat, p: Pc, f: nat): State
    requires a < |t.acts| && f < |t.futures|
  {
    var k := t.futures[f].kind;
    var pool := PoolOf(t, k);
    if p.RegPush? then WithPool(t, k, pool.(queue := pool.queue + [f], pushed := pool.pushed + [f]))
    else if p.RegRevive? then Revived(t, k)
    else if p.RegDecide? && t.acts[a].pc.RegRun? && BlockOf(t.futures[f], p.side).Some? then
      Spawned(t, Child(t, a, f, BlockOf(t.futures[f], p.side).value))
    else if p.WkDecide? && t.acts[a].pc.WkRun? && DueBlock(t.futures[f]) then
      Spawned(t, Child(t, a, f, BlockOf(t.futures[f], Due(t.futures[f].outcome)).value))
    else if p.WkPost? && p.raised && t.acts[a].role.Worker? then
      var own := PoolOf(t, t.acts[a].role.kind);
      WithPool(t, t.acts[a].role.kind, own.(raised := own.raised + 1))
    else t
  }

  function Moved(s: State, a: nat): State
    requires Enabled(s, a) && !OffFuture(s.acts[a].pc)
  {
    var f := s.acts[a].pc.future;
    var n := Next(s.futures[f], a, s.acts[a].pc, |s.acts|);
    Move(s, a, n.0, f, n.1)
  }

  function StepOn(s: State, a: nat): State
    requires Enabled(s, a) && !OffFuture(s.acts[a].pc)
  {
    SideEffect(Moved(s, a), a, s.acts[a].pc, s.acts[a].pc.future)
  }

  function Step(s: State, a: nat, choice: bool): State
    requires Enabled(s, a)
  {
    var p := s.acts[a].pc;
    if p.Idle? then StepIdle(s, a, choice)
    else if p.Raising? then StepRaising(s, a, choice)
    else if p.WkPop? then StepPop(s, a)
    else StepOn(s, a)
  }

  // ---- runs ----

  datatype Event =
    | Act(act: nat, choice: bool)
    | Resolve(future: nat, outcome: Outcome)   // the driver
    | Interrupt(act: nat)                      // the unblock function of a semaphore wait

  predicate Allowed(s: State, e: Event) {
    match e
    case Act(a, _) => Enabled(s, a)
    case Resolve(f, o) => f < |s.futures| && s.futures[f].outcome == Pending && o != Pending
    case Interrupt(a) => a < |s.acts| && s.acts[a].pc.AwSem? && s.acts[a].pc.future < |s.futures|
  }

  function Apply(s: State, e: Event): State
    requires Allowed(s, e)
  {
    match e
    case Act(a, choice) => Step(s, a, choice)
    case Resolve(f, o) => s.(futures := s.futures[f := Resolved(s.futures[f], o)])
    case Interrupt(a) => var f := s.acts[a].pc.future; s.(futures := s.futures[f := Interrupted(s.futures[f])])
  }

  predicate IsRun(s: State, events: seq<Event>)
    decreases events
  {
    events == [] || (Allowed(s, events[0]) && IsRun(Apply(s, events[0]), events[1..]))
  }

  function After(s: State, events: seq<Event>): State
    requires IsRun(s, events)
    decreases events
  {
    if events == [] then s else After(Apply(s, events[0]), events[1..])
  }

  function EmptyPool(): Pool {
    Pool([], seq(THREAD_MAX, _ => None), [], [], 0, 0)
  }

  /**
   Fresh futures, empty pools without workers, and application threads about to run
   their code. Futures created later in a run stand here from the start, untouched.
   */
  predicate Initial(s: State) {
    && (forall f :: 0 <= f < |s.futures| ==> s.futures[f] == Created(s.futures[f].kind))
    && (forall a :: 0 <= a < |s.acts| ==> s.acts[a] == Activation(Main, a, s.acts[a].todo, Idle))
    && s.prepare == EmptyPool()
    && s.execute == EmptyPool()
  }

  ghost predicate Reachable(s0: State, s: State) {
    Initial(s0) && exists events :: IsRun(s0, events) && After(s0, events) == s
  }
}
