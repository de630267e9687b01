/**
 The C functions of future.c as methods on mutable objects: the struct CassandraFuture,
 whose critical sections run under its mutex, and the struct future_thread_pool. Each
 method is proved to do what the steps of the transition system do from the matching
 program counter, taken one after the other.
 */
module FutureObjects {
  import opened Prelude
  import opened FutureState
  import opened FutureMachine

  /**
   What one uninterrupted critical section of a registration leaves: the steps from the
   write to the end, or to the callback, or to the push. seen is the driver's answer at
   the readiness test; the driver may have resolved the future since the section began.
   */
  function RegisterSection(y: Future, me: nat, p: Pc, seen: Outcome, child: nat): (Pc, Future)
    requires p.RegWrite?
  {
    var written := Next(y, me, p, child);
    var asSeen := if seen != Pending && y.outcome == Pending then Resolved(written.1, seen) else written.1;
    var tested := Next(asSeen, me, written.0, child);
    if tested.0.RegPost? then
      var posted := Next(tested.1, me, tested.0, child);
      Next(posted.1, me, posted.0, child)
    else tested
  }

  /** The same in one piece, as the updates made on each path. */
  function Registered(y: Future, f: nat, side: Side, block: Block, seen: Outcome, child: nat): (Pc, Future) {
    var written := BlockWritten(y, side, block);
    if seen == Pending then (if BlockOf(y, Other(side)).None? then RegPush(f) else RegUnlock(f, false), written)
    else
      var posted := ReadyPosted(FoundReady(if y.outcome == Pending then Resolved(written, seen) else written));
      if !y.yielded && side == Due(seen) then (RegRun(f, child), Invoked(posted, side)) else (RegUnlock(f, false), posted)
  }

  /** A registration section that nobody interrupts takes exactly the steps of the transition system. */
  lemma RegisteredIsTheSteps(y: Future, me: nat, f: nat, side: Side, block: Block, seen: Outcome, child: nat)
    requires y.outcome != Pending ==> seen == y.outcome
    ensures Registered(y, f, side, block, seen, child) == RegisterSection(y, me, RegWrite(f, side, block), seen, child)
  {
  }

  /** The worker's section up to the callback, or to the unlock. */
  function WorkerSection(y: Future, me: nat, p: Pc, child: nat): (Pc, Future)
    requires p.WkDecide? && y.outcome != Pending
  {
    var decided := Next(y, me, p, child);
    if decided.0.WkFlag? then Next(decided.1, me, decided.0, child) else decided
  }

  /** What the locked part of an await leaves: only the first await goes on to wait. */
  function AwaitEntered(y: Future, me: nat, f: nat): (Pc, Future) {
    if y.alreadyWaited then (Idle, y) else (AwResolve(f), FirstAwaited(y, me))
  }

  /** It takes exactly the steps of the transition system: lock, test, unlock. */
  lemma AwaitEnteredIsTheSteps(y: Future, me: nat, f: nat)
    requires y.holder.None?
    ensures var locked := Next(y, me, AwLock(f), 0);
      var tested := Next(locked.1, me, locked.0, 0);
      AwaitEntered(y, me, f) == Next(tested.1, me, tested.0, 0)
  {
  }

  class CassandraFuture {
    const kind: Kind
    var onSuccess: Option<Block>
    var onFailure: Option<Block>
    var holder: Option<nat>
    var sem: nat
    var alreadyWaited: bool
    var yielded: bool
    var outcome: Outcome
    ghost var log: Log

    ghost function View(): Future
      reads this
    {
      Future(kind, onSuccess, onFailure, holder, sem, alreadyWaited, yielded, outcome, log)
    }

    /** future_create (future.c:201-218). */
    constructor (kind: Kind)
      ensures View() == Created(kind)
    {
      this.kind := kind;
      onSuccess, onFailure, holder := None, None, None;
      sem, alreadyWaited, yielded, outcome := 0, false, false, Pending;
      log := Created(kind).log;
    }

    /**
     future_on_success_synchronize (future.c:220-249), with the mutex held. The result
     says whether the block must now be called, or the future pushed on its queue.
     */
    method OnSuccessSynchronize(block: Block, seen: Outcome, ghost f: nat, ghost child: nat)
      returns (call: bool, push: bool)
      requires holder.Some? && (outcome != Pending ==> seen == outcome)
      modifies this
      ensures var n := Registered(old(View()), f, OnSuccess, block, seen, child);
        View() == n.1 && (call <==> n.0.RegRun?) && (push <==> n.0.RegPush?) && (!call && !push <==> n.0 == RegUnlock(f, false))
    {
      var wakeup := false;
      call, push := false, false;
      if onFailure.None? {
        wakeup := true;
      }
      ghost var written := BlockWritten(View(), OnSuccess, block);
      onSuccess, log := Some(block), written.log;
      assert View() == written;
      if seen != Pending && outcome == Pending {
        outcome, log := seen, Resolved(written, seen).log;
        assert View() == Resolved(written, seen);
      }
      if seen != Pending {
        ghost var posted := ReadyPosted(FoundReady(View()));
        sem, log := sem + 1, posted.log;
        assert View() == posted;
        if !yielded && seen == Ok {
          yielded, log := true, Invoked(posted, OnSuccess).log;
          call := true;
        }
        return;
      }
      push := wakeup;
    }

    /** future_on_failure_synchronize (future.c:277-306), the mirror image. */
    method OnFailureSynchronize(block: Block, seen: Outcome, ghost f: nat, ghost child: nat)
      returns (call: bool, push: bool)
      requires holder.Some? && (outcome != Pending ==> seen == outcome)
      modifies this
      ensures var n := Registered(old(View()), f, OnFailure, block, seen, child);
        View() == n.1 && (call <==> n.0.RegRun?) && (push <==> n.0.RegPush?) && (!call && !push <==> n.0 == RegUnlock(f, false))
    {
      var wakeup := false;
      call, push := false, false;
      if onSuccess.None? {
        wakeup := true;
      }
      ghost var written := BlockWritten(View(), OnFailure, block);
      onFailure, log := Some(block), written.log;
      assert View() == written;
      if seen != Pending && outcome == Pending {
        outcome, log := seen, Resolved(written, seen).log;
        assert View() == Resolved(written, seen);
      }
      if seen != Pending {
        ghost var posted := ReadyPosted(FoundReady(View()));
        sem, log := sem + 1, posted.log;
        assert View() == posted;
        if !yielded && seen != Ok {
          yielded, log := true, Invoked(posted, OnFailure).log;
          call := true;
        }
        return;
      }
      push := wakeup;
    }

    /** future_result_yielder_synchronize (future.c:143-164): the block to call now, if any; else it is marked as waited for. */
    method YielderSynchronize(ghost f: nat, ghost me: nat, ghost child: nat) returns (call: Option<Block>)
      requires holder.Some? && outcome != Pending
      modifies this
      ensures var n := WorkerSection(old(View()), me, WkDecide(f), child);
        && View() == n.1
        && (call.Some? <==> n.0.WkRun?) && (call.None? <==> n.0.WkUnlock?)
        && (call.Some? ==> call == BlockOf(old(View()), Due(outcome)))
    {
      call := None;
      log := Decided(View(), me).log;
      if !yielded {
        if outcome == Ok {
          if onSuccess.Some? {
            log := Invoked(View(), OnSuccess).log;
            yielded := true;
            return onSuccess;
          }
        } else {
          if onFailure.Some? {
            log := Invoked(View(), OnFailure).log;
            yielded := true;
            return onFailure;
          }
        }
      }
      alreadyWaited := true;
    }

    /** The rest of that section, once the callback has returned: the future is marked as waited for (future.c:162). */
    method YielderMark(ghost f: nat, ghost me: nat)
      requires holder.Some?
      modifies this
      ensures (WkUnlock(f, false), View()) == Next(old(View()), me, WkFlag(f), 0)
    {
      alreadyWaited := true;
    }

    /** The locked part of future_await (future.c:342-348): whether this await is the first. */
    method AwaitEnter(ghost f: nat, ghost me: nat) returns (first: bool)
      requires holder.None?
      modifies this
      ensures (if first then AwResolve(f) else Idle, View()) == AwaitEntered(old(View()), me, f)
    {
      if alreadyWaited {
        first := false;
        return;
      }
      log := FirstAwaited(View(), me).log;
      alreadyWaited := true;
      first := true;
    }
  }

  /** The Ruby threads of the process, as a thread pool sees them. */
  class Threads {
    var acts: seq<Activation>

    constructor ()
      ensures acts == []
    {
      acts := [];
    }

    /** rb_thread_create: a new worker about to pop. */
    method Create(kind: Kind) returns (id: nat)
      modifies this
      ensures id == |old(acts)| && acts == old(acts) + [Activation(Worker(kind), id, [], WkPop)]
    {
      id := |acts|;
      acts := acts + [Activation(Worker(kind), id, [], WkPop)];
    }

    /** Thread#alive? */
    predicate Alive(id: nat)
      reads this
    {
      id < |acts| && !acts[id].pc.Ended?
    }
  }

  class ThreadPool {
    const kind: Kind
    const thread: array<Option<nat>>
    var queue: seq<nat>
    ghost var pushed: seq<nat>
    ghost var popped: seq<nat>
    ghost var revivals: nat
    ghost var raised: nat

    ghost predicate Valid()
      reads this, thread
    {
      thread.Length == THREAD_MAX && |queue| <= QUEUE_MAX && pushed == popped + queue
    }

    ghost function View(): Pool
      reads this, thread
    {
      Pool(queue, thread[..], pushed, popped, revivals, raised)
    }

    /** A system of which only the threads and this pool matter. */
    ghost function In(threads: Threads): State
      reads this, thread, threads
    {
      if kind.Prepare? then State([], threads.acts, View(), EmptyPool()) else State([], threads.acts, EmptyPool(), View())
    }

    /** future_thread_pool_init (future.c:33-44). */
    constructor (kind: Kind)
      ensures Valid() && View() == EmptyPool() && this.kind == kind && fresh(thread)
    {
      this.kind := kind;
      thread := new Option<nat>[THREAD_MAX](_ => None);
      queue, pushed, popped, revivals, raised := [], [], [], 0, 0;
      new;
      assert thread[..] == EmptyPool().slots;
    }

    /** The push of future_queue_push (future.c:80); the caller waits while the queue is full. */
    method Push(future: nat)
      requires Valid() && |queue| < QUEUE_MAX
      modifies this`queue, this`pushed
      ensures Valid() && View() == old(View()).(queue := old(queue) + [future], pushed := old(pushed) + [future])
    {
      queue := queue + [future];
      pushed := pushed + [future];
    }

    /** future_queue_push (future.c:78-82): the push, and then a revival pass. */
    method PushAndPrepare(future: nat, threads: Threads)
      requires Valid() && |queue| < QUEUE_MAX
      modifies this`queue, this`pushed, this`revivals, this`raised, thread, threads
      ensures Valid()
      ensures In(threads) == Revived(WithPool(old(In(threads)), kind,
                old(View()).(queue := old(queue) + [future], pushed := old(pushed) + [future])), kind)
    {
      Push(future);
      PrepareThread(threads);
    }

    /** future_queue_pop (future.c:84-87); the worker waits while the queue is empty. */
    method Pop() returns (future: nat)
      requires Valid() && queue != []
      modifies this`queue, this`popped
      ensures Valid() && future == old(queue)[0]
      ensures View() == old(View()).(queue := old(queue)[1..], popped := old(popped) + [future])
    {
      future := queue[0];
      assert pushed == popped + [queue[0]] + queue[1..];
      queue := queue[1..];
      popped := popped + [future];
    }

    /** future_thread_pool_prepare_thread (future.c:46-61): the loop leaves what a whole revival pass leaves. */
    method PrepareThread(threads: Threads)
      requires Valid()
      modifies this`revivals, this`raised, thread, threads
      ensures Valid() && In(threads) == Revived(old(In(threads)), kind)
    {
      ghost var before := In(threads);
      for i := 0 to THREAD_MAX
        invariant Valid()
        invariant In(threads) == RevivedUpTo(before, kind, i)
      {
        ghost var now := In(threads);
        var status := false;
        if thread[i].Some? {
          status := threads.Alive(thread[i].value);
        }
        if thread[i].None? || !status {
          var id := threads.Create(kind);
          thread[i] := Some(id);
        }
        assert In(threads) == RevivedSlot(now, kind, i);
      }
      revivals, raised := revivals + 1, 0;
    }
  }
}
