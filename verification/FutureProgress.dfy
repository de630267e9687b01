/**
 Deadlock freedom of the two-pool design. Callbacks of prepare futures may work on
 execute futures, callbacks of execute futures work on no future; then, once the
 driver has resolved everything, the system can only stop when all work is done.
 */
module FutureProgress {
  import opened Prelude
  import opened FutureState
  import opened FutureMachine
  import opened FutureInvariant
  import opened FutureRegistrations
  import opened FutureTheorems

  // ---- the discipline on callbacks ----

  /** The kinds of the futures, which never change. */
  function Kinds(s: State): seq<Kind> {
    seq(|s.futures|, i requires 0 <= i < |s.futures| => s.futures[i].kind)
  }

  /** An operation allowed inside a callback of a prepare future: on an execute future, with an inert block. */
  predicate InnerOp(kinds: seq<Kind>, op: Op) {
    op.future < |kinds| ==> kinds[op.future].Execute? && (op.Register? ==> op.block.body == [])
  }

  predicate InnerOps(kinds: seq<Kind>, ops: seq<Op>) {
    forall i :: 0 <= i < |ops| ==> InnerOp(kinds, ops[i])
  }

  /** A block that may be registered on a future of kind k. */
  predicate BlockAllowed(kinds: seq<Kind>, k: Kind, block: Block) {
    if k.Execute? then block.body == [] else InnerOps(kinds, block.body)
  }

  predicate MainOps(kinds: seq<Kind>, ops: seq<Op>) {
    forall i :: 0 <= i < |ops| && ops[i].future < |kinds| && ops[i].Register? ==>
      BlockAllowed(kinds, kinds[ops[i].future], ops[i].block)
  }

  predicate ActDisciplined(kinds: seq<Kind>, x: Activation) {
    && MainOps(kinds, x.todo)
    && ((x.pc.RegCheck? || x.pc.RegLock? || x.pc.RegWrite?) && x.pc.future < |kinds| ==>
          BlockAllowed(kinds, kinds[x.pc.future], x.pc.block))
    && (x.role.Callback? && x.role.future < |kinds| && kinds[x.role.future].Execute? ==> x.todo == [] && OffFuture(x.pc))
    && (x.role.Callback? && x.role.future < |kinds| && kinds[x.role.future].Prepare? ==>
          InnerOps(kinds, x.todo) && (!OffFuture(x.pc) && x.pc.future < |kinds| ==> kinds[x.pc.future].Execute?))
    && (x.role.Worker? && !OffFuture(x.pc) && x.pc.future < |kinds| ==> kinds[x.pc.future] == x.role.kind)
  }

  predicate FutureDisciplined(kinds: seq<Kind>, y: Future) {
    && (y.onSuccess.Some? ==> BlockAllowed(kinds, y.kind, y.onSuccess.value))
    && (y.onFailure.Some? ==> BlockAllowed(kinds, y.kind, y.onFailure.value))
  }

  ghost predicate Disciplined(s: State) {
    && (forall a :: 0 <= a < |s.acts| ==> ActDisciplined(Kinds(s), s.acts[a]))
    && (forall f :: 0 <= f < |s.futures| ==> FutureDisciplined(Kinds(s), s.futures[f]))
  }

  lemma InnerOpsAreMainOps(kinds: seq<Kind>, ops: seq<Op>)
    requires InnerOps(kinds, ops)
    ensures MainOps(kinds, ops)
  {
    forall i | 0 <= i < |ops| && ops[i].future < |kinds| && ops[i].Register?
      ensures BlockAllowed(kinds, kinds[ops[i].future], ops[i].block)
    {
      assert InnerOp(kinds, ops[i]);
    }
  }

  lemma NextDisciplined(kinds: seq<Kind>, x: Activation, y: Future, a: nat, child: nat, n: (Pc, Future))
    requires Ready(y, x.pc) && x.pc.future < |kinds| && y.kind == kinds[x.pc.future]
    requires ActDisciplined(kinds, x) && FutureDisciplined(kinds, y)
    requires n == Next(y, a, x.pc, child)
    ensures ActDisciplined(kinds, x.(pc := n.0)) && FutureDisciplined(kinds, n.1)
  {
    NextBlocks(y, a, x.pc, child);
    BlocksDisciplined(kinds, x, y, n);
  }

  lemma BlocksDisciplined(kinds: seq<Kind>, x: Activation, y: Future, n: (Pc, Future))
    requires !OffFuture(x.pc) && x.pc.future < |kinds| && y.kind == kinds[x.pc.future]
    requires ActDisciplined(kinds, x) && FutureDisciplined(kinds, y)
    requires OffFuture(n.0) || n.0.future == x.pc.future
    requires !n.0.RegCheck? && n.1.kind == y.kind
    requires n.0.RegLock? || n.0.RegWrite? ==> (x.pc.RegCheck? || x.pc.RegLock?) && n.0.block == x.pc.block
    requires n.1.onSuccess == y.onSuccess || (x.pc.RegWrite? && n.1.onSuccess == Some(x.pc.block))
    requires n.1.onFailure == y.onFailure || (x.pc.RegWrite? && n.1.onFailure == Some(x.pc.block))
    ensures ActDisciplined(kinds, x.(pc := n.0)) && FutureDisciplined(kinds, n.1)
  {
  }

  lemma SpawnDisciplined(t: State, a: nat, p: Pc, f: nat)
    requires Disciplined(t) && a < |t.acts| && f < |t.futures| && !p.RegPush?
    ensures Disciplined(SideEffect(t, a, p, f))
  {
    var u := SideEffect(t, a, p, f);
    SideEffectOff(t, a, p, f);
    assert Kinds(u) == Kinds(t);
    if p.RegRevive? {
      RevivalKeeps(t, t.futures[f].kind, |PoolOf(t, t.futures[f].kind).slots|);
    }
    forall b | 0 <= b < |u.acts| ensures ActDisciplined(Kinds(u), u.acts[b]) {
      if b < |t.acts| {
        assert ActDisciplined(Kinds(t), t.acts[b]);
      } else if u.acts[b].role.Callback? {
        assert FutureDisciplined(Kinds(t), t.futures[f]);
        assert BlockAllowed(Kinds(t), t.futures[f].kind, Block(u.acts[b].todo));
        if t.futures[f].kind.Prepare? {
          InnerOpsAreMainOps(Kinds(t), u.acts[b].todo);
        }
      }
    }
  }

  lemma StepOnDisciplined(s: State, a: nat)
    requires Disciplined(s) && Enabled(s, a) && !OffFuture(s.acts[a].pc)
    ensures Disciplined(StepOn(s, a))
  {
    var p := s.acts[a].pc;
    var f := p.future;
    var t := Moved(s, a);
    StepOnKinds(s, a);
    NextKind(s.futures[f], a, p, |s.acts|);
    assert Kinds(t) == Kinds(s) && Kinds(StepOn(s, a)) == Kinds(s);
    NextDisciplined(Kinds(s), s.acts[a], s.futures[f], a, |s.acts|, Next(s.futures[f], a, p, |s.acts|));
    assert Disciplined(t);
    if p.RegPush? {
      assert StepOn(s, a).acts == t.acts && StepOn(s, a).futures == t.futures;
    } else {
      SpawnDisciplined(t, a, p, f);
    }
  }

  /** The discipline on the program text is kept by every step. */
  lemma ApplyKeepsDiscipline(s: State, e: Event)
    requires Inv(s) && Disciplined(s) && Allowed(s, e)
    ensures Disciplined(Apply(s, e)) && Kinds(Apply(s, e)) == Kinds(s)
  {
    var u := Apply(s, e);
    if e.Act? && !OffFuture(s.acts[e.act].pc) {
      StepOnKinds(s, e.act);
      StepOnDisciplined(s, e.act);
    } else if e.Act? {
      OffDisciplined(s, e.act, e.choice);
    } else {
      assert Kinds(u) == Kinds(s);
    }
  }

  /** Starting the next operation of a disciplined activation, or dropping it. */
  lemma StartDisciplined(kinds: seq<Kind>, x: Activation)
    requires ActDisciplined(kinds, x) && x.pc.Idle? && x.todo != [] && !x.role.Worker?
    ensures var op := x.todo[0];
            var p := if op.future >= |kinds| then Raising
                     else if op.Register? then RegCheck(op.future, op.side, op.block)
                     else AwLock(op.future);
            ActDisciplined(kinds, x.(pc := p, todo := x.todo[1..]))
  {
    if x.role.Callback? && x.role.future < |kinds| && kinds[x.role.future].Prepare? {
      assert InnerOp(kinds, x.todo[0]);
    }
  }

  lemma PopDisciplined(s: State, a: nat)
    requires Disciplined(s) && Enabled(s, a) && s.acts[a].pc.WkPop? && s.acts[a].role.Worker?
    requires PoolInv(s, s.acts[a].role.kind)
    ensures Disciplined(StepPop(s, a)) && Kinds(StepPop(s, a)) == Kinds(s)
  {
    var u := StepPop(s, a);
    assert Kinds(u) == Kinds(s);
    var f := PoolOf(s, s.acts[a].role.kind).queue[0];
    assert u.acts == s.acts[a := s.acts[a].(pc := WkWait(f))];
    assert u.futures == s.futures[f := Claimed(s.futures[f], a)];
    assert ActDisciplined(Kinds(s), s.acts[a]) && FutureDisciplined(Kinds(s), s.futures[f]);
    assert ActDisciplined(Kinds(s), u.acts[a]) && FutureDisciplined(Kinds(s), u.futures[f]);
  }

  lemma ReturnDisciplined(s: State, a: nat, raised: bool)
    requires Disciplined(s) && InRange(s, a) && s.acts[a].role.Callback? && !s.acts[a].pc.Ended?
    ensures Disciplined(Returned(s, a, raised)) && Kinds(Returned(s, a, raised)) == Kinds(s)
  {
    var u := Returned(s, a, raised);
    assert Kinds(u) == Kinds(s);
    var p := s.acts[a].role.parent;
    assert ActDisciplined(Kinds(s), s.acts[a]) && ActDisciplined(Kinds(s), s.acts[p]);
    assert FutureDisciplined(Kinds(s), s.futures[s.acts[p].pc.future]);
  }

  lemma OffDisciplined(s: State, a: nat, choice: bool)
    requires Inv(s) && Disciplined(s) && Enabled(s, a) && OffFuture(s.acts[a].pc)
    ensures var u := Step(s, a, choice); Disciplined(u) && Kinds(u) == Kinds(s)
  {
    var x := s.acts[a];
    assert TreeInv(s, a) && ActDisciplined(Kinds(s), x);
    if x.pc.WkPop? {
      PopDisciplined(s, a);
    } else if x.role.Callback? && x.pc.Idle? && (choice || x.todo == []) {
      ReturnDisciplined(s, a, choice);
    } else if x.role.Callback? && x.pc.Raising? && !choice {
      ReturnDisciplined(s, a, true);
    } else {
      AloneDisciplined(s, a, choice);
    }
  }

  /** A step that concerns nobody else: starting an operation, rescuing an exception, or the end of a thread. */
  lemma AloneDisciplined(s: State, a: nat, choice: bool)
    requires Disciplined(s) && Enabled(s, a) && (s.acts[a].pc.Idle? || s.acts[a].pc.Raising?)
    requires s.acts[a].role.Worker? ==> !s.acts[a].pc.Idle?
    requires s.acts[a].role.Callback? ==> if s.acts[a].pc.Idle? then !choice && s.acts[a].todo != [] else choice
    ensures var u := Step(s, a, choice); Disciplined(u) && Kinds(u) == Kinds(s)
  {
    var u := Step(s, a, choice);
    assert Kinds(u) == Kinds(s);
    assert ActDisciplined(Kinds(s), s.acts[a]);
    if s.acts[a].pc.Idle? && !choice && s.acts[a].todo != [] {
      StartDisciplined(Kinds(s), s.acts[a]);
    }
    assert ActDisciplined(Kinds(s), u.acts[a]);
    assert forall b :: 0 <= b < |u.acts| && b != a ==> u.acts[b] == s.acts[b];
    assert u.futures == s.futures;
  }

  lemma {:induction false} RunKeepsDiscipline(s: State, events: seq<Event>)
    requires Inv(s) && Disciplined(s) && IsRun(s, events)
    ensures Disciplined(After(s, events))
    decreases events
  {
    if events != [] {
      ApplyKeepsInv(s, events[0]);
      ApplyKeepsDiscipline(s, events[0]);
      RunKeepsDiscipline(Apply(s, events[0]), events[1..]);
    }
  }

  // ---- stuck states ----

  ghost predicate Stuck(s: State) {
    forall a :: 0 <= a < |s.acts| ==> !Enabled(s, a)
  }

  /**
   What deadlock freedom asks of a state besides the invariant: a disciplined program,
   everything resolved, no duplicated registration, and fewer than THREAD_MAX raising
   callbacks in each pool since its last revival pass.
   */
  ghost predicate FairConditions(s: State) {
    && Disciplined(s)
    && (forall f :: 0 <= f < |s.futures| ==> s.futures[f].outcome != Pending && !s.futures[f].log.duplicated)
    && s.prepare.raised < THREAD_MAX
    && s.execute.raised < THREAD_MAX
  }

  /** All threads have run to their end, every callback is over, every worker is idle and both queues are empty. */
  ghost predicate AllDone(s: State) {
    && s.prepare.queue == [] && s.execute.queue == []
    && forall a :: 0 <= a < |s.acts| ==>
         var x := s.acts[a];
         match x.role
         case Main => x.pc.Ended? || (x.pc.Idle? && x.todo == [])
         case Callback(_, _) => x.pc.Ended?
         case Worker(_) => x.pc.Ended? || x.pc.WkPop?
  }

  predicate CallbackOf(s: State, c: nat, k: Kind)
    requires c < |s.acts|
  {
    && s.acts[c].role.Callback?
    && s.acts[c].role.future < |s.futures|
    && s.futures[s.acts[c].role.future].kind == k
  }

  ghost predicate NoLiveCallbacks(s: State, k: Kind) {
    forall c :: 0 <= c < |s.acts| && CallbackOf(s, c, k) ==> s.acts[c].pc.Ended?
  }

  /** In a stuck state an activation on a future of kind k waits: for a mutex, for room in the queue, or for a permit. */
  lemma StuckOn(s: State, a: nat, k: Kind)
    requires Inv(s) && FairConditions(s) && Stuck(s) && NoLiveCallbacks(s, k)
    requires a < |s.acts| && !OffFuture(s.acts[a].pc)
    requires s.acts[a].pc.future < |s.futures| ==> s.futures[s.acts[a].pc.future].kind == k
    ensures var p := s.acts[a].pc;
      && p.future < |s.futures|
      && !Running(p)
      && (((p.RegLock? || p.AwLock? || p.WkLock?) && s.futures[p.future].holder.Some?)
          || (p.RegPush? && |PoolOf(s, k).queue| >= QUEUE_MAX)
          || (p.AwSem? && s.futures[p.future].sem == 0))
  {
    InRangeByInv(s, a);
    assert ActInv(s, a) && TreeInv(s, a);
    assert !Enabled(s, a);
  }

  /** The holder of a mutex is itself waiting for room in the queue. */
  lemma StuckHolder(s: State, f: nat)
    requires Inv(s) && FairConditions(s) && Stuck(s) && f < |s.futures| && NoLiveCallbacks(s, s.futures[f].kind)
    requires s.futures[f].holder.Some?
    ensures HolderPc(s, f) == RegPush(f) && |PoolOf(s, s.futures[f].kind).queue| >= QUEUE_MAX
  {
    assert FutureInv(s, f);
    StuckOn(s, s.futures[f].holder.value, s.futures[f].kind);
  }

  /** A claimed future is not about to be pushed, so its claimer is not kept waiting by a full queue: nothing is claimed. */
  lemma StuckClaim(s: State, w: nat, f: nat)
    requires Inv(s) && FairConditions(s) && Stuck(s) && f < |s.futures| && NoLiveCallbacks(s, s.futures[f].kind)
    ensures w !in s.futures[f].log.undecided && w !in s.futures[f].log.decided
  {
    var y := s.futures[f];
    assert FutureInv(s, f);
    assert w in y.log.undecided ==> |y.log.undecided| > 0;
    if w in y.log.undecided || w in y.log.decided {
      StuckOn(s, w, y.kind);
      StuckHolder(s, f);
      assert false;
    }
  }

  lemma StuckUnclaimed(s: State, f: nat)
    requires Inv(s) && FairConditions(s) && Stuck(s) && f < |s.futures| && NoLiveCallbacks(s, s.futures[f].kind)
    ensures s.futures[f].log.undecided == {} && s.futures[f].log.decided == {}
  {
    forall w: nat ensures w !in s.futures[f].log.undecided && w !in s.futures[f].log.decided {
      StuckClaim(s, w, f);
    }
  }

  lemma NoReviverWhenStuck(s: State, k: Kind)
    requires Inv(s) && FairConditions(s) && Stuck(s) && NoLiveCallbacks(s, k)
    ensures !RevivalDue(s, k)
  {
    if a :| 0 <= a < |s.acts| && s.acts[a].pc.RegRevive? && s.acts[a].pc.future < |s.futures|
            && s.futures[s.acts[a].pc.future].kind == k {
      StuckOn(s, a, k);
    }
  }

  /** A stuck pool has an empty queue: a live worker would pop, and none is blocked elsewhere. */
  lemma StuckQueueEmpty(s: State, k: Kind)
    requires Inv(s) && FairConditions(s) && Stuck(s) && NoLiveCallbacks(s, k)
    ensures PoolOf(s, k).queue == []
  {
    WorkerSupply(s, k);
    NoReviverWhenStuck(s, k);
    assert PoolInv(s, k) && SlotsInv(s, k);
    forall i: nat ensures PoolOf(s, k).queue != [] ==> !LiveSlot(s, k, i) {
      StuckSlot(s, k, i);
    }
  }

  /** A live worker that is stuck is idle before an empty queue. */
  lemma StuckSlot(s: State, k: Kind, i: nat)
    requires Inv(s) && FairConditions(s) && Stuck(s) && NoLiveCallbacks(s, k)
    ensures LiveSlot(s, k, i) ==> PoolOf(s, k).queue == []
  {
    assert SlotsInv(s, k);
    if LiveSlot(s, k, i) {
      StuckWorker(s, k, PoolOf(s, k).slots[i].value);
    }
  }

  lemma StuckWorker(s: State, k: Kind, w: nat)
    requires Inv(s) && FairConditions(s) && Stuck(s) && NoLiveCallbacks(s, k)
    requires w < |s.acts| && s.acts[w].role == Worker(k) && !s.acts[w].pc.Ended?
    ensures PoolOf(s, k).queue == []
  {
    InRangeByInv(s, w);
    assert TreeInv(s, w) && ActInv(s, w) && PoolInv(s, k) && !Enabled(s, w);
    if !s.acts[w].pc.WkPop? {
      assert ActDisciplined(Kinds(s), s.acts[w]);
      StuckOn(s, w, k);
      StuckClaim(s, w, s.acts[w].pc.future);
      assert false;
    }
  }

  /** When no callback of a kind is running, a stuck state has no activation on a future of that kind. */
  lemma StuckKindIdle(s: State, k: Kind, a: nat)
    requires Inv(s) && FairConditions(s) && Stuck(s) && NoLiveCallbacks(s, k) && a < |s.acts|
    requires !OffFuture(s.acts[a].pc) && s.acts[a].pc.future < |s.futures| ==> s.futures[s.acts[a].pc.future].kind == k
    ensures OffFuture(s.acts[a].pc)
  {
    StuckQueueEmpty(s, k);
    if !OffFuture(s.acts[a].pc) {
      var f := s.acts[a].pc.future;
      StuckOn(s, a, k);
      StuckUnclaimed(s, f);
      assert FutureInv(s, f) && ActInv(s, a);
      if s.futures[f].holder.Some? {
        StuckHolder(s, f);
      }
      assert false;
    }
  }

  lemma StuckExecuteCallbacks(s: State)
    requires Inv(s) && FairConditions(s) && Stuck(s)
    ensures NoLiveCallbacks(s, Execute)
  {
    forall c | 0 <= c < |s.acts| && CallbackOf(s, c, Execute)
      ensures s.acts[c].pc.Ended?
    {
      InRangeByInv(s, c);
      assert TreeInv(s, c) && ActDisciplined(Kinds(s), s.acts[c]) && !Enabled(s, c);
    }
  }

  lemma StuckPrepareCallbacks(s: State)
    requires Inv(s) && FairConditions(s) && Stuck(s) && NoLiveCallbacks(s, Execute)
    ensures NoLiveCallbacks(s, Prepare)
  {
    forall c | 0 <= c < |s.acts| && CallbackOf(s, c, Prepare)
      ensures s.acts[c].pc.Ended?
    {
      InRangeByInv(s, c);
      assert TreeInv(s, c) && ActInv(s, c) && ActDisciplined(Kinds(s), s.acts[c]) && !Enabled(s, c);
      StuckKindIdle(s, Execute, c);
    }
  }

  lemma StuckIsDone(s: State)
    requires Inv(s) && FairConditions(s) && Stuck(s)
    ensures AllDone(s)
  {
    StuckExecuteCallbacks(s);
    StuckPrepareCallbacks(s);
    StuckQueueEmpty(s, Prepare);
    StuckQueueEmpty(s, Execute);
    forall a | 0 <= a < |s.acts| ensures OffFuture(s.acts[a].pc) {
      InRangeByInv(s, a);
      StuckKindIdle(s, if OffFuture(s.acts[a].pc) then Prepare else s.futures[s.acts[a].pc.future].kind, a);
    }
    forall a | 0 <= a < |s.acts|
      ensures var x := s.acts[a];
        match x.role
        case Main => x.pc.Ended? || (x.pc.Idle? && x.todo == [])
        case Callback(_, _) => x.pc.Ended?
        case Worker(_) => x.pc.Ended? || x.pc.WkPop?
    {
      InRangeByInv(s, a);
      assert TreeInv(s, a) && !Enabled(s, a) && OffFuture(s.acts[a].pc);
    }
  }

  /**
   Deadlock freedom: for a disciplined program that registers at most once for each block
   field, with fewer than THREAD_MAX raising callbacks in a pool since its last revival, once the driver
   has resolved every future either some activation can step or all work is done. Full
   queues, pushes made under a future's mutex, and nested callbacks are all covered.
   */
  lemma DeadlockFree(s0: State, s: State)
    requires Reachable(s0, s) && Disciplined(s0)
    requires forall f :: 0 <= f < |s0.futures| ==> RegistersOnce(s0, f)
    requires forall f :: 0 <= f < |s.futures| ==> s.futures[f].outcome != Pending
    requires s.prepare.raised < THREAD_MAX && s.execute.raised < THREAD_MAX
    ensures AllDone(s) || exists a: nat :: a < |s.acts| && Enabled(s, a)
  {
    var events :| IsRun(s0, events) && After(s0, events) == s;
    InitialInv(s0);
    RunKeepsDiscipline(s0, events);
    ReachableInv(s0, s);
    RunKeepsFutureCount(s0, events);
    forall f | 0 <= f < |s.futures| ensures !s.futures[f].log.duplicated {
      NoDuplicates(s0, s, f);
    }
    if Stuck(s) {
      StuckIsDone(s);
    }
  }
}
