/** What the futures protocol guarantees in every reachable state. */
module FutureTheorems {
  import opened Prelude
  import opened FutureState
  import opened FutureMachine
  import opened FutureInvariant

  /** Callback activations of future f that are still running. */
  ghost predicate LiveCallback(s: State, c: nat, f: nat) {
    c < |s.acts| && s.acts[c].role.Callback? && s.acts[c].role.future == f && !s.acts[c].pc.Ended?
  }

  /** A running callback's invoker holds the mutex and waits for exactly this callback. */
  lemma CallbackUnderMutex(s: State, c: nat, f: nat)
    requires Inv(s) && f < |s.futures|
    ensures LiveCallback(s, c, f) ==>
              && s.futures[f].holder == Some(s.acts[c].role.parent)
              && Running(HolderPc(s, f)) && HolderPc(s, f).child == c
              && s.futures[f].log.ended < |s.futures[f].log.calls|
  {
    if LiveCallback(s, c, f) {
      assert TreeInv(s, c) && ActInv(s, s.acts[c].role.parent) && FutureInv(s, f);
    }
  }

  /**
   In every interleaving, duplicate registrations included: a future's callbacks are
   invoked at most once in total, only after it resolved, and only the block for its
   outcome; and while the callback runs its invoker holds the mutex, alone.
   */
  lemma AtMostOneCallOfTheRightKind(s0: State, s: State, f: nat)
    requires Reachable(s0, s) && f < |s.futures|
    ensures var y := s.futures[f];
      && |y.log.calls| <= 1
      && (y.log.calls != [] ==> y.outcome != Pending && y.log.calls == [if y.outcome.Ok? then OnSuccess else OnFailure])
      && (forall c: nat :: LiveCallback(s, c, f) ==> y.log.calls != [] && y.holder == Some(s.acts[c].role.parent))
      && (forall c: nat, d: nat :: LiveCallback(s, c, f) && LiveCallback(s, d, f) ==> c == d)
  {
    ReachableInv(s0, s);
    assert FutureInv(s, f);
    forall c: nat | LiveCallback(s, c, f)
      ensures s.futures[f].holder == Some(s.acts[c].role.parent) && s.futures[f].log.calls != []
      ensures Running(HolderPc(s, f)) && HolderPc(s, f).child == c
    {
      CallbackUnderMutex(s, c, f);
    }
  }

  /** The future is in nobody's hands: not queued, not claimed, and its mutex is free. */
  predicate Quiescent(s: State, f: nat)
    requires f < |s.futures|
  {
    Queued(s, f) == 0 && s.futures[f].log.undecided == {} && s.futures[f].log.decided == {} && s.futures[f].holder.None?
  }

  /** A resolved future that nobody holds, queues or has claimed is done with. */
  lemma NothingLeftToCall(y: Future, h: nat)
    requires FutureOk(y) && HeldOk(y, h, Idle, 0) && y.outcome != Pending && y.log.undecided == {}
    ensures y.log.calls == (if DueBlock(y) then [Due(y.outcome)] else []) && y.log.ended == |y.log.calls|
  {
    assert InHand(y, Idle, 0, OnSuccess) && InHand(y, Idle, 0, OnFailure);
  }

  /**
   Once a resolved future is in nobody's hands, a registered block for its outcome has
   been called exactly once and the call is over, whenever it was registered; and
   without such a block nothing was called.
   */
  lemma ExactlyOnceAtQuiescence(s0: State, s: State, f: nat)
    requires Reachable(s0, s) && f < |s.futures| && s.futures[f].outcome != Pending && Quiescent(s, f)
    ensures var y := s.futures[f];
      && y.log.calls == (if DueBlock(y) then [Due(y.outcome)] else [])
      && y.log.ended == |y.log.calls|
  {
    ReachableInv(s0, s);
    assert FutureInv(s, f);
    NothingLeftToCall(s.futures[f], HolderId(s, f));
  }

  /** A registration of future f stands between writing its block and posting or pushing for it. */
  predicate RegistrationDue(s: State, f: nat)
    requires f < |s.futures|
  {
    var p := HolderPc(s, f);
    p.RegTest? || p.RegPost? || p.RegPush?
  }

  /** A registered block is backed, unless its registration is still to do it. */
  lemma BlockIsBacked(y: Future, h: nat, hp: Pc, queued: nat)
    requires FutureOk(y) && HeldOk(y, h, hp, queued) && HasBlock(y) && !(hp.RegTest? || hp.RegPost? || hp.RegPush?)
    ensures queued > 0 || y.log.undecided + y.log.decided != {} || y.log.readyPosts + y.log.workerPosts > 0
  {
    var l := y.log;
    if l.undecided + l.decided == {} {
      assert l.undecided == {} && l.decided == {};
    }
  }

  /** Whoever waits is the awaiter, and has not had a permit yet. */
  lemma WaiterIsTheAwaiter(s: State, a: nat, f: nat)
    requires Inv(s) && f < |s.futures| && a < |s.acts| && s.acts[a].pc == AwSem(f)
    ensures s.futures[f].log.awaiter == Some(a) && s.futures[f].log.waits == 0 && HasBlock(s.futures[f])
  {
    assert ActInv(s, a);
  }

  lemma ClaimersAreThere(s: State, f: nat, w: nat)
    requires Inv(s) && f < |s.futures| && w in s.futures[f].log.undecided + s.futures[f].log.decided
    ensures w < |s.acts| && (UndecidedPc(s.acts[w].pc) || DecidedPc(s.acts[w].pc)) && s.acts[w].pc.future == f
  {
    assert FutureInv(s, f);
  }

  /**
   No wakeup is lost. A registered block is backed by a queue entry, by a worker that
   will still post, or by a post that was made, unless its registration is still to do
   one of these. The semaphore counts posts minus granted waits, and at most one wait
   is ever granted, so the one waiting await finds a permit or somebody who owes it one.
   */
  lemma NoLostWakeup(s0: State, s: State, f: nat)
    requires Reachable(s0, s) && f < |s.futures|
    ensures var y := s.futures[f]; var l := y.log;
      && (HasBlock(y) && !RegistrationDue(s, f) ==>
            Queued(s, f) > 0 || l.undecided + l.decided != {} || l.readyPosts + l.workerPosts > 0)
      && y.sem == l.readyPosts + l.workerPosts + l.interrupts - l.waits
      && l.waits <= 1
      && (forall a, b :: 0 <= a < |s.acts| && 0 <= b < |s.acts| && s.acts[a].pc == AwSem(f) && s.acts[b].pc == AwSem(f) ==> a == b)
      && (forall a :: 0 <= a < |s.acts| && s.acts[a].pc == AwSem(f) ==>
            y.sem > 0 || Queued(s, f) > 0 || l.undecided + l.decided != {} || RegistrationDue(s, f))
      && (forall w :: w in l.undecided + l.decided ==>
            w < |s.acts| && (UndecidedPc(s.acts[w].pc) || DecidedPc(s.acts[w].pc)) && s.acts[w].pc.future == f)
  {
    ReachableInv(s0, s);
    assert FutureInv(s, f);
    if HasBlock(s.futures[f]) && !RegistrationDue(s, f) {
      BlockIsBacked(s.futures[f], HolderId(s, f), HolderPc(s, f), Queued(s, f));
    }
    forall a | 0 <= a < |s.acts| && s.acts[a].pc == AwSem(f)
      ensures s.futures[f].log.awaiter == Some(a) && s.futures[f].log.waits == 0 && HasBlock(s.futures[f])
    {
      WaiterIsTheAwaiter(s, a, f);
    }
    forall w | w in s.futures[f].log.undecided + s.futures[f].log.decided
      ensures w < |s.acts| && (UndecidedPc(s.acts[w].pc) || DecidedPc(s.acts[w].pc)) && s.acts[w].pc.future == f
    {
      ClaimersAreThere(s, f, w);
    }
  }

  /**
   The first await is about to return: it takes a permit, or it saw no block, or a worker
   had marked the future before it came. If no registration has found the future resolved
   and no interrupt has posted, then exactly the block that was due at resolution has been
   called, and that call is over.
   */
  lemma AwaitReturnsAfterTheCallback(s0: State, s: State, a: nat, f: nat)
    requires Reachable(s0, s) && a < |s.acts| && f < |s.futures|
    requires || (s.acts[a].pc == AwSem(f) && s.futures[f].sem > 0)
             || (s.acts[a].pc == AwCheck(f) && !HasBlock(s.futures[f]))
             || (s.acts[a].pc == AwTest(f) && s.futures[f].alreadyWaited && s.futures[f].log.awaiter.None?)
    requires s.futures[f].log.readyPaths == 0 && s.futures[f].log.interrupts == 0
    ensures var y := s.futures[f];
      && y.outcome != Pending
      && y.log.calls == (if y.log.dueAtResolution then [Due(y.outcome)] else [])
      && y.log.ended == |y.log.calls|
      && forall c: nat :: !LiveCallback(s, c, f)
  {
    ReachableInv(s0, s);
    var y := s.futures[f];
    assert FutureInv(s, f) && ActInv(s, a);
    assert !Running(HolderPc(s, f));
    forall c: nat ensures LiveCallback(s, c, f) ==> y.log.ended < |y.log.calls| {
      CallbackUnderMutex(s, c, f);
    }
  }

  /** The future is resolved, the due block, if there is one, has been called, and the call is over. */
  predicate CalledOut(y: Future) {
    && y.outcome != Pending
    && y.log.calls == (if DueBlock(y) then [Due(y.outcome)] else [])
    && y.log.ended == |y.log.calls|
  }

  /** So no callback of the future is running. */
  ghost predicate CallbackOver(s: State, f: nat)
    requires f < |s.futures|
  {
    CalledOut(s.futures[f]) && forall c: nat :: !LiveCallback(s, c, f)
  }

  lemma CalledOutIsOver(s: State, f: nat)
    requires Inv(s) && f < |s.futures| && CalledOut(s.futures[f])
    ensures CallbackOver(s, f)
  {
    forall c: nat ensures !LiveCallback(s, c, f) {
      CallbackUnderMutex(s, c, f);
    }
  }

  /** One permit is there for one push or one ready registration, and whoever gave it had no more to call. */
  lemma OnePermit(y: Future, h: nat, hp: Pc, queued: nat)
    requires FutureOk(y) && HeldOk(y, h, hp, queued) && !RegisterPc(hp)
    requires !y.log.duplicated && OneBlock(y) && y.log.interrupts == 0 && y.log.waits == 0 && y.sem > 0
    ensures queued == 0 && y.log.undecided == {} && y.log.decided == {}
    ensures y.outcome != Pending && y.log.calls == (if DueBlock(y) then [Due(y.outcome)] else [])
  {
    var l := y.log;
    assert l.readyPosts + l.workerPosts > 0 && l.pushes + l.readyPaths <= 1;
    assert queued + |l.undecided| + |l.decided| == 0;
    assert InHand(y, hp, queued, OnSuccess) && InHand(y, hp, queued, OnFailure);
  }

  /**
   With one block only, registered once, no interrupt, and no registration going on, an
   await that is about to take its permit finds the due callback over, whichever path
   the registration took.
   */
  lemma AwaitWithOneBlock(s0: State, s: State, a: nat, f: nat)
    requires Reachable(s0, s) && a < |s.acts| && f < |s.futures|
    requires s.acts[a].pc == AwSem(f) && s.futures[f].sem > 0
    requires OneBlock(s.futures[f]) && !s.futures[f].log.duplicated && s.futures[f].log.interrupts == 0
    requires !RegisterPc(HolderPc(s, f))
    ensures CallbackOver(s, f)
  {
    ReachableInv(s0, s);
    assert FutureInv(s, f) && ActInv(s, a);
    OnePermit(s.futures[f], HolderId(s, f), HolderPc(s, f), Queued(s, f));
    if s.futures[f].holder.Some? {
      assert ActInv(s, s.futures[f].holder.value);
    }
    assert !Running(HolderPc(s, f));
    forall c: nat ensures !LiveCallback(s, c, f) {
      CallbackUnderMutex(s, c, f);
    }
  }

  // ---- queues ----

  /** The pushes that the futures count are the ones the pools saw. */
  ghost predicate PushesCounted(s: State) {
    forall f, k: Kind :: 0 <= f < |s.futures| ==>
      multiset(PoolOf(s, k).pushed)[f] == if s.futures[f].kind == k then s.futures[f].log.pushes else 0
  }

  lemma NextPushes(y: Future, a: nat, p: Pc, child: nat)
    requires Ready(y, p)
    ensures Next(y, a, p, child).1.log.pushes == if p.RegPush? then y.log.pushes + 1 else y.log.pushes
  {
  }

  lemma SamePushes(s: State, u: State)
    requires PushesCounted(s)
    requires u.prepare.pushed == s.prepare.pushed && u.execute.pushed == s.execute.pushed
    requires |u.futures| == |s.futures|
    requires forall f :: 0 <= f < |s.futures| ==>
               u.futures[f].kind == s.futures[f].kind && u.futures[f].log.pushes == s.futures[f].log.pushes
    ensures PushesCounted(u)
  {
    forall f, k: Kind | 0 <= f < |s.futures|
      ensures multiset(PoolOf(u, k).pushed)[f] == if u.futures[f].kind == k then u.futures[f].log.pushes else 0
    {
      assert PoolOf(u, k).pushed == PoolOf(s, k).pushed;
    }
  }

  lemma StepOnCountsPushes(s: State, a: nat)
    requires PushesCounted(s) && Enabled(s, a) && !OffFuture(s.acts[a].pc)
    ensures PushesCounted(StepOn(s, a))
  {
    var u := StepOn(s, a);
    var p := s.acts[a].pc;
    NextPushes(s.futures[p.future], a, p, |s.acts|);
    StepOnKinds(s, a);
    if !p.RegPush? {
      SideEffectOff(Moved(s, a), a, p, p.future);
    }
    forall f, k: Kind | 0 <= f < |s.futures|
      ensures multiset(PoolOf(u, k).pushed)[f] == if u.futures[f].kind == k then u.futures[f].log.pushes else 0
    {
      StepOnQueue(s, a, k);
      assert multiset(PoolOf(s, k).pushed + [p.future]) == multiset(PoolOf(s, k).pushed) + multiset{p.future};
    }
  }

  lemma ApplyCountsPushes(s: State, e: Event)
    requires PushesCounted(s) && Allowed(s, e)
    ensures PushesCounted(Apply(s, e))
  {
    if e.Act? && !OffFuture(s.acts[e.act].pc) {
      StepOnCountsPushes(s, e.act);
    } else {
      SamePushes(s, Apply(s, e));
    }
  }

  lemma {:induction false} RunCountsPushes(s: State, events: seq<Event>)
    requires PushesCounted(s) && IsRun(s, events)
    ensures PushesCounted(After(s, events))
    decreases events
  {
    if events != [] {
      ApplyCountsPushes(s, events[0]);
      RunCountsPushes(Apply(s, events[0]), events[1..]);
    }
  }

  /**
   Queue discipline and conservation. Futures leave a queue in the order they entered
   it; a queue never exceeds QUEUE_MAX and holds only futures of its own kind; every
   push is still queued, claimed by exactly one worker, or finished with one worker
   post; and a future with no duplicated registration is pushed at most once in its life.
   */
  lemma QueueDiscipline(s0: State, s: State, f: nat, k: Kind)
    requires Reachable(s0, s) && f < |s.futures|
    ensures var p := PoolOf(s, k); var y := s.futures[f];
      && p.popped <= p.pushed && p.queue == p.pushed[|p.popped|..] && |p.queue| <= 100
      && (f in p.pushed ==> y.kind == k)
      && (y.kind == k ==>
            multiset(p.pushed)[f] == multiset(p.queue)[f] + |y.log.undecided| + |y.log.decided| + y.log.workerPosts)
      && (y.log.undecided !! y.log.decided)
      && (!y.log.duplicated ==> multiset(p.pushed)[f] <= 1)
  {
    var events :| IsRun(s0, events) && After(s0, events) == s;
    ReachableInv(s0, s);
    assert forall g :: 0 <= g < |s0.futures| ==> s0.futures[g] == Created(s0.futures[g].kind);
    RunCountsPushes(s0, events);
    assert FutureInv(s, f);
    assert PoolInv(s, k);
    assert f in PoolOf(s, k).pushed ==> multiset(PoolOf(s, k).pushed)[f] > 0;
  }

  // ---- workers ----

  /** Slot i of pool k holds a worker that is alive. */
  predicate LiveSlot(s: State, k: Kind, i: nat) {
    i < |PoolOf(s, k).slots| && !SlotDead(s, PoolOf(s, k).slots[i])
  }

  /** A push, once its revival pass is over, leaves every slot of the pool live. */
  lemma PushRevivesAllSlots(s0: State, s: State, a: nat)
    requires Reachable(s0, s) && Enabled(s, a) && s.acts[a].pc.RegRevive?
    ensures var k := s.futures[s.acts[a].pc.future].kind;
            forall i :: 0 <= i < THREAD_MAX ==> LiveSlot(StepOn(s, a), k, i)
  {
    ReachableInv(s0, s);
    var k := s.futures[s.acts[a].pc.future].kind;
    assert SlotsInv(s, k);
    RevivalLeavesNoneDead(s, a, k);
    forall i | 0 <= i < THREAD_MAX ensures LiveSlot(StepOn(s, a), k, i) {
      assert i !in DeadSlots(StepOn(s, a), k);
    }
  }

  lemma RevivalLeavesNoneDead(s: State, a: nat, k: Kind)
    requires SlotsHeld(s, k) && Enabled(s, a) && s.acts[a].pc.RegRevive? && s.futures[s.acts[a].pc.future].kind == k
    ensures SlotsHeld(StepOn(s, a), k) && DeadSlots(StepOn(s, a), k) == {}
  {
    assert SlotsHeld(Moved(s, a), k);
    RevivedSlots(Moved(s, a), k);
  }

  /** With a non-empty queue and fewer than THREAD_MAX raising callbacks since the last pass, a worker lives or will be revived. */
  lemma WorkerSupply(s: State, k: Kind)
    requires Inv(s)
    ensures PoolOf(s, k).revivals > 0 ==> |DeadSlots(s, k)| <= PoolOf(s, k).raised
    ensures PoolOf(s, k).queue != [] && PoolOf(s, k).raised < THREAD_MAX ==>
              RevivalDue(s, k) || exists i: nat :: LiveSlot(s, k, i)
  {
    var p := PoolOf(s, k);
    assert SlotsInv(s, k) && PoolInv(s, k);
    if p.queue != [] && p.raised < THREAD_MAX && p.revivals > 0 && forall i: nat :: !LiveSlot(s, k, i) {
      assert !LiveSlot(s, k, 0) && !LiveSlot(s, k, 1) && !LiveSlot(s, k, 2) && !LiveSlot(s, k, 3) && !LiveSlot(s, k, 4);
      SubsetSize({0, 1, 2, 3, 4}, DeadSlots(s, k));
      assert false;
    }
  }

  /** A worker whose callback raised still posts the semaphore before it dies. */
  lemma RaisingWorkerStillPosts(s0: State, s: State, w: nat)
    requires Reachable(s0, s) && w < |s.acts| && s.acts[w].role.Worker? && s.acts[w].pc.WkUnlock? && s.acts[w].pc.raised
    ensures Enabled(s, w)
    ensures var f := s.acts[w].pc.future; var t := StepOn(s, w);
      && t.acts[w].pc == WkPost(f, true) && t.futures[f].holder.None? && Enabled(t, w)
      && var u := StepOn(t, w);
         && u.futures[f].sem == s.futures[f].sem + 1
         && u.acts[w].pc.Ended?
         && PoolOf(u, s.acts[w].role.kind).raised == PoolOf(s, s.acts[w].role.kind).raised + 1
  {
    ReachableInv(s0, s);
    assert ActInv(s, w) && TreeInv(s, w);
    UnlockThenPost(s, w);
  }

  lemma UnlockThenPost(s: State, w: nat)
    requires Enabled(s, w) && s.acts[w].role.Worker? && s.acts[w].pc.WkUnlock? && s.acts[w].pc.raised
    ensures var f := s.acts[w].pc.future; var t := StepOn(s, w);
      && t.acts[w].pc == WkPost(f, true) && t.futures[f].holder.None? && Enabled(t, w)
      && var u := StepOn(t, w);
         && u.futures[f].sem == s.futures[f].sem + 1
         && u.acts[w].pc.Ended?
         && PoolOf(u, s.acts[w].role.kind).raised == PoolOf(s, s.acts[w].role.kind).raised + 1
  {
  }

  // ---- what the caller of a callback sees ----

  /** This step ends callback c: normally, or by an exception. */
  predicate CallbackEnds(s: State, c: nat, choice: bool) {
    && Enabled(s, c) && s.acts[c].role.Callback?
    && ((s.acts[c].pc.Idle? && (choice || s.acts[c].todo == [])) || (s.acts[c].pc.Raising? && !choice))
  }

  predicate ByException(s: State, c: nat, choice: bool)
    requires CallbackEnds(s, c, choice)
  {
    s.acts[c].pc.Raising? || choice
  }

  lemma CallerResumes(s: State, c: nat, choice: bool, a: nat, f: nat)
    requires Inv(s) && CallbackEnds(s, c, choice) && a < |s.acts| && Running(s.acts[a].pc) && s.acts[a].pc.child == c && s.acts[a].pc.future == f
    ensures var t := Step(s, c, choice);
      && a < |t.acts| && f < |t.futures| && t.acts[a] == s.acts[a].(pc := Resumed(s.acts[a].pc, ByException(s, c, choice)))
      && t.futures == s.futures[f := CallEnded(s.futures[f])] && s.futures[f].holder == Some(a)
      && Inv(t) && InRange(t, a)
  {
    assert TreeInv(s, a) && TreeInv(s, c) && ActInv(s, a);
    ApplyKeepsInv(s, Act(c, choice));
    InRangeByInv(Step(s, c, choice), a);
  }

  /**
   on_success and on_failure on a resolved future: when the block they are running ends,
   the mutex is released, and the registration raises if and only if its block did.
   */
  lemma RegistrationRaisesIffItsBlockDid(s0: State, s: State, a: nat, f: nat, c: nat, choice: bool)
    requires Reachable(s0, s) && a < |s.acts| && s.acts[a].pc == RegRun(f, c) && CallbackEnds(s, c, choice)
    ensures var t := Step(s, c, choice);
      && Enabled(t, a)
      && var u := Step(t, a, false);
         && f < |u.futures| && u.futures[f].holder.None?
         && u.acts[a].pc == if ByException(s, c, choice) then Raising else Idle
  {
    ReachableInv(s0, s);
    CallerResumes(s, c, choice, a, f);
    RegistrationUnlocks(Step(s, c, choice), a, f, ByException(s, c, choice));
  }

  lemma RegistrationUnlocks(t: State, a: nat, f: nat, raised: bool)
    requires InRange(t, a) && t.acts[a].pc == RegUnlock(f, raised)
    ensures Enabled(t, a)
    ensures var u := Step(t, a, false); f < |u.futures| && u.futures[f].holder.None? && u.acts[a].pc == if raised then Raising else Idle
  {
  }

  lemma RunFrom(s: State, e: Event, rest: seq<Event>)
    requires Allowed(s, e) && IsRun(Apply(s, e), rest)
    ensures IsRun(s, [e] + rest) && After(s, [e] + rest) == After(Apply(s, e), rest)
  {
    assert ([e] + rest)[1..] == rest;
  }

  /** Worker w is done with future f, and has posted once since the semaphore stood at sem. */
  predicate DoneWith(x: State, w: nat, f: nat, sem: nat) {
    && w < |x.acts| && f < |x.futures| && x.acts[w].pc == WkPop
    && x.futures[f].alreadyWaited && x.futures[f].holder.None? && x.futures[f].sem == sem + 1
  }

  /**
   A pool worker whose callback ended normally marks the future as waited for, releases the
   mutex, posts the semaphore, and goes back to its queue: its next three steps.
   */
  lemma WorkerGoesOn(s0: State, s: State, w: nat, f: nat, c: nat)
    requires Reachable(s0, s) && w < |s.acts| && f < |s.futures| && s.acts[w].pc == WkRun(f, c)
    requires CallbackEnds(s, c, false) && !ByException(s, c, false)
    ensures IsRun(s, [Act(c, false)] + ThreeMore(w)) && DoneWith(After(s, [Act(c, false)] + ThreeMore(w)), w, f, s.futures[f].sem)
  {
    ReachableInv(s0, s);
    CallerResumes(s, c, false, w, f);
    WorkerResumed(s, w);
    WorkerFinishes(Step(s, c, false), w, f);
    RunFrom(s, Act(c, false), ThreeMore(w));
  }

  /** One that finds nothing to call does the same. */
  lemma WorkerPassesOn(s: State, w: nat, f: nat)
    requires Inv(s) && w < |s.acts| && f < |s.futures| && s.acts[w].pc == WkDecide(f)
    requires s.futures[f].yielded || BlockForOutcome(s.futures[f]).None?
    ensures IsRun(s, [Act(w, false)] + ThreeMore(w)) && DoneWith(After(s, [Act(w, false)] + ThreeMore(w)), w, f, s.futures[f].sem)
  {
    WorkerDecides(s, w, f);
    WorkerFinishes(Step(s, w, false), w, f);
    RunFrom(s, Act(w, false), ThreeMore(w));
  }

  lemma WorkerDecides(s: State, w: nat, f: nat)
    requires Inv(s) && w < |s.acts| && f < |s.futures| && s.acts[w].pc == WkDecide(f)
    requires s.futures[f].yielded || BlockForOutcome(s.futures[f]).None?
    ensures Enabled(s, w)
    ensures var t := Step(s, w, false);
      w < |t.acts| && f < |t.futures| && t.acts[w] == s.acts[w].(pc := WkFlag(f)) && t.acts[w].role.Worker? && t.futures[f].sem == s.futures[f].sem
  {
    assert TreeInv(s, w) && ActInv(s, w);
  }

  lemma WorkerResumed(s: State, w: nat)
    requires Inv(s) && w < |s.acts| && s.acts[w].pc.WkRun?
    ensures s.acts[w].role.Worker?
  {
    assert TreeInv(s, w);
  }

  function ThreeMore(w: nat): seq<Event> {
    [Act(w, false)] + ([Act(w, false)] + [Act(w, false)])
  }

  lemma WorkerFinishes(t: State, w: nat, f: nat)
    requires w < |t.acts| && f < |t.futures| && t.acts[w].pc == WkFlag(f) && t.acts[w].role.Worker?
    ensures IsRun(t, ThreeMore(w)) && DoneWith(After(t, ThreeMore(w)), w, f, t.futures[f].sem)
  {
    var u := Step(t, w, false);
    assert Enabled(t, w) && u.acts[w] == t.acts[w].(pc := WkUnlock(f, false)) && u.futures[f] == MarkedWaited(t.futures[f]);
    WorkerUnlocks(u, w, f);
    RunFrom(t, Act(w, false), [Act(w, false)] + [Act(w, false)]);
  }

  lemma WorkerUnlocks(u: State, w: nat, f: nat)
    requires w < |u.acts| && f < |u.futures| && u.acts[w].pc == WkUnlock(f, false) && u.acts[w].role.Worker? && u.futures[f].alreadyWaited
    ensures var run := [Act(w, false)] + [Act(w, false)];
      IsRun(u, run) && DoneWith(After(u, run), w, f, u.futures[f].sem)
  {
    var v := Step(u, w, false);
    assert Enabled(u, w) && v.acts[w] == u.acts[w].(pc := WkPost(f, false)) && v.futures[f] == Unlocked(u.futures[f]);
    WorkerPosts(v, w, f);
    RunFrom(u, Act(w, false), [Act(w, false)]);
  }

  lemma WorkerPosts(v: State, w: nat, f: nat)
    requires w < |v.acts| && f < |v.futures| && v.acts[w].pc == WkPost(f, false) && v.acts[w].role.Worker?
    requires v.futures[f].alreadyWaited && v.futures[f].holder.None?
    ensures IsRun(v, [Act(w, false)]) && DoneWith(After(v, [Act(w, false)]), w, f, v.futures[f].sem)
  {
    var x := Step(v, w, false);
    assert Enabled(v, w) && x.acts[w] == v.acts[w].(pc := WkPop) && x.futures[f] == WorkerPosted(v.futures[f], w);
    assert IsRun(x, []) && After(x, []) == x;
    RunFrom(v, Act(w, false), []);
    assert [Act(w, false)] + [] == [Act(w, false)];
  }

  /** One whose callback raised skips the mark: it comes to stand before its unlock, with the exception on its way. */
  lemma WorkerSkipsTheMark(s0: State, s: State, w: nat, f: nat, c: nat, choice: bool)
    requires Reachable(s0, s) && w < |s.acts| && s.acts[w].pc == WkRun(f, c) && CallbackEnds(s, c, choice) && ByException(s, c, choice)
    ensures var t := Step(s, c, choice);
      w < |t.acts| && t.acts[w].pc == WkUnlock(f, true) && f < |t.futures| && t.futures[f].alreadyWaited == s.futures[f].alreadyWaited
  {
    ReachableInv(s0, s);
    CallerResumes(s, c, choice, w, f);
  }

  /** The block for the outcome. */
  function BlockForOutcome(y: Future): Option<Block> {
    if y.outcome == Pending then None else if y.outcome == Ok then y.onSuccess else y.onFailure
  }

  /** A step that comes to stand on a callback. */
  lemma NextCalls(y: Future, a: nat, p: Pc, child: nat)
    requires Ready(y, p) && Running(Next(y, a, p, child).0)
    ensures var n := Next(y, a, p, child);
      && (n.0 == RegRun(p.future, child) || n.0 == WkRun(p.future, child))
      && BlockForOutcome(y).Some? && BlockForOutcome(n.1) == BlockForOutcome(y) && !y.yielded && n.1 == y.(yielded := true, log := n.1.log)
      && ((p.RegDecide? && n.0.RegRun? && p.side == Due(y.outcome)) || (p.WkDecide? && n.0.WkRun?))
  {
  }

  lemma CallSpawns(s: State, a: nat)
    requires Enabled(s, a) && !OffFuture(s.acts[a].pc) && Running(Moved(s, a).acts[a].pc)
    ensures var u, f := StepOn(s, a), s.acts[a].pc.future;
      && BlockForOutcome(s.futures[f]).Some?
      && u.acts == s.acts[a := u.acts[a]] + [Activation(Callback(a, f), s.acts[a].thread, BlockForOutcome(s.futures[f]).value.body, Idle)]
      && Running(u.acts[a].pc) && u.acts[a].pc.future == f && u.acts[a].pc.child == |s.acts|
      && !s.futures[f].yielded && f < |u.futures| && u.futures == s.futures[f := s.futures[f].(yielded := true, log := u.futures[f].log)]
  {
    var f := s.acts[a].pc.future;
    NextCalls(s.futures[f], a, s.acts[a].pc, |s.acts|);
  }

  /**
   What is run as a callback is the block that stands for the outcome, all of it, on the
   thread of its caller; and the future is marked as yielded, and not as waited for.
   */
  lemma CalledBlockIsTheDueOne(s: State, a: nat, choice: bool)
    requires Inv(s) && Enabled(s, a) && !Running(s.acts[a].pc)
    requires a < |Step(s, a, choice).acts| && Running(Step(s, a, choice).acts[a].pc)
    ensures var u := Step(s, a, choice);
      var f := u.acts[a].pc.future;
      && f < |s.futures| && BlockForOutcome(s.futures[f]).Some? && u.acts[a].pc.child == |s.acts|
      && u.acts == s.acts[a := u.acts[a]] + [Activation(Callback(a, f), s.acts[a].thread, BlockForOutcome(s.futures[f]).value.body, Idle)]
      && !s.futures[f].yielded && f < |u.futures| && u.futures == s.futures[f := s.futures[f].(yielded := true, log := u.futures[f].log)]
  {
    if OffFuture(s.acts[a].pc) {
      OffCallsNothing(s, a, choice);
    } else {
      StepOnActs(s, a);
      CallSpawns(s, a);
    }
  }

  lemma OffCallsNothing(s: State, a: nat, choice: bool)
    requires Inv(s) && Enabled(s, a) && OffFuture(s.acts[a].pc) && a < |Step(s, a, choice).acts|
    ensures !Running(Step(s, a, choice).acts[a].pc)
  {
    assert TreeInv(s, a);
  }

  /**
   A thread's next operation: a registration comes to the unlocked test with its side and
   its block, an await to the mutex, and a future that does not exist raises.
   */
  lemma OperationStarts(s: State, a: nat)
    requires Enabled(s, a) && s.acts[a].pc.Idle? && s.acts[a].todo != []
    ensures var op, u := s.acts[a].todo[0], Step(s, a, false);
      && u.futures == s.futures && u.prepare == s.prepare && u.execute == s.execute
      && a < |u.acts| && u.acts == s.acts[a := u.acts[a]]
      && s.acts[a].todo == [op] + u.acts[a].todo
      && u.acts[a].pc == (if op.future >= |s.futures| then Raising
                          else match op case Register(f, side, block) => RegCheck(f, side, block) case Await(f) => AwLock(f))
  {
  }

  // ---- taking the mutex, and leaving a wait ----

  /** Locking a mutex that the same Ruby thread holds raises; one that another thread holds is waited for. */
  lemma OwnMutexRaises(s: State, a: nat, h: nat)
    requires InRange(s, a) && (s.acts[a].pc.RegLock? || s.acts[a].pc.AwLock?)
    requires h < |s.acts| && s.futures[s.acts[a].pc.future].holder == Some(h)
    ensures s.acts[h].thread == s.acts[a].thread ==> Enabled(s, a) && Step(s, a, false) == Goto(s, a, Raising)
    ensures s.acts[h].thread != s.acts[a].thread ==> !Enabled(s, a)
  {
    if s.acts[h].thread == s.acts[a].thread {
      var f := s.acts[a].pc.future;
      assert s.futures[f := s.futures[f]] == s.futures;
      assert Moved(s, a) == Goto(s, a, Raising);
    }
  }

  /** The unblock function gives a waiting await a permit: it can return. */
  lemma InterruptIsAPermit(s: State, a: nat)
    requires InRange(s, a) && s.acts[a].pc.AwSem?
    ensures Allowed(s, Interrupt(a))
    ensures var t := Apply(s, Interrupt(a)); Enabled(t, a) && a < |Step(t, a, false).acts| && Step(t, a, false).acts[a].pc == Idle
  {
  }

  /** An await after the first one, or after a worker has marked the future, releases the mutex and returns at once. */
  lemma LaterAwaitReturnsAtOnce(s: State, a: nat, f: nat)
    requires InRange(s, a) && s.acts[a].pc == AwTest(f) && s.futures[f].alreadyWaited
    ensures IsRun(s, [Act(a, false)] + [Act(a, false)])
    ensures var u := After(s, [Act(a, false)] + [Act(a, false)]);
      && a < |u.acts| && f < |u.futures|
      && u.acts[a].pc == Idle && u.futures[f] == s.futures[f].(holder := None)
  {
    var t := Step(s, a, false);
    assert Enabled(s, a) && t.acts[a] == s.acts[a].(pc := AwUnlock(f, false)) && t.futures[f] == s.futures[f];
    AwaitUnlocks(t, a, f);
    RunFrom(s, Act(a, false), [Act(a, false)]);
  }

  lemma AwaitUnlocks(t: State, a: nat, f: nat)
    requires InRange(t, a) && t.acts[a].pc == AwUnlock(f, false)
    ensures IsRun(t, [Act(a, false)])
    ensures var u := After(t, [Act(a, false)]);
      a < |u.acts| && f < |u.futures| && u.acts[a].pc == Idle && u.futures[f] == t.futures[f].(holder := None)
  {
    var u := Step(t, a, false);
    assert Enabled(t, a) && u.acts[a] == t.acts[a].(pc := Idle) && u.futures[f] == Unlocked(t.futures[f]);
    assert IsRun(u, []) && After(u, []) == u;
    RunFrom(t, Act(a, false), []);
    assert [Act(a, false)] + [] == [Act(a, false)];
  }
}
