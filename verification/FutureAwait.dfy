/**
 When await is ordered after the callback: what a program has to do, and that it has to.
 */
module FutureAwait {
  import opened FutureState
  import opened FutureMachine
  import opened FutureInvariant
  import opened FutureTally
  import opened FutureRegistrations
  import opened FutureTheorems
  import opened FutureHistory
  import opened FutureWitness

  predicate AwaitPc(p: Pc) {
    p.AwLock? || p.AwTest? || p.AwUnlock? || p.AwResolve? || p.AwCheck? || p.AwSem?
  }

  /** Activation a is in an await of future f. */
  predicate InAwait(s: State, a: nat, f: nat) {
    a < |s.acts| && AwaitPc(s.acts[a].pc) && s.acts[a].pc.future == f
  }

  /** The await of f that activation a is in at s has returned at some point of this run. */
  predicate HasReturned(s: State, events: seq<Event>, a: nat, f: nat)
    requires IsRun(s, events)
    decreases events
  {
    events != [] && (!InAwait(Apply(s, events[0]), a, f) || HasReturned(Apply(s, events[0]), events[1..], a, f))
  }

  /**
   However the system goes on from s, where activation a enters its await: once that has
   returned, by whichever way, the future is resolved, its due callback has been called,
   and the call is over; interrupts apart.
   */
  ghost predicate AwaitOrdered(s: State, a: nat, f: nat) {
    forall events :: IsRun(s, events) && HasReturned(s, events, a, f) ==> OverUnlessInterrupted(After(s, events), f)
  }

  ghost predicate OverUnlessInterrupted(s: State, f: nat) {
    f < |s.futures| && (s.futures[f].log.interrupts == 0 ==> CallbackOver(s, f))
  }

  /** The first one to await future f has taken the mutex. */
  predicate EntersFirst(s: State, a: nat, f: nat) {
    a < |s.acts| && f < |s.futures| && s.acts[a].pc == AwTest(f) && s.futures[f].log.awaiter.None?
  }

  // ---- no registration is going on, or ever will ----

  predicate Registering(s: State, a: nat, f: nat) {
    a < |s.acts| && RegisterPc(s.acts[a].pc) && s.acts[a].pc.future == f
  }

  ghost predicate RegistrationsOver(s: State, f: nat) {
    && ToCome(s, f, OnSuccess) == 0 && ToCome(s, f, OnFailure) == 0
    && forall a: nat :: !Registering(s, a, f)
  }

  /** An activation that has still to write counts as pending. */
  lemma BeforeWriteIsToCome(s: State, a: nat, f: nat)
    requires a < |s.acts| && (s.acts[a].pc.RegCheck? || s.acts[a].pc.RegLock? || s.acts[a].pc.RegWrite?) && s.acts[a].pc.future == f
    ensures ToCome(s, f, OnSuccess) + ToCome(s, f, OnFailure) > 0
  {
    SumAt(s.acts, a, ActsToCome(f, OnSuccess));
    SumAt(s.acts, a, ActsToCome(f, OnFailure));
    assert ActsToCome(f, OnSuccess)(s.acts[a]) + ActsToCome(f, OnFailure)(s.acts[a]) >= 1;
  }

  lemma NextRegistering(y: Future, a: nat, p: Pc, child: nat)
    requires Ready(y, p)
    ensures var q := Next(y, a, p, child).0; RegisterPc(q) ==> RegisterPc(p) && q.future == p.future
  {
  }

  lemma StepOnRegistering(s: State, a: nat, f: nat, b: nat)
    requires Enabled(s, a) && !OffFuture(s.acts[a].pc) && !Registering(s, a, f) && !Registering(s, b, f)
    ensures !Registering(StepOn(s, a), b, f)
  {
    var p := s.acts[a].pc;
    StepOnActs(s, a);
    NextRegistering(s.futures[p.future], a, p, |s.acts|);
  }

  lemma OffRegistering(s: State, a: nat, choice: bool, f: nat, b: nat)
    requires Enabled(s, a) && OffFuture(s.acts[a].pc) && forall c: nat :: !Registering(s, c, f)
    ensures var u := Step(s, a, choice); Registering(u, b, f) ==> u.acts[b].pc.RegCheck?
  {
    assert !Registering(s, b, f);
  }

  lemma ApplyKeepsOver(s: State, e: Event, f: nat)
    requires RegistrationsOver(s, f) && Allowed(s, e)
    ensures RegistrationsOver(Apply(s, e), f)
  {
    var u := Apply(s, e);
    ApplyToCome(s, e, f, OnSuccess);
    ApplyToCome(s, e, f, OnFailure);
    forall b: nat ensures !Registering(u, b, f) {
      assert !Registering(s, b, f);
      if e.Act? {
        assert !Registering(s, e.act, f);
        if OffFuture(s.acts[e.act].pc) {
          OffRegistering(s, e.act, e.choice, f, b);
          if Registering(u, b, f) {
            BeforeWriteIsToCome(u, b, f);
          }
        } else {
          StepOnRegistering(s, e.act, f, b);
        }
      }
    }
  }

  lemma {:induction false} RunKeepsOver(s: State, events: seq<Event>, f: nat)
    requires RegistrationsOver(s, f) && IsRun(s, events)
    ensures RegistrationsOver(After(s, events), f)
    decreases events
  {
    if events != [] {
      ApplyKeepsOver(s, events[0], f);
      RunKeepsOver(Apply(s, events[0]), events[1..], f);
    }
  }

  // ---- one registration, before the await ----

  /** All code of the program together registers on future f at most once. */
  ghost predicate OneRegistration(s: State, f: nat) {
    Registrations(s, f, OnSuccess) + Registrations(s, f, OnFailure) <= 1
  }

  lemma {:induction false} RunKeepsOne(s: State, events: seq<Event>, f: nat)
    requires IsRun(s, events) && f < |s.futures| && OneRegistration(s, f)
    ensures |After(s, events).futures| == |s.futures| && OneRegistration(After(s, events), f)
    decreases events
  {
    if events != [] {
      ApplyRegistrations(s, events[0], f, OnSuccess);
      ApplyRegistrations(s, events[0], f, OnFailure);
      ApplyKeepsFutureCount(s, events[0]);
      RunKeepsOne(Apply(s, events[0]), events[1..], f);
    }
  }

  /** When await is entered with no registration to come, none is going on either: await has the mutex. */
  lemma EntryIsOver(s: State, a: nat, f: nat)
    requires Inv(s) && f < |s.futures| && ToCome(s, f, OnSuccess) + ToCome(s, f, OnFailure) == 0
    requires a < |s.acts| && s.acts[a].pc == AwTest(f)
    ensures RegistrationsOver(s, f)
  {
    assert ActInv(s, a);
    forall b: nat ensures !Registering(s, b, f) {
      if Registering(s, b, f) {
        assert ActInv(s, b);
        if !Inside(s.acts[b].pc) {
          BeforeWriteIsToCome(s, b, f);
        }
      }
    }
  }

  lemma NoHolderRegisters(s: State, f: nat)
    requires f < |s.futures| && RegistrationsOver(s, f)
    requires s.futures[f].holder.Some? ==> On(HolderPc(s, f), f)
    ensures !RegisterPc(HolderPc(s, f))
  {
    if s.futures[f].holder.Some? {
      assert !Registering(s, s.futures[f].holder.value, f);
    }
  }

  // ---- from the entry of an await to its return ----

  /** No registration of f is going on or to come, and there was one at most. */
  ghost predicate Quiet(s: State, f: nat) {
    && Inv(s) && f < |s.futures| && OneRegistration(s, f) && RegistrationsOver(s, f)
    && !s.futures[f].log.duplicated && OneBlock(s.futures[f])
  }

  lemma OneIsOneBlock(s: State, f: nat)
    requires f < |s.futures| && OneRegistration(s, f)
    ensures OneBlock(s.futures[f])
  {
    assert BlockOf(s.futures[f], OnSuccess).Some? ==> Registrations(s, f, OnSuccess) > 0;
    assert BlockOf(s.futures[f], OnFailure).Some? ==> Registrations(s, f, OnFailure) > 0;
  }

  lemma ApplyKeepsQuiet(s: State, e: Event, f: nat)
    requires Quiet(s, f) && Allowed(s, e)
    ensures Quiet(Apply(s, e), f)
  {
    ApplyKeepsInv(s, e);
    ApplyKeepsFutureCount(s, e);
    ApplyRegistrations(s, e, f, OnSuccess);
    ApplyRegistrations(s, e, f, OnFailure);
    ApplySlot(s, e, f, OnSuccess);
    ApplyKeepsOver(s, e, f);
    OneIsOneBlock(Apply(s, e), f);
  }

  /** What a step that registers nothing does to a future that is called out. */
  lemma NextStaysCalledOut(y: Future, a: nat, p: Pc, child: nat)
    requires FutureOk(y) && CalledOut(y) && Ready(y, p) && !RegisterPc(p)
    ensures CalledOut(Next(y, a, p, child).1)
  {
  }

  lemma ReturnStaysCalledOut(s: State, a: nat, raised: bool, f: nat)
    requires Inv(s) && f < |s.futures| && CalledOut(s.futures[f]) && InRange(s, a)
    requires s.acts[a].role.Callback? && (s.acts[a].pc.Idle? || s.acts[a].pc.Raising?)
    ensures f < |Returned(s, a, raised).futures| && Returned(s, a, raised).futures[f] == s.futures[f]
  {
    assert TreeInv(s, a) && ActInv(s, s.acts[a].role.parent) && FutureInv(s, f);
    if s.acts[a].role.future == f {
      CallbackUnderMutex(s, a, f);
    }
  }

  lemma StepOnStaysCalledOut(s: State, a: nat, f: nat)
    requires Quiet(s, f) && CalledOut(s.futures[f]) && Enabled(s, a) && !OffFuture(s.acts[a].pc)
    ensures f < |StepOn(s, a).futures| && CalledOut(StepOn(s, a).futures[f])
  {
    var p := s.acts[a].pc;
    StepOnFutures(s, a);
    if p.future == f {
      assert !Registering(s, a, f) && FutureInv(s, f);
      NextStaysCalledOut(s.futures[f], a, p, |s.acts|);
    }
  }

  /** Ruby code going on, and a worker that pops. */
  lemma OffStaysCalledOut(s: State, a: nat, choice: bool, f: nat)
    requires Quiet(s, f) && CalledOut(s.futures[f]) && Enabled(s, a) && OffFuture(s.acts[a].pc)
    ensures f < |Step(s, a, choice).futures| && CalledOut(Step(s, a, choice).futures[f])
  {
    var x := s.acts[a];
    if x.pc.WkPop? {
      PopStaysCalledOut(s, a, f);
    } else if x.role.Callback? {
      ReturnStaysCalledOut(s, a, x.pc.Raising? || choice, f);
    }
  }

  lemma PopStaysCalledOut(s: State, a: nat, f: nat)
    requires f < |s.futures| && CalledOut(s.futures[f]) && Enabled(s, a) && s.acts[a].pc.WkPop?
    ensures f < |StepPop(s, a).futures| && CalledOut(StepPop(s, a).futures[f])
  {
    ClaimedStaysCalledOut(s.futures[f], a);
  }

  lemma ClaimedStaysCalledOut(y: Future, a: nat)
    ensures CalledOut(Claimed(y, a)) == CalledOut(y) && CalledOut(Interrupted(y)) == CalledOut(y)
  {
  }

  lemma ApplyStaysCalledOut(s: State, e: Event, f: nat)
    requires Quiet(s, f) && CalledOut(s.futures[f]) && Allowed(s, e)
    ensures f < |Apply(s, e).futures| && CalledOut(Apply(s, e).futures[f])
  {
    match e
    case Act(a, choice) =>
      if OffFuture(s.acts[a].pc) {
        OffStaysCalledOut(s, a, choice, f);
      } else {
        StepOnStaysCalledOut(s, a, f);
      }
    case Resolve(_, _) =>
    case Interrupt(_) => ClaimedStaysCalledOut(s.futures[f], 0);
  }

  lemma ApplyInterrupts(s: State, e: Event, f: nat)
    requires Allowed(s, e) && f < |s.futures|
    ensures f < |Apply(s, e).futures| && s.futures[f].log.interrupts <= Apply(s, e).futures[f].log.interrupts
  {
    if e.Act? && !OffFuture(s.acts[e.act].pc) {
      var p := s.acts[e.act].pc;
      StepOnFutures(s, e.act);
      NextIsRecorded(s.futures[p.future], e.act, p, |s.acts|);
    }
  }

  /** The await of a has got so far, or the future is called out, or an interrupt has posted. */
  ghost predicate OnTheWay(s: State, a: nat, f: nat)
    requires f < |s.futures|
  {
    || s.futures[f].log.interrupts > 0
    || CalledOut(s.futures[f])
    || EntersFirst(s, a, f)
    || (a < |s.acts| && s.acts[a].pc in {AwUnlock(f, true), AwResolve(f), AwCheck(f), AwSem(f)})
  }

  /** A worker that marked the future before anybody awaited it has left nothing to call. */
  lemma MarkedIsCalledOut(s: State, a: nat, f: nat)
    requires Quiet(s, f) && EntersFirst(s, a, f) && s.futures[f].alreadyWaited
    ensures CalledOut(s.futures[f])
  {
    var y := s.futures[f];
    assert FutureInv(s, f) && ActInv(s, a);
    assert |y.log.decided| + y.log.workerPosts > 0 && y.log.pushes <= 1;
    assert InHand(y, AwTest(f), Queued(s, f), OnSuccess) && InHand(y, AwTest(f), Queued(s, f), OnFailure);
    assert |y.log.undecided| == 0;
  }

  lemma PermitIsCalledOut(s: State, a: nat, f: nat)
    requires Quiet(s, f) && a < |s.acts| && s.acts[a].pc == AwSem(f) && s.futures[f].sem > 0 && s.futures[f].log.interrupts == 0
    ensures CalledOut(s.futures[f])
  {
    assert FutureInv(s, f) && ActInv(s, a);
    NoHolderRegisters(s, f);
    OnePermit(s.futures[f], HolderId(s, f), HolderPc(s, f), Queued(s, f));
    if s.futures[f].holder.Some? {
      assert ActInv(s, s.futures[f].holder.value);
    }
  }

  lemma UnseenIsCalledOut(s: State, a: nat, f: nat)
    requires Quiet(s, f) && a < |s.acts| && s.acts[a].pc == AwCheck(f) && !HasBlock(s.futures[f])
    ensures CalledOut(s.futures[f])
  {
    assert FutureInv(s, f) && ActInv(s, a);
  }

  /** The step of the await itself. */
  lemma OwnStepIsOnTheWay(s: State, a: nat, f: nat)
    requires Quiet(s, f) && OnTheWay(s, a, f) && Enabled(s, a) && InAwait(s, a, f)
    ensures f < |StepOn(s, a).futures| && OnTheWay(StepOn(s, a), a, f)
  {
    var p := s.acts[a].pc;
    StepOnFutures(s, a);
    StepOnActs(s, a);
    if s.futures[f].log.interrupts > 0 {
      NextIsRecorded(s.futures[f], a, p, |s.acts|);
    } else if CalledOut(s.futures[f]) {
      StepOnStaysCalledOut(s, a, f);
    } else if EntersFirst(s, a, f) && s.futures[f].alreadyWaited {
      MarkedIsCalledOut(s, a, f);
    } else if p.AwSem? {
      PermitIsCalledOut(s, a, f);
      StepOnStaysCalledOut(s, a, f);
    } else if p.AwCheck? && !HasBlock(s.futures[f]) {
      UnseenIsCalledOut(s, a, f);
    }
  }

  /** Nobody else moves an activation that is in an await. */
  lemma OthersLeaveAwait(s: State, b: nat, choice: bool, a: nat)
    requires Inv(s) && Enabled(s, b) && a < |s.acts| && b != a && AwaitPc(s.acts[a].pc)
    ensures a < |Step(s, b, choice).acts| && Step(s, b, choice).acts[a].pc == s.acts[a].pc
  {
    if !OffFuture(s.acts[b].pc) {
      StepOnActs(s, b);
    }
  }

  /** While it has the mutex, nobody else becomes the awaiter. */
  lemma OthersLeaveEntry(s: State, b: nat, choice: bool, a: nat, f: nat)
    requires Inv(s) && EntersFirst(s, a, f) && Enabled(s, b) && b != a
    ensures EntersFirst(Step(s, b, choice), a, f)
  {
    OthersLeaveAwait(s, b, choice, a);
    if OffFuture(s.acts[b].pc) {
      OffLeavesAwaiter(s, b, choice, f);
    } else {
      OnLeavesAwaiter(s, b, a, f);
    }
  }

  lemma OffLeavesAwaiter(s: State, b: nat, choice: bool, f: nat)
    requires f < |s.futures| && Enabled(s, b) && OffFuture(s.acts[b].pc)
    ensures f < |Step(s, b, choice).futures| && Step(s, b, choice).futures[f].log.awaiter == s.futures[f].log.awaiter
  {
  }

  lemma OnLeavesAwaiter(s: State, b: nat, a: nat, f: nat)
    requires Inv(s) && EntersFirst(s, a, f) && Enabled(s, b) && b != a && !OffFuture(s.acts[b].pc)
    ensures f < |StepOn(s, b).futures| && StepOn(s, b).futures[f].log.awaiter.None?
  {
    var p := s.acts[b].pc;
    assert ActInv(s, a) && ActInv(s, b);
    StepOnFutures(s, b);
    NextIsRecorded(s.futures[p.future], b, p, |s.acts|);
  }

  lemma ApplyIsOnTheWay(s: State, e: Event, a: nat, f: nat)
    requires Quiet(s, f) && OnTheWay(s, a, f) && Allowed(s, e)
    ensures f < |Apply(s, e).futures| && OnTheWay(Apply(s, e), a, f)
  {
    ApplyInterrupts(s, e, f);
    if s.futures[f].log.interrupts > 0 {
    } else if CalledOut(s.futures[f]) {
      ApplyStaysCalledOut(s, e, f);
    } else if e.Act? && e.act == a {
      OwnStepIsOnTheWay(s, a, f);
    } else if e.Act? {
      OthersLeaveAwait(s, e.act, e.choice, a);
      if EntersFirst(s, a, f) {
        OthersLeaveEntry(s, e.act, e.choice, a, f);
      }
    }
  }

  /** Off the await, the future is called out. */
  lemma OffTheAwait(s: State, a: nat, f: nat)
    requires Quiet(s, f) && OnTheWay(s, a, f) && !InAwait(s, a, f) && s.futures[f].log.interrupts == 0
    ensures CalledOut(s.futures[f])
  {
  }

  lemma {:induction false} StaysCalledOut(s: State, events: seq<Event>, f: nat)
    requires Quiet(s, f) && (s.futures[f].log.interrupts > 0 || CalledOut(s.futures[f])) && IsRun(s, events)
    ensures OverUnlessInterrupted(After(s, events), f)
    decreases events
  {
    if events == [] {
      if CalledOut(s.futures[f]) {
        CalledOutIsOver(s, f);
      }
    } else {
      ApplyKeepsQuiet(s, events[0], f);
      ApplyInterrupts(s, events[0], f);
      if CalledOut(s.futures[f]) {
        ApplyStaysCalledOut(s, events[0], f);
      }
      StaysCalledOut(Apply(s, events[0]), events[1..], f);
    }
  }

  lemma {:induction false} ReturnIsOrdered(s: State, events: seq<Event>, a: nat, f: nat)
    requires Quiet(s, f) && OnTheWay(s, a, f) && IsRun(s, events) && HasReturned(s, events, a, f)
    ensures OverUnlessInterrupted(After(s, events), f)
    decreases events
  {
    var t := Apply(s, events[0]);
    ApplyKeepsQuiet(s, events[0], f);
    ApplyIsOnTheWay(s, events[0], a, f);
    if InAwait(t, a, f) {
      ReturnIsOrdered(t, events[1..], a, f);
    } else {
      if t.futures[f].log.interrupts == 0 {
        OffTheAwait(t, a, f);
      }
      StaysCalledOut(t, events[1..], f);
    }
  }

  lemma OrderedWhenNothingToCome(s0: State, s1: State, a: nat, f: nat)
    requires Reachable(s0, s1) && OneRegistration(s0, f) && EntersFirst(s1, a, f)
    requires ToCome(s1, f, OnSuccess) + ToCome(s1, f, OnFailure) == 0
    ensures AwaitOrdered(s1, a, f)
  {
    var before :| IsRun(s0, before) && After(s0, before) == s1;
    ReachableInv(s0, s1);
    RunKeepsFutureCount(s0, before);
    RunKeepsOne(s0, before, f);
    NoDuplicates(s0, s1, f);
    OneIsOneBlock(s1, f);
    EntryIsOver(s1, a, f);
    forall events | IsRun(s1, events) && HasReturned(s1, events, a, f) ensures OverUnlessInterrupted(After(s1, events), f) {
      ReturnIsOrdered(s1, events, a, f);
    }
  }

  /**
   Any program, on any number of threads, that registers one block at most on future f: the
   first await of f, entered when the block is registered, is in every continuation ordered
   after the callback, whichever way it returns.
   */
  lemma AwaitAfterOneRegistration(s0: State, s1: State, a: nat, f: nat)
    requires Reachable(s0, s1) && OneRegistration(s0, f) && EntersFirst(s1, a, f) && HasBlock(s1.futures[f])
    ensures AwaitOrdered(s1, a, f)
  {
    var before :| IsRun(s0, before) && After(s0, before) == s1;
    RunKeepsFutureCount(s0, before);
    RunKeepsOne(s0, before, f);
    OrderedWhenNothingToCome(s0, s1, a, f);
  }

  // ---- the registrations to come are those of the awaiting thread ----

  /** There is one future, one registration of it at most, and only activation 0 still makes it, before its await. */
  ghost predicate Mine(s: State) {
    && |s.futures| == 1 && |s.acts| > 0 && s.acts[0].role.Main? && OneRegistration(s, 0)
    && (forall sd: Side :: ToCome(s, 0, sd) <= ActRegs(s.acts[0], 0, sd))
    && (AwaitPc(s.acts[0].pc) ==> s.acts[0].todo == [])
    && (forall i :: 0 <= i < |s.acts[0].todo| - 1 ==> s.acts[0].todo[i].Register?)
  }

  /** What an activation that is not the first does to the first: at most it ends a callback of it. */
  ghost predicate FirstStays(s: State, u: State) {
    && |s.acts| > 0 && |u.acts| > 0
    && u.acts[0].role == s.acts[0].role && u.acts[0].todo == s.acts[0].todo
    && (u.acts[0].pc == s.acts[0].pc || (Running(s.acts[0].pc) && (u.acts[0].pc.RegUnlock? || u.acts[0].pc.WkFlag? || u.acts[0].pc.WkUnlock?)))
  }

  lemma OthersLeaveFirst(s: State, a: nat, choice: bool)
    requires Enabled(s, a) && a > 0
    ensures FirstStays(s, Step(s, a, choice))
  {
    if !OffFuture(s.acts[a].pc) {
      StepOnActs(s, a);
    }
  }

  /** A step of the first one on a future: only a written block can add to what the others have to come. */
  lemma NextStored(y: Future, a: nat, p: Pc, child: nat, f: nat, sd: Side)
    requires Ready(y, p)
    ensures var n := Next(y, a, p, child);
      StoredRegs(n.1, f, sd) + (if Starts(p, n.0, n.1) then OpsRegs(Started(p, n.0, n.1), f, sd) else 0)
      <= StoredRegs(y, f, sd) + if p.RegWrite? then BlockRegs(p.block, f, sd) else 0
  {
  }

  lemma FirstOnToCome(s: State, f: nat, sd: Side)
    requires Enabled(s, 0) && !OffFuture(s.acts[0].pc)
    ensures ToCome(StepOn(s, 0), f, sd)
            <= ToCome(s, f, sd) - ActRegs(s.acts[0], f, sd) + ActRegs(StepOn(s, 0).acts[0], f, sd)
               + if s.acts[0].pc.RegWrite? then BlockRegs(s.acts[0].pc.block, f, sd) else 0
  {
    var p := s.acts[0].pc;
    var n := Next(s.futures[p.future], 0, p, |s.acts|);
    NextStored(s.futures[p.future], 0, p, |s.acts|, f, sd);
    StepOnTotal(s, 0, f, sd);
    StepOnActs(s, 0);
  }

  /** In a program with one registration, the registered block registers nothing. */
  lemma WrittenIsFree(s: State, sd: Side)
    requires Mine(s) && s.acts[0].pc.RegWrite? && s.acts[0].pc.future == 0
    ensures BlockRegs(s.acts[0].pc.block, 0, sd) == 0
  {
    SumAt(s.acts, 0, ActsToCome(0, OnSuccess));
    SumAt(s.acts, 0, ActsToCome(0, OnFailure));
    assert ActsToCome(0, OnSuccess)(s.acts[0]) + ActsToCome(0, OnFailure)(s.acts[0])
           >= 1 + BlockRegs(s.acts[0].pc.block, 0, OnSuccess) + BlockRegs(s.acts[0].pc.block, 0, OnFailure);
  }

  lemma NextAwaitPc(y: Future, a: nat, p: Pc, child: nat)
    requires Ready(y, p)
    ensures AwaitPc(Next(y, a, p, child).0) ==> AwaitPc(p)
  {
  }

  lemma FirstOnKeepsMine(s: State)
    requires Mine(s) && Enabled(s, 0) && !OffFuture(s.acts[0].pc)
    ensures var u := StepOn(s, 0);
      && (forall sd: Side :: ToCome(u, 0, sd) <= ActRegs(u.acts[0], 0, sd))
      && |u.acts| > 0 && u.acts[0].role.Main? && u.acts[0].todo == s.acts[0].todo
      && (AwaitPc(u.acts[0].pc) ==> AwaitPc(s.acts[0].pc))
  {
    StepOnActs(s, 0);
    NextAwaitPc(s.futures[s.acts[0].pc.future], 0, s.acts[0].pc, |s.acts|);
    forall sd: Side ensures ToCome(StepOn(s, 0), 0, sd) <= ActRegs(StepOn(s, 0).acts[0], 0, sd) {
      FirstOnToCome(s, 0, sd);
      if s.acts[0].pc.RegWrite? {
        WrittenIsFree(s, sd);
      }
    }
  }

  lemma FirstOffKeepsMine(s: State, choice: bool)
    requires Mine(s) && Enabled(s, 0) && OffFuture(s.acts[0].pc)
    ensures var u := Step(s, 0, choice);
      && (forall sd: Side :: ToCome(u, 0, sd) <= ActRegs(u.acts[0], 0, sd))
      && |u.acts| > 0 && u.acts[0].role.Main?
      && (AwaitPc(u.acts[0].pc) ==> u.acts[0].todo == [])
      && (forall i :: 0 <= i < |u.acts[0].todo| - 1 ==> u.acts[0].todo[i].Register?)
  {
    var u := Step(s, 0, choice);
    assert u.acts == s.acts[0 := u.acts[0]] && u.futures == s.futures;
    forall sd: Side ensures ToCome(u, 0, sd) <= ActRegs(u.acts[0], 0, sd) {
      SumUpdated(s.acts, 0, u.acts[0], ActsToCome(0, sd));
    }
  }

  lemma ApplyKeepsMine(s: State, e: Event)
    requires Mine(s) && Allowed(s, e)
    ensures Mine(Apply(s, e))
  {
    var u := Apply(s, e);
    ApplyKeepsFutureCount(s, e);
    ApplyRegistrations(s, e, 0, OnSuccess);
    ApplyRegistrations(s, e, 0, OnFailure);
    if e.Act? && e.act == 0 {
      if OffFuture(s.acts[0].pc) {
        FirstOffKeepsMine(s, e.choice);
      } else {
        FirstOnKeepsMine(s);
      }
    } else {
      forall sd: Side ensures ToCome(u, 0, sd) <= ToCome(s, 0, sd) {
        ApplyToCome(s, e, 0, sd);
      }
      if e.Act? {
        OthersLeaveFirst(s, e.act, e.choice);
      }
    }
  }

  lemma {:induction false} RunKeepsMine(s: State, events: seq<Event>)
    requires Mine(s) && IsRun(s, events)
    ensures Mine(After(s, events))
    decreases events
  {
    if events != [] {
      ApplyKeepsMine(s, events[0]);
      RunKeepsMine(Apply(s, events[0]), events[1..]);
    }
  }

  // ---- the exact condition ----

  /** One thread registers some blocks on a future and then awaits it; any others register blocks on it too. */
  function Script(kind: Kind, own: seq<Op>, others: seq<seq<Op>>): State {
    Many([Created(kind)],
         [Activation(Main, 0, own + [Await(0)], Idle)]
         + seq(|others|, (i: nat) requires i < |others| => Activation(Main, 1 + i, others[i], Idle)))
  }

  /** All that the threads register. */
  function Joined(own: seq<Op>, others: seq<seq<Op>>): seq<Op>
    decreases others
  {
    if others == [] then own else Joined(own + others[0], others[1..])
  }

  /** Registrations on future 0 of blocks that register nothing on it themselves. */
  ghost predicate Registers(ops: seq<Op>) {
    forall i :: 0 <= i < |ops| ==>
      && ops[i].Register? && ops[i].future == 0
      && BlockRegs(ops[i].block, 0, OnSuccess) == 0 && BlockRegs(ops[i].block, 0, OnFailure) == 0
  }

  /** One for each of the two sides at most. */
  predicate SidesDiffer(ops: seq<Op>)
    requires forall i :: 0 <= i < |ops| ==> ops[i].Register?
  {
    |ops| <= 2 && (|ops| == 2 ==> ops[0].side != ops[1].side)
  }

  /** Whenever the first thread enters its await, before any other, it is ordered after the callback, however the run goes on. */
  ghost predicate AwaitAlwaysOrdered(s0: State) {
    forall s1 :: Reachable(s0, s1) && EntersFirst(s1, 0, 0) ==> AwaitOrdered(s1, 0, 0)
  }

  lemma ScriptIsMine(kind: Kind, own: seq<Op>)
    requires Registers(own) && |own| <= 1
    ensures Mine(Script(kind, own, [])) && Initial(Script(kind, own, []))
  {
    var s := Script(kind, own, []);
    var ops := own + [Await(0)];
    assert s.acts == [Activation(Main, 0, ops, Idle)];
    forall sd: Side ensures ToCome(s, 0, sd) == OpsRegs(ops, 0, sd) {
      SumOfOne(s.acts[0], ActsToCome(0, sd));
      SumOfOne(s.futures[0], StoredToCome(0, sd));
      assert s.acts == [s.acts[0]] && s.futures == [s.futures[0]];
    }
    assert [Await(0)][1..] == [];
    if own == [] {
      assert ops == [Await(0)];
    } else {
      assert ops == [own[0], Await(0)] && ops[1..] == [Await(0)];
      assert forall sd: Side :: OpsRegs(ops, 0, sd) == OpRegs(own[0], 0, sd) + OpsRegs([Await(0)], 0, sd);
    }
  }

  lemma OneOwnRegistrationIsOrdered(kind: Kind, own: seq<Op>)
    requires Registers(own) && |own| <= 1
    ensures AwaitAlwaysOrdered(Script(kind, own, []))
  {
    var s0 := Script(kind, own, []);
    ScriptIsMine(kind, own);
    forall s1 | Reachable(s0, s1) && EntersFirst(s1, 0, 0) ensures AwaitOrdered(s1, 0, 0) {
      var before :| IsRun(s0, before) && After(s0, before) == s1;
      RunKeepsMine(s0, before);
      assert ToCome(s1, 0, OnSuccess) == 0 && ToCome(s1, 0, OnFailure) == 0;
      OrderedWhenNothingToCome(s0, s1, 0, 0);
    }
  }

  lemma {:induction false} EndsOff(s: State, events: seq<Event>, a: nat, f: nat)
    requires IsRun(s, events) && events != [] && !InAwait(After(s, events), a, f)
    ensures HasReturned(s, events, a, f)
    decreases events
  {
    if events[1..] == [] {
      assert After(s, events) == After(Apply(s, events[0]), []);
    } else {
      EndsOff(Apply(s, events[0]), events[1..], a, f);
    }
  }

  lemma DisorderRefutes(s0: State, s1: State, s: State)
    requires Reachable(s0, s1) && EntersFirst(s1, 0, 0) && Path(s1, s) && !InAwait(s, 0, 0) && !OverUnlessInterrupted(s, 0)
    ensures !AwaitAlwaysOrdered(s0)
  {
    var events :| IsRun(s1, events) && After(s1, events) == s;
    assert events == [] ==> s == s1;
    EndsOff(s1, events, 0, 0);
    assert !AwaitOrdered(s1, 0, 0);
  }

  lemma {:induction false} JoinedStarts(own: seq<Op>, others: seq<seq<Op>>)
    ensures own <= Joined(own, others)
    decreases others
  {
    if others != [] {
      JoinedStarts(own + others[0], others[1..]);
    }
  }

  /** The first of the other threads, at its first registration. */
  function LateCase(kind: Kind, own: seq<Op>, others: seq<seq<Op>>): Late
    requires others != [] && others[0] != [] && others[0][0].Register?
  {
    var first := others[0]; Late(kind, own, first[0].side, first[0].block, first[1..], others[1..])
  }

  lemma FirstOfOthers(own: seq<Op>, others: seq<seq<Op>>)
    requires others != [] && others[0] != []
    ensures var all := Joined(own, others);
      |own| < |all| && all[|own|] == others[0][0] && forall i :: 0 <= i < |own| ==> all[i] == own[i]
  {
    JoinedStarts(own + others[0], others[1..]);
  }

  lemma ScriptIsLate(kind: Kind, own: seq<Op>, others: seq<seq<Op>>)
    requires others != [] && others[0] != [] && others[0][0].Register? && others[0][0].future == 0
    ensures Script(kind, own, others) == LateStart(LateCase(kind, own, others))
  {
    var c := LateCase(kind, own, others);
    assert others[0] == [Register(0, c.side, c.block)] + c.rest;
    assert Script(kind, own, others).acts == LateStart(c).acts;
  }

  lemma LateRefutes(kind: Kind, own: seq<Op>, others: seq<seq<Op>>)
    requires Registers(Joined(own, others)) && SidesDiffer(Joined(own, others)) && others != [] && others[0] != []
    ensures !AwaitAlwaysOrdered(Script(kind, own, others))
  {
    FirstOfOthers(own, others);
    ScriptIsLate(kind, own, others);
    LateCaseRefutes(LateCase(kind, own, others));
  }

  lemma LateCaseRefutes(c: Late)
    requires OtherSideOnly(c)
    ensures !AwaitAlwaysOrdered(LateStart(c))
  {
    AwaitCanReturnDuringTheCallback(c);
    DisorderRefutes(LateStart(c), LateEntry(c), LateReturn(c));
  }

  lemma TwoBlocksRefute(kind: Kind, own: seq<Op>)
    requires Registers(own) && SidesDiffer(own) && |own| > 1
    ensures !AwaitAlwaysOrdered(Script(kind, own, []))
  {
    var side, first, second := own[0].side, own[0].block, own[1].block;
    assert own[1].side == Other(side);
    assert own + [Await(0)] == [Register(0, side, first), Register(0, Other(side), second), Await(0)];
    assert Script(kind, own, []) == TwoBlocks(kind, side, first, second);
    AwaitCanReturnBeforeTheCallback(kind, side, first, second);
    DisorderRefutes(Script(kind, own, []), TwoBlocksEntry(kind, side, first, second), TwoBlocksReturn(kind, side, first, second));
  }

  /**
   The exact condition, in terms of the program text: await is always ordered after the
   callback if and only if the awaiting thread registers one block at most, before the
   await, and no other thread registers any.
   */
  lemma AwaitOrderedIffOneBlockBefore(kind: Kind, own: seq<Op>, others: seq<seq<Op>>)
    requires Registers(Joined(own, others)) && SidesDiffer(Joined(own, others))
    requires forall i :: 0 <= i < |others| ==> others[i] != []
    ensures AwaitAlwaysOrdered(Script(kind, own, others)) <==> others == [] && |own| <= 1
  {
    if others != [] {
      LateRefutes(kind, own, others);
    } else if |own| <= 1 {
      OneOwnRegistrationIsOrdered(kind, own);
    } else {
      TwoBlocksRefute(kind, own);
    }
  }
}
