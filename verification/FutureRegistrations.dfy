/**
 When a second registration is refused and when it is not. The "called twice" test is
 made without the mutex; here is the exact condition under which it holds, for a state
 and for a program.
 */
module FutureRegistrations {
  import opened Prelude
  import opened FutureState
  import opened FutureMachine
  import opened FutureInvariant
  import opened FutureTally

  // ---- registrations that are still to be written ----

  function Hit(g: nat, side: Side, f: nat, sd: Side): nat {
    if g == f && side == sd then 1 else 0
  }

  /** Registrations of side sd on future f in a block, at any depth. */
  function BlockRegs(block: Block, f: nat, sd: Side): nat
    decreases block
  {
    OpsRegs(block.body, f, sd)
  }

  function OpsRegs(ops: seq<Op>, f: nat, sd: Side): nat
    decreases ops
  {
    if ops == [] then 0 else OpRegs(ops[0], f, sd) + OpsRegs(ops[1..], f, sd)
  }

  function OpRegs(op: Op, f: nat, sd: Side): nat
    decreases op
  {
    if op.Register? then Hit(op.future, op.side, f, sd) + BlockRegs(op.block, f, sd) else 0
  }

  function PcRegs(p: Pc, f: nat, sd: Side): nat {
    if p.RegCheck? || p.RegLock? || p.RegWrite? then Hit(p.future, p.side, f, sd) + BlockRegs(p.block, f, sd) else 0
  }

  function ActRegs(x: Activation, f: nat, sd: Side): nat {
    if x.pc.Ended? then 0 else PcRegs(x.pc, f, sd) + OpsRegs(x.todo, f, sd)
  }

  function StoredIn(b: Option<Block>, f: nat, sd: Side): nat {
    if b.Some? then BlockRegs(b.value, f, sd) else 0
  }

  /** A stored block runs once at most, if no callback of its future has run. */
  function StoredRegs(y: Future, f: nat, sd: Side): nat {
    if y.yielded then 0 else StoredIn(y.onSuccess, f, sd) + StoredIn(y.onFailure, f, sd)
  }

  function ActsToCome(f: nat, sd: Side): Activation -> nat {
    x => ActRegs(x, f, sd)
  }

  function StoredToCome(f: nat, sd: Side): Future -> nat {
    y => StoredRegs(y, f, sd)
  }

  /** Registrations of side sd on future f that the program may still make, counted over all its code. */
  function ToCome(s: State, f: nat, sd: Side): nat {
    Total(s, ActsToCome(f, sd), StoredToCome(f, sd))
  }

  /** These, and the one that has been made. */
  function Registrations(s: State, f: nat, sd: Side): nat {
    ToCome(s, f, sd) + if f < |s.futures| && BlockOf(s.futures[f], sd).Some? then 1 else 0
  }

  /** The step of a writes block field sd of future f. */
  predicate Writes(s: State, e: Event, f: nat, sd: Side) {
    e.Act? && e.act < |s.acts| && s.acts[e.act].pc.RegWrite? && s.acts[e.act].pc.future == f && s.acts[e.act].pc.side == sd
  }

  function WriteCount(p: Pc, f: nat, sd: Side): nat {
    if p.RegWrite? then Hit(p.future, p.side, f, sd) else 0
  }

  lemma RegisterRegs(y: Future, a: nat, p: Pc, child: nat, f: nat, sd: Side)
    requires Ready(y, p) && RegisterPc(p)
    ensures var n := RegisterStep(y, a, p, child);
      PcRegs(n.0, f, sd) + StoredRegs(n.1, f, sd) + (if Starts(p, n.0, n.1) then OpsRegs(Started(p, n.0, n.1), f, sd) else 0)
      + WriteCount(p, f, sd) <= PcRegs(p, f, sd) + StoredRegs(y, f, sd)
  {
  }

  lemma NextRegs(y: Future, a: nat, p: Pc, child: nat, f: nat, sd: Side)
    requires Ready(y, p)
    ensures var n := Next(y, a, p, child);
      PcRegs(n.0, f, sd) + StoredRegs(n.1, f, sd) + (if Starts(p, n.0, n.1) then OpsRegs(Started(p, n.0, n.1), f, sd) else 0)
      + WriteCount(p, f, sd) <= PcRegs(p, f, sd) + StoredRegs(y, f, sd)
  {
    if RegisterPc(p) {
      RegisterRegs(y, a, p, child, f, sd);
    }
  }

  lemma MoveToCome(s: State, a: nat, p: Pc, g: nat, y: Future, f: nat, sd: Side)
    requires a < |s.acts| && g < |s.futures|
    ensures ToCome(Move(s, a, p, g, y), f, sd)
            == ToCome(s, f, sd) - ActRegs(s.acts[a], f, sd) + ActRegs(s.acts[a].(pc := p), f, sd)
               - StoredRegs(s.futures[g], f, sd) + StoredRegs(y, f, sd)
  {
    TotalMove(s, a, p, g, y, ActsToCome(f, sd), StoredToCome(f, sd));
  }

  lemma StepOnToCome(s: State, a: nat, f: nat, sd: Side)
    requires Enabled(s, a) && !OffFuture(s.acts[a].pc)
    ensures ToCome(StepOn(s, a), f, sd) + WriteCount(s.acts[a].pc, f, sd) <= ToCome(s, f, sd)
  {
    var p := s.acts[a].pc;
    var n := Next(s.futures[p.future], a, p, |s.acts|);
    NextRegs(s.futures[p.future], a, p, |s.acts|, f, sd);
    StepOnTotal(s, a, f, sd);
  }

  lemma MovedToCome(s: State, a: nat, f: nat, sd: Side)
    requires Enabled(s, a) && !OffFuture(s.acts[a].pc)
    ensures var p := s.acts[a].pc;
      var n := Next(s.futures[p.future], a, p, |s.acts|);
      ToCome(Moved(s, a), f, sd)
      == ToCome(s, f, sd) - ActRegs(s.acts[a], f, sd) + ActRegs(s.acts[a].(pc := n.0), f, sd)
         - StoredRegs(s.futures[p.future], f, sd) + StoredRegs(n.1, f, sd)
  {
    var p := s.acts[a].pc;
    var n := Next(s.futures[p.future], a, p, |s.acts|);
    MoveToCome(s, a, n.0, p.future, n.1, f, sd);
  }

  lemma SideEffectToCome(t: State, a: nat, p: Pc, g: nat, f: nat, sd: Side)
    requires a < |t.acts| && g < |t.futures|
    ensures ToCome(SideEffect(t, a, p, g), f, sd)
            == ToCome(t, f, sd) + if Starts(p, t.acts[a].pc, t.futures[g]) then OpsRegs(Started(p, t.acts[a].pc, t.futures[g]), f, sd) else 0
  {
    TotalSideEffect(t, a, p, g, ActsToCome(f, sd), StoredToCome(f, sd));
  }

  /** Exactly what a step on a future changes: the activation, the future, and the callback it starts. */
  lemma StepOnTotal(s: State, a: nat, f: nat, sd: Side)
    requires Enabled(s, a) && !OffFuture(s.acts[a].pc)
    ensures var p := s.acts[a].pc;
      var n := Next(s.futures[p.future], a, p, |s.acts|);
      ToCome(StepOn(s, a), f, sd)
      == ToCome(s, f, sd) - ActRegs(s.acts[a], f, sd) + ActRegs(s.acts[a].(pc := n.0), f, sd)
         - StoredRegs(s.futures[p.future], f, sd) + StoredRegs(n.1, f, sd)
         + if Starts(p, n.0, n.1) then OpsRegs(Started(p, n.0, n.1), f, sd) else 0
  {
    MovedToCome(s, a, f, sd);
    SideEffectToCome(Moved(s, a), a, s.acts[a].pc, s.acts[a].pc.future, f, sd);
  }

  lemma ReturnToCome(s: State, a: nat, raised: bool, f: nat, sd: Side)
    requires InRange(s, a) && s.acts[a].role.Callback? && !s.acts[a].pc.Ended?
    ensures ToCome(Returned(s, a, raised), f, sd) <= ToCome(s, f, sd)
  {
    var q := s.acts[a].role.parent;
    var g := s.acts[q].pc.future;
    MoveToCome(s, q, Resumed(s.acts[q].pc, raised), g, CallEnded(s.futures[g]), f, sd);
    TotalGoto(ParentResumed(s, q, raised), a, Ended, ActsToCome(f, sd), StoredToCome(f, sd));
  }

  lemma StepToCome(s: State, a: nat, choice: bool, f: nat, sd: Side)
    requires Enabled(s, a)
    ensures ToCome(Step(s, a, choice), f, sd) + WriteCount(s.acts[a].pc, f, sd) <= ToCome(s, f, sd)
  {
    var x := s.acts[a];
    if !OffFuture(x.pc) {
      StepOnToCome(s, a, f, sd);
    } else if x.pc.WkPop? {
      var g := PoolOf(s, x.role.kind).queue[0];
      MoveToCome(s, a, WkWait(g), g, Claimed(s.futures[g], a), f, sd);
    } else if x.pc.Idle? && !choice && x.todo != [] {
      SumUpdated(s.acts, a, Step(s, a, choice).acts[a], ActsToCome(f, sd));
      assert OpsRegs(x.todo, f, sd) == OpRegs(x.todo[0], f, sd) + OpsRegs(x.todo[1..], f, sd);
    } else if x.pc.Raising? && choice {
      TotalGoto(s, a, Idle, ActsToCome(f, sd), StoredToCome(f, sd));
    } else if x.role.Callback? {
      ReturnToCome(s, a, x.pc.Raising? || choice, f, sd);
    } else {
      TotalGoto(s, a, Ended, ActsToCome(f, sd), StoredToCome(f, sd));
    }
  }

  /** A step never adds a registration, and one that is written is not pending any more. */
  lemma ApplyToCome(s: State, e: Event, f: nat, sd: Side)
    requires Allowed(s, e)
    ensures ToCome(Apply(s, e), f, sd) + (if Writes(s, e, f, sd) then 1 else 0) <= ToCome(s, f, sd)
  {
    match e {
      case Act(a, choice) => StepToCome(s, a, choice, f, sd);
      case Resolve(g, o) => SumUpdated(s.futures, g, Resolved(s.futures[g], o), StoredToCome(f, sd));
      case Interrupt(a) =>
        var g := s.acts[a].pc.future;
        SumUpdated(s.futures, g, Interrupted(s.futures[g]), StoredToCome(f, sd));
    }
  }

  // ---- the block fields ----

  lemma StepOnFutures(s: State, a: nat)
    requires Enabled(s, a) && !OffFuture(s.acts[a].pc)
    ensures StepOn(s, a).futures == Moved(s, a).futures
  {
    if !s.acts[a].pc.RegPush? {
      SideEffectOff(Moved(s, a), a, s.acts[a].pc, s.acts[a].pc.future);
    }
  }

  lemma NextSlots(y: Future, a: nat, p: Pc, child: nat)
    requires Ready(y, p)
    ensures var z := Next(y, a, p, child).1;
      && (p.RegWrite? ==> BlockOf(z, p.side) == Some(p.block) && BlockOf(z, Other(p.side)) == BlockOf(y, Other(p.side)))
      && (!p.RegWrite? ==> z.onSuccess == y.onSuccess && z.onFailure == y.onFailure)
      && z.log.duplicated == (y.log.duplicated || (p.RegWrite? && BlockOf(y, p.side).Some?))
  {
  }

  /** What a step makes of block field sd of future f, and when it makes the future count as duplicated. */
  ghost predicate SlotStep(s: State, e: Event, u: State, f: nat, sd: Side)
    requires f < |s.futures|
  {
    && |u.futures| == |s.futures|
    && (!Writes(s, e, f, sd) ==> BlockOf(u.futures[f], sd) == BlockOf(s.futures[f], sd))
    && (Writes(s, e, f, sd) ==> BlockOf(u.futures[f], sd).Some?)
    && (s.futures[f].log.duplicated ==> u.futures[f].log.duplicated)
    && (Writes(s, e, f, sd) && BlockOf(s.futures[f], sd).Some? ==> u.futures[f].log.duplicated)
    && (u.futures[f].log.duplicated && !s.futures[f].log.duplicated ==>
          exists side :: Writes(s, e, f, side) && BlockOf(s.futures[f], side).Some?)
  }

  lemma ApplySlot(s: State, e: Event, f: nat, sd: Side)
    requires Allowed(s, e) && f < |s.futures|
    ensures SlotStep(s, e, Apply(s, e), f, sd)
  {
    if e.Act? && !OffFuture(s.acts[e.act].pc) {
      StepOnSlot(s, e, f, sd);
    }
  }

  lemma StepOnSlot(s: State, e: Event, f: nat, sd: Side)
    requires e.Act? && Enabled(s, e.act) && !OffFuture(s.acts[e.act].pc) && f < |s.futures|
    ensures SlotStep(s, e, StepOn(s, e.act), f, sd)
  {
    var p := s.acts[e.act].pc;
    StepOnFutures(s, e.act);
    NextSlots(s.futures[p.future], e.act, p, |s.acts|);
    assert p.RegWrite? && p.future == f ==> Writes(s, e, f, p.side);
  }

  // ---- a program that registers once ----

  /** All code of the program together registers on side sd of future f at most once. */
  ghost predicate RegistersOnce(s: State, f: nat) {
    Registrations(s, f, OnSuccess) <= 1 && Registrations(s, f, OnFailure) <= 1
  }

  lemma ApplyRegistrations(s: State, e: Event, f: nat, sd: Side)
    requires Allowed(s, e) && f < |s.futures|
    ensures Registrations(Apply(s, e), f, sd) <= Registrations(s, f, sd)
    ensures Writes(s, e, f, sd) && BlockOf(s.futures[f], sd).Some? ==> Registrations(s, f, sd) >= 2
  {
    ApplyToCome(s, e, f, sd);
    ApplySlot(s, e, f, sd);
  }

  lemma {:induction false} RunRegistersOnce(s: State, events: seq<Event>, f: nat)
    requires IsRun(s, events) && f < |s.futures| && RegistersOnce(s, f) && !s.futures[f].log.duplicated
    ensures var u := After(s, events); |u.futures| == |s.futures| && RegistersOnce(u, f) && !u.futures[f].log.duplicated
    decreases events
  {
    if events != [] {
      var e := events[0];
      ApplyRegistrations(s, e, f, OnSuccess);
      ApplyRegistrations(s, e, f, OnFailure);
      ApplySlot(s, e, f, OnSuccess);
      RunRegistersOnce(Apply(s, e), events[1..], f);
    }
  }

  /** A program with one registration at most for each block field never has one overwritten, in any interleaving. */
  lemma NoDuplicates(s0: State, s: State, f: nat)
    requires Reachable(s0, s) && f < |s.futures| && RegistersOnce(s0, f)
    ensures !s.futures[f].log.duplicated && RegistersOnce(s, f)
  {
    var events :| IsRun(s0, events) && After(s0, events) == s;
    RunKeepsFutureCount(s0, events);
    RunRegistersOnce(s0, events, f);
  }

  lemma {:induction false} RunKeepsFutureCount(s: State, events: seq<Event>)
    requires IsRun(s, events)
    ensures |After(s, events).futures| == |s.futures|
    decreases events
  {
    if events != [] {
      ApplyKeepsFutureCount(s, events[0]);
      RunKeepsFutureCount(Apply(s, events[0]), events[1..]);
    }
  }

  lemma ApplyKeepsFutureCount(s: State, e: Event)
    requires Allowed(s, e)
    ensures |Apply(s, e).futures| == |s.futures|
  {
    if e.Act? && !OffFuture(s.acts[e.act].pc) {
      StepOnFutures(s, e.act);
    }
  }

  // ---- when a later registration is sure to raise ----

  /** Activation a has passed the unlocked test for block field sd of future f, and has not written yet. */
  predicate PastTest(s: State, a: nat, f: nat, sd: Side) {
    a < |s.acts| && (s.acts[a].pc.RegLock? || s.acts[a].pc.RegWrite?) && s.acts[a].pc.future == f && s.acts[a].pc.side == sd
  }

  /** The block field is filled, and nobody is past the test for it. */
  ghost predicate Sealed(s: State, f: nat, sd: Side) {
    && f < |s.futures| && BlockOf(s.futures[f], sd).Some?
    && forall a :: 0 <= a < |s.acts| ==> !PastTest(s, a, f, sd)
  }

  lemma NextPastTest(y: Future, a: nat, p: Pc, child: nat)
    requires Ready(y, p)
    ensures var q := Next(y, a, p, child).0;
      q.RegLock? || q.RegWrite? ==>
        && q.future == p.future && (p.RegCheck? || p.RegLock?) && q.side == p.side
        && (p.RegCheck? ==> BlockOf(y, p.side).None?)
  {
  }

  lemma StepOnKeepsSealed(s: State, a: nat, f: nat, sd: Side)
    requires Sealed(s, f, sd) && Enabled(s, a) && !OffFuture(s.acts[a].pc)
    ensures Sealed(StepOn(s, a), f, sd)
  {
    var p := s.acts[a].pc;
    var u := StepOn(s, a);
    assert !PastTest(s, a, f, sd);
    StepOnSlot(s, Act(a, false), f, sd);
    StepOnActs(s, a);
    NextPastTest(s.futures[p.future], a, p, |s.acts|);
    forall b | 0 <= b < |u.acts| ensures !PastTest(u, b, f, sd) {
      if b < |s.acts| && b != a {
        assert !PastTest(s, b, f, sd);
      }
    }
  }

  lemma OffKeepsSealed(s: State, a: nat, choice: bool, f: nat, sd: Side)
    requires Sealed(s, f, sd) && Enabled(s, a) && OffFuture(s.acts[a].pc)
    ensures Sealed(Step(s, a, choice), f, sd)
  {
    var u := Step(s, a, choice);
    forall b | 0 <= b < |u.acts| ensures !PastTest(u, b, f, sd) {
      assert !PastTest(s, b, f, sd);
    }
  }

  lemma ApplyKeepsSealed(s: State, e: Event, f: nat, sd: Side)
    requires Sealed(s, f, sd) && Allowed(s, e)
    ensures Sealed(Apply(s, e), f, sd) && BlockOf(Apply(s, e).futures[f], sd) == BlockOf(s.futures[f], sd)
  {
    ApplySlot(s, e, f, sd);
    if e.Act? {
      assert !PastTest(s, e.act, f, sd);
      if OffFuture(s.acts[e.act].pc) {
        OffKeepsSealed(s, e.act, e.choice, f, sd);
      } else {
        StepOnKeepsSealed(s, e.act, f, sd);
      }
    } else {
      forall b | 0 <= b < |s.acts| ensures !PastTest(Apply(s, e), b, f, sd) {
        assert !PastTest(s, b, f, sd);
      }
    }
  }

  /** A sealed block field keeps its block in every run. */
  lemma {:induction false} RunKeepsSealed(s: State, events: seq<Event>, f: nat, sd: Side)
    requires Sealed(s, f, sd) && IsRun(s, events)
    ensures var u := After(s, events); Sealed(u, f, sd) && BlockOf(u.futures[f], sd) == BlockOf(s.futures[f], sd)
    decreases events
  {
    if events != [] {
      ApplyKeepsSealed(s, events[0], f, sd);
      RunKeepsSealed(Apply(s, events[0]), events[1..], f, sd);
    }
  }

  /** Activation a is about to make the unlocked test for block field sd of future f. */
  predicate AtTest(s: State, a: nat, f: nat, sd: Side) {
    a < |s.acts| && s.acts[a].pc.RegCheck? && s.acts[a].pc.future == f && s.acts[a].pc.side == sd
  }

  /** The next step of activation a raises, and does nothing else. */
  predicate RaisesNext(s: State, a: nat) {
    Enabled(s, a) && Step(s, a, false) == Goto(s, a, Raising)
  }

  /** And so every later registration raises. */
  lemma LaterRegistrationRaises(s: State, events: seq<Event>, a: nat, f: nat, sd: Side)
    requires Inv(s) && Sealed(s, f, sd) && IsRun(s, events) && AtTest(After(s, events), a, f, sd)
    ensures RaisesNext(After(s, events), a)
  {
    var u := After(s, events);
    RunKeepsSealed(s, events, f, sd);
    RunKeepsInv(s, events);
    InRangeByInv(u, a);
    TestRaises(u, a, f, sd);
  }

  lemma TestRaises(s: State, a: nat, f: nat, sd: Side)
    requires InRange(s, a) && AtTest(s, a, f, sd) && BlockOf(s.futures[f], sd).Some?
    ensures RaisesNext(s, a)
  {
    assert s.futures[f := s.futures[f]] == s.futures;
    assert Moved(s, a) == Goto(s, a, Raising);
  }

  /** Some run comes to the point where a registered block is overwritten. */
  ghost predicate CanOverwrite(s: State, f: nat, sd: Side) {
    exists events, a: nat :: IsRun(s, events) && OverwritesNext(After(s, events), a, f, sd)
  }

  predicate OverwritesNext(s: State, a: nat, f: nat, sd: Side) {
    && Enabled(s, a) && s.acts[a].pc.RegWrite? && s.acts[a].pc.future == f && s.acts[a].pc.side == sd
    && f < |s.futures| && BlockOf(s.futures[f], sd).Some?
  }

  lemma OverwriteDuplicates(s: State, a: nat, f: nat, sd: Side)
    requires OverwritesNext(s, a, f, sd)
    ensures var u := StepOn(s, a); u.futures[f].log.duplicated && BlockOf(u.futures[f], sd) == Some(s.acts[a].pc.block)
  {
    NextSlots(s.futures[f], a, s.acts[a].pc, |s.acts|);
    StepOnFutures(s, a);
  }

  lemma LockLeadsToWrite(s: State, a: nat, f: nat, sd: Side)
    requires Inv(s) && PastTest(s, a, f, sd) && f < |s.futures| && BlockOf(s.futures[f], sd).Some? && s.futures[f].holder.None?
    ensures Enabled(s, a) && OverwritesNext(StepOn(s, a), a, f, sd)
  {
    InRangeByInv(s, a);
    assert ActInv(s, a) && s.acts[a].pc.RegLock?;
    assert StepOn(s, a) == Moved(s, a);
  }

  /**
   The exact condition, where nobody holds the mutex of future f: a filled block field can
   still be overwritten if and only if some activation stands between the unlocked test
   and its write.
   */
  lemma OverwrittenIffPastTest(s: State, f: nat, sd: Side)
    requires Inv(s) && f < |s.futures| && BlockOf(s.futures[f], sd).Some? && s.futures[f].holder.None?
    ensures CanOverwrite(s, f, sd) <==> exists a: nat :: PastTest(s, a, f, sd)
  {
    if a: nat :| PastTest(s, a, f, sd) {
      LockLeadsToWrite(s, a, f, sd);
      var e := Act(a, false);
      assert Apply(s, e) == StepOn(s, a);
      assert IsRun(s, [e]) && After(s, [e]) == StepOn(s, a) by {
        assert [e][1..] == [] && IsRun(StepOn(s, a), []) && After(StepOn(s, a), []) == StepOn(s, a);
      }
      assert OverwritesNext(After(s, [e]), a, f, sd);
    } else {
      forall events, a: nat | IsRun(s, events) ensures !OverwritesNext(After(s, events), a, f, sd) {
        RunKeepsSealed(s, events, f, sd);
        assert a < |After(s, events).acts| ==> !PastTest(After(s, events), a, f, sd);
      }
    }
  }
}
