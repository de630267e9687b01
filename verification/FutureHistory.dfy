/**
 The log of a future is its history: which events add what to it. The theorems speak of
 calls, posts, waits and interrupts by the log, and so of nothing but what happened.
 */
module FutureHistory {
  import opened Prelude
  import opened FutureState
  import opened FutureMachine
  import opened FutureInvariant
  import opened FutureTheorems
  import opened FutureRegistrations

  function Count(happened: bool): nat {
    if happened then 1 else 0
  }

  /**
   From y to z, by a step of activation a at p: each count goes up at the one place in the
   code that it stands for, the semaphore follows the posts and waits, and a call is of the
   block field for the outcome.
   */
  predicate Recorded(y: Future, a: nat, p: Pc, z: Future, called: bool) {
    && z.log.calls == y.log.calls + (if called then [if y.outcome == Ok then OnSuccess else OnFailure] else [])
    && z.log.readyPaths == y.log.readyPaths + Count(p.RegTest? && y.outcome != Pending)
    && z.log.readyPosts == y.log.readyPosts + Count(p.RegPost?)
    && z.log.workerPosts == y.log.workerPosts + Count(p.WkPost?)
    && z.log.waits == y.log.waits + Count(p.AwSem?)
    && z.log.pushes == y.log.pushes + Count(p.RegPush?)
    && z.log.awaiter == (if p.AwTest? && !y.alreadyWaited then Some(a) else y.log.awaiter)
    && z.log.undecided == y.log.undecided - (if p.WkDecide? then {a} else {})
    && z.log.decided == (if p.WkDecide? then y.log.decided + {a} else if p.WkPost? then y.log.decided - {a} else y.log.decided)
    && z.log.duplicated == (y.log.duplicated || (p.RegWrite? && (if p.side == OnSuccess then y.onSuccess else y.onFailure).Some?))
    && z.log.ended == y.log.ended && z.log.interrupts == y.log.interrupts && z.log.dueAtResolution == y.log.dueAtResolution
    && z.outcome == y.outcome
    && z.sem + Count(p.AwSem?) == y.sem + Count(p.RegPost?) + Count(p.WkPost?)
  }

  lemma RegisterIsRecorded(y: Future, a: nat, p: Pc, child: nat)
    requires Ready(y, p) && RegisterPc(p)
    ensures var n := RegisterStep(y, a, p, child); Recorded(y, a, p, n.1, Running(n.0))
  {
  }

  lemma AwaitIsRecorded(y: Future, a: nat, p: Pc)
    requires Ready(y, p) && !RegisterPc(p) && !WorkerPc(p)
    ensures var n := AwaitStep(y, a, p); Recorded(y, a, p, n.1, Running(n.0))
  {
  }

  lemma WorkerIsRecorded(y: Future, a: nat, p: Pc, child: nat)
    requires Ready(y, p) && WorkerPc(p)
    ensures var n := WorkerStep(y, a, p, child); Recorded(y, a, p, n.1, Running(n.0))
  {
  }

  lemma NextIsRecorded(y: Future, a: nat, p: Pc, child: nat)
    requires Ready(y, p)
    ensures var n := Next(y, a, p, child); Recorded(y, a, p, n.1, Running(n.0))
  {
    if RegisterPc(p) {
      RegisterIsRecorded(y, a, p, child);
    } else if WorkerPc(p) {
      WorkerIsRecorded(y, a, p, child);
    } else {
      AwaitIsRecorded(y, a, p);
    }
  }

  lemma OnStepIsRecorded(s: State, a: nat, f: nat)
    requires Inv(s) && Enabled(s, a) && !OffFuture(s.acts[a].pc) && f < |s.futures|
    ensures var u := StepOn(s, a);
      && a < |u.acts| && f < |u.futures|
      && if On(s.acts[a].pc, f) then Recorded(s.futures[f], a, s.acts[a].pc, u.futures[f], Running(u.acts[a].pc))
         else u.futures[f] == s.futures[f]
  {
    StepOnFutures(s, a);
    StepOnActs(s, a);
    NextIsRecorded(s.futures[s.acts[a].pc.future], a, s.acts[a].pc, |s.acts|);
  }

  lemma OffStepIsRecorded(s: State, a: nat, choice: bool, f: nat)
    requires Inv(s) && Enabled(s, a) && OffFuture(s.acts[a].pc) && f < |s.futures|
    ensures var u, y, x := Step(s, a, choice), s.futures[f], s.acts[a];
      && f < |u.futures|
      && u.futures[f] == (if CallbackEnds(s, a, choice) && x.role.future == f then y.(log := y.log.(ended := y.log.ended + 1))
                          else if x.pc.WkPop? && PoolOf(s, x.role.kind).queue[0] == f then y.(log := y.log.(undecided := y.log.undecided + {a}))
                          else y)
  {
    assert TreeInv(s, a);
  }

  /** What a step of any activation adds to the log of any future. */
  lemma StepIsRecorded(s: State, a: nat, choice: bool, f: nat)
    requires Inv(s) && Enabled(s, a) && f < |s.futures|
    ensures var u, y, x := Step(s, a, choice), s.futures[f], s.acts[a];
      && a < |u.acts| && f < |u.futures|
      && (On(x.pc, f) ==> Recorded(y, a, x.pc, u.futures[f], Running(u.acts[a].pc)))
      && (!On(x.pc, f) ==>
            u.futures[f] == (if CallbackEnds(s, a, choice) && x.role.future == f then y.(log := y.log.(ended := y.log.ended + 1))
                             else if x.pc.WkPop? && PoolOf(s, x.role.kind).queue[0] == f then y.(log := y.log.(undecided := y.log.undecided + {a}))
                             else y))
  {
    if OffFuture(s.acts[a].pc) {
      OffStepIsRecorded(s, a, choice, f);
      ApplyKeepsInv(s, Act(a, choice));
    } else {
      OnStepIsRecorded(s, a, f);
    }
  }

  /** The driver resolves a future, and an interrupt posts on the one awaited; neither does anything else. */
  lemma EventsAreRecorded(s: State, f: nat, o: Outcome, a: nat)
    ensures Allowed(s, Resolve(f, o)) ==>
      var y := s.futures[f];
      Apply(s, Resolve(f, o)) ==
      s.(futures := s.futures[f := y.(outcome := o, log := y.log.(dueAtResolution := (if o == Ok then y.onSuccess else y.onFailure).Some?))])
    ensures Allowed(s, Interrupt(a)) ==>
      var g := s.acts[a].pc.future;
      var y := s.futures[g];
      Apply(s, Interrupt(a)) == s.(futures := s.futures[g := y.(sem := y.sem + 1, log := y.log.(interrupts := y.log.interrupts + 1))])
  {
  }
}
