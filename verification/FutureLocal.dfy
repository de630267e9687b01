/**
 One step seen from the future it touches: each atomic update keeps the future
 consistent with the stepping activation and with whoever holds the mutex.
 */
module FutureLocal {
  import opened Prelude
  import opened FutureState

  /**
   Future y is consistent while activation a is at p, the mutex is held by h at hp
   (h is 0 and hp is Idle when it is free), and y stands q times in its queue.
   */
  predicate Local(y: Future, a: nat, p: Pc, h: nat, hp: Pc, q: nat) {
    && FutureOk(y)
    && HeldOk(y, h, hp, q)
    && (hp.Idle? || Inside(hp))
    && (h == a && !hp.Idle? ==> hp == p)
    && (y.holder == Some(a) ==> Inside(p) && h == a && hp == p)
    && (a in y.log.undecided ==> UndecidedPc(p))
    && (a in y.log.decided ==> DecidedPc(p))
    && (!OffFuture(p) ==> OnOk(a, p, y))
  }

  // ---- registration ----

  lemma LockKeeps(y: Future, a: nat, p: Pc, next: Pc, q: nat)
    requires Local(y, a, p, 0, Idle, q) && y.holder.None?
    requires (p.RegLock? && next.RegWrite?) || (p.AwLock? && next.AwTest?) || (p.WkLock? && next.WkDecide?)
    ensures Local(Locked(y, a), a, next, a, next, q) && Fair(a, y, Locked(y, a))
  {
  }

  lemma WriteKeeps(y: Future, a: nat, p: Pc, q: nat)
    requires p.RegWrite? && Local(y, a, p, a, p, q)
    ensures var next := RegTest(p.future, p.side, BlockOf(y, Other(p.side)).None?);
            var z := BlockWritten(y, p.side, p.block);
            Local(z, a, next, a, next, q) && Fair(a, y, z)
  {
    WriteKeepsOk(y, a, p, q);
    WriteKeepsHeld(y, a, p, q);
  }

  lemma WriteKeepsOk(y: Future, a: nat, p: Pc, q: nat)
    requires p.RegWrite? && Local(y, a, p, a, p, q)
    ensures FutureOk(BlockWritten(y, p.side, p.block))
  {
  }

  lemma WriteKeepsHeld(y: Future, a: nat, p: Pc, q: nat)
    requires p.RegWrite? && Local(y, a, p, a, p, q)
    ensures HeldOk(BlockWritten(y, p.side, p.block), a, RegTest(p.future, p.side, BlockOf(y, Other(p.side)).None?), q)
  {
    var next := RegTest(p.future, p.side, BlockOf(y, Other(p.side)).None?);
    var z := BlockWritten(y, p.side, p.block);
    assert InHand(z, next, q, p.side);
    assert InHand(y, p, q, Other(p.side));
    assert InHand(z, next, q, Other(p.side));
  }

  lemma TestReadyKeeps(y: Future, a: nat, p: Pc, q: nat)
    requires p.RegTest? && Local(y, a, p, a, p, q) && y.outcome != Pending
    ensures var next := RegPost(p.future, p.side);
            Local(FoundReady(y), a, next, a, next, q) && Fair(a, y, FoundReady(y))
  {
  }

  /**
   The future was not resolved at the test, so no worker has looked at its blocks yet:
   somebody already has it in hand, or this registration is about to push it.
   */
  lemma TestPendingKeeps(y: Future, a: nat, p: Pc, q: nat)
    requires p.RegTest? && Local(y, a, p, a, p, q) && y.outcome == Pending
    ensures var next := if p.wakeup then RegPush(p.future) else RegUnlock(p.future, false);
            Local(y, a, next, a, next, q)
  {
    assert |y.log.decided| == 0;
    if !p.wakeup {
      assert q > 0 || y.log.undecided != {};
    }
  }

  lemma PostKeeps(y: Future, a: nat, p: Pc, q: nat)
    requires p.RegPost? && Local(y, a, p, a, p, q)
    ensures var next := RegDecide(p.future, p.side);
            Local(ReadyPosted(y), a, next, a, next, q) && Fair(a, y, ReadyPosted(y))
  {
  }

  lemma DecideCallsKeeps(y: Future, a: nat, p: Pc, q: nat, child: nat)
    requires p.RegDecide? && Local(y, a, p, a, p, q)
    requires !y.yielded && p.side == Due(y.outcome)
    ensures var next := RegRun(p.future, child);
            Local(Invoked(y, p.side), a, next, a, next, q) && Fair(a, y, Invoked(y, p.side))
  {
  }

  lemma DecidePassesKeeps(y: Future, a: nat, p: Pc, q: nat)
    requires p.RegDecide? && Local(y, a, p, a, p, q)
    requires y.yielded || p.side != Due(y.outcome)
    ensures var next := RegUnlock(p.future, false);
            Local(y, a, next, a, next, q)
  {
  }

  lemma PushKeeps(y: Future, a: nat, p: Pc, q: nat)
    requires p.RegPush? && Local(y, a, p, a, p, q)
    ensures var next := RegRevive(p.future);
            Local(Pushed(y), a, next, a, next, q + 1) && Fair(a, y, Pushed(y))
  {
  }

  lemma ReviveKeeps(y: Future, a: nat, p: Pc, q: nat)
    requires p.RegRevive? && Local(y, a, p, a, p, q)
    ensures var next := RegUnlock(p.future, false);
            Local(y, a, next, a, next, q)
  {
  }

  lemma UnlockKeeps(y: Future, a: nat, p: Pc, next: Pc, q: nat)
    requires Local(y, a, p, a, p, q) && (p.RegUnlock? || p.AwUnlock? || p.WkUnlock?)
    requires (p.RegUnlock? && OffFuture(next)) || (p.AwUnlock? && next == if p.first then AwResolve(p.future) else Idle)
             || (p.WkUnlock? && next.WkPost?)
    ensures Local(Unlocked(y), a, next, 0, Idle, q) && Fair(a, y, Unlocked(y))
  {
  }

  /** The callback is over: the parent goes on to unlock, or to mark the future as waited for. */
  lemma CallEndKeeps(y: Future, a: nat, p: Pc, next: Pc, q: nat)
    requires Running(p) && Local(y, a, p, a, p, q)
    requires (p.RegRun? && next.RegUnlock?) || (p.WkRun? && (next.WkUnlock? || next.WkFlag?))
    ensures Local(CallEnded(y), a, next, a, next, q) && Fair(a, y, CallEnded(y))
  {
  }

  // ---- await ----

  lemma AwaitTestKeeps(y: Future, a: nat, p: Pc, q: nat)
    requires p.AwTest? && Local(y, a, p, a, p, q)
    ensures y.alreadyWaited ==> var next := AwUnlock(p.future, false); Local(y, a, next, a, next, q)
    ensures !y.alreadyWaited ==>
              var next := AwUnlock(p.future, true);
              Local(FirstAwaited(y, a), a, next, a, next, q) && Fair(a, y, FirstAwaited(y, a))
  {
  }

  lemma SemTakenKeeps(y: Future, a: nat, p: Pc, h: nat, hp: Pc, q: nat)
    requires p.AwSem? && Local(y, a, p, h, hp, q) && y.sem > 0
    ensures Local(SemTaken(y), a, Idle, h, hp, q) && Fair(a, y, SemTaken(y))
  {
    assert FutureOk(SemTaken(y));
    assert HeldOk(SemTaken(y), h, hp, q);
  }

  // ---- worker ----

  lemma PopKeeps(y: Future, a: nat, f: nat, h: nat, hp: Pc, q: nat)
    requires Local(y, a, WkPop, h, hp, q) && q > 0
    ensures Local(Claimed(y, a), a, WkWait(f), h, hp, q - 1) && Fair(a, y, Claimed(y, a))
  {
    ClaimKeepsHeld(y, a, h, hp, q);
  }

  lemma ClaimKeepsHeld(y: Future, a: nat, h: nat, hp: Pc, q: nat)
    requires FutureOk(y) && HeldOk(y, h, hp, q) && q > 0 && a !in y.log.undecided && a !in y.log.decided
    ensures FutureOk(Claimed(y, a)) && HeldOk(Claimed(y, a), h, hp, q - 1)
  {
    ClaimKeepsHand(y, a, hp, q, OnSuccess);
    ClaimKeepsHand(y, a, hp, q, OnFailure);
    ClaimCounts(y, a, h, hp, q);
  }

  /** The claimer has the future in hand. */
  lemma ClaimKeepsHand(y: Future, a: nat, hp: Pc, q: nat, side: Side)
    ensures InHand(Claimed(y, a), hp, q, side)
  {
    assert a in Claimed(y, a).log.undecided;
  }

  lemma ClaimCounts(y: Future, a: nat, h: nat, hp: Pc, q: nat)
    requires FutureOk(y) && HeldOk(y, h, hp, q) && q > 0 && a !in y.log.undecided && a !in y.log.decided
    ensures var z := Claimed(y, a);
      && FutureOk(z) && q - 1 + |z.log.undecided| + |z.log.decided| + z.log.workerPosts == z.log.pushes && Announced(z, hp)
  {
    assert |Claimed(y, a).log.undecided| == |y.log.undecided| + 1;
  }

  lemma WorkerCallsKeeps(y: Future, a: nat, p: Pc, q: nat, child: nat)
    requires p.WkDecide? && Local(y, a, p, a, p, q)
    requires !y.yielded && DueBlock(y)
    ensures var next := WkRun(p.future, child);
            var z := Invoked(Decided(y, a), Due(y.outcome));
            Local(z, a, next, a, next, q) && Fair(a, y, z)
  {
    var z := Invoked(Decided(y, a), Due(y.outcome));
    assert |z.log.undecided| == |y.log.undecided| - 1;
    assert |z.log.decided| == |y.log.decided| + 1;
  }

  lemma WorkerPassesKeeps(y: Future, a: nat, p: Pc, q: nat)
    requires p.WkDecide? && Local(y, a, p, a, p, q)
    requires y.yielded || !DueBlock(y)
    ensures var next := WkFlag(p.future);
            Local(Decided(y, a), a, next, a, next, q) && Fair(a, y, Decided(y, a))
  {
    var z := Decided(y, a);
    assert |z.log.undecided| == |y.log.undecided| - 1;
    assert |z.log.decided| == |y.log.decided| + 1;
    assert y.log.dueAtResolution ==> DueBlock(y);
    assert FutureOk(z);
  }

  lemma FlagKeeps(y: Future, a: nat, p: Pc, q: nat)
    requires p.WkFlag? && Local(y, a, p, a, p, q)
    ensures var next := WkUnlock(p.future, false);
            Local(MarkedWaited(y), a, next, a, next, q) && Fair(a, y, MarkedWaited(y))
  {
  }

  lemma WorkerPostKeeps(y: Future, a: nat, p: Pc, next: Pc, h: nat, hp: Pc, q: nat)
    requires p.WkPost? && OffFuture(next) && Local(y, a, p, h, hp, q)
    ensures Local(WorkerPosted(y, a), a, next, h, hp, q) && Fair(a, y, WorkerPosted(y, a))
  {
    var z := WorkerPosted(y, a);
    assert |z.log.decided| == |y.log.decided| - 1;
    assert FutureOk(z);
    assert Announced(z, hp);
    assert InHand(z, hp, q, OnSuccess) by { assert InHand(y, hp, q, OnSuccess); }
    assert InHand(z, hp, q, OnFailure) by { assert InHand(y, hp, q, OnFailure); }
    assert HeldOk(z, h, hp, q);
  }

  // ---- the driver and the unblock function ----

  /** Nobody had looked at the blocks before the driver resolved the future, so whoever has it in hand still has. */
  lemma ResolveKeeps(y: Future, h: nat, hp: Pc, q: nat, o: Outcome)
    requires y.outcome == Pending && o != Pending && FutureOk(y) && HeldOk(y, h, hp, q)
    ensures FutureOk(Resolved(y, o)) && HeldOk(Resolved(y, o), h, hp, q)
  {
    var z := Resolved(y, o);
    assert |y.log.decided| == 0;
    assert InHand(z, hp, q, OnSuccess) by { assert InHand(y, hp, q, OnSuccess); }
    assert InHand(z, hp, q, OnFailure) by { assert InHand(y, hp, q, OnFailure); }
  }

  lemma InterruptKeeps(y: Future, h: nat, hp: Pc, q: nat)
    requires FutureOk(y) && HeldOk(y, h, hp, q)
    ensures FutureOk(Interrupted(y)) && HeldOk(Interrupted(y), h, hp, q)
  {
    var z := Interrupted(y);
    assert FutureOk(z);
    assert InHand(z, hp, q, OnSuccess) by { assert InHand(y, hp, q, OnSuccess); }
    assert InHand(z, hp, q, OnFailure) by { assert InHand(y, hp, q, OnFailure); }
  }

  // ---- any step ----

  /** Who holds the mutex, and where, after a step of activation a that turned y into z. */
  function HolderAfter(y: Future, z: Future, a: nat, h: nat): nat {
    if z.holder == Some(a) then a else if z.holder.None? then 0 else h
  }

  function PcAfter(y: Future, z: Future, a: nat, p: Pc, hp: Pc): Pc {
    if z.holder == Some(a) then p else if z.holder.None? then Idle else hp
  }

  /** What NextKeeps says of the step from p. */
  predicate Keeps(y: Future, a: nat, p: Pc, h: nat, hp: Pc, q: nat, next: Pc, z: Future)
    requires !OffFuture(p)
  {
    && Local(z, a, next, HolderAfter(y, z, a, h), PcAfter(y, z, a, next, hp), q)
    && Fair(a, y, z)
    && (OffFuture(next) || On(next, p.future))
  }

  lemma RegisterOutsideKeeps(y: Future, a: nat, p: Pc, h: nat, hp: Pc, q: nat, child: nat)
    requires Local(y, a, p, h, hp, q) && (p.RegCheck? || p.RegLock?)
    requires y.holder == Some(a) ==> h == a && hp == p
    requires y.holder.None? ==> h == 0 && hp.Idle?
    ensures var n := RegisterStep(y, a, p, child); Keeps(y, a, p, h, hp, q, n.0, n.1)
  {
    if p.RegLock? && y.holder.None? {
      LockKeeps(y, a, p, RegWrite(p.future, p.side, p.block), q);
    }
  }

  lemma RegisterInsideKeeps(y: Future, a: nat, p: Pc, q: nat, child: nat)
    requires RegisterPc(p) && Inside(p) && Ready(y, p) && Local(y, a, p, a, p, q)
    ensures var n := RegisterStep(y, a, p, child); Keeps(y, a, p, a, p, if p.RegPush? then q + 1 else q, n.0, n.1)
  {
    match p {
      case RegWrite(_, _, _) => WriteKeeps(y, a, p, q);
      case RegTest(_, _, _) => if y.outcome != Pending { TestReadyKeeps(y, a, p, q); } else { TestPendingKeeps(y, a, p, q); }
      case RegPost(_, _) => PostKeeps(y, a, p, q);
      case RegDecide(_, side) =>
        if RegisterCalls(y, side) { DecideCallsKeeps(y, a, p, q, child); } else { DecidePassesKeeps(y, a, p, q); }
      case RegPush(_) => PushKeeps(y, a, p, q);
      case RegRevive(_) => ReviveKeeps(y, a, p, q);
      case RegUnlock(_, raised) => UnlockKeeps(y, a, p, if raised then Raising else Idle, q);
    }
  }

  lemma AwaitKeeps(y: Future, a: nat, p: Pc, h: nat, hp: Pc, q: nat)
    requires Ready(y, p) && !RegisterPc(p) && !WorkerPc(p) && Local(y, a, p, h, hp, q)
    requires y.holder == Some(a) ==> h == a && hp == p
    requires y.holder.None? ==> h == 0 && hp.Idle?
    ensures var n := AwaitStep(y, a, p); Keeps(y, a, p, h, hp, q, n.0, n.1)
  {
    match p {
      case AwLock(f) => if y.holder.None? { LockKeeps(y, a, p, AwTest(f), q); }
      case AwTest(_) => AwaitTestKeeps(y, a, p, q);
      case AwUnlock(f, first) => UnlockKeeps(y, a, p, if first then AwResolve(f) else Idle, q);
      case AwResolve(_) =>
      case AwCheck(_) =>
      case AwSem(_) => SemTakenKeeps(y, a, p, h, hp, q);
    }
  }

  lemma WorkerOutsideKeeps(y: Future, a: nat, p: Pc, h: nat, hp: Pc, q: nat, child: nat)
    requires Ready(y, p) && (p.WkWait? || p.WkLock?) && Local(y, a, p, h, hp, q)
    requires y.holder == Some(a) ==> h == a && hp == p
    requires y.holder.None? ==> h == 0 && hp.Idle?
    requires p.WkLock? ==> y.holder.None?
    ensures var n := WorkerStep(y, a, p, child); Keeps(y, a, p, h, hp, q, n.0, n.1)
  {
    if p.WkLock? {
      LockKeeps(y, a, p, WkDecide(p.future), q);
    }
  }

  lemma WorkerInsideKeeps(y: Future, a: nat, p: Pc, q: nat, child: nat)
    requires WorkerPc(p) && Inside(p) && Ready(y, p) && Local(y, a, p, a, p, q)
    ensures var n := WorkerStep(y, a, p, child); Keeps(y, a, p, a, p, q, n.0, n.1)
  {
    match p {
      case WkDecide(_) => if WorkerCalls(y) { WorkerCallsKeeps(y, a, p, q, child); } else { WorkerPassesKeeps(y, a, p, q); }
      case WkFlag(_) => FlagKeeps(y, a, p, q);
      case WkUnlock(f, raised) => UnlockKeeps(y, a, p, WkPost(f, raised), q);
    }
  }

  lemma WorkerPostStepKeeps(y: Future, a: nat, p: Pc, h: nat, hp: Pc, q: nat, child: nat)
    requires p.WkPost? && Local(y, a, p, h, hp, q)
    requires y.holder == Some(a) ==> h == a && hp == p
    requires y.holder.None? ==> h == 0 && hp.Idle?
    ensures var n := WorkerStep(y, a, p, child); Keeps(y, a, p, h, hp, q, n.0, n.1)
  {
    var next := if p.raised then Ended else WkPop;
    assert y.holder != Some(a);
    assert HolderAfter(y, WorkerPosted(y, a), a, h) == h && PcAfter(y, WorkerPosted(y, a), a, next, hp) == hp;
    assert WorkerStep(y, a, p, child) == (next, WorkerPosted(y, a));
    WorkerPostKeeps(y, a, p, next, h, hp, q);
  }

  /** Every step of every activation keeps the future it is on consistent, and is fair to the others. */
  lemma NextKeeps(y: Future, a: nat, p: Pc, h: nat, hp: Pc, q: nat, child: nat)
    requires Ready(y, p) && Local(y, a, p, h, hp, q)
    requires y.holder == Some(a) ==> h == a && hp == p
    requires y.holder.None? ==> h == 0 && hp.Idle?
    requires p.WkLock? ==> y.holder.None?
    ensures var n := Next(y, a, p, child); Keeps(y, a, p, h, hp, if p.RegPush? then q + 1 else q, n.0, n.1)
  {
    if Inside(p) {
      assert h == a && hp == p by { assert OnOk(a, p, y); }
    }
    if !RegisterPc(p) && !WorkerPc(p) {
      AwaitKeeps(y, a, p, h, hp, q);
    } else if RegisterPc(p) && Inside(p) {
      RegisterInsideKeeps(y, a, p, q, child);
    } else if RegisterPc(p) {
      RegisterOutsideKeeps(y, a, p, h, hp, q, child);
    } else if Inside(p) {
      WorkerInsideKeeps(y, a, p, q, child);
    } else if p.WkPost? {
      WorkerPostStepKeeps(y, a, p, h, hp, q, child);
    } else {
      WorkerOutsideKeeps(y, a, p, h, hp, q, child);
    }
  }
}
