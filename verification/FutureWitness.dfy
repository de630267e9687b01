/**
 What the protocol does not guarantee, with runs that show it: the hypotheses of the
 await and deadlock theorems cannot be dropped.
 */
module FutureWitness {
  import opened Prelude
  import opened FutureState
  import opened FutureMachine
  import opened FutureTheorems
  import opened FutureProgress

  ghost predicate Path(s0: State, s: State) {
    exists events :: IsRun(s0, events) && After(s0, events) == s
  }

  lemma {:induction false} RunAppend(s: State, events: seq<Event>, e: Event)
    requires IsRun(s, events) && Allowed(After(s, events), e)
    ensures IsRun(s, events + [e]) && After(s, events + [e]) == Apply(After(s, events), e)
    decreases events
  {
    if events == [] {
      assert [e][1..] == [];
      assert events + [e] == [e];
    } else {
      RunAppend(Apply(s, events[0]), events[1..], e);
      assert (events + [e])[1..] == events[1..] + [e];
    }
  }

  lemma PathStep(s0: State, s: State, e: Event)
    requires Path(s0, s) && Allowed(s, e)
    ensures Path(s0, Apply(s, e))
  {
    var events :| IsRun(s0, events) && After(s0, events) == s;
    RunAppend(s0, events, e);
  }

  lemma PathStart(s0: State)
    ensures Path(s0, s0)
  {
    assert IsRun(s0, []) && After(s0, []) == s0;
  }

  // ---- one application thread and one future ----

  /** No pool has done anything yet. */
  function Many(ys: seq<Future>, xs: seq<Activation>): State {
    State(ys, xs, EmptyPool(), EmptyPool())
  }

  /** The thread is at p with todo left; ws are the workers of the future's pool. */
  function One(y: Future, p: Pc, todo: seq<Op>, pool: Pool, ws: seq<Activation>): State {
    WithPool(Many([y], [Activation(Main, 0, todo, p)] + ws), y.kind, pool)
  }

  lemma OneStep(y: Future, p: Pc, todo: seq<Op>, pool: Pool, ws: seq<Activation>)
    requires Ready(y, p) && p.future == 0 && !WorkerPc(p) && !p.RegPush? && !p.RegRevive?
    requires p.RegLock? || p.AwLock? ==> y.holder.None?
    requires p.RegDecide? ==> !RegisterCalls(y, p.side)
    ensures var s, n := One(y, p, todo, pool, ws), Next(y, 0, p, 1 + |ws|);
      Enabled(s, 0) && Step(s, 0, false) == One(n.1, n.0, todo, pool, ws)
  {
    var s, n := One(y, p, todo, pool, ws), Next(y, 0, p, 1 + |ws|);
    assert Moved(s, 0) == One(n.1, n.0, todo, pool, ws);
  }

  lemma OneOn(s0: State, y: Future, p: Pc, todo: seq<Op>, pool: Pool, ws: seq<Activation>)
    requires Path(s0, One(y, p, todo, pool, ws))
    requires Ready(y, p) && p.future == 0 && !WorkerPc(p) && !p.RegPush? && !p.RegRevive?
    requires p.RegLock? || p.AwLock? ==> y.holder.None?
    requires p.RegDecide? ==> !RegisterCalls(y, p.side)
    ensures var n := Next(y, 0, p, 1 + |ws|); Path(s0, One(n.1, n.0, todo, pool, ws))
  {
    OneStep(y, p, todo, pool, ws);
    PathStep(s0, One(y, p, todo, pool, ws), Act(0, false));
  }

  lemma OneTo(s0: State, y: Future, p: Pc, z: Future, q: Pc, todo: seq<Op>, pool: Pool, ws: seq<Activation>)
    requires Path(s0, One(y, p, todo, pool, ws))
    requires Ready(y, p) && p.future == 0 && !WorkerPc(p) && !p.RegPush? && !p.RegRevive?
    requires p.RegLock? || p.AwLock? ==> y.holder.None?
    requires p.RegDecide? ==> !RegisterCalls(y, p.side)
    requires Next(y, 0, p, 1 + |ws|) == (q, z)
    ensures Path(s0, One(z, q, todo, pool, ws))
  {
    OneOn(s0, y, p, todo, pool, ws);
  }

  lemma OneStart(s0: State, y: Future, todo: seq<Op>, pool: Pool, ws: seq<Activation>)
    requires Path(s0, One(y, Idle, todo, pool, ws)) && todo != [] && todo[0].future == 0
    ensures Path(s0, One(y, if todo[0].Register? then RegCheck(0, todo[0].side, todo[0].block) else AwLock(0), todo[1..], pool, ws))
  {
    var s := One(y, Idle, todo, pool, ws);
    assert Enabled(s, 0);
    assert Step(s, 0, false) ==
      One(y, if todo[0].Register? then RegCheck(0, todo[0].side, todo[0].block) else AwLock(0), todo[1..], pool, ws);
    PathStep(s0, s, Act(0, false));
  }

  /** The first n workers of a pool, made by activation 0. */
  function Hires(k: Kind, n: nat): seq<Activation> {
    seq(n, (i: nat) => Activation(Worker(k), 1 + i, [], WkPop))
  }

  function SlotsUpTo(n: nat): seq<Option<nat>> {
    seq(THREAD_MAX, (i: nat) => if i < n then Some(1 + i) else None)
  }

  function FreshWorkers(k: Kind): seq<Activation> {
    Hires(k, THREAD_MAX)
  }

  function PoolAfterPush(): Pool {
    Pool([0], SlotsUpTo(THREAD_MAX), [0], [], 1, 0)
  }

  function PoolQueued(): Pool {
    EmptyPool().(queue := [0], pushed := [0])
  }

  lemma OnePushStep(y: Future, todo: seq<Op>)
    ensures var s := One(y, RegPush(0), todo, EmptyPool(), []);
      Enabled(s, 0) && Step(s, 0, false) == One(Pushed(y), RegRevive(0), todo, PoolQueued(), [])
  {
    var s := One(y, RegPush(0), todo, EmptyPool(), []);
    assert Moved(s, 0) == One(Pushed(y), RegRevive(0), todo, EmptyPool(), []);
  }

  lemma ReviveStep(s: State, a: nat)
    requires Enabled(s, a) && s.acts[a].pc.RegRevive?
    ensures var f := s.acts[a].pc.future; Step(s, a, false) == Revived(Goto(s, a, RegUnlock(f, false)), s.futures[f].kind)
  {
    var f := s.acts[a].pc.future;
    assert s.futures[f := s.futures[f]] == s.futures;
    assert Moved(s, a) == Goto(s, a, RegUnlock(f, false));
  }

  lemma OneRevived(y: Future, todo: seq<Op>)
    ensures Revived(One(y, RegUnlock(0, false), todo, PoolQueued(), []), y.kind) == One(y, RegUnlock(0, false), todo, PoolAfterPush(), FreshWorkers(y.kind))
  {
    var s := One(y, RegUnlock(0, false), todo, PoolQueued(), []);
    assert s.acts == [Activation(Main, 0, todo, RegUnlock(0, false))];
    RevivedFresh(s, y.kind);
  }

  lemma OneReviveStep(y: Future, todo: seq<Op>)
    ensures var t := One(y, RegRevive(0), todo, PoolQueued(), []);
      Enabled(t, 0) && Step(t, 0, false) == One(y, RegUnlock(0, false), todo, PoolAfterPush(), FreshWorkers(y.kind))
  {
    var t := One(y, RegRevive(0), todo, PoolQueued(), []);
    OneRevived(y, todo);
    ReviveStep(t, 0);
    assert Goto(t, 0, RegUnlock(0, false)).acts == One(y, RegUnlock(0, false), todo, PoolQueued(), []).acts;
  }

  lemma OnePush(s0: State, y: Future, todo: seq<Op>)
    requires Path(s0, One(y, RegPush(0), todo, EmptyPool(), []))
    ensures Path(s0, One(Pushed(y), RegUnlock(0, false), todo, PoolAfterPush(), FreshWorkers(y.kind)))
  {
    OnePushStep(y, todo);
    PathStep(s0, One(y, RegPush(0), todo, EmptyPool(), []), Act(0, false));
    OneReviveStep(Pushed(y), todo);
    PathStep(s0, One(Pushed(y), RegRevive(0), todo, PoolQueued(), []), Act(0, false));
  }

  /** n slots filled, of an empty pool. */
  lemma {:induction false} FreshUpTo(s: State, k: Kind, n: nat)
    requires |s.acts| == 1 && PoolOf(s, k).slots == EmptyPool().slots && n <= THREAD_MAX
    ensures RevivedUpTo(s, k, n) == WithPool(s, k, PoolOf(s, k).(slots := SlotsUpTo(n))).(acts := s.acts + Hires(k, n))
  {
    if n == 0 {
      assert EmptyPool().slots == SlotsUpTo(0);
      assert s.acts + Hires(k, 0) == s.acts;
    } else {
      FreshUpTo(s, k, n - 1);
      assert SlotsUpTo(n - 1)[n - 1 := Some(n)] == SlotsUpTo(n);
      assert s.acts + Hires(k, n - 1) + [Activation(Worker(k), n, [], WkPop)] == s.acts + Hires(k, n);
    }
  }

  lemma RevivedFresh(s: State, k: Kind)
    requires |s.acts| == 1 && PoolOf(s, k) == PoolQueued()
    ensures Revived(s, k) == WithPool(s, k, PoolAfterPush()).(acts := s.acts + FreshWorkers(k))
  {
    FreshUpTo(s, k, THREAD_MAX);
  }

  /** An outcome for which the block of this side is due. */
  function OutcomeFor(side: Side): Outcome {
    if side.OnSuccess? then Ok else Error
  }

  /** From the unlocked test to the readiness test. */
  lemma OneWrites(s0: State, y: Future, side: Side, block: Block, todo: seq<Op>, pool: Pool, ws: seq<Activation>)
    requires y.holder.None? && BlockOf(y, side).None?
    requires Path(s0, One(y, RegCheck(0, side, block), todo, pool, ws))
    ensures Path(s0, One(BlockWritten(Locked(y, 0), side, block), RegTest(0, side, BlockOf(y, Other(side)).None?), todo, pool, ws))
  {
    OneTo(s0, y, RegCheck(0, side, block), y, RegLock(0, side, block), todo, pool, ws);
    OneTo(s0, y, RegLock(0, side, block), Locked(y, 0), RegWrite(0, side, block), todo, pool, ws);
    OneTo(s0, Locked(y, 0), RegWrite(0, side, block), BlockWritten(Locked(y, 0), side, block),
          RegTest(0, side, BlockOf(y, Other(side)).None?), todo, pool, ws);
  }

  /** A registration before the driver resolved: the future is queued and the workers are created. */
  lemma OneRegistersPending(s0: State, y: Future, side: Side, block: Block, todo: seq<Op>)
    requires y == Created(y.kind)
    requires Path(s0, One(y, Idle, [Register(0, side, block)] + todo, EmptyPool(), []))
    ensures Path(s0, One(Pushed(BlockWritten(y, side, block)), Idle, todo, PoolAfterPush(), FreshWorkers(y.kind)))
  {
    OneStart(s0, y, [Register(0, side, block)] + todo, EmptyPool(), []);
    assert ([Register(0, side, block)] + todo)[1..] == todo;
    OneWritesPending(s0, y, side, block, todo);
    var written := BlockWritten(Locked(y, 0), side, block);
    OnePush(s0, written, todo);
    assert Unlocked(Pushed(written)) == Pushed(BlockWritten(y, side, block));
    OneTo(s0, Pushed(written), RegUnlock(0, false), Unlocked(Pushed(written)), Idle, todo, PoolAfterPush(), FreshWorkers(y.kind));
  }

  lemma OneWritesPending(s0: State, y: Future, side: Side, block: Block, todo: seq<Op>)
    requires y == Created(y.kind)
    requires Path(s0, One(y, RegCheck(0, side, block), todo, EmptyPool(), []))
    ensures Path(s0, One(BlockWritten(Locked(y, 0), side, block), RegPush(0), todo, EmptyPool(), []))
  {
    var written := BlockWritten(Locked(y, 0), side, block);
    OneWrites(s0, y, side, block, todo, EmptyPool(), []);
    OneTo(s0, written, RegTest(0, side, true), written, RegPush(0), todo, EmptyPool(), []);
  }

  lemma OneWritesReady(s0: State, y: Future, side: Side, block: Block, todo: seq<Op>, pool: Pool, ws: seq<Activation>)
    requires y.outcome == OutcomeFor(Other(side)) && y.holder.None? && BlockOf(y, side).None? && BlockOf(y, Other(side)).Some?
    requires Path(s0, One(y, Idle, [Register(0, side, block)] + todo, pool, ws))
    ensures Path(s0, One(FoundReady(BlockWritten(Locked(y, 0), side, block)), RegPost(0, side), todo, pool, ws))
  {
    OneStart(s0, y, [Register(0, side, block)] + todo, pool, ws);
    assert ([Register(0, side, block)] + todo)[1..] == todo;
    var written := BlockWritten(Locked(y, 0), side, block);
    OneWrites(s0, y, side, block, todo, pool, ws);
    OneTo(s0, written, RegTest(0, side, false), FoundReady(written), RegPost(0, side), todo, pool, ws);
  }

  lemma OnePosts(s0: State, y: Future, side: Side, todo: seq<Op>, pool: Pool, ws: seq<Activation>)
    requires y.outcome == OutcomeFor(Other(side))
    requires Path(s0, One(y, RegPost(0, side), todo, pool, ws))
    ensures Path(s0, One(Unlocked(ReadyPosted(y)), Idle, todo, pool, ws))
  {
    OneTo(s0, y, RegPost(0, side), ReadyPosted(y), RegDecide(0, side), todo, pool, ws);
    OnePasses(s0, ReadyPosted(y), side, todo, pool, ws);
  }

  lemma OnePasses(s0: State, z: Future, side: Side, todo: seq<Op>, pool: Pool, ws: seq<Activation>)
    requires z.outcome == OutcomeFor(Other(side)) && Path(s0, One(z, RegDecide(0, side), todo, pool, ws))
    ensures Path(s0, One(Unlocked(z), Idle, todo, pool, ws))
  {
    OneTo(s0, z, RegDecide(0, side), z, RegUnlock(0, false), todo, pool, ws);
    OneTo(s0, z, RegUnlock(0, false), Unlocked(z), Idle, todo, pool, ws);
  }

  /** The other registration, after the driver resolved: it posts the semaphore and calls nothing. */
  lemma OneRegistersReady(s0: State, y: Future, side: Side, block: Block, todo: seq<Op>, pool: Pool, ws: seq<Activation>)
    requires y.outcome == OutcomeFor(Other(side)) && y.holder.None? && BlockOf(y, side).None? && BlockOf(y, Other(side)).Some?
    requires Path(s0, One(y, Idle, [Register(0, side, block)] + todo, pool, ws))
    ensures Path(s0, One(ReadyPosted(FoundReady(BlockWritten(y, side, block))), Idle, todo, pool, ws))
  {
    OneWritesReady(s0, y, side, block, todo, pool, ws);
    var found := FoundReady(BlockWritten(Locked(y, 0), side, block));
    OnePosts(s0, found, side, todo, pool, ws);
    assert Unlocked(ReadyPosted(found)) == ReadyPosted(FoundReady(BlockWritten(y, side, block)));
  }

  lemma OneEntersAwait(s0: State, y: Future, pool: Pool, ws: seq<Activation>)
    requires y.holder.None?
    requires Path(s0, One(y, Idle, [Await(0)], pool, ws))
    ensures Path(s0, One(Locked(y, 0), AwTest(0), [], pool, ws))
  {
    OneStart(s0, y, [Await(0)], pool, ws);
    assert [Await(0)][1..] == [];
    OneTo(s0, y, AwLock(0), Locked(y, 0), AwTest(0), [], pool, ws);
  }

  /** A first await of a resolved future comes to the semaphore. */
  lemma OneAwaits(s0: State, y: Future, pool: Pool, ws: seq<Activation>)
    requires y.outcome != Pending && y.holder.None? && !y.alreadyWaited && HasBlock(y)
    requires Path(s0, One(Locked(y, 0), AwTest(0), [], pool, ws))
    ensures Path(s0, One(FirstAwaited(y, 0), AwSem(0), [], pool, ws))
  {
    var z := FirstAwaited(y, 0);
    OneTo(s0, Locked(y, 0), AwTest(0), FirstAwaited(Locked(y, 0), 0), AwUnlock(0, true), [], pool, ws);
    assert Unlocked(FirstAwaited(Locked(y, 0), 0)) == z;
    OneTo(s0, FirstAwaited(Locked(y, 0), 0), AwUnlock(0, true), z, AwResolve(0), [], pool, ws);
    OneWaits(s0, z, pool, ws);
  }

  lemma OneWaits(s0: State, z: Future, pool: Pool, ws: seq<Activation>)
    requires z.outcome != Pending && HasBlock(z) && Path(s0, One(z, AwResolve(0), [], pool, ws))
    ensures Path(s0, One(z, AwSem(0), [], pool, ws))
  {
    OneTo(s0, z, AwResolve(0), z, AwCheck(0), [], pool, ws);
    OneTo(s0, z, AwCheck(0), z, AwSem(0), [], pool, ws);
  }

  // ---- await before the callback ----

  /** One thread registers a block for each outcome, and then awaits. */
  function TwoBlocks(kind: Kind, side: Side, first: Block, second: Block): State {
    One(Created(kind), Idle, [Register(0, side, first), Register(0, Other(side), second), Await(0)], EmptyPool(), [])
  }

  /** The future once both are registered, if the driver resolved it in between with the outcome of the first. */
  function BothRegistered(kind: Kind, side: Side, first: Block, second: Block): Future {
    var resolved := Resolved(Pushed(BlockWritten(Created(kind), side, first)), OutcomeFor(side));
    ReadyPosted(FoundReady(BlockWritten(resolved, Other(side), second)))
  }

  /** The await is entered. */
  function TwoBlocksEntry(kind: Kind, side: Side, first: Block, second: Block): State {
    One(Locked(BothRegistered(kind, side, first, second), 0), AwTest(0), [], PoolAfterPush(), FreshWorkers(kind))
  }

  /** It has taken its permit and returned. */
  function TwoBlocksReturn(kind: Kind, side: Side, first: Block, second: Block): State {
    One(SemTaken(FirstAwaited(BothRegistered(kind, side, first, second), 0)), Idle, [], PoolAfterPush(), FreshWorkers(kind))
  }

  lemma TwoBlocksEnter(kind: Kind, side: Side, first: Block, second: Block)
    ensures Path(TwoBlocks(kind, side, first, second), TwoBlocksEntry(kind, side, first, second))
  {
    var s0 := TwoBlocks(kind, side, first, second);
    var later := [Register(0, Other(side), second), Await(0)];
    PathStart(s0);
    assert [Register(0, side, first)] + later == [Register(0, side, first), Register(0, Other(side), second), Await(0)];
    OneRegistersPending(s0, Created(kind), side, first, later);
    var pending := Pushed(BlockWritten(Created(kind), side, first));
    var t := One(pending, Idle, later, PoolAfterPush(), FreshWorkers(kind));
    PathStep(s0, t, Resolve(0, OutcomeFor(side)));
    var resolved := Resolved(pending, OutcomeFor(side));
    assert Apply(t, Resolve(0, OutcomeFor(side))) == One(resolved, Idle, later, PoolAfterPush(), FreshWorkers(kind));
    assert later == [Register(0, Other(side), second)] + [Await(0)];
    assert Other(Other(side)) == side;
    OneRegistersReady(s0, resolved, Other(side), second, [Await(0)], PoolAfterPush(), FreshWorkers(kind));
    OneEntersAwait(s0, BothRegistered(kind, side, first, second), PoolAfterPush(), FreshWorkers(kind));
  }

  lemma TwoBlocksGoOn(kind: Kind, side: Side, first: Block, second: Block)
    ensures Path(TwoBlocksEntry(kind, side, first, second), TwoBlocksReturn(kind, side, first, second))
  {
    var s1, y := TwoBlocksEntry(kind, side, first, second), BothRegistered(kind, side, first, second);
    PathStart(s1);
    OneAwaits(s1, y, PoolAfterPush(), FreshWorkers(kind));
    OneTo(s1, FirstAwaited(y, 0), AwSem(0), SemTaken(FirstAwaited(y, 0)), Idle, [], PoolAfterPush(), FreshWorkers(kind));
  }

  /**
   The pattern of README.md:152-163 on one thread, with the blocks in either order. When
   the driver resolves between the two registrations, the second one posts the semaphore
   without running anything, and the await takes that permit and returns before the due
   callback was called: the future is still queued. Whatever the two blocks are.
   */
  lemma AwaitCanReturnBeforeTheCallback(kind: Kind, side: Side, first: Block, second: Block)
    ensures var s0, s1, s := TwoBlocks(kind, side, first, second), TwoBlocksEntry(kind, side, first, second), TwoBlocksReturn(kind, side, first, second);
      && Reachable(s0, s1) && Path(s1, s)
      && s1.acts[0].pc == AwTest(0) && HasBlock(s1.futures[0]) && s1.futures[0].log.awaiter.None?
      && s.acts[0].pc == Idle && s.futures[0].log.waits == 1
      && s.futures[0].outcome == OutcomeFor(side) && s.futures[0].log.dueAtResolution && BlockOf(s.futures[0], side) == Some(first)
      && s.futures[0].log.calls == [] && PoolOf(s, kind).queue == [0]
      && s.futures[0].log.readyPaths == 1 && s.futures[0].log.interrupts == 0
  {
    TwoBlocksEnter(kind, side, first, second);
    TwoBlocksGoOn(kind, side, first, second);
    TwoBlocksFacts(kind, side, first, second);
    assert Initial(TwoBlocks(kind, side, first, second));
  }

  lemma TwoBlocksFacts(kind: Kind, side: Side, first: Block, second: Block)
    ensures var y := BothRegistered(kind, side, first, second);
      && HasBlock(y) && y.sem > 0 && y.outcome == OutcomeFor(side) && y.log.dueAtResolution && BlockOf(y, side) == Some(first)
      && y.log.calls == [] && y.log.readyPaths == 1 && y.log.interrupts == 0 && y.log.awaiter.None? && y.log.waits == 0
  {
  }

  // ---- deadlock without the discipline ----

  /** Thread a takes a step on future f that calls no block and pushes nothing. */
  lemma ManyTo(s0: State, ys: seq<Future>, xs: seq<Activation>, a: nat, f: nat, q: Pc, z: Future)
    requires f < |ys| && a < |xs| && Path(s0, Many(ys, xs)) && xs[a].role.Main?
    requires Ready(ys[f], xs[a].pc) && xs[a].pc.future == f && !WorkerPc(xs[a].pc)
    requires !xs[a].pc.RegPush? && !xs[a].pc.RegRevive?
    requires xs[a].pc.RegDecide? ==> !RegisterCalls(ys[f], xs[a].pc.side)
    requires xs[a].pc.RegLock? || xs[a].pc.AwLock? ==> ys[f].holder.None?
    requires (q, z) == Next(ys[f], a, xs[a].pc, |xs|)
    ensures Path(s0, Many(ys[f := z], xs[a := xs[a].(pc := q)]))
  {
    var s := Many(ys, xs);
    assert Enabled(s, a);
    assert Step(s, a, false) == Many(ys[f := z], xs[a := xs[a].(pc := q)]);
    PathStep(s0, s, Act(a, false));
  }

  /** Thread a at p, and future f as y. */
  function At(ys: seq<Future>, xs: seq<Activation>, f: nat, y: Future, a: nat, p: Pc): State
    requires f < |ys| && a < |xs|
  {
    Many(ys[f := y], xs[a := xs[a].(pc := p)])
  }

  lemma AtTo(s0: State, ys: seq<Future>, xs: seq<Activation>, f: nat, y: Future, z: Future, a: nat, p: Pc, q: Pc)
    requires f < |ys| && a < |xs| && xs[a].role.Main? && Path(s0, At(ys, xs, f, y, a, p))
    requires Ready(y, p) && p.future == f && !WorkerPc(p) && !p.RegPush? && !p.RegRevive?
    requires p.RegDecide? ==> !RegisterCalls(y, p.side)
    requires p.RegLock? || p.AwLock? ==> y.holder.None?
    requires (q, z) == Next(y, a, p, |xs|)
    ensures Path(s0, At(ys, xs, f, z, a, q))
  {
    ManyTo(s0, ys[f := y], xs[a := xs[a].(pc := p)], a, f, q, z);
    assert ys[f := y][f := z] == ys[f := z];
    assert xs[a := xs[a].(pc := p)][a := xs[a].(pc := q)] == xs[a := xs[a].(pc := q)];
  }

  function Opened(op: Op): Pc {
    if op.Register? then RegCheck(op.future, op.side, op.block) else AwLock(op.future)
  }

  /** Thread a starts its next operation. */
  lemma AtStart(s0: State, ys: seq<Future>, xs: seq<Activation>, f: nat, a: nat, op: Op, rest: seq<Op>)
    requires f < |ys| && a < |xs| && Path(s0, Many(ys, xs)) && xs[a] == Activation(Main, a, [op] + rest, Idle) && op.future == f
    ensures Path(s0, At(ys, xs[a := Activation(Main, a, rest, Idle)], f, ys[f], a, Opened(op)))
  {
    var s := Many(ys, xs);
    assert xs[a].todo[1..] == rest && ys[f := ys[f]] == ys;
    assert Enabled(s, a);
    assert xs[a := Activation(Main, a, rest, Opened(op))] == xs[a := Activation(Main, a, rest, Idle)][a := Activation(Main, a, rest, Opened(op))];
    assert Step(s, a, false) == Many(ys, xs[a := Activation(Main, a, rest, Opened(op))]);
    PathStep(s0, s, Act(a, false));
  }

  /** From the lock to the readiness test, on a resolved future. */
  lemma AtWrites(s0: State, ys: seq<Future>, xs: seq<Activation>, f: nat, y: Future, a: nat, side: Side, block: Block)
    requires f < |ys| && a < |xs| && xs[a].role.Main? && y.outcome != Pending && y.holder.None?
    requires Path(s0, At(ys, xs, f, y, a, RegLock(f, side, block)))
    ensures Path(s0, At(ys, xs, f, ReadyPosted(FoundReady(BlockWritten(Locked(y, a), side, block))), a, RegDecide(f, side)))
  {
    var written := BlockWritten(Locked(y, a), side, block);
    var wakeup := BlockOf(y, Other(side)).None?;
    AtTo(s0, ys, xs, f, y, Locked(y, a), a, RegLock(f, side, block), RegWrite(f, side, block));
    AtTo(s0, ys, xs, f, Locked(y, a), written, a, RegWrite(f, side, block), RegTest(f, side, wakeup));
    AtPosts(s0, ys, xs, f, written, a, side, wakeup);
  }

  lemma AtPosts(s0: State, ys: seq<Future>, xs: seq<Activation>, f: nat, z: Future, a: nat, side: Side, wakeup: bool)
    requires f < |ys| && a < |xs| && xs[a].role.Main? && z.outcome != Pending && Path(s0, At(ys, xs, f, z, a, RegTest(f, side, wakeup)))
    ensures Path(s0, At(ys, xs, f, ReadyPosted(FoundReady(z)), a, RegDecide(f, side)))
  {
    AtTo(s0, ys, xs, f, z, FoundReady(z), a, RegTest(f, side, wakeup), RegPost(f, side));
    AtTo(s0, ys, xs, f, FoundReady(z), ReadyPosted(FoundReady(z)), a, RegPost(f, side), RegDecide(f, side));
  }

  function ReadyRegistered(y: Future, side: Side, block: Block): Future {
    ReadyPosted(FoundReady(BlockWritten(y, side, block)))
  }

  /** Thread a registers, past the test, a block for the outcome that did not come about. */
  lemma AtRegisters(s0: State, ys: seq<Future>, xs: seq<Activation>, f: nat, y: Future, a: nat, side: Side, block: Block)
    requires f < |ys| && a < |xs| && xs[a].role.Main? && y.outcome == OutcomeFor(Other(side)) && y.holder.None?
    requires Path(s0, At(ys, xs, f, y, a, RegLock(f, side, block)))
    ensures Path(s0, At(ys, xs, f, ReadyRegistered(y, side, block), a, Idle))
  {
    AtWrites(s0, ys, xs, f, y, a, side, block);
    assert Unlocked(ReadyRegistered(Locked(y, a), side, block)) == ReadyRegistered(y, side, block);
    AtPasses(s0, ys, xs, f, ReadyRegistered(Locked(y, a), side, block), a, side);
  }

  lemma AtPasses(s0: State, ys: seq<Future>, xs: seq<Activation>, f: nat, z: Future, a: nat, side: Side)
    requires f < |ys| && a < |xs| && xs[a].role.Main? && z.outcome == OutcomeFor(Other(side))
    requires Path(s0, At(ys, xs, f, z, a, RegDecide(f, side)))
    ensures Path(s0, At(ys, xs, f, Unlocked(z), a, Idle))
  {
    AtTo(s0, ys, xs, f, z, z, a, RegDecide(f, side), RegUnlock(f, false));
    AtTo(s0, ys, xs, f, z, Unlocked(z), a, RegUnlock(f, false), Idle);
  }

  lemma AtAwaits(s0: State, ys: seq<Future>, xs: seq<Activation>, f: nat, y: Future, a: nat)
    requires f < |ys| && a < |xs| && xs[a].role.Main? && y.outcome != Pending && HasBlock(y)
    requires Path(s0, At(ys, xs, f, y, a, AwResolve(f)))
    ensures Path(s0, At(ys, xs, f, y, a, AwSem(f)))
  {
    AtTo(s0, ys, xs, f, y, y, a, AwResolve(f), AwCheck(f));
    AtTo(s0, ys, xs, f, y, y, a, AwCheck(f), AwSem(f));
  }

  /** The future after a thread registered a block on it, resolved with that block's outcome, and is running it. */
  function RunningOwnBlock(y: Future, a: nat, side: Side, block: Block): Future {
    Invoked(ReadyPosted(FoundReady(BlockWritten(Locked(y, a), side, block))), side)
  }

  function RunningXs(xs: seq<Activation>, f: nat, a: nat, block: Block): seq<Activation>
    requires a < |xs|
  {
    xs[a := xs[a].(pc := RegRun(f, |xs|))] + [Activation(Callback(a, f), xs[a].thread, block.body, Idle)]
  }

  lemma AtCalls(s0: State, ys: seq<Future>, xs: seq<Activation>, f: nat, y: Future, a: nat, side: Side, block: Block)
    requires f < |ys| && a < |xs| && xs[a].role.Main? && RegisterCalls(y, side) && BlockOf(y, side) == Some(block)
    requires Path(s0, At(ys, xs, f, y, a, RegDecide(f, side)))
    ensures Path(s0, Many(ys[f := Invoked(y, side)], RunningXs(xs, f, a, block)))
  {
    var s := At(ys, xs, f, y, a, RegDecide(f, side));
    assert Enabled(s, a);
    assert Moved(s, a) == Many(ys[f := Invoked(y, side)], xs[a := xs[a].(pc := RegRun(f, |xs|))]) by {
      assert ys[f := y][f := Invoked(y, side)] == ys[f := Invoked(y, side)];
      assert s.acts[a := s.acts[a].(pc := RegRun(f, |xs|))] == xs[a := xs[a].(pc := RegRun(f, |xs|))];
    }
    assert StepOn(s, a) == Many(ys[f := Invoked(y, side)], RunningXs(xs, f, a, block));
    PathStep(s0, s, Act(a, false));
  }

  /** Thread a registers a block on a resolved future, and calls it. */
  lemma ManyRegister(s0: State, ys: seq<Future>, xs: seq<Activation>, f: nat, a: nat, side: Side, block: Block, rest: seq<Op>)
    requires f < |ys| && a < |xs| && Path(s0, Many(ys, xs))
    requires ys[f].outcome == OutcomeFor(side) && ys[f].holder.None? && BlockOf(ys[f], side).None? && !ys[f].yielded
    requires xs[a] == Activation(Main, a, [Register(f, side, block)] + rest, Idle)
    ensures Path(s0, Many(ys[f := RunningOwnBlock(ys[f], a, side, block)],
                          RunningXs(xs[a := Activation(Main, a, rest, Idle)], f, a, block)))
  {
    var zs := xs[a := Activation(Main, a, rest, Idle)];
    AtStart(s0, ys, xs, f, a, Register(f, side, block), rest);
    AtTo(s0, ys, zs, f, ys[f], ys[f], a, RegCheck(f, side, block), RegLock(f, side, block));
    AtWrites(s0, ys, zs, f, ys[f], a, side, block);
    AtCalls(s0, ys, zs, f, ReadyPosted(FoundReady(BlockWritten(Locked(ys[f], a), side, block))), a, side, block);
  }

  function CrossedBlock(other: nat): Block {
    Block([Await(other)])
  }

  /** Two threads, two execute futures; each thread's callback awaits the other thread's future. */
  function CrossedStart(): State {
    Many([Created(Execute), Created(Execute)],
         [Activation(Main, 0, [Register(0, OnSuccess, CrossedBlock(1))], Idle),
          Activation(Main, 1, [Register(1, OnSuccess, CrossedBlock(0))], Idle)])
  }

  function CrossedEnd(): State {
    var y := Resolved(Created(Execute), Ok);
    Many([RunningOwnBlock(y, 0, OnSuccess, CrossedBlock(1)), RunningOwnBlock(y, 1, OnSuccess, CrossedBlock(0))],
         [Activation(Main, 0, [], RegRun(0, 2)), Activation(Main, 1, [], RegRun(1, 3)),
          Activation(Callback(0, 0), 0, [], AwLock(1)), Activation(Callback(1, 1), 1, [], AwLock(0))])
  }

  lemma CrossedReachable()
    ensures Reachable(CrossedStart(), CrossedEnd())
  {
    var s0 := CrossedStart();
    var y := Resolved(Created(Execute), Ok);
    var y0 := RunningOwnBlock(y, 0, OnSuccess, CrossedBlock(1));
    var main1 := s0.acts[1];
    var xs := [Activation(Main, 0, [], RegRun(0, 2)), main1, Activation(Callback(0, 0), 0, [Await(1)], Idle)];
    CrossedFirst(xs);
    CrossedSecond(s0, xs);
    assert Initial(s0);
  }

  lemma CrossedFirst(xs: seq<Activation>)
    requires xs == [Activation(Main, 0, [], RegRun(0, 2)), CrossedStart().acts[1], Activation(Callback(0, 0), 0, [Await(1)], Idle)]
    ensures var y := Resolved(Created(Execute), Ok);
      Path(CrossedStart(), Many([RunningOwnBlock(y, 0, OnSuccess, CrossedBlock(1)), y], xs))
  {
    var s0 := CrossedStart();
    var y := Resolved(Created(Execute), Ok);
    CrossedResolved();
    assert s0.acts[0].todo == [Register(0, OnSuccess, CrossedBlock(1))] + [];
    ManyRegister(s0, [y, y], s0.acts, 0, 0, OnSuccess, CrossedBlock(1), []);
    assert RunningXs(s0.acts[0 := Activation(Main, 0, [], Idle)], 0, 0, CrossedBlock(1)) == xs;
    assert [y, y][0 := RunningOwnBlock(y, 0, OnSuccess, CrossedBlock(1))] == [RunningOwnBlock(y, 0, OnSuccess, CrossedBlock(1)), y];
  }

  lemma CrossedResolved()
    ensures var y := Resolved(Created(Execute), Ok); Path(CrossedStart(), Many([y, y], CrossedStart().acts))
  {
    var s0 := CrossedStart();
    var y := Resolved(Created(Execute), Ok);
    PathStart(s0);
    PathStep(s0, s0, Resolve(0, Ok));
    assert s0.futures[0 := y] == [y, Created(Execute)];
    PathStep(s0, Many([y, Created(Execute)], s0.acts), Resolve(1, Ok));
    assert [y, Created(Execute)][1 := y] == [y, y];
  }

  lemma CrossedSecond(s0: State, xs: seq<Activation>)
    requires xs == [Activation(Main, 0, [], RegRun(0, 2)), CrossedStart().acts[1], Activation(Callback(0, 0), 0, [Await(1)], Idle)]
    requires var y := Resolved(Created(Execute), Ok); Path(s0, Many([RunningOwnBlock(y, 0, OnSuccess, CrossedBlock(1)), y], xs))
    ensures Path(s0, CrossedEnd())
  {
    var y := Resolved(Created(Execute), Ok);
    var y0 := RunningOwnBlock(y, 0, OnSuccess, CrossedBlock(1));
    var y1 := RunningOwnBlock(y, 1, OnSuccess, CrossedBlock(0));
    assert xs[1].todo == [Register(1, OnSuccess, CrossedBlock(0))] + [];
    ManyRegister(s0, [y0, y], xs, 1, 1, OnSuccess, CrossedBlock(0), []);
    var zs := [xs[0], Activation(Main, 1, [], RegRun(1, 3)), xs[2], Activation(Callback(1, 1), 1, [Await(0)], Idle)];
    assert RunningXs(xs[1 := Activation(Main, 1, [], Idle)], 1, 1, CrossedBlock(0)) == zs;
    assert [y0, y][1 := y1] == [y0, y1];
    CrossedAwaits(s0, y0, y1, zs);
  }

  /**
   Without the discipline the system can deadlock with everything resolved, nothing
   raised and nothing registered twice: two callbacks of execute futures that await each
   other's future each wait for a mutex that the other's thread holds.
   */
  lemma CrossedCallbacksDeadlock()
    ensures var s := CrossedEnd();
      && Reachable(CrossedStart(), s)
      && Stuck(s) && !AllDone(s)
      && (forall f :: 0 <= f < |s.futures| ==> s.futures[f].outcome != Pending && !s.futures[f].log.duplicated)
      && s.prepare.raised == 0 && s.execute.raised == 0
  {
    CrossedReachable();
    CrossedStuck();
  }

  lemma CrossedStuck()
    ensures Stuck(CrossedEnd()) && !AllDone(CrossedEnd())
  {
    var s := CrossedEnd();
    forall a | 0 <= a < |s.acts| ensures !Enabled(s, a) {
      if a < 2 {
        assert Running(s.acts[a].pc);
      } else {
        CrossedWaits(a);
      }
    }
    assert s.acts[2].role.Callback? && !s.acts[2].pc.Ended?;
  }

  lemma CrossedWaits(a: nat)
    requires a == 2 || a == 3
    ensures !Enabled(CrossedEnd(), a)
  {
    var s := CrossedEnd();
    var other := 3 - a;
    assert s.acts[a].pc == AwLock(other) && s.futures[other].holder == Some(other);
    assert s.acts[other].thread == other && s.acts[a].thread == a - 2;
  }

  lemma CrossedAwaits(s0: State, y0: Future, y1: Future, zs: seq<Activation>)
    requires zs == [Activation(Main, 0, [], RegRun(0, 2)), Activation(Main, 1, [], RegRun(1, 3)),
                    Activation(Callback(0, 0), 0, [Await(1)], Idle), Activation(Callback(1, 1), 1, [Await(0)], Idle)]
    requires Path(s0, Many([y0, y1], zs))
    ensures Path(s0, Many([y0, y1], [zs[0], zs[1], Activation(Callback(0, 0), 0, [], AwLock(1)), Activation(Callback(1, 1), 1, [], AwLock(0))]))
  {
    var s := Many([y0, y1], zs);
    var t := Many([y0, y1], zs[2 := Activation(Callback(0, 0), 0, [], AwLock(1))]);
    assert zs[2].todo[1..] == [] && zs[3].todo[1..] == [];
    assert Step(s, 2, false) == t;
    PathStep(s0, s, Act(2, false));
    var u := Many([y0, y1], [zs[0], zs[1], Activation(Callback(0, 0), 0, [], AwLock(1)), Activation(Callback(1, 1), 1, [], AwLock(0))]);
    assert Step(t, 3, false) == u;
    PathStep(s0, t, Act(3, false));
  }

  // ---- a registration that overwrites another ----

  /** Two threads, each about to register a block for the same outcome of the same future. */
  function RaceStart(kind: Kind, side: Side, first: Block, second: Block): State {
    Many([Created(kind)], [Activation(Main, 0, [Register(0, side, first)], Idle), Activation(Main, 1, [Register(0, side, second)], Idle)])
  }

  function MainAt(a: nat, p: Pc): Activation {
    Activation(Main, a, [], p)
  }

  /** The future, resolved with the outcome that neither block is for. */
  function RaceFuture(kind: Kind, side: Side): Future {
    Resolved(Created(kind), OutcomeFor(Other(side)))
  }

  /** Both threads have passed the test. */
  lemma RaceBothPass(kind: Kind, side: Side, first: Block, second: Block)
    ensures Path(RaceStart(kind, side, first, second),
                 Many([RaceFuture(kind, side)], [MainAt(0, RegLock(0, side, first)), MainAt(1, RegLock(0, side, second))]))
  {
    var s0 := RaceStart(kind, side, first, second);
    var y := RaceFuture(kind, side);
    PathStart(s0);
    PathStep(s0, s0, Resolve(0, OutcomeFor(Other(side))));
    assert s0.futures[0 := y] == [y] && [y][0 := y] == [y];
    assert s0.acts[0].todo == [Register(0, side, first)] + [] && s0.acts[1].todo == [Register(0, side, second)] + [];
    RacePasses(s0, y, s0.acts, 0, side, first);
    var xs := [MainAt(0, RegLock(0, side, first)), s0.acts[1]];
    assert s0.acts[0 := MainAt(0, RegLock(0, side, first))] == xs;
    RacePasses(s0, y, xs, 1, side, second);
    assert xs[1 := MainAt(1, RegLock(0, side, second))] == [xs[0], MainAt(1, RegLock(0, side, second))];
  }

  lemma RacePasses(s0: State, y: Future, xs: seq<Activation>, a: nat, side: Side, block: Block)
    requires a < |xs| && Path(s0, Many([y], xs)) && xs[a] == Activation(Main, a, [Register(0, side, block)] + [], Idle)
    requires BlockOf(y, side).None?
    ensures Path(s0, Many([y], xs[a := MainAt(a, RegLock(0, side, block))]))
  {
    var zs := xs[a := MainAt(a, Idle)];
    AtStart(s0, [y], xs, 0, a, Register(0, side, block), []);
    AtTo(s0, [y], zs, 0, y, y, a, RegCheck(0, side, block), RegLock(0, side, block));
    assert zs[a := MainAt(a, RegLock(0, side, block))] == xs[a := MainAt(a, RegLock(0, side, block))] && [y][0 := y] == [y];
  }

  /**
   The second of two registrations for the same outcome need not raise: for any two
   blocks, both threads pass the test, both write, and both finish normally. The first
   block is lost.
   */
  lemma RacingRegistrationsBothPass(kind: Kind, side: Side, first: Block, second: Block)
    ensures var s0 := RaceStart(kind, side, first, second);
      var y := ReadyRegistered(ReadyRegistered(RaceFuture(kind, side), side, first), side, second);
      && Reachable(s0, Many([y], [MainAt(0, Idle), MainAt(1, Idle)]))
      && y.log.duplicated && BlockOf(y, side) == Some(second)
  {
    var s0 := RaceStart(kind, side, first, second);
    var y := RaceFuture(kind, side);
    var xs := [MainAt(0, RegLock(0, side, first)), MainAt(1, RegLock(0, side, second))];
    RaceBothPass(kind, side, first, second);
    assert xs[0 := MainAt(0, RegLock(0, side, first))] == xs && [y][0 := y] == [y];
    AtRegisters(s0, [y], xs, 0, y, 0, side, first);
    var z := ReadyRegistered(y, side, first);
    var zs := [MainAt(0, Idle), xs[1]];
    assert xs[0 := MainAt(0, Idle)] == zs && [y][0 := z] == [z] && [z][0 := z] == [z];
    assert zs[1 := MainAt(1, RegLock(0, side, second))] == zs;
    AtRegisters(s0, [z], zs, 0, z, 1, side, second);
    assert zs[1 := MainAt(1, Idle)] == [MainAt(0, Idle), MainAt(1, Idle)];
    assert [z][0 := ReadyRegistered(z, side, second)] == [ReadyRegistered(z, side, second)];
    assert Initial(s0);
  }

  // ---- a block registered after await was entered ----

  /**
   One thread does some registrations and then awaits; another one registers a block, and
   goes on; and there may be others.
   */
  datatype Late = Late(kind: Kind, before: seq<Op>, side: Side, block: Block, rest: seq<Op>, others: seq<seq<Op>>)

  /** The first two threads at these points, and the others before their first step. */
  function Cast(c: Late, first: Activation, second: Activation): seq<Activation> {
    [first, second] + seq(|c.others|, (i: nat) requires i < |c.others| => Activation(Main, 2 + i, c.others[i], Idle))
  }

  function Registrar(c: Late): Activation {
    Activation(Main, 1, [Register(0, c.side, c.block)] + c.rest, Idle)
  }

  function LateStart(c: Late): State {
    Many([Created(c.kind)], Cast(c, Activation(Main, 0, c.before + [Await(0)], Idle), Registrar(c)))
  }

  /** No registration by the awaiting thread, or one for the outcome that will not come about. */
  predicate OtherSideOnly(c: Late) {
    c.before == [] || (|c.before| == 1 && c.before[0].Register? && c.before[0].future == 0 && c.before[0].side == Other(c.side))
  }

  /** The future, resolved, with what the awaiting thread registered before. */
  function LateFuture(c: Late): Future
    requires OtherSideOnly(c)
  {
    var y := Resolved(Created(c.kind), OutcomeFor(c.side));
    if c.before == [] then y else ReadyRegistered(y, Other(c.side), c.before[0].block)
  }

  function LateEntry(c: Late): State
    requires OtherSideOnly(c)
  {
    Many([Locked(LateFuture(c), 0)], Cast(c, MainAt(0, AwTest(0)), Registrar(c)))
  }

  /** The callback of the second thread. */
  function LateChild(c: Late): nat {
    2 + |c.others|
  }

  function LateWait(c: Late): State
    requires OtherSideOnly(c)
  {
    Many([RunningOwnBlock(FirstAwaited(LateFuture(c), 0), 1, c.side, c.block)],
         Cast(c, MainAt(0, AwSem(0)), Activation(Main, 1, c.rest, RegRun(0, LateChild(c)))) + [Activation(Callback(1, 0), 1, c.block.body, Idle)])
  }

  /** The await has taken its permit and returned. */
  function LateReturn(c: Late): State
    requires OtherSideOnly(c)
  {
    Many([SemTaken(LateWait(c).futures[0])],
         Cast(c, MainAt(0, Idle), Activation(Main, 1, c.rest, RegRun(0, LateChild(c)))) + [Activation(Callback(1, 0), 1, c.block.body, Idle)])
  }

  lemma CastChanges(c: Late, x: Activation, z: Activation, x': Activation, z': Activation)
    ensures Cast(c, x, z)[0 := x'] == Cast(c, x', z) && Cast(c, x, z)[1 := z'] == Cast(c, x, z')
  {
  }

  /** The driver resolves the future, and the awaiting thread does its registration. */
  lemma LateBefore(c: Late)
    requires OtherSideOnly(c)
    ensures Path(LateStart(c), Many([LateFuture(c)], Cast(c, Activation(Main, 0, [Await(0)], Idle), Registrar(c))))
  {
    var s0 := LateStart(c);
    var y := Resolved(Created(c.kind), OutcomeFor(c.side));
    PathStart(s0);
    PathStep(s0, s0, Resolve(0, OutcomeFor(c.side)));
    assert s0.futures[0 := y] == [y];
    if c.before == [] {
      assert c.before + [Await(0)] == [Await(0)];
    } else {
      assert c.before == [Register(0, Other(c.side), c.before[0].block)] && Other(Other(c.side)) == c.side;
      LateRegisters(s0, c, y, Other(c.side), c.before[0].block);
    }
  }

  lemma LateRegisters(s0: State, c: Late, y: Future, side: Side, block: Block)
    requires y.outcome == OutcomeFor(Other(side)) && y.holder.None? && BlockOf(y, side).None?
    requires Path(s0, Many([y], Cast(c, Activation(Main, 0, [Register(0, side, block)] + [Await(0)], Idle), Registrar(c))))
    ensures Path(s0, Many([ReadyRegistered(y, side, block)], Cast(c, Activation(Main, 0, [Await(0)], Idle), Registrar(c))))
  {
    var x, x' := Activation(Main, 0, [Register(0, side, block)] + [Await(0)], Idle), Activation(Main, 0, [Await(0)], Idle);
    var zs := Cast(c, x', Registrar(c));
    AtStart(s0, [y], Cast(c, x, Registrar(c)), 0, 0, Register(0, side, block), [Await(0)]);
    CastChanges(c, x, Registrar(c), x', Registrar(c));
    AtTo(s0, [y], zs, 0, y, y, 0, RegCheck(0, side, block), RegLock(0, side, block));
    AtRegisters(s0, [y], zs, 0, y, 0, side, block);
    assert zs[0 := x'] == zs && [y][0 := ReadyRegistered(y, side, block)] == [ReadyRegistered(y, side, block)];
  }

  lemma LateEnters(c: Late)
    requires OtherSideOnly(c)
    ensures Path(LateStart(c), LateEntry(c))
  {
    var s0, y := LateStart(c), LateFuture(c);
    var x := Activation(Main, 0, [Await(0)], Idle);
    LateBefore(c);
    assert [Await(0)] == [Await(0)] + [];
    AtStart(s0, [y], Cast(c, x, Registrar(c)), 0, 0, Await(0), []);
    CastChanges(c, x, Registrar(c), MainAt(0, Idle), Registrar(c));
    AtTo(s0, [y], Cast(c, MainAt(0, Idle), Registrar(c)), 0, y, Locked(y, 0), 0, AwLock(0), AwTest(0));
    CastChanges(c, MainAt(0, Idle), Registrar(c), MainAt(0, AwTest(0)), Registrar(c));
    assert [y][0 := Locked(y, 0)] == [Locked(y, 0)];
  }

  lemma AtIsFirst(s0: State, ys: seq<Future>, xs: seq<Activation>, f: nat, y: Future, a: nat)
    requires f < |ys| && a < |xs| && xs[a].role.Main? && y.holder.None? && !y.alreadyWaited
    requires Path(s0, At(ys, xs, f, Locked(y, a), a, AwTest(f)))
    ensures Path(s0, At(ys, xs, f, FirstAwaited(y, a), a, AwResolve(f)))
  {
    var z := FirstAwaited(Locked(y, a), a);
    assert Unlocked(z) == FirstAwaited(y, a);
    AtTo(s0, ys, xs, f, Locked(y, a), z, a, AwTest(f), AwUnlock(f, true));
    AtTo(s0, ys, xs, f, z, FirstAwaited(y, a), a, AwUnlock(f, true), AwResolve(f));
  }

  lemma LateWaits(c: Late)
    requires OtherSideOnly(c)
    ensures Path(LateEntry(c), Many([FirstAwaited(LateFuture(c), 0)], Cast(c, MainAt(0, AwResolve(0)), Registrar(c))))
  {
    var s1 := LateEntry(c);
    var y, z := Locked(LateFuture(c), 0), FirstAwaited(LateFuture(c), 0);
    PathStart(s1);
    assert s1.acts[0 := MainAt(0, AwTest(0))] == s1.acts && [y][0 := y] == [y];
    AtIsFirst(s1, [y], s1.acts, 0, LateFuture(c), 0);
    CastChanges(c, MainAt(0, AwTest(0)), Registrar(c), MainAt(0, AwResolve(0)), Registrar(c));
    assert [y][0 := z] == [z];
  }

  /** The second thread finds the future resolved, and starts its block. */
  lemma LateCalls(c: Late)
    requires OtherSideOnly(c)
    ensures Path(LateEntry(c),
                 Many(LateWait(c).futures,
                      Cast(c, MainAt(0, AwResolve(0)), Activation(Main, 1, c.rest, RegRun(0, LateChild(c)))) + [Activation(Callback(1, 0), 1, c.block.body, Idle)]))
  {
    var y := FirstAwaited(LateFuture(c), 0);
    var zs := Cast(c, MainAt(0, AwResolve(0)), Registrar(c));
    LateWaits(c);
    ManyRegister(LateEntry(c), [y], zs, 0, 1, c.side, c.block, c.rest);
    var z := RunningOwnBlock(y, 1, c.side, c.block);
    var x := Activation(Main, 1, c.rest, Idle);
    CastChanges(c, MainAt(0, AwResolve(0)), Registrar(c), MainAt(0, AwResolve(0)), x);
    CastChanges(c, MainAt(0, AwResolve(0)), x, MainAt(0, AwResolve(0)), x.(pc := RegRun(0, LateChild(c))));
    assert [y][0 := z] == [z];
  }

  lemma CastWithChild(c: Late, x: Activation, z: Activation, x': Activation, child: Activation)
    ensures (Cast(c, x, z) + [child])[0 := x'] == Cast(c, x', z) + [child]
  {
  }

  /** The last three steps of the await, among any activations. */
  lemma PermitTaken(s0: State, z: Future, ws: seq<Activation>)
    requires |ws| > 0 && ws[0] == MainAt(0, AwResolve(0)) && Path(s0, Many([z], ws))
    requires z.outcome != Pending && HasBlock(z) && z.sem > 0
    ensures Path(s0, Many([SemTaken(z)], ws[0 := MainAt(0, Idle)]))
  {
    assert [z][0 := z] == [z] && [z][0 := SemTaken(z)] == [SemTaken(z)] && ws[0 := ws[0].(pc := AwResolve(0))] == ws;
    AtAwaits(s0, [z], ws, 0, z, 0);
    AtTo(s0, [z], ws, 0, z, SemTaken(z), 0, AwSem(0), Idle);
  }

  lemma LateRuns(c: Late)
    requires OtherSideOnly(c)
    ensures Path(LateEntry(c), LateReturn(c))
  {
    var x, child := Activation(Main, 1, c.rest, RegRun(0, LateChild(c))), Activation(Callback(1, 0), 1, c.block.body, Idle);
    LateCalls(c);
    PermitTaken(LateEntry(c), LateWait(c).futures[0], Cast(c, MainAt(0, AwResolve(0)), x) + [child]);
    CastWithChild(c, MainAt(0, AwResolve(0)), x, MainAt(0, Idle), child);
  }

  /**
   A block registered by another thread is enough to lose the order, alone or after one
   for the other outcome: once await is entered, it can find a permit and return while the
   callback is still running.
   */
  lemma AwaitCanReturnDuringTheCallback(c: Late)
    requires OtherSideOnly(c)
    ensures var s0, s1, s := LateStart(c), LateEntry(c), LateReturn(c);
      && Reachable(s0, s1) && Path(s1, s)
      && s1.acts[0].pc == AwTest(0) && s1.futures[0].log.awaiter.None? && BlockOf(s1.futures[0], c.side).None?
      && s.acts[0].pc == Idle && s.futures[0].log.waits == 1 && s.futures[0].log.interrupts == 0
      && s.futures[0].log.calls == [c.side] && s.futures[0].log.ended == 0 && LiveCallback(s, LateChild(c), 0)
  {
    LateEnters(c);
    LateRuns(c);
    LateFacts(c);
    assert Initial(LateStart(c));
  }

  lemma LateFacts(c: Late)
    requires OtherSideOnly(c)
    ensures BlockOf(LateEntry(c).futures[0], c.side).None? && LateEntry(c).futures[0].log.awaiter.None?
    ensures var s := LateReturn(c);
      && s.futures[0].log.waits == 1 && s.futures[0].log.interrupts == 0 && s.futures[0].log.calls == [c.side] && s.futures[0].log.ended == 0
      && LiveCallback(s, LateChild(c), 0)
  {
    assert LateFuture(c).log.calls == [] && LateFuture(c).log.interrupts == 0;
    assert LateReturn(c).acts[LateChild(c)] == Activation(Callback(1, 0), 1, c.block.body, Idle);
  }
}
