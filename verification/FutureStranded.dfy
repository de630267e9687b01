/**
 Why deadlock freedom asks for fewer than THREAD_MAX raising callbacks: with THREAD_MAX
 of them a pool has no worker left, and what still stands in its queue stays there
 until something else is pushed.
 */
module FutureStranded {
  import opened Prelude
  import opened FutureState
  import opened FutureMachine
  import opened FutureTally
  import opened FutureRegistrations
  import opened FutureProgress
  import opened FutureWitness

  /** One thread registers an inert block for the same outcome on each of count futures. */
  datatype Batch = Batch(kind: Kind, side: Side, count: nat)

  function Inert(): Block {
    Block([])
  }

  function Upto(n: nat): seq<nat> {
    seq(n, (i: nat) => i)
  }

  // ---- steps of one activation, in any state ----

  lemma MoveMove(s: State, a: nat, p: Pc, q: Pc, f: nat, y: Future, z: Future)
    requires a < |s.acts| && f < |s.futures|
    ensures Move(Move(s, a, p, f, y), a, q, f, z) == Move(s, a, q, f, z)
  {
    assert s.acts[a := s.acts[a].(pc := p)][a := s.acts[a].(pc := q)] == s.acts[a := s.acts[a].(pc := q)];
    assert s.futures[f := y][f := z] == s.futures[f := z];
  }

  /** The step at p on y has no effect besides its move. */
  predicate MovesOnly(y: Future, p: Pc) {
    && Ready(y, p) && !p.RegPush? && !p.RegRevive? && !p.RegDecide?
    && !p.WkDecide? && !(p.WkPost? && p.raised)
    && (p.RegLock? || p.AwLock? || p.WkLock? ==> y.holder.None?)
  }

  lemma PathAct(s0: State, s: State, a: nat, choice: bool, t: State)
    requires Path(s0, s) && Enabled(s, a) && Step(s, a, choice) == t
    ensures Path(s0, t)
  {
    PathStep(s0, s, Act(a, choice));
  }

  lemma MoveTo(s0: State, s: State, a: nat, f: nat, y: Future, p: Pc, z: Future, q: Pc)
    requires a < |s.acts| && f < |s.futures| && !s.acts[a].role.Callback? && Path(s0, Move(s, a, p, f, y))
    requires MovesOnly(y, p) && p.future == f && (q, z) == Next(y, a, p, |s.acts|)
    ensures Path(s0, Move(s, a, q, f, z))
  {
    var t := Move(s, a, p, f, y);
    MoveMove(s, a, p, q, f, y, z);
    assert Enabled(t, a) && Moved(t, a) == Move(s, a, q, f, z);
    assert Step(t, a, false) == Move(s, a, q, f, z);
    PathStep(s0, t, Act(a, false));
  }

  // ---- registrations, all pending ----

  function Rest(c: Batch, i: nat): seq<Op>
    requires i <= c.count
  {
    seq(c.count - i, (j: nat) => Register(i + j, c.side, Inert()))
  }

  function Waiting(c: Batch): Future {
    Pushed(BlockWritten(Created(c.kind), c.side, Inert()))
  }

  function Crew(c: Batch): seq<Activation> {
    Hires(c.kind, THREAD_MAX)
  }

  function CrewSlots(): seq<Option<nat>> {
    SlotsUpTo(THREAD_MAX)
  }

  function InPool(c: Batch, ys: seq<Future>, xs: seq<Activation>, pool: Pool): State {
    WithPool(State(ys, xs, EmptyPool(), EmptyPool()), c.kind, pool)
  }

  function QueuedPool(c: Batch, i: nat): Pool {
    Pool(Upto(i), if i == 0 then EmptyPool().slots else CrewSlots(), Upto(i), [], i, 0)
  }

  function QueuedFutures(c: Batch, i: nat): seq<Future> {
    seq(c.count, (j: nat) => if j < i then Waiting(c) else Created(c.kind))
  }

  function Hired(c: Batch, i: nat): seq<Activation> {
    if i == 0 then [] else Crew(c)
  }

  /** i of the futures have been registered on and queued. */
  function Enlisted(c: Batch, i: nat): State
    requires i <= c.count
  {
    InPool(c, QueuedFutures(c, i), [Activation(Main, 0, Rest(c, i), Idle)] + Hired(c, i), QueuedPool(c, i))
  }

  /** The same, with the thread in the next registration. */
  function Taking(c: Batch, i: nat): State
    requires i < c.count
  {
    InPool(c, QueuedFutures(c, i), [Activation(Main, 0, Rest(c, i + 1), Idle)] + Hired(c, i), QueuedPool(c, i))
  }

  lemma Takes(c: Batch, i: nat)
    requires i < c.count
    ensures Enabled(Enlisted(c, i), 0)
    ensures Step(Enlisted(c, i), 0, false) == Move(Taking(c, i), 0, RegCheck(i, c.side, Inert()), i, Created(c.kind))
  {
    var s := Enlisted(c, i);
    assert s.acts[0].todo[0] == Register(i, c.side, Inert());
    assert s.acts[0].todo[1..] == Rest(c, i + 1);
    assert s.futures[i := Created(c.kind)] == s.futures;
  }

  function WrittenOn(c: Batch): Future {
    BlockWritten(Locked(Created(c.kind), 0), c.side, Inert())
  }

  lemma TestsAndLocks(s0: State, t: State, f: nat, y: Future, side: Side, block: Block)
    requires t.acts != [] && t.acts[0].role.Main? && f < |t.futures| && BlockOf(y, side).None? && y.holder.None?
    requires Path(s0, Move(t, 0, RegCheck(f, side, block), f, y))
    ensures Path(s0, Move(t, 0, RegWrite(f, side, block), f, Locked(y, 0)))
  {
    MoveTo(s0, t, 0, f, y, RegCheck(f, side, block), y, RegLock(f, side, block));
    MoveTo(s0, t, 0, f, y, RegLock(f, side, block), Locked(y, 0), RegWrite(f, side, block));
  }

  lemma WritesPending(s0: State, t: State, f: nat, y: Future, side: Side, block: Block)
    requires t.acts != [] && t.acts[0].role.Main? && f < |t.futures| && y == Created(y.kind)
    requires Path(s0, Move(t, 0, RegCheck(f, side, block), f, y))
    ensures Path(s0, Move(t, 0, RegPush(f), f, BlockWritten(Locked(y, 0), side, block)))
  {
    var z := BlockWritten(Locked(y, 0), side, block);
    TestsAndLocks(s0, t, f, y, side, block);
    MoveTo(s0, t, 0, f, Locked(y, 0), RegWrite(f, side, block), z, RegTest(f, side, true));
    MoveTo(s0, t, 0, f, z, RegTest(f, side, true), z, RegPush(f));
  }

  lemma ComesToPush(s0: State, c: Batch, i: nat)
    requires i < c.count && Path(s0, Enlisted(c, i))
    ensures Path(s0, Move(Taking(c, i), 0, RegPush(i), i, WrittenOn(c)))
  {
    Takes(c, i);
    PathAct(s0, Enlisted(c, i), 0, false, Move(Taking(c, i), 0, RegCheck(i, c.side, Inert()), i, Created(c.kind)));
    WritesPending(s0, Taking(c, i), i, Created(c.kind), c.side, Inert());
  }

  /** The thread is in its registration, past the push. */
  function Queueing(c: Batch, i: nat): State
    requires i < c.count
  {
    InPool(c, QueuedFutures(c, i), [Activation(Main, 0, Rest(c, i + 1), Idle)] + Hired(c, i),
           QueuedPool(c, i).(queue := Upto(i + 1), pushed := Upto(i + 1)))
  }

  lemma Pushes(c: Batch, i: nat)
    requires i < c.count <= QUEUE_MAX
    ensures var t := Move(Taking(c, i), 0, RegPush(i), i, WrittenOn(c));
      Enabled(t, 0) && Step(t, 0, false) == Move(Queueing(c, i), 0, RegRevive(i), i, Pushed(WrittenOn(c)))
  {
    var t := Move(Taking(c, i), 0, RegPush(i), i, WrittenOn(c));
    MoveMove(Taking(c, i), 0, RegPush(i), RegRevive(i), i, WrittenOn(c), Pushed(WrittenOn(c)));
    assert Moved(t, 0) == Move(Taking(c, i), 0, RegRevive(i), i, Pushed(WrittenOn(c)));
    assert Upto(i) + [i] == Upto(i + 1);
  }

  /** The thread is in its registration, past the revival pass. */
  function Staffed(c: Batch, i: nat): State
    requires i < c.count
  {
    InPool(c, QueuedFutures(c, i), [Activation(Main, 0, Rest(c, i + 1), Idle)] + Crew(c), QueuedPool(c, i + 1))
  }

  lemma {:induction false} LiveStay(s: State, k: Kind, n: nat)
    requires n <= |PoolOf(s, k).slots| && forall i :: 0 <= i < n ==> !SlotDead(s, PoolOf(s, k).slots[i])
    ensures RevivedUpTo(s, k, n) == s
  {
    if n > 0 {
      LiveStay(s, k, n - 1);
    }
  }

  lemma HiresCrew(c: Batch)
    requires 0 < c.count
    ensures var t := Move(Queueing(c, 0), 0, RegUnlock(0, false), 0, Pushed(WrittenOn(c)));
      Revived(t, c.kind) == Move(Staffed(c, 0), 0, RegUnlock(0, false), 0, Pushed(WrittenOn(c)))
  {
    var t := Move(Queueing(c, 0), 0, RegUnlock(0, false), 0, Pushed(WrittenOn(c)));
    FreshUpTo(t, c.kind, THREAD_MAX);
    assert Revived(t, c.kind).acts == Move(Staffed(c, 0), 0, RegUnlock(0, false), 0, Pushed(WrittenOn(c))).acts;
  }

  lemma KeepsCrew(c: Batch, i: nat)
    requires 0 < i < c.count
    ensures var t := Move(Queueing(c, i), 0, RegUnlock(i, false), i, Pushed(WrittenOn(c)));
      Revived(t, c.kind) == Move(Staffed(c, i), 0, RegUnlock(i, false), i, Pushed(WrittenOn(c)))
  {
    LiveStay(Move(Queueing(c, i), 0, RegUnlock(i, false), i, Pushed(WrittenOn(c))), c.kind, THREAD_MAX);
  }

  lemma Revives(c: Batch, i: nat)
    requires i < c.count
    ensures var t := Move(Queueing(c, i), 0, RegRevive(i), i, Pushed(WrittenOn(c)));
      Enabled(t, 0) && Step(t, 0, false) == Move(Staffed(c, i), 0, RegUnlock(i, false), i, Pushed(WrittenOn(c)))
  {
    var y := Pushed(WrittenOn(c));
    var t := Move(Queueing(c, i), 0, RegRevive(i), i, y);
    MoveMove(Queueing(c, i), 0, RegRevive(i), RegUnlock(i, false), i, y, y);
    if i == 0 {
      HiresCrew(c);
    } else {
      KeepsCrew(c, i);
    }
    assert t.futures[i] == y;
    ReviveStep(t, 0);
    assert t.futures[i := y] == t.futures;
    assert Goto(t, 0, RegUnlock(i, false)) == Move(Queueing(c, i), 0, RegUnlock(i, false), i, y);
  }

  lemma PushesAndRevives(s0: State, c: Batch, i: nat)
    requires i < c.count <= QUEUE_MAX && Path(s0, Move(Taking(c, i), 0, RegPush(i), i, WrittenOn(c)))
    ensures Path(s0, Move(Staffed(c, i), 0, RegUnlock(i, false), i, Pushed(WrittenOn(c))))
  {
    var t := Move(Queueing(c, i), 0, RegRevive(i), i, Pushed(WrittenOn(c)));
    Pushes(c, i);
    PathAct(s0, Move(Taking(c, i), 0, RegPush(i), i, WrittenOn(c)), 0, false, t);
    Revives(c, i);
    PathAct(s0, t, 0, false, Move(Staffed(c, i), 0, RegUnlock(i, false), i, Pushed(WrittenOn(c))));
  }

  lemma EnlistsNext(s0: State, c: Batch, i: nat)
    requires i < c.count <= QUEUE_MAX && Path(s0, Enlisted(c, i))
    ensures Path(s0, Enlisted(c, i + 1))
  {
    ComesToPush(s0, c, i);
    PushesAndRevives(s0, c, i);
    MoveTo(s0, Staffed(c, i), 0, i, Pushed(WrittenOn(c)), RegUnlock(i, false), Unlocked(Pushed(WrittenOn(c))), Idle);
    EnlistedNext(c, i);
  }

  lemma EnlistedNext(c: Batch, i: nat)
    requires i < c.count
    ensures Move(Staffed(c, i), 0, Idle, i, Unlocked(Pushed(WrittenOn(c)))) == Enlisted(c, i + 1)
  {
    assert Unlocked(Pushed(WrittenOn(c))) == Waiting(c);
    assert QueuedFutures(c, i)[i := Waiting(c)] == QueuedFutures(c, i + 1);
    assert Move(Staffed(c, i), 0, Idle, i, Waiting(c)).acts == Enlisted(c, i + 1).acts;
  }

  lemma EnlistsAll(s0: State, c: Batch, n: nat)
    requires n <= c.count <= QUEUE_MAX && Path(s0, Enlisted(c, 0))
    ensures Path(s0, Enlisted(c, n))
  {
    for i := 0 to n
      invariant Path(s0, Enlisted(c, i))
    {
      EnlistsNext(s0, c, i);
    }
  }

  // ---- the driver resolves all of them ----

  function DueNow(c: Batch): Future {
    Resolved(Waiting(c), OutcomeFor(c.side))
  }

  function DueUpTo(c: Batch, i: nat): State
    requires 0 < i <= c.count
  {
    Enlisted(c, c.count).(futures := seq(c.count, (j: nat) => if j < i then DueNow(c) else Waiting(c)))
  }

  lemma {:induction false} ResolvesAll(s0: State, c: Batch, i: nat)
    requires 0 < i <= c.count && Path(s0, Enlisted(c, c.count))
    ensures Path(s0, DueUpTo(c, i))
  {
    var s := if i == 1 then Enlisted(c, c.count) else DueUpTo(c, i - 1);
    if i > 1 {
      ResolvesAll(s0, c, i - 1);
    }
    assert s.futures[i - 1] == Waiting(c);
    assert s.futures[i - 1 := DueNow(c)] == DueUpTo(c, i).futures;
    PathStep(s0, s, Resolve(i - 1, OutcomeFor(c.side)));
  }

  // ---- the workers die one after the other ----

  function ClaimedBy(c: Batch, w: nat): Future {
    Locked(Claimed(DueNow(c), w), w)
  }

  function InCall(c: Batch, w: nat): Future {
    Invoked(Decided(ClaimedBy(c, w), w), c.side)
  }

  function Served(c: Batch, w: nat): Future {
    WorkerPosted(Unlocked(CallEnded(InCall(c, w))), w)
  }

  function ServedFutures(c: Batch, j: nat): seq<Future> {
    seq(c.count, (i: nat) => if i < j then Served(c, 1 + i) else DueNow(c))
  }

  function CrewLeft(c: Batch, j: nat): seq<Activation> {
    seq(THREAD_MAX, (i: nat) => Activation(Worker(c.kind), 1 + i, [], if i < j then Ended else WkPop))
  }

  function Calls(j: nat): seq<Activation> {
    seq(j, (i: nat) => Activation(Callback(1 + i, i), 1 + i, [], Ended))
  }

  function PoolLeft(c: Batch, j: nat): Pool
    requires j <= c.count
  {
    Pool(seq(c.count - j, (i: nat) => j + i), CrewSlots(), Upto(c.count), Upto(j), c.count, j)
  }

  /** j workers have served a future each, whose callback raised. */
  function Dying(c: Batch, j: nat): State
    requires j <= c.count
  {
    InPool(c, ServedFutures(c, j), [Activation(Main, 0, [], Idle)] + CrewLeft(c, j) + Calls(j), PoolLeft(c, j))
  }

  lemma DyingStarts(c: Batch)
    requires 0 < c.count
    ensures DueUpTo(c, c.count) == Dying(c, 0)
  {
    assert DueUpTo(c, c.count).futures == ServedFutures(c, 0);
    assert Rest(c, c.count) == [] && CrewLeft(c, 0) == Crew(c) && Calls(0) == [];
    assert [Activation(Main, 0, [], Idle)] + CrewLeft(c, 0) + Calls(0) == [Activation(Main, 0, [], Idle)] + Crew(c);
    assert Upto(c.count) == seq(c.count - 0, (i: nat) => 0 + i) && Upto(0) == [];
  }

  /** The next worker has popped the next future. */
  function Popping(c: Batch, j: nat): State
    requires j < c.count
  {
    WithPool(Dying(c, j), c.kind, PoolLeft(c, j + 1).(raised := j))
  }

  lemma Pops(c: Batch, j: nat)
    requires j < THREAD_MAX && j < c.count
    ensures Enabled(Dying(c, j), 1 + j)
    ensures Step(Dying(c, j), 1 + j, false) == Move(Popping(c, j), 1 + j, WkWait(j), j, Claimed(DueNow(c), 1 + j))
  {
    var s := Dying(c, j);
    assert s.acts[1 + j] == Activation(Worker(c.kind), 1 + j, [], WkPop);
    assert PoolLeft(c, j).queue[0] == j && PoolLeft(c, j).queue[1..] == PoolLeft(c, j + 1).queue;
    assert Upto(j) + [j] == Upto(j + 1);
  }

  lemma WorkerLocks(s0: State, s: State, w: nat, f: nat, y: Future)
    requires w < |s.acts| && s.acts[w].role.Worker? && f < |s.futures| && y.outcome != Pending && y.holder.None?
    requires Path(s0, Move(s, w, WkWait(f), f, y))
    ensures Path(s0, Move(s, w, WkDecide(f), f, Locked(y, w)))
  {
    MoveTo(s0, s, w, f, y, WkWait(f), y, WkLock(f));
    MoveTo(s0, s, w, f, y, WkLock(f), Locked(y, w), WkDecide(f));
  }

  lemma ComesToDecide(s0: State, c: Batch, j: nat)
    requires j < THREAD_MAX && j < c.count && Path(s0, Dying(c, j))
    ensures Path(s0, Move(Popping(c, j), 1 + j, WkDecide(j), j, ClaimedBy(c, 1 + j)))
  {
    ComesToWait(s0, c, j);
    assert Popping(c, j).acts[1 + j] == Activation(Worker(c.kind), 1 + j, [], WkPop);
    WorkerLocks(s0, Popping(c, j), 1 + j, j, Claimed(DueNow(c), 1 + j));
  }

  lemma ComesToWait(s0: State, c: Batch, j: nat)
    requires j < THREAD_MAX && j < c.count && Path(s0, Dying(c, j))
    ensures Path(s0, Move(Popping(c, j), 1 + j, WkWait(j), j, Claimed(DueNow(c), 1 + j)))
  {
    Pops(c, j);
    PathAct(s0, Dying(c, j), 1 + j, false, Move(Popping(c, j), 1 + j, WkWait(j), j, Claimed(DueNow(c), 1 + j)));
  }

  /** The callback of the next future has been called, and is at p. */
  function Calling(c: Batch, j: nat, p: Pc): State
    requires j < c.count
  {
    Spawned(Popping(c, j), Activation(Callback(1 + j, j), 1 + j, [], p))
  }

  lemma CallStarts(c: Batch, j: nat)
    requires j < THREAD_MAX && j < c.count
    ensures var t := Move(Popping(c, j), 1 + j, WkDecide(j), j, ClaimedBy(c, 1 + j));
      && Enabled(t, 1 + j)
      && Step(t, 1 + j, false) == Move(Calling(c, j, Idle), 1 + j, WkRun(j, 6 + j), j, InCall(c, 1 + j))
  {
    var s := Popping(c, j);
    var t := Move(s, 1 + j, WkDecide(j), j, ClaimedBy(c, 1 + j));
    MoveMove(s, 1 + j, WkDecide(j), WkRun(j, 6 + j), j, ClaimedBy(c, 1 + j), InCall(c, 1 + j));
    assert |t.acts| == 6 + j;
    assert Moved(t, 1 + j) == Move(s, 1 + j, WkRun(j, 6 + j), j, InCall(c, 1 + j));
    assert Moved(t, 1 + j).acts + [Activation(Callback(1 + j, j), 1 + j, [], Idle)]
           == Move(Calling(c, j, Idle), 1 + j, WkRun(j, 6 + j), j, InCall(c, 1 + j)).acts;
  }

  lemma CallRaises(c: Batch, j: nat)
    requires j < THREAD_MAX && j < c.count
    ensures var t := Move(Calling(c, j, Idle), 1 + j, WkRun(j, 6 + j), j, InCall(c, 1 + j));
      && Enabled(t, 6 + j)
      && Step(t, 6 + j, true) == Move(Calling(c, j, Ended), 1 + j, WkUnlock(j, true), j, CallEnded(InCall(c, 1 + j)))
  {
    var s := Calling(c, j, Idle);
    var t := Move(s, 1 + j, WkRun(j, 6 + j), j, InCall(c, 1 + j));
    var u := Move(s, 1 + j, WkUnlock(j, true), j, CallEnded(InCall(c, 1 + j)));
    MoveMove(s, 1 + j, WkRun(j, 6 + j), WkUnlock(j, true), j, InCall(c, 1 + j), CallEnded(InCall(c, 1 + j)));
    assert t.acts[6 + j] == Activation(Callback(1 + j, j), 1 + j, [], Idle) && t.acts[1 + j].pc == WkRun(j, 6 + j);
    assert ParentResumed(t, 1 + j, true) == u;
    assert u.acts[6 + j := Activation(Callback(1 + j, j), 1 + j, [], Ended)]
           == Move(Calling(c, j, Ended), 1 + j, WkUnlock(j, true), j, CallEnded(InCall(c, 1 + j))).acts;
  }

  lemma DyingNext(c: Batch, j: nat)
    requires j < THREAD_MAX && j < c.count
    ensures Move(Calling(c, j, Ended), 1 + j, Ended, j, Served(c, 1 + j)) == Dying(c, j + 1).(prepare := Popping(c, j).prepare, execute := Popping(c, j).execute)
  {
    assert ServedFutures(c, j)[j := Served(c, 1 + j)] == ServedFutures(c, j + 1);
    assert Move(Calling(c, j, Ended), 1 + j, Ended, j, Served(c, 1 + j)).acts == Dying(c, j + 1).acts;
  }

  lemma PostAndDeath(s: State, w: nat, f: nat, y: Future)
    requires w < |s.acts| && s.acts[w].role.Worker? && f < |s.futures|
    ensures var t, k := Move(s, w, WkPost(f, true), f, y), s.acts[w].role.kind;
      && Enabled(t, w)
      && Step(t, w, false) == WithPool(Move(s, w, Ended, f, WorkerPosted(y, w)), k, PoolOf(s, k).(raised := PoolOf(s, k).raised + 1))
  {
    var t := Move(s, w, WkPost(f, true), f, y);
    MoveMove(s, w, WkPost(f, true), Ended, f, y, WorkerPosted(y, w));
    assert Moved(t, w) == Move(s, w, Ended, f, WorkerPosted(y, w));
  }

  lemma Dies(c: Batch, j: nat)
    requires j < THREAD_MAX && j < c.count
    ensures var t := Move(Calling(c, j, Ended), 1 + j, WkPost(j, true), j, Unlocked(CallEnded(InCall(c, 1 + j))));
      Enabled(t, 1 + j) && Step(t, 1 + j, false) == Dying(c, j + 1)
  {
    var s := Calling(c, j, Ended);
    assert s.acts[1 + j] == Activation(Worker(c.kind), 1 + j, [], WkPop);
    PostAndDeath(s, 1 + j, j, Unlocked(CallEnded(InCall(c, 1 + j))));
    DyingNext(c, j);
  }

  lemma CallsAndRaises(s0: State, c: Batch, j: nat)
    requires j < THREAD_MAX && j < c.count && Path(s0, Move(Popping(c, j), 1 + j, WkDecide(j), j, ClaimedBy(c, 1 + j)))
    ensures Path(s0, Move(Calling(c, j, Ended), 1 + j, WkUnlock(j, true), j, CallEnded(InCall(c, 1 + j))))
  {
    var t := Move(Calling(c, j, Idle), 1 + j, WkRun(j, 6 + j), j, InCall(c, 1 + j));
    CallStarts(c, j);
    PathAct(s0, Move(Popping(c, j), 1 + j, WkDecide(j), j, ClaimedBy(c, 1 + j)), 1 + j, false, t);
    CallRaises(c, j);
    PathAct(s0, t, 6 + j, true, Move(Calling(c, j, Ended), 1 + j, WkUnlock(j, true), j, CallEnded(InCall(c, 1 + j))));
  }

  lemma DiesNext(s0: State, c: Batch, j: nat)
    requires j < THREAD_MAX && j < c.count && Path(s0, Dying(c, j))
    ensures Path(s0, Dying(c, j + 1))
  {
    var y := CallEnded(InCall(c, 1 + j));
    ComesToDecide(s0, c, j);
    CallsAndRaises(s0, c, j);
    MoveTo(s0, Calling(c, j, Ended), 1 + j, j, y, WkUnlock(j, true), Unlocked(y), WkPost(j, true));
    Dies(c, j);
    PathAct(s0, Move(Calling(c, j, Ended), 1 + j, WkPost(j, true), j, Unlocked(y)), 1 + j, false, Dying(c, j + 1));
  }

  lemma {:induction false} AllDie(c: Batch, j: nat)
    requires j <= THREAD_MAX < c.count <= QUEUE_MAX
    ensures Path(Enlisted(c, 0), Dying(c, j))
  {
    if j == 0 {
      PathStart(Enlisted(c, 0));
      EnlistsAll(Enlisted(c, 0), c, c.count);
      ResolvesAll(Enlisted(c, 0), c, c.count);
      DyingStarts(c);
    } else {
      AllDie(c, j - 1);
      DiesNext(Enlisted(c, 0), c, j - 1);
    }
  }

  // ---- the program, and where it ends ----

  lemma {:induction false} RestRegisters(c: Batch, i: nat, f: nat, sd: Side)
    requires i <= c.count
    ensures OpsRegs(Rest(c, i), f, sd) == if i <= f < c.count && sd == c.side then 1 else 0
    decreases c.count - i
  {
    if i < c.count {
      assert Rest(c, i)[0] == Register(i, c.side, Inert()) && Rest(c, i)[1..] == Rest(c, i + 1);
      assert BlockRegs(Inert(), f, sd) == 0;
      RestRegisters(c, i + 1, f, sd);
    }
  }

  lemma {:induction false} FreshStored(ys: seq<Future>, f: nat, sd: Side)
    requires forall i :: 0 <= i < |ys| ==> ys[i] == Created(ys[i].kind)
    ensures Sum(ys, StoredToCome(f, sd)) == 0
    decreases ys
  {
    if ys != [] {
      FreshStored(ys[..|ys| - 1], f, sd);
    }
  }

  lemma StartActs(c: Batch, f: nat, sd: Side)
    ensures Sum(Enlisted(c, 0).acts, ActsToCome(f, sd)) == OpsRegs(Rest(c, 0), f, sd)
  {
    var x := Activation(Main, 0, Rest(c, 0), Idle);
    assert Enlisted(c, 0).acts == [x];
    SumOfOne(x, ActsToCome(f, sd));
  }

  lemma StartFutures(c: Batch, f: nat, sd: Side)
    ensures Sum(Enlisted(c, 0).futures, StoredToCome(f, sd)) == 0
  {
    var ys := Enlisted(c, 0).futures;
    assert forall i :: 0 <= i < |ys| ==> ys[i] == Created(c.kind);
    FreshStored(ys, f, sd);
  }

  lemma StartRegistersOnce(c: Batch, f: nat)
    requires f < c.count
    ensures RegistersOnce(Enlisted(c, 0), f)
  {
    assert Enlisted(c, 0).futures[f] == Created(c.kind);
    forall sd: Side ensures Registrations(Enlisted(c, 0), f, sd) <= 1 {
      StartActs(c, f, sd);
      StartFutures(c, f, sd);
      RestRegisters(c, 0, f, sd);
    }
  }

  lemma DyingStuck(c: Batch)
    requires THREAD_MAX < c.count
    ensures Stuck(Dying(c, THREAD_MAX))
  {
    var s := Dying(c, THREAD_MAX);
    forall a | 0 <= a < |s.acts| ensures !Enabled(s, a) {
      if a > 0 {
        assert s.acts[a].pc.Ended?;
      }
    }
  }

  /**
   For either pool, either outcome and any number of futures beyond THREAD_MAX that the
   queue can hold: a disciplined program that registers once on each future, whose
   futures are all resolved, comes to a state where nothing can step and futures are
   still queued, once exactly THREAD_MAX callbacks have raised.
   */
  lemma RaisingCallbacksStrandTheQueue(c: Batch)
    requires 5 < c.count <= 100
    ensures var s0, s := Enlisted(c, 0), Dying(c, 5);
      && Reachable(s0, s) && Disciplined(s0)
      && (forall f :: 0 <= f < |s0.futures| ==> RegistersOnce(s0, f))
      && (forall f :: 0 <= f < |s.futures| ==> s.futures[f].outcome != Pending)
      && PoolOf(s, c.kind).raised == 5 && s.prepare.raised + s.execute.raised == 5
      && Stuck(s) && !AllDone(s)
      && PoolOf(s, c.kind).queue == seq(c.count - 5, (i: nat) => 5 + i)
  {
    AllDie(c, THREAD_MAX);
    BatchDisciplined(c);
    DyingFacts(c);
    forall f | 0 <= f < c.count ensures RegistersOnce(Enlisted(c, 0), f) {
      StartRegistersOnce(c, f);
    }
  }

  lemma DyingFacts(c: Batch)
    requires THREAD_MAX < c.count
    ensures var s := Dying(c, THREAD_MAX);
      && (forall f :: 0 <= f < |s.futures| ==> s.futures[f].outcome != Pending)
      && s.prepare.raised + s.execute.raised == THREAD_MAX
      && Stuck(s) && !AllDone(s)
  {
    DyingStuck(c);
    assert PoolLeft(c, THREAD_MAX).queue[0] == THREAD_MAX;
  }

  lemma BatchDisciplined(c: Batch)
    ensures Initial(Enlisted(c, 0)) && Disciplined(Enlisted(c, 0))
  {
    var s := Enlisted(c, 0);
    assert Upto(0) == [] && |s.acts| == 1 && s.acts[0] == Activation(Main, 0, Rest(c, 0), Idle);
    assert QueuedPool(c, 0) == EmptyPool();
    assert forall i :: 0 <= i < |s.futures| ==> s.futures[i] == Created(c.kind);
    assert ActDisciplined(Kinds(s), s.acts[0]);
  }
}
