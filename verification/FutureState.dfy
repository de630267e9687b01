/**
 One Future object: its fields, the atomic updates that the C code makes to them,
 and the program counters of the three procedures that run on it (registration of
 a block, await, and the pool worker). The invariants of a single future are here;
 the system of many futures and threads is in FutureMachine.
 */
module FutureState {
  import opened Prelude

  datatype Kind = Prepare | Execute

  /** Which of the two block fields. */
  datatype Side = OnSuccess | OnFailure

  /** What the driver has made of the request so far. It leaves Pending once and for all. */
  datatype Outcome = Pending | Ok | Error

  /** A Ruby block, as the list of operations it performs on futures. */
  datatype Block = Block(body: seq<Op>)

  datatype Op = Register(future: nat, side: Side, block: Block) | Await(future: nat)

  /** The struct CassandraFuture, the driver's outcome, and a log of what has happened. */
  datatype Future = Future(
    kind: Kind,
    onSuccess: Option<Block>,
    onFailure: Option<Block>,
    holder: Option<nat>,       // who holds proc_mutex
    sem: nat,
    alreadyWaited: bool,
    yielded: bool,
    outcome: Outcome,
    log: Log)

  /** History, never read by the protocol itself. */
  datatype Log = Log(
    calls: seq<Side>,          // callbacks invoked
    ended: nat,                // callbacks that have returned or raised
    readyPaths: nat,           // registrations that found the future resolved
    readyPosts: nat,           // semaphore posts made by such registrations
    workerPosts: nat,          // semaphore posts made by pool workers
    interrupts: nat,           // semaphore posts made by the unblock function
    awaiter: Option<nat>,      // the await that found already_waited unset
    waits: nat,                // semaphore waits that have been granted
    pushes: nat,               // times the future was pushed on its pool's queue
    undecided: set<nat>,       // workers that popped it and have not looked at the blocks yet
    decided: set<nat>,         // workers that looked at the blocks and have not posted yet
    duplicated: bool,          // a registration overwrote a block of the same side
    dueAtResolution: bool)     // the block for the outcome was there when the driver resolved

  /** future_create: every flag cleared, the semaphore at zero. */
  function Created(kind: Kind): Future {
    Future(kind, None, None, None, 0, false, false, Pending,
           Log([], 0, 0, 0, 0, 0, None, 0, 0, {}, {}, false, false))
  }

  function Due(o: Outcome): Side
    requires o != Pending
  {
    if o.Ok? then OnSuccess else OnFailure
  }

  function BlockOf(y: Future, side: Side): Option<Block> {
    if side.OnSuccess? then y.onSuccess else y.onFailure
  }

  function Other(side: Side): Side {
    if side.OnSuccess? then OnFailure else OnSuccess
  }

  predicate HasBlock(y: Future) {
    y.onSuccess.Some? || y.onFailure.Some?
  }

  predicate OneBlock(y: Future) {
    y.onSuccess.None? || y.onFailure.None?
  }

  predicate DueBlock(y: Future) {
    y.outcome != Pending && BlockOf(y, Due(y.outcome)).Some?
  }

  // ---- the atomic updates ----

  function Locked(y: Future, me: nat): Future {
    y.(holder := Some(me))
  }

  function Unlocked(y: Future): Future {
    y.(holder := None)
  }

  function BlockWritten(y: Future, side: Side, block: Block): Future {
    var z := y.(log := y.log.(duplicated := y.log.duplicated || BlockOf(y, side).Some?));
    if side.OnSuccess? then z.(onSuccess := Some(block)) else z.(onFailure := Some(block))
  }

  function FoundReady(y: Future): Future {
    y.(log := y.log.(readyPaths := y.log.readyPaths + 1))
  }

  function ReadyPosted(y: Future): Future {
    y.(sem := y.sem + 1, log := y.log.(readyPosts := y.log.readyPosts + 1))
  }

  function Pushed(y: Future): Future {
    y.(log := y.log.(pushes := y.log.pushes + 1))
  }

  function Invoked(y: Future, side: Side): Future {
    y.(yielded := true, log := y.log.(calls := y.log.calls + [side]))
  }

  function CallEnded(y: Future): Future {
    y.(log := y.log.(ended := y.log.ended + 1))
  }

  function MarkedWaited(y: Future): Future {
    y.(alreadyWaited := true)
  }

  function FirstAwaited(y: Future, me: nat): Future {
    y.(alreadyWaited := true, log := y.log.(awaiter := Some(me)))
  }

  function SemTaken(y: Future): Future
    requires y.sem > 0
  {
    y.(sem := y.sem - 1, log := y.log.(waits := y.log.waits + 1))
  }

  function Claimed(y: Future, w: nat): Future {
    y.(log := y.log.(undecided := y.log.undecided + {w}))
  }

  function Decided(y: Future, w: nat): Future {
    y.(log := y.log.(undecided := y.log.undecided - {w}, decided := y.log.decided + {w}))
  }

  function WorkerPosted(y: Future, w: nat): Future {
    y.(sem := y.sem + 1,
       log := y.log.(workerPosts := y.log.workerPosts + 1, decided := y.log.decided - {w}))
  }

  function Resolved(y: Future, o: Outcome): Future
    requires o != Pending
  {
    y.(outcome := o, log := y.log.(dueAtResolution := BlockOf(y, Due(o)).Some?))
  }

  function Interrupted(y: Future): Future {
    y.(sem := y.sem + 1, log := y.log.(interrupts := y.log.interrupts + 1))
  }

  // ---- program counters ----

  datatype Pc =
    | Idle                                                       // running Ruby code outside this library
    | Raising                                                    // an exception is on its way up
    | Ended
    // on_success / on_failure
    | RegCheck(future: nat, side: Side, block: Block)            // the unlocked "called twice" test
    | RegLock(future: nat, side: Side, block: Block)
    | RegWrite(future: nat, side: Side, block: Block)
    | RegTest(future: nat, side: Side, wakeup: bool)
    | RegPost(future: nat, side: Side)
    | RegDecide(future: nat, side: Side)
    | RegRun(future: nat, child: nat)
    | RegPush(future: nat)
    | RegRevive(future: nat)
    | RegUnlock(future: nat, raised: bool)
    // await
    | AwLock(future: nat)
    | AwTest(future: nat)
    | AwUnlock(future: nat, first: bool)
    | AwResolve(future: nat)
    | AwCheck(future: nat)
    | AwSem(future: nat)
    // pool worker
    | WkPop
    | WkWait(future: nat)
    | WkLock(future: nat)
    | WkDecide(future: nat)
    | WkRun(future: nat, child: nat)
    | WkFlag(future: nat)
    | WkUnlock(future: nat, raised: bool)
    | WkPost(future: nat, raised: bool)

  predicate OffFuture(p: Pc) {
    p.Idle? || p.Raising? || p.Ended? || p.WkPop?
  }

  predicate On(p: Pc, f: nat) {
    !OffFuture(p) && p.future == f
  }

  /** The program counters between taking proc_mutex and releasing it. */
  predicate Inside(p: Pc) {
    || p.RegWrite? || p.RegTest? || p.RegPost? || p.RegDecide? || p.RegRun? || p.RegPush? || p.RegRevive? || p.RegUnlock?
    || p.AwTest? || p.AwUnlock?
    || p.WkDecide? || p.WkRun? || p.WkFlag? || p.WkUnlock?
  }

  predicate Running(p: Pc) {
    p.RegRun? || p.WkRun?
  }

  predicate WorkerPc(p: Pc) {
    p.WkPop? || p.WkWait? || p.WkLock? || p.WkDecide? || p.WkRun? || p.WkFlag? || p.WkUnlock? || p.WkPost?
  }

  predicate UndecidedPc(p: Pc) {
    p.WkWait? || p.WkLock? || p.WkDecide?
  }

  predicate DecidedPc(p: Pc) {
    p.WkRun? || p.WkFlag? || p.WkUnlock? || p.WkPost?
  }

  /** The program counters of an await that found already_waited unset. */
  predicate FirstAwaitPc(p: Pc) {
    (p.AwUnlock? && p.first) || p.AwResolve? || p.AwCheck? || p.AwSem?
  }

  // ---- one step on a future ----

  /** The step at p cannot block, given the future alone (mutex and queue are checked by the system). */
  predicate Ready(y: Future, p: Pc) {
    && !OffFuture(p)
    && !Running(p)
    && (p.AwResolve? || p.WkWait? || p.WkDecide? || p.RegDecide? ==> y.outcome != Pending)
    && (p.AwSem? ==> y.sem > 0)
  }

  /** The registering thread runs its own block: future.c:236-240 and 293-297. */
  predicate RegisterCalls(y: Future, side: Side) {
    y.outcome != Pending && !y.yielded && side == Due(y.outcome) && BlockOf(y, side).Some?
  }

  /** The worker runs the due block: future.c:149-161. */
  predicate WorkerCalls(y: Future) {
    y.outcome != Pending && !y.yielded && BlockOf(y, Due(y.outcome)).Some?
  }

  /** on_success and on_failure (future.c:220-306); side is the block field they write. */
  function RegisterStep(y: Future, me: nat, p: Pc, child: nat): (Pc, Future)
    requires Ready(y, p)
  {
    match p
    case RegCheck(f, side, block) => (if BlockOf(y, side).Some? then Raising else RegLock(f, side, block), y)
    case RegLock(f, side, block) => if y.holder.Some? then (Raising, y) else (RegWrite(f, side, block), Locked(y, me))
    case RegWrite(f, side, block) => (RegTest(f, side, BlockOf(y, Other(side)).None?), BlockWritten(y, side, block))
    case RegTest(f, side, wakeup) =>
      if y.outcome != Pending then (RegPost(f, side), FoundReady(y))
      else (if wakeup then RegPush(f) else RegUnlock(f, false), y)
    case RegPost(f, side) => (RegDecide(f, side), ReadyPosted(y))
    case RegDecide(f, side) =>
      if RegisterCalls(y, side) then (RegRun(f, child), Invoked(y, side)) else (RegUnlock(f, false), y)
    case RegPush(f) => (RegRevive(f), Pushed(y))
    case RegRevive(f) => (RegUnlock(f, false), y)
    case RegUnlock(_, raised) => (if raised then Raising else Idle, Unlocked(y))
    case _ => (p, y)
  }

  /** await (future.c:336-355). */
  function AwaitStep(y: Future, me: nat, p: Pc): (Pc, Future)
    requires Ready(y, p)
  {
    match p
    case AwLock(f) => if y.holder.Some? then (Raising, y) else (AwTest(f), Locked(y, me))
    case AwTest(f) => if y.alreadyWaited then (AwUnlock(f, false), y) else (AwUnlock(f, true), FirstAwaited(y, me))
    case AwUnlock(f, first) => (if first then AwResolve(f) else Idle, Unlocked(y))
    case AwResolve(f) => (AwCheck(f), y)
    case AwCheck(f) => (if HasBlock(y) then AwSem(f) else Idle, y)
    case AwSem(_) => (Idle, SemTaken(y))
    case _ => (p, y)
  }

  /** The worker's body for one popped future (future.c:143-188). A callback that raised kills the worker, after its post. */
  function WorkerStep(y: Future, me: nat, p: Pc, child: nat): (Pc, Future)
    requires Ready(y, p)
  {
    match p
    case WkWait(f) => (WkLock(f), y)
    case WkLock(f) => (WkDecide(f), Locked(y, me))
    case WkDecide(f) =>
      if WorkerCalls(y) then (WkRun(f, child), Invoked(Decided(y, me), Due(y.outcome))) else (WkFlag(f), Decided(y, me))
    case WkFlag(f) => (WkUnlock(f, false), MarkedWaited(y))
    case WkUnlock(f, raised) => (WkPost(f, raised), Unlocked(y))
    case WkPost(_, raised) => (if raised then Ended else WkPop, WorkerPosted(y, me))
    case _ => (p, y)
  }

  predicate RegisterPc(p: Pc) {
    p.RegCheck? || p.RegLock? || p.RegWrite? || p.RegTest? || p.RegPost? || p.RegDecide? || p.RegRun? || p.RegPush? || p.RegRevive? || p.RegUnlock?
  }

  /** The next program counter of activation me, and the future after its step; child is the id a callback would get. */
  function Next(y: Future, me: nat, p: Pc, child: nat): (Pc, Future)
    requires Ready(y, p)
  {
    if RegisterPc(p) then RegisterStep(y, me, p, child)
    else if WorkerPc(p) then WorkerStep(y, me, p, child)
    else AwaitStep(y, me, p)
  }

  // ---- invariants of one future ----

  /** Facts about the fields alone. */
  predicate FutureOk(y: Future) {
    var l := y.log;
    && (y.yielded <==> l.calls != [])
    && |l.calls| <= 1
    && (l.calls != [] ==> DueBlock(y) && l.calls[0] == Due(y.outcome))
    && l.ended <= |l.calls|
    && y.sem + l.waits == l.readyPosts + l.workerPosts + l.interrupts
    && l.waits <= 1
    && (l.waits > 0 ==> l.awaiter.Some?)
    && (l.awaiter.Some? ==> y.alreadyWaited)
    && (y.alreadyWaited && l.awaiter.None? ==> y.outcome != Pending && |l.decided| + l.workerPosts > 0)
    && (y.outcome == Pending ==>
          l.readyPaths == 0 && l.readyPosts == 0 && l.workerPosts == 0 && l.decided == {} && l.calls == [])
    && l.readyPosts <= l.readyPaths
    && (l.pushes > 0 || l.readyPaths > 0 ==> HasBlock(y))
    && l.undecided !! l.decided
    && (l.dueAtResolution ==> DueBlock(y))
    && (l.dueAtResolution && !y.yielded ==> l.decided == {} && l.workerPosts == 0)
    && (l.calls != [] && !l.dueAtResolution ==> l.readyPaths > 0)
    && (!l.duplicated ==> l.pushes <= 1)
  }

  /** A block is registered only together with a push or a post, done or still to be done by the holder. */
  predicate Announced(y: Future, p: Pc) {
    HasBlock(y) ==>
      || y.log.pushes > 0
      || y.log.readyPosts > 0
      || (p.RegTest? && p.wakeup)
      || p.RegPush?
      || p.RegPost?
  }

  predicate AboutToDecide(p: Pc, side: Side) {
    (p.RegTest? || p.RegPost? || p.RegDecide?) && p.side == side
  }

  /** A block that may still have to be called is in somebody's hands. */
  predicate InHand(y: Future, p: Pc, queued: nat, side: Side) {
    BlockOf(y, side).Some? && !y.yielded && (y.outcome != Pending ==> side == Due(y.outcome)) ==>
      || queued > 0
      || y.log.undecided != {}
      || p.RegPush?
      || AboutToDecide(p, side)
  }

  /**
   Facts that depend on p, the program counter of the mutex holder h (Idle when the
   mutex is free), and on the number of times the future stands in its queue.
   */
  predicate HeldOk(y: Future, h: nat, p: Pc, queued: nat) {
    && queued + |y.log.undecided| + |y.log.decided| + y.log.workerPosts == y.log.pushes
    && Announced(y, p)
    && InHand(y, p, queued, OnSuccess)
    && InHand(y, p, queued, OnFailure)
    && StageOk(y, h, p)
  }

  /** What the holder's program counter says about the future. */
  predicate StageOk(y: Future, h: nat, p: Pc) {
    var l := y.log;
    && (DueBlock(y) && !l.dueAtResolution ==> l.readyPaths > 0 || (p.RegTest? && p.side == Due(y.outcome)))
    && (Running(p) <==> l.ended < |l.calls|)
    && (p.RegTest? || p.RegPost? || p.RegDecide? ==> BlockOf(y, p.side).Some?)
    && (p.RegPost? || p.RegDecide? || p.RegRun? || p.WkDecide? || p.WkRun? || p.WkFlag? ==> y.outcome != Pending)
    && (p.RegPush? ==> HasBlock(y))
    && (p.RegPost? ==> l.readyPosts < l.readyPaths)
    && (p.RegDecide? || p.RegRun? ==> l.readyPaths > 0 && l.readyPosts > 0)
    && (p.WkRun? && l.dueAtResolution ==> l.decided == {h} && l.workerPosts == 0)
    && (!l.duplicated && ((p.RegTest? && p.wakeup) || p.RegPush?) ==> l.pushes == 0)
    && (!l.duplicated && OneBlock(y) ==> l.pushes + l.readyPaths + (if p.RegTest? || p.RegPush? then 1 else 0) <= 1)
  }

  /** Facts about an activation me whose program counter p is on future y. */
  predicate OnOk(me: nat, p: Pc, y: Future) {
    && (Inside(p) ==> y.holder == Some(me))
    && (UndecidedPc(p) ==> me in y.log.undecided)
    && (DecidedPc(p) ==> me in y.log.decided)
    && (p.WkLock? || p.WkDecide? || DecidedPc(p) || p.AwCheck? || p.AwSem? ==> y.outcome != Pending)
    && (FirstAwaitPc(p) ==> y.log.awaiter == Some(me) && y.log.waits == 0)
    && (p.AwSem? ==> HasBlock(y))
  }

  /**
   What an activation me may do to a future in one step without disturbing the
   others: it moves the mutex only from and to itself, adds or removes only itself
   as a claimer, and never takes back a block, an outcome or the role of awaiter.
   */
  predicate Fair(me: nat, y: Future, z: Future) {
    && z.kind == y.kind
    && (z.holder == y.holder || (y.holder == None && z.holder == Some(me)) || (y.holder == Some(me) && z.holder == None))
    && (z.log.undecided == y.log.undecided || z.log.undecided == y.log.undecided + {me} || z.log.undecided == y.log.undecided - {me})
    && (z.log.decided == y.log.decided || z.log.decided == y.log.decided + {me} || z.log.decided == y.log.decided - {me})
    && (HasBlock(y) ==> HasBlock(z))
    && (y.outcome != Pending ==> z.outcome == y.outcome)
    && (y.log.awaiter.Some? ==> z.log.awaiter == y.log.awaiter)
    && (z.log.waits == y.log.waits || y.log.awaiter == Some(me))
  }
}
