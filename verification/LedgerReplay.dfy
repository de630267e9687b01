/**
 Log compaction over whole runs: whatever else happens, a Statement holds what its own
 binds make of it, and this says exactly when an execution raises and when it sends what
 the scratch statement holds.
 */
module LedgerReplay {
  import opened Prelude
  import opened BindValues
  import opened BindLog
  import opened Paging
  import opened Ledger
  import opened LedgerLocal
  import opened LedgerMachine
  import opened LedgerInvariant
  import opened LedgerTheorems

  /** The scratch statement has the configuration of the struct, and slots and hash are those of st. */
  ghost predicate MirrorsIn(w: World, o: Struct, p: Prepared, st: Scratch) {
    && o.StatementStruct? && IsPrepared(w, o.prepared) && w.handles[o.prepared] == PreparedHandle(p)
    && o.scratch in w.handles
    && w.handles[o.scratch] == StatementHandle(Message(st.slots, o.pageSize, o.idempotent, None))
    && o.kept == st.kept
  }

  ghost predicate Mirrors(s: State, id: nat, p: Prepared, st: Scratch) {
    id in s.structs && MirrorsIn(s.w, s.structs[id], p, st)
  }

  /** The hashes that a run binds to this Statement. */
  function HashesOf(events: seq<Event>, id: nat): seq<seq<(Value, Value)>>
    decreases events
  {
    if events == [] then []
    else if events[0].Binds? && events[0].id == id then [events[0].hash] + HashesOf(events[1..], id)
    else HashesOf(events[1..], id)
  }

  /** What one event makes of it. */
  function BoundBy(p: Prepared, st: Scratch, e: Event, id: nat): Scratch {
    if e.Binds? && e.id == id then BindAll(p, st, e.hash).0 else st
  }

  lemma PutMirrors(s: State, w: World, id: nat, o: Struct, p: Prepared, st: Scratch)
    requires MirrorsIn(w, o, p, st)
    ensures Mirrors(Put(s, w, id, o), id, p, st)
  {
  }

  lemma StillMirrors(s: State, t: State, id: nat, p: Prepared, st: Scratch)
    requires Mirrors(s, id, p, st) && StillThere(s, t, id)
    ensures Mirrors(t, id, p, st)
  {
  }

  lemma BindMirrors(w: World, o: Struct, hash: seq<(Value, Value)>, p: Prepared, st: Scratch)
    requires Shape(w, o) && MirrorsIn(w, o, p, st)
    ensures var (v, o', _) := Bind(w, o, hash); MirrorsIn(v, o', p, BindAll(p, st, hash).0)
  {
    assert Scratch(MessageAt(w, o.scratch).slots, o.kept) == st;
  }

  lemma SettersMirror(w: World, o: Struct, size: int, value: Value, p: Prepared, st: Scratch)
    requires Shape(w, o) && MirrorsIn(w, o, p, st)
    ensures var (v, o') := SetPageSize(w, o, size); MirrorsIn(v, o', p, st)
    ensures var (v, o') := SetIdempotent(w, o, value); MirrorsIn(v, o', p, st)
  {
  }

  lemma StepMirrors(server: Server, s: State, e: Event, id: nat, p: Prepared, st: Scratch)
    requires Inv(s) && Allowed(s, e) && e != Destroys(id) && Mirrors(s, id, p, st)
    ensures Inv(Step(server, s, e)) && Mirrors(Step(server, s, e), id, p, BoundBy(p, st, e, id))
  {
    StepKeepsInv(server, s, e);
    if Worker(e) != Some(id) {
      StepLeavesAlone(server, s, e, id);
      StillMirrors(s, Step(server, s, e), id, p, st);
    } else {
      OwnStepMirrors(server, s, e, id, p, st);
    }
  }

  lemma OwnStepMirrors(server: Server, s: State, e: Event, id: nat, p: Prepared, st: Scratch)
    requires Inv(s) && Allowed(s, e) && e != Destroys(id) && Worker(e) == Some(id) && Mirrors(s, id, p, st)
    ensures Mirrors(Step(server, s, e), id, p, BoundBy(p, st, e, id))
  {
    var o := s.structs[id];
    assert Owned(s.w, id, o);
    match e
    case Binds(_, hash) =>
      BindMirrors(s.w, o, hash, p, st);
      var (w, o', _) := Bind(s.w, o, hash);
      PutMirrors(s, w, id, o', p, BindAll(p, st, hash).0);
    case PageSizeSet(_, size) =>
      SettersMirror(s.w, o, size, Nil, p, st);
      var (w, o') := SetPageSize(s.w, o, size);
      PutMirrors(s, w, id, o', p, st);
    case IdempotentSet(_, value) =>
      SettersMirror(s.w, o, 0, value, p, st);
      var (w, o') := SetIdempotent(s.w, o, value);
      PutMirrors(s, w, id, o', p, st);
    case _ =>
  }

  /** Any run, whatever else happens in it, leaves of a Statement what its own binds make of it. */
  lemma {:induction false} RunMirrors(server: Server, s: State, events: seq<Event>, id: nat, p: Prepared, st: Scratch)
    requires Inv(s) && IsRun(server, s, events) && Mirrors(s, id, p, st)
    requires forall i :: 0 <= i < |events| ==> events[i] != Destroys(id)
    ensures var u := After(server, s, events); Inv(u) && Mirrors(u, id, p, BindRuns(p, st, HashesOf(events, id)))
    decreases events
  {
    if events != [] {
      var e := events[0];
      assert e != Destroys(id);
      StepMirrors(server, s, e, id, p, st);
      RunMirrors(server, Step(server, s, e), events[1..], id, p, BoundBy(p, st, e, id));
      if e.Binds? && e.id == id {
        assert HashesOf(events, id)[1..] == HashesOf(events[1..], id);
      }
    }
  }

  /** A Statement as prepare or a success block makes it mirrors its scratch statement. */
  lemma FreshMirrors(w: World, server: Server, f: nat)
    requires WorldOk(w) && Replied(w, f, Done) && w.handles[f].PrepareFuture?
    ensures var (v, o) := YieldStatement(w, server, f); MirrorsIn(v, o, server.prepare(w.handles[f].query), BLANK_SCRATCH)
  {
    YieldStatementKeeps(w, server, f);
  }

  /** Both ways to make a Statement give one that mirrors its scratch statement: for a success block, and by prepare. */
  lemma YieldedMirrors(server: Server, s: State, f: nat, id: nat)
    requires Inv(s) && Allowed(s, StatementYielded(f, id))
    ensures var t := Step(server, s, StatementYielded(f, id));
      Inv(t) && Mirrors(t, id, server.prepare(s.w.handles[s.structs[f].future].query), BLANK_SCRATCH)
  {
    var x := s.structs[f].future;
    StepKeepsInv(server, s, StatementYielded(f, id));
    FreshMirrors(s.w, server, x);
    var (w, o) := YieldStatement(s.w, server, x);
    PutMirrors(s, w, id, o, server.prepare(s.w.handles[x].query), BLANK_SCRATCH);
  }

  lemma PreparedMirrors(server: Server, s: State, id: nat)
    requires Inv(s) && Allowed(s, PrepareReturns(id)) && Replied(s.w, s.structs[id].waiting, Done)
    ensures var t := Step(server, s, PrepareReturns(id));
      Inv(t) && s.w.handles[s.structs[id].waiting].PrepareFuture?
      && Mirrors(t, id, server.prepare(s.w.handles[s.structs[id].waiting].query), BLANK_SCRATCH)
  {
    assert Owned(s.w, id, s.structs[id]);
    var x := s.structs[id].waiting;
    PrepareReturnKeepsInv(server, s, id);
    PrepareEndMirrors(s.w, server, x);
    var (w, o) := PrepareEnd(s.w, server, x);
    PutMirrors(s, w, id, o.value, server.prepare(s.w.handles[x].query), BLANK_SCRATCH);
  }

  lemma PrepareEndMirrors(w: World, server: Server, f: nat)
    requires WorldOk(w) && Replied(w, f, Done) && w.handles[f].PrepareFuture?
    ensures var (v, o) := PrepareEnd(w, server, f); o.Some? && MirrorsIn(v, o.value, server.prepare(w.handles[f].query), BLANK_SCRATCH)
  {
    PrepareEndIsYieldAndFree(w, server, f);
    FreshMirrors(w, server, f);
    YieldStatementKeeps(w, server, f);
  }

  /** What an execution sends, or the exception of its build, is the replay of the hash. */
  lemma MirrorSends(w: World, o: Struct, p: Prepared, st: Scratch)
    requires MirrorsIn(w, o, p, st)
    ensures var (slots, e) := Replay(p, map[], st.kept);
      MessageNow(w, o) == if e.Some? then Failure(e.value) else Success(Message(slots, o.pageSize, o.idempotent, None))
    ensures MessageAt(w, o.scratch) == Message(st.slots, o.pageSize, o.idempotent, None)
  {
  }

  lemma BuildRaises(w: World, o: Struct)
    requires WorldOk(w) && o.StatementStruct? && IsPrepared(w, o.prepared)
    ensures BuildForExecution(w, o).1.Failure? <==> MessageNow(w, o).Failure?
  {
    BuildIsAtomic(w, o);
  }

  /** The values that a Statement accepted last, in a run. */
  function LatestIn(p: Prepared, events: seq<Event>, id: nat): Latest {
    TakenRuns(p, map[], HashesOf(events, id))
  }

  lemma RunSends(server: Server, s: State, events: seq<Event>, id: nat, p: Prepared)
    requires Inv(s) && Mirrors(s, id, p, BLANK_SCRATCH) && IsRun(server, s, events)
    requires forall i :: 0 <= i < |events| ==> events[i] != Destroys(id)
    ensures var u, st := After(server, s, events), BindRuns(p, BLANK_SCRATCH, HashesOf(events, id));
      && HasStatement(u, id) && MirrorsIn(u.w, u.structs[id], p, st)
      && (BuildForExecution(u.w, u.structs[id]).1.Failure? <==> Replay(p, map[], st.kept).1.Some?)
      && (MessageNow(u.w, u.structs[id]) == Success(MessageAt(u.w, u.structs[id].scratch)) <==> Replay(p, map[], st.kept) == (st.slots, None))
  {
    RunMirrors(server, s, events, id, p, BLANK_SCRATCH);
    var u := After(server, s, events);
    MirrorSends(u.w, u.structs[id], p, BindRuns(p, BLANK_SCRATCH, HashesOf(events, id)));
    BuildRaises(u.w, u.structs[id]);
  }

  /**
   From the making of a Statement on, after any run, raised binds included, and over names
   that do not alias: its next execution raises nothing and sends exactly what the scratch
   statement holds, if and only if the last value accepted under each name is settled.
   */
  lemma ExecutionsSendTheScratch(server: Server, s: State, events: seq<Event>, id: nat, p: Prepared)
    requires Inv(s) && Mirrors(s, id, p, BLANK_SCRATCH) && IsRun(server, s, events)
    requires forall i :: 0 <= i < |events| ==> events[i] != Destroys(id)
    requires NamesApart(p, LatestIn(p, events, id).Keys)
    ensures var u := After(server, s, events);
      && HasStatement(u, id)
      && (MessageNow(u.w, u.structs[id]) == Success(MessageAt(u.w, u.structs[id].scratch)) <==> AllSettled(p, LatestIn(p, events, id)))
  {
    RunSends(server, s, events, id, p);
    LogCompaction(p, HashesOf(events, id));
  }

  /**
   Whatever the names resolve to, its next execution raises if and only if what was kept
   of some last accepted value is not accepted again; never, if they are all settled.
   */
  lemma ExecutionsRaiseIff(server: Server, s: State, events: seq<Event>, id: nat, p: Prepared)
    requires Inv(s) && Mirrors(s, id, p, BLANK_SCRATCH) && IsRun(server, s, events)
    requires forall i :: 0 <= i < |events| ==> events[i] != Destroys(id)
    ensures var u := After(server, s, events);
      && HasStatement(u, id)
      && (BuildForExecution(u.w, u.structs[id]).1.Failure? <==> SomeUnaccepted(p, LatestIn(p, events, id)))
      && (AllSettled(p, LatestIn(p, events, id)) ==> BuildForExecution(u.w, u.structs[id]).1.Success?)
  {
    RunSends(server, s, events, id, p);
    ReplayRaisesIffLastUnaccepted(p, map[], HashesOf(events, id));
    if AllSettled(p, LatestIn(p, events, id)) {
      ReplayNeverRaises(p, map[], HashesOf(events, id));
    }
  }

  /**
   A numeric to_time that bind accepted makes every execution raise, through anything that
   happens, until a bind accepts something under that name again.
   */
  lemma ExecutionsRaiseUntilBoundAgain(server: Server, s: State, events: seq<Event>, id: nat, p: Prepared,
                                       before: seq<seq<(Value, Value)>>, name: string, since: seq<seq<(Value, Value)>>)
    requires Inv(s) && Mirrors(s, id, p, BLANK_SCRATCH) && IsRun(server, s, events)
    requires forall i :: 0 <= i < |events| ==> events[i] != Destroys(id)
    requires HashesOf(events, id) == before + since
    requires name in TakenRuns(p, map[], before) && p.typeOf(name).Timestamped? && NumericToTime(TakenRuns(p, map[], before)[name])
    requires forall i :: 0 <= i < |since| ==> LeavesName(p, name, since[i])
    ensures var u := After(server, s, events); HasStatement(u, id) && BuildForExecution(u.w, u.structs[id]).1.Failure?
  {
    RunSends(server, s, events, id, p);
    RaisesUntilBoundAgain(p, map[], before, name, since);
  }

  /** bind raises exactly if some entry of its hash does, with the exception of the first of them. */
  lemma BindReports(w: World, o: Struct, hash: seq<(Value, Value)>, p: Prepared, st: Scratch)
    requires Shape(w, o) && MirrorsIn(w, o, p, st)
    ensures var raised := Bind(w, o, hash).2;
      && (raised.None? <==> forall i :: 0 <= i < |hash| ==> Entry(p, hash[i].0, hash[i].1).Success?)
      && (raised.Some? ==> exists k :: 0 <= k < |hash| && Entry(p, hash[k].0, hash[k].1) == Failure(raised.value)
                                       && forall i :: 0 <= i < k ==> Entry(p, hash[i].0, hash[i].1).Success?)
  {
    assert Scratch(MessageAt(w, o.scratch).slots, o.kept) == st;
    BindRaisesIff(p, st, hash);
  }

  // ---- the configuration of an execution ----

  /** The page size that one event leaves this Statement with. */
  function PageSizeAfter(e: Event, id: nat, before: int): int {
    if e.PageSizeSet? && e.id == id then e.size else before
  }

  /** The last value given to its idempotent=. */
  function IdempotentAfter(e: Event, id: nat, before: Option<Value>): Option<Value> {
    if e.IdempotentSet? && e.id == id then Some(e.value) else before
  }

  function LastPageSize(events: seq<Event>, id: nat, before: int): int
    decreases events
  {
    if events == [] then before else LastPageSize(events[1..], id, PageSizeAfter(events[0], id, before))
  }

  function LastIdempotent(events: seq<Event>, id: nat, before: Option<Value>): Option<Value>
    decreases events
  {
    if events == [] then before else LastIdempotent(events[1..], id, IdempotentAfter(events[0], id, before))
  }

  /** What the driver is told about idempotence: nothing if it was never set; otherwise only nil and false mean no. */
  function Told(set_: Option<Value>): Option<bool> {
    if set_.None? then None else Some(!set_.value.Nil? && set_.value != Bool(false))
  }

  ghost predicate ConfiguredAs(s: State, id: nat, size: int, idempotent: Option<bool>) {
    HasStatement(s, id) && s.structs[id].pageSize == size && s.structs[id].idempotent == idempotent
  }

  lemma OwnStepConfigures(server: Server, s: State, e: Event, id: nat, size: int, idem: Option<Value>)
    requires Allowed(s, e) && e != Destroys(id) && Worker(e) == Some(id) && ConfiguredAs(s, id, size, Told(idem))
    ensures ConfiguredAs(Step(server, s, e), id, PageSizeAfter(e, id, size), Told(IdempotentAfter(e, id, idem)))
  {
    assert e.Binds? || e.PageSizeSet? || e.IdempotentSet?;
    if e.Binds? {
      BindKeepsConfiguration(s.w, s.structs[id], e.hash);
    }
  }

  lemma BindKeepsConfiguration(w: World, o: Struct, hash: seq<(Value, Value)>)
    requires o.StatementStruct?
    ensures var o' := Bind(w, o, hash).1; o'.StatementStruct? && o'.pageSize == o.pageSize && o'.idempotent == o.idempotent
  {
  }

  lemma StepConfigures(server: Server, s: State, e: Event, id: nat, size: int, idem: Option<Value>)
    requires Inv(s) && Allowed(s, e) && e != Destroys(id) && ConfiguredAs(s, id, size, Told(idem))
    ensures Inv(Step(server, s, e))
    ensures ConfiguredAs(Step(server, s, e), id, PageSizeAfter(e, id, size), Told(IdempotentAfter(e, id, idem)))
  {
    StepKeepsInv(server, s, e);
    if Worker(e) != Some(id) {
      StepLeavesAlone(server, s, e, id);
    } else {
      OwnStepConfigures(server, s, e, id, size, idem);
    }
  }

  lemma {:induction false} RunConfigures(server: Server, s: State, events: seq<Event>, id: nat, size: int, idem: Option<Value>)
    requires Inv(s) && IsRun(server, s, events) && ConfiguredAs(s, id, size, Told(idem))
    requires forall i :: 0 <= i < |events| ==> events[i] != Destroys(id)
    ensures ConfiguredAs(After(server, s, events), id, LastPageSize(events, id, size), Told(LastIdempotent(events, id, idem)))
    decreases events
  {
    if events != [] {
      var e := events[0];
      assert e != Destroys(id);
      StepConfigures(server, s, e, id, size, idem);
      RunConfigures(server, Step(server, s, e), events[1..], id, PageSizeAfter(e, id, size), IdempotentAfter(e, id, idem));
    }
  }

  /** A message that the Statement would send has its configuration. */
  lemma MessageIsConfigured(w: World, o: Struct)
    requires o.StatementStruct? && MessageNow(w, o).Success?
    ensures MessageNow(w, o).value.pageSize == o.pageSize && MessageNow(w, o).value.idempotent == o.idempotent
    ensures MessageNow(w, o).value.paging == None
  {
  }

  /**
   From the making of a Statement on, after any run: what its next execution sends has the
   page size of the last page_size=, or 10000; it says that it is idempotent, that it is
   not, or nothing, by the last idempotent=; and it asks for the first page.
   */
  lemma ExecutionsSendTheConfiguration(server: Server, s: State, events: seq<Event>, id: nat)
    requires Inv(s) && ConfiguredAs(s, id, 10000, None) && IsRun(server, s, events)
    requires forall i :: 0 <= i < |events| ==> events[i] != Destroys(id)
    ensures var u := After(server, s, events);
      && HasStatement(u, id)
      && (MessageNow(u.w, u.structs[id]).Success? ==>
            var m := MessageNow(u.w, u.structs[id]).value;
            && m.pageSize == LastPageSize(events, id, 10000)
            && m.idempotent == Told(LastIdempotent(events, id, None))
            && m.paging == None)
  {
    RunConfigures(server, s, events, id, 10000, None);
    var u := After(server, s, events);
    if MessageNow(u.w, u.structs[id]).Success? {
      MessageIsConfigured(u.w, u.structs[id]);
    }
  }

  // ---- from the query to the Statement ----

  /** Struct id waits for the driver to prepare this query. */
  ghost predicate Asked(s: State, f: nat, query: string) {
    f in s.w.handles && s.w.handles[f].PrepareFuture? && s.w.handles[f].query == query
  }

  lemma StillAsked(s: State, t: State, id: nat, f: nat, query: string)
    requires id in s.structs && StillThere(s, t, id) && f in Fields(s.structs[id]) && Asked(s, f, query)
    ensures Asked(t, f, query)
  {
  }

  /**
   The Statement of a prepare_async's success block, whatever happened since: it stands for
   the query that was given, nothing is bound, and it has the default configuration.
   */
  lemma PreparedAsAsked(server: Server, s: State, id: nat, query: string, events: seq<Event>, next: nat)
    requires Inv(s) && GoesOn(server, s, PreparesAsync(id, query), events)
    requires forall i :: 0 <= i < |events| ==> Worker(events[i]) != Some(id)
    requires Allowed(AfterIt(server, s, PreparesAsync(id, query), events), StatementYielded(id, next))
    ensures var t := Step(server, AfterIt(server, s, PreparesAsync(id, query), events), StatementYielded(id, next));
      Mirrors(t, next, server.prepare(query), BLANK_SCRATCH) && ConfiguredAs(t, next, 10000, None)
  {
    var t := Step(server, s, PreparesAsync(id, query));
    var u := After(server, t, events);
    StepKeepsInv(server, s, PreparesAsync(id, query));
    RunLeavesAlone(server, t, events, id);
    StillAsked(t, u, id, t.structs[id].future, query);
    YieldedMirrors(server, u, id, next);
  }

  /** What a prepare returns with: its Statement, or nothing. */
  ghost predicate PrepareResult(server: Server, u: State, id: nat, query: string)
    requires Allowed(u, PrepareReturns(id))
  {
    var t := Step(server, u, PrepareReturns(id));
    if Replied(u.w, u.structs[id].waiting, Done) then Mirrors(t, id, server.prepare(query), BLANK_SCRATCH) && ConfiguredAs(t, id, 10000, None)
    else id !in t.structs && PrepareEnd(u.w, server, u.structs[id].waiting).1 == None
  }

  lemma PrepareResultIsAsked(server: Server, u: State, id: nat, query: string)
    requires Inv(u) && Allowed(u, PrepareReturns(id)) && Asked(u, u.structs[id].waiting, query)
    ensures PrepareResult(server, u, id, query)
  {
    if Replied(u.w, u.structs[id].waiting, Done) {
      PreparedMirrors(server, u, id);
    }
  }

  lemma CallStillAsked(server: Server, t: State, id: nat, query: string, events: seq<Event>)
    requires Inv(t) && id in t.structs && t.structs[id].PrepareCall? && Asked(t, t.structs[id].waiting, query)
    requires IsRun(server, t, events) && forall i :: 0 <= i < |events| ==> Worker(events[i]) != Some(id)
    ensures var u := After(server, t, events);
      Inv(u) && id in u.structs && u.structs[id] == t.structs[id] && Asked(u, t.structs[id].waiting, query)
  {
    RunLeavesAlone(server, t, events, id);
    StillAsked(t, After(server, t, events), id, t.structs[id].waiting, query);
  }

  /** The same for a prepare, whatever happened while it waited. */
  lemma PreparedInTheEnd(server: Server, s: State, id: nat, query: string, events: seq<Event>)
    requires Inv(s) && GoesOn(server, s, PrepareBegins(id, query), events)
    requires forall i :: 0 <= i < |events| ==> Worker(events[i]) != Some(id)
    requires Allowed(AfterIt(server, s, PrepareBegins(id, query), events), PrepareReturns(id))
    ensures PrepareResult(server, AfterIt(server, s, PrepareBegins(id, query), events), id, query)
  {
    StepKeepsInv(server, s, PrepareBegins(id, query));
    CallStillAsked(server, Step(server, s, PrepareBegins(id, query)), id, query, events);
    PrepareResultIsAsked(server, AfterIt(server, s, PrepareBegins(id, query), events), id, query);
  }
}
