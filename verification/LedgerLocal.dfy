/** What one operation does to the handles of the struct it works on, and to nothing else. */
module LedgerLocal {
  import opened Prelude
  import opened BindValues
  import opened BindLog
  import opened Paging
  import opened Ledger

  // ---- the driver's side ----

  /** Conservation: every handle ever made is live, or has been freed exactly once. */
  ghost predicate Conserved(w: World) {
    && w.owner.Keys == w.handles.Keys
    && (forall h :: h in w.handles ==> h < w.nextId)
    && (forall h: nat :: w.freed[h] == if h < w.nextId && h !in w.handles then 1 else 0)
  }

  /** Isolation: a statement whose execution has not been answered is still as it was submitted. */
  ghost predicate Isolated(w: World) {
    && (forall f :: f in w.inFlight ==> f < w.nextId && w.inFlight[f].0 < w.nextId)
    && (forall f :: f in w.inFlight && IsStatement(w, w.inFlight[f].0) ==> MessageAt(w, w.inFlight[f].0) == w.inFlight[f].1)
    && (forall f :: f in w.inFlight && f in w.handles ==> w.handles[f] == ExecuteFuture(w.inFlight[f].0, w.inFlight[f].1, Waiting))
    && (forall f :: f in w.handles && w.handles[f].ExecuteFuture? && w.handles[f].reply.Waiting? ==> f in w.inFlight)
  }

  ghost predicate WorldOk(w: World) {
    !w.fault && Conserved(w) && Isolated(w)
  }

  /** Nobody but the execution that f stands for may be encoding the statement h. */
  ghost predicate BusyOnlyBy(w: World, h: nat, f: nat) {
    forall g :: g in w.inFlight && w.inFlight[g].0 == h ==> g == f
  }

  ghost predicate IsExecution(w: World, f: nat, h: nat) {
    f in w.handles && w.handles[f].ExecuteFuture? && w.handles[f].statement == h
  }

  /** The handles in the fields of a struct are live and of the right kinds, and idle where a function may set them. */
  ghost predicate Shape(w: World, o: Struct) {
    match o
    case StatementStruct(prepared, scratch, _, _, _) =>
      IsPrepared(w, prepared) && IsStatement(w, scratch) && !Busy(w, scratch)
    case FutureStruct(future, executed) =>
      && IsFuture(w, future)
      && (executed.Some? ==> IsStatement(w, executed.value) && IsExecution(w, future, executed.value) && BusyOnlyBy(w, executed.value, future))
    case ResultStruct(result, answered, submitted, call) =>
      && (result.Some? ==> IsResult(w, result.value))
      && (answered.Some? ==> IsFuture(w, answered.value) && w.handles[answered.value].ExecuteFuture?)
      && IsStatement(w, submitted)
      && (match call
          case NoCall => !Busy(w, submitted)
          case Awaiting => result.None? && answered.Some? && BusyOnlyBy(w, submitted, answered.value)
          case NextPaging(f) => result.Some? && answered != Some(f) && IsExecution(w, f, submitted) && BusyOnlyBy(w, submitted, f))
    case PrepareCall(waiting) => waiting in w.handles && w.handles[waiting].PrepareFuture?
  }

  ghost predicate Owned(w: World, id: nat, o: Struct) {
    Shape(w, o) && forall h :: h in Fields(o) ==> h in w.owner && w.owner[h] == Some(id)
  }

  /**
   From w to v only the handles mine have changed, gone, or been claimed; new and kept
   ones of mine are now in the set fields, and no other handle came, went or changed.
   */
  ghost predicate Framed(w: World, v: World, mine: set<nat>, fields: set<nat>) {
    && (forall h :: h in fields ==> h in v.handles && (h in mine || h >= w.nextId))
    && (forall h :: h in w.handles && h !in mine ==> h in v.handles && v.handles[h] == w.handles[h])
    && (forall h :: h in w.owner && h !in mine ==> h in v.owner && v.owner[h] == w.owner[h])
    && (forall h :: h in v.handles && h !in fields ==> h in w.handles && h !in mine)
    && (forall f :: f in w.inFlight ==> f in v.inFlight && v.inFlight[f] == w.inFlight[f])
    && (forall f :: f in v.inFlight && f !in w.inFlight ==> f >= w.nextId && v.inFlight[f].0 in fields)
  }


  // ---- the driver's functions, one by one ----

  lemma NewKeeps(w: World, x: Handle, mine: set<nat>)
    requires WorldOk(w) && !x.ExecuteFuture?
    ensures var v := New(w, x).0; WorldOk(v) && Framed(w, v, mine, mine * w.handles.Keys + {w.nextId}) && !Busy(v, w.nextId)
  {
  }

  lemma SetKeeps(w: World, h: nat, m: Message)
    requires WorldOk(w) && IsStatement(w, h) && !Busy(w, h)
    ensures WorldOk(SetStatement(w, h, m))
  {
  }

  function FreeAll(w: World, gone: set<nat>): World {
    w.(handles := w.handles - gone, owner := w.owner - gone, freed := w.freed + multiset(gone))
  }

  lemma FreeAllKeeps(w: World, gone: set<nat>, mine: set<nat>)
    requires WorldOk(w) && gone <= mine <= w.handles.Keys
    ensures WorldOk(FreeAll(w, gone)) && Framed(w, FreeAll(w, gone), mine, mine - gone)
  {
  }

  lemma FreeOneMore(w: World, gone: set<nat>, h: nat)
    requires h !in gone
    ensures Free(FreeAll(w, gone), h) == FreeAll(w, gone + {h})
  {
    assert w.handles - gone - {h} == w.handles - (gone + {h});
    assert w.owner - gone - {h} == w.owner - (gone + {h});
    assert multiset(gone + {h}) == multiset(gone) + multiset{h};
  }

  lemma FreeIfAnyMore(w: World, gone: set<nat>, h: Option<nat>)
    requires h.Some? ==> h.value !in gone
    ensures FreeIfAny(FreeAll(w, gone), h) == FreeAll(w, gone + Elements(h))
  {
    if h.Some? {
      FreeOneMore(w, gone, h.value);
    } else {
      assert gone + Elements(h) == gone;
    }
  }

  lemma FreeNone(w: World)
    ensures FreeAll(w, {}) == w
  {
    assert w.handles - {} == w.handles && w.owner - {} == w.owner;
  }

  /** Some handles of one struct are freed, and one is made. */
  lemma FreeAllNewKeeps(w: World, gone: set<nat>, x: Handle, mine: set<nat>)
    requires WorldOk(w) && gone <= mine <= w.handles.Keys && !x.ExecuteFuture?
    ensures var v := New(FreeAll(w, gone), x).0; WorldOk(v) && Framed(w, v, mine, mine - gone + {w.nextId})
  {
    FreeAllKeeps(w, gone, mine);
    NewKeeps(FreeAll(w, gone), x, mine);
  }

  lemma ExecuteKeeps(w: World, h: nat, mine: set<nat>)
    requires WorldOk(w) && IsStatement(w, h) && !Busy(w, h) && h in mine && mine <= w.handles.Keys
    ensures var (v, f) := SessionExecute(w, h); WorldOk(v) && BusyOnlyBy(v, h, f) && Framed(w, v, mine, mine + {f})
  {
  }

  /** Setting a handle of one's own first does not show from outside. */
  lemma FramedAfterSet(w: World, h: nat, m: Message, v: World, mine: set<nat>, fields: set<nat>)
    requires h in mine && IsStatement(w, h) && !Busy(w, h) && Framed(SetStatement(w, h, m), v, mine, fields)
    ensures Framed(w, v, mine, fields)
  {
  }

  /** Nor does making it. */
  lemma FramedAfterNew(w: World, x: Handle, v: World, fields: set<nat>)
    requires WorldOk(w) && !x.ExecuteFuture? && Framed(New(w, x).0, v, {w.nextId}, fields)
    ensures Framed(w, v, {}, fields)
  {
  }

  // ---- a statement for one execution ----

  /** What an execution submitted now would send, or the exception it would raise: the configuration and the bindings of this moment. */
  function MessageNow(w: World, o: Struct): Result<Message, Exception>
    requires o.StatementStruct?
  {
    if !IsPrepared(w, o.prepared) then Failure(StatementError)
    else
      var (slots, e) := Replay(w.handles[o.prepared].prepared, map[], o.kept);
      if e.Some? then Failure(e.value) else Success(Message(slots, o.pageSize, o.idempotent, None))
  }

  /** A statement just made can be set. */
  lemma SetFresh(w: World, m: Message, n: Message)
    requires WorldOk(w)
    ensures SetStatement(New(w, StatementHandle(m)).0, w.nextId, n) == New(w, StatementHandle(n)).0
    ensures MessageAt(New(w, StatementHandle(n)).0, w.nextId) == n
  {
    var v := New(w, StatementHandle(m)).0;
    assert v.handles[w.nextId := StatementHandle(n)] == w.handles[w.nextId := StatementHandle(n)];
  }

  lemma ConfiguredIsOneStep(w: World, o: Struct)
    requires WorldOk(w) && o.StatementStruct? && IsPrepared(w, o.prepared)
    ensures Configured(w, o) == New(w, StatementHandle(Message(map[], o.pageSize, o.idempotent, None)))
  {
    SetFresh(w, BLANK, BLANK.(pageSize := o.pageSize));
    SetFresh(w, BLANK.(pageSize := o.pageSize), BLANK.(pageSize := o.pageSize, idempotent := o.idempotent));
  }

  /**
   Building a statement is all or nothing: either there is one more statement, with the
   configuration and the bindings of this moment, or the only trace is a freed handle.
   */
  lemma BuildIsAtomic(w: World, o: Struct)
    requires WorldOk(w) && o.StatementStruct? && IsPrepared(w, o.prepared)
    ensures MessageNow(w, o).Success? ==>
              BuildForExecution(w, o) == (New(w, StatementHandle(MessageNow(w, o).value)).0, Success(w.nextId))
    ensures MessageNow(w, o).Failure? ==>
              BuildForExecution(w, o) == (w.(nextId := w.nextId + 1, freed := w.freed + multiset{w.nextId}), Failure(MessageNow(w, o).error))
  {
    ConfiguredIsOneStep(w, o);
    var m := Message(Replay(w.handles[o.prepared].prepared, map[], o.kept).0, o.pageSize, o.idempotent, None);
    SetFresh(w, Message(map[], o.pageSize, o.idempotent, None), m);
    var v := New(w, StatementHandle(m)).0;
    assert v.handles - {w.nextId} == w.handles && v.owner - {w.nextId} == w.owner;
  }

  lemma FailedBuildKeeps(w: World)
    requires WorldOk(w)
    ensures var v := w.(nextId := w.nextId + 1, freed := w.freed + multiset{w.nextId}); WorldOk(v) && Framed(w, v, {}, {})
  {
  }

  lemma SubmitKeeps(w: World, o: Struct)
    requires WorldOk(w) && o.StatementStruct? && IsPrepared(w, o.prepared)
    ensures var (v, r) := Submit(w, o);
      WorldOk(v) && (r.Success? <==> MessageNow(w, o).Success?)
      && (r.Failure? ==> r.error == MessageNow(w, o).error && Framed(w, v, {}, {}))
      && (r.Success? ==>
            var (h, f) := r.value;
            && h != f && IsStatement(v, h) && MessageAt(v, h) == MessageNow(w, o).value && BusyOnlyBy(v, h, f)
            && f in v.handles && v.handles[f] == ExecuteFuture(h, MessageNow(w, o).value, Waiting)
            && Framed(w, v, {}, {h, f}))
  {
    BuildIsAtomic(w, o);
    if MessageNow(w, o).Success? {
      SubmittedKeeps(w, MessageNow(w, o).value);
    } else {
      FailedBuildKeeps(w);
    }
  }

  lemma SubmittedShape(v: World, h: nat, f: nat)
    requires IsStatement(v, h) && IsExecution(v, f, h) && BusyOnlyBy(v, h, f)
    ensures Shape(v, FutureStruct(f, Some(h))) && Shape(v, ResultStruct(None, Some(f), h, Awaiting))
    ensures Fields(FutureStruct(f, Some(h))) == {h, f} == Fields(ResultStruct(None, Some(f), h, Awaiting))
  {
  }

  lemma ExecuteAsyncKeeps(w: World, o: Struct)
    requires WorldOk(w) && o.StatementStruct? && IsPrepared(w, o.prepared)
    ensures var (v, r) := ExecuteAsync(w, o);
      WorldOk(v) && (r.Success? ==> Shape(v, r.value)) && Framed(w, v, {}, if r.Success? then Fields(r.value) else {})
  {
    SubmitKeeps(w, o);
    var (v, r) := Submit(w, o);
    if r.Success? {
      SubmittedShape(v, r.value.0, r.value.1);
    }
  }

  lemma ExecuteStartKeeps(w: World, o: Struct)
    requires WorldOk(w) && o.StatementStruct? && IsPrepared(w, o.prepared)
    ensures var (v, r) := ExecuteStart(w, o);
      WorldOk(v) && (r.Success? ==> Shape(v, r.value)) && Framed(w, v, {}, if r.Success? then Fields(r.value) else {})
  {
    SubmitKeeps(w, o);
    var (v, r) := Submit(w, o);
    if r.Success? {
      SubmittedShape(v, r.value.0, r.value.1);
    }
  }

  lemma SubmittedKeeps(w: World, m: Message)
    requires WorldOk(w)
    ensures var (w1, h) := New(w, StatementHandle(m)); var (v, f) := SessionExecute(w1, h);
      && WorldOk(v) && BusyOnlyBy(v, h, f) && Framed(w, v, {}, {h, f})
      && h != f && IsStatement(v, h) && MessageAt(v, h) == m && f in v.handles && v.handles[f] == ExecuteFuture(h, m, Waiting)
  {
    var (w1, h) := New(w, StatementHandle(m));
    NewKeeps(w, StatementHandle(m), {});
    SubmittedFramed(w, m, w1, h);
  }

  lemma SubmittedFramed(w: World, m: Message, w1: World, h: nat)
    requires WorldOk(w) && (w1, h) == New(w, StatementHandle(m)) && WorldOk(w1) && !Busy(w1, h)
    ensures var (v, f) := SessionExecute(w1, h); WorldOk(v) && BusyOnlyBy(v, h, f) && Framed(w, v, {}, {h, f})
  {
    var (v, f) := SessionExecute(w1, h);
    ExecuteKeeps(w1, h, {h});
    FramedAfterNew(w, StatementHandle(m), v, {h, f});
    assert {h} + {f} == {h, f};
  }

  // ---- the other operations ----

  lemma PrepareKeeps(w: World, query: string)
    requires WorldOk(w)
    ensures var (v, o) := PrepareAsync(w, query); WorldOk(v) && Shape(v, o) && Framed(w, v, {}, Fields(o))
    ensures var (v, o) := PrepareStart(w, query); WorldOk(v) && Shape(v, o) && Framed(w, v, {}, Fields(o))
    ensures PrepareAsync(w, query).0 == PrepareStart(w, query).0
    ensures PrepareAsync(w, query).0.handles == w.handles[w.nextId := PrepareFuture(query, Waiting)]
  {
    NewKeeps(w, PrepareFuture(query, Waiting), {});
    assert Fields(PrepareAsync(w, query).1) == {w.nextId};
  }

  lemma YieldStatementKeeps(w: World, server: Server, f: nat)
    requires WorldOk(w) && Replied(w, f, Done) && w.handles[f].PrepareFuture?
    ensures var (v, o) := YieldStatement(w, server, f); WorldOk(v) && Shape(v, o) && Framed(w, v, {}, Fields(o))
  {
    var x := PreparedHandle(server.prepare(w.handles[f].query));
    var (w1, p) := New(w, x);
    NewKeeps(w, x, {});
    SetFresh(w1, BLANK, BLANK.(pageSize := DEFAULT_PAGE_SIZE));
    NewKeeps(w1, StatementHandle(BLANK.(pageSize := DEFAULT_PAGE_SIZE)), {p});
  }

  /** Setting a handle and freeing another one can be swapped. */
  lemma SetAfterFree(w: World, f: nat, h: nat, m: Message)
    requires f != h
    ensures SetStatement(Free(w, f), h, m) == Free(SetStatement(w, h, m), f)
  {
    assert (w.handles - {f})[h := StatementHandle(m)] == w.handles[h := StatementHandle(m)] - {f};
  }

  /** session_prepare makes its Statement as a success block's is made, and frees the future besides. */
  lemma PrepareEndIsYieldAndFree(w: World, server: Server, f: nat)
    requires WorldOk(w) && Replied(w, f, Done) && w.handles[f].PrepareFuture?
    ensures var (v, o) := YieldStatement(w, server, f); PrepareEnd(w, server, f) == (Free(v, f), Some(o))
  {
    var (w1, p) := GetPrepared(w, server, f);
    var (w2, h) := PreparedBind(w1, p);
    assert MessageAt(Free(w2, f), h) == MessageAt(w2, h);
    SetAfterFree(w2, f, h, MessageAt(w2, h).(pageSize := DEFAULT_PAGE_SIZE));
  }

  lemma FreeKeepsOthers(w: World, v: World, f: nat, fields: set<nat>)
    requires WorldOk(w) && WorldOk(v) && Framed(w, v, {}, fields) && f in w.handles
    ensures WorldOk(Free(v, f)) && Framed(w, Free(v, f), {f}, fields)
  {
  }

  lemma PrepareEndKeeps(w: World, server: Server, f: nat)
    requires WorldOk(w) && f in w.handles && w.handles[f].PrepareFuture? && !w.handles[f].reply.Waiting?
    ensures var (v, o) := PrepareEnd(w, server, f);
      WorldOk(v) && (o.Some? ==> Shape(v, o.value)) && Framed(w, v, {f}, if o.Some? then Fields(o.value) else {})
  {
    FreeNone(w);
    if Replied(w, f, Refused) {
      FreeOneMore(w, {}, f);
      FreeAllKeeps(w, {f}, {f});
    } else {
      PrepareEndIsYieldAndFree(w, server, f);
      YieldStatementKeeps(w, server, f);
      FreeKeepsOthers(w, YieldStatement(w, server, f).0, f, Fields(YieldStatement(w, server, f).1));
    }
  }

  lemma SettingKeeps(w: World, o: Struct, m: Message)
    requires WorldOk(w) && o.StatementStruct? && Shape(w, o)
    ensures var v := SetStatement(w, o.scratch, m); WorldOk(v) && Shape(v, o) && Framed(w, v, Fields(o), Fields(o))
  {
    SetKeeps(w, o.scratch, m);
  }

  lemma ExecuteEndKeeps(w: World, server: Server, o: Struct)
    requires WorldOk(w) && o.ResultStruct? && o.call.Awaiting? && Shape(w, o) && !w.handles[o.answered.value].reply.Waiting?
    ensures var (v, o', _) := ExecuteEnd(w, server, o); WorldOk(v) && Shape(v, o') && Framed(w, v, Fields(o), Fields(o'))
  {
    if !Replied(w, o.answered.value, Refused) {
      NewKeeps(w, ResultHandle(server.page(w.handles[o.answered.value].sent)), Fields(o));
      assert Fields(ExecuteEnd(w, server, o).1) == Fields(o) * w.handles.Keys + {w.nextId};
    }
  }

  lemma YieldResultKeeps(w: World, server: Server, o: Struct)
    requires WorldOk(w) && o.FutureStruct? && o.executed.Some? && Shape(w, o) && Replied(w, o.future, Done)
    ensures var (v, o', r) := YieldResult(w, server, o);
      WorldOk(v) && Shape(v, o') && Shape(v, r) && Fields(o') !! Fields(r) && Framed(w, v, Fields(o), Fields(o') + Fields(r))
  {
    NewKeeps(w, ResultHandle(server.page(w.handles[o.future].sent)), Fields(o));
    var (_, o', r) := YieldResult(w, server, o);
    assert Fields(o') + Fields(r) == Fields(o) * w.handles.Keys + {w.nextId};
  }

  lemma NextPageStartKeeps(w: World, o: Struct)
    requires WorldOk(w) && o.ResultStruct? && o.result.Some? && o.call.NoCall? && Shape(w, o)
    ensures var (v, o') := NextPageStart(w, o); WorldOk(v) && Shape(v, o') && Framed(w, v, Fields(o), Fields(o'))
  {
    var token := PageAt(w, o.result.value).next;
    if token.Some? {
      ShapeLive(w, o);
      ResubmitKeeps(w, o, MessageAt(w, o.submitted).(paging := token));
    }
  }

  lemma ResubmitKeeps(w: World, o: Struct, m: Message)
    requires WorldOk(w) && o.ResultStruct? && o.result.Some? && o.call.NoCall? && Shape(w, o) && Fields(o) <= w.handles.Keys
    ensures var (v, f) := SessionExecute(SetStatement(w, o.submitted, m), o.submitted);
      WorldOk(v) && Shape(v, o.(call := NextPaging(f))) && Framed(w, v, Fields(o), Fields(o.(call := NextPaging(f))))
  {
    var (v, f) := SessionExecute(SetStatement(w, o.submitted, m), o.submitted);
    ResubmitFramed(w, o.submitted, m, Fields(o));
    assert Fields(o.(call := NextPaging(f))) == Fields(o) + {f};
  }

  lemma ResubmitFramed(w: World, h: nat, m: Message, mine: set<nat>)
    requires WorldOk(w) && IsStatement(w, h) && !Busy(w, h) && h in mine && mine <= w.handles.Keys
    ensures var (v, f) := SessionExecute(SetStatement(w, h, m), h); WorldOk(v) && BusyOnlyBy(v, h, f) && Framed(w, v, mine, mine + {f})
  {
    SetKeeps(w, h, m);
    var w1 := SetStatement(w, h, m);
    ExecuteKeeps(w1, h, mine);
    var (v, f) := SessionExecute(w1, h);
    FramedAfterSet(w, h, m, v, mine, mine + {f});
  }

  lemma NextPageEndKeeps(w: World, server: Server, o: Struct)
    requires WorldOk(w) && o.ResultStruct? && o.call.NextPaging? && Shape(w, o) && !w.handles[o.call.future].reply.Waiting?
    ensures var (v, o', _) := NextPageEnd(w, server, o); WorldOk(v) && Shape(v, o') && Framed(w, v, Fields(o), Fields(o'))
  {
    ShapeLive(w, o);
    if Replied(w, o.call.future, Refused) {
      NextPageRefusedKeeps(w, o);
    } else {
      NextPageDoneKeeps(w, server, o);
    }
  }

  lemma NextPageRefusedKeeps(w: World, o: Struct)
    requires WorldOk(w) && o.ResultStruct? && o.call.NextPaging? && Shape(w, o) && Distinct(o) && Fields(o) <= w.handles.Keys
    requires Replied(w, o.call.future, Refused)
    ensures var v, o' := Free(w, o.call.future), o.(call := NoCall);
      WorldOk(v) && Shape(v, o') && Framed(w, v, Fields(o), Fields(o'))
  {
    FreeNone(w);
    FreeOneMore(w, {}, o.call.future);
    assert {} + {o.call.future} == {o.call.future};
    FreeAllKeeps(w, {o.call.future}, Fields(o));
    NextPageFields(o, w.nextId);
    IdleOnceReplied(w, o.submitted, o.call.future);
  }

  lemma NextPageDoneKeeps(w: World, server: Server, o: Struct)
    requires WorldOk(w) && o.ResultStruct? && o.call.NextPaging? && Shape(w, o) && Distinct(o) && Fields(o) <= w.handles.Keys
    requires Replied(w, o.call.future, Done)
    ensures var (v, o', _) := NextPageEnd(w, server, o); WorldOk(v) && Shape(v, o') && Framed(w, v, Fields(o), Fields(o'))
  {
    var gone := {o.result.value} + Elements(o.answered);
    NextPageEndIsReplacement(w, server, o);
    FreeAllNewKeeps(w, gone, ResultHandle(server.page(w.handles[o.call.future].sent)), Fields(o));
    NextPageFields(o, w.nextId);
    IdleOnceReplied(w, o.submitted, o.call.future);
  }

  lemma NextPageFields(o: Struct, r: nat)
    requires o.ResultStruct? && o.call.NextPaging? && o.result.Some? && Distinct(o) && r !in Fields(o)
    ensures Fields(o.(call := NoCall)) == Fields(o) - {o.call.future}
    ensures Fields(ResultStruct(Some(r), Some(o.call.future), o.submitted, NoCall))
            == Fields(o) - ({o.result.value} + Elements(o.answered)) + {r}
  {
  }

  lemma IdleOnceReplied(w: World, h: nat, f: nat)
    requires Isolated(w) && BusyOnlyBy(w, h, f) && IsFuture(w, f) && !w.handles[f].reply.Waiting?
    ensures !Busy(w, h)
  {
  }

  /** A successful next_page frees the old result and its future, and makes the new result, of the page the server sends. */
  lemma NextPageEndIsReplacement(w: World, server: Server, o: Struct)
    requires o.ResultStruct? && o.call.NextPaging? && o.result.Some? && Distinct(o)
    requires Replied(w, o.call.future, Done) && w.handles[o.call.future].ExecuteFuture?
    ensures NextPageEnd(w, server, o).0
            == New(FreeAll(w, {o.result.value} + Elements(o.answered)), ResultHandle(server.page(w.handles[o.call.future].sent))).0
    ensures NextPageEnd(w, server, o).1 == ResultStruct(Some(w.nextId), Some(o.call.future), o.submitted, NoCall)
  {
    FreeNone(w);
    FreeOneMore(w, {}, o.result.value);
    assert {} + {o.result.value} == {o.result.value};
    FreeIfAnyMore(w, {o.result.value}, o.answered);
  }

  /** The handles in the fields of a struct are different ones. */
  predicate Distinct(o: Struct) {
    match o
    case StatementStruct(prepared, scratch, _, _, _) => prepared != scratch
    case FutureStruct(future, executed) => executed != Some(future)
    case ResultStruct(result, answered, submitted, call) =>
      && result != Some(submitted) && answered != Some(submitted) && (result.Some? ==> result != answered)
      && (call.NextPaging? ==> Some(call.future) != result && Some(call.future) != answered && call.future != submitted)
    case PrepareCall(_) => true
  }

  lemma ShapeLive(w: World, o: Struct)
    requires Shape(w, o)
    ensures Distinct(o) && Fields(o) <= w.handles.Keys
  {
  }

  lemma DestroyedKeeps(w: World, o: Struct)
    requires WorldOk(w) && Shape(w, o)
    ensures var v := Destroyed(w, o); WorldOk(v) && Framed(w, v, Fields(o), Fields(o) - Freed(o))
  {
    ShapeLive(w, o);
    DestroyedFrees(w, o);
    FreeAllKeeps(w, Freed(o), Fields(o));
  }

  /** What a destroy function frees: every handle of the struct, but not what a call still has in a local variable. */
  function Freed(o: Struct): (hs: set<nat>)
    ensures hs <= Fields(o)
    ensures !o.PrepareCall? && !(o.ResultStruct? && o.call.NextPaging?) ==> hs == Fields(o)
  {
    match o
    case ResultStruct(result, answered, submitted, _) => Elements(result) + Elements(answered) + {submitted}
    case PrepareCall(_) => {}
    case _ => Fields(o)
  }

  lemma DestroyedFrees(w: World, o: Struct)
    requires Distinct(o)
    ensures Destroyed(w, o) == FreeAll(w, Freed(o))
  {
    FreeNone(w);
    match o
    case StatementStruct(prepared, scratch, _, _, _) =>
      FreeOneMore(w, {}, prepared);
      FreeOneMore(w, {} + {prepared}, scratch);
      assert {} + {prepared} + {scratch} == Freed(o);
    case FutureStruct(future, executed) =>
      FreeOneMore(w, {}, future);
      FreeIfAnyMore(w, {} + {future}, executed);
      assert {} + {future} + Elements(executed) == Freed(o);
    case ResultStruct(result, answered, submitted, _) =>
      ResultFrees(w, result, answered, submitted);
    case PrepareCall(_) =>
  }

  lemma ResultFrees(w: World, result: Option<nat>, answered: Option<nat>, submitted: nat)
    requires result != Some(submitted) && answered != Some(submitted) && (result.Some? ==> result != answered)
    ensures Free(FreeIfAny(FreeIfAny(w, result), answered), submitted) == FreeAll(w, Elements(result) + Elements(answered) + {submitted})
  {
    FreeNone(w);
    FreeIfAnyMore(w, {}, result);
    assert {} + Elements(result) == Elements(result);
    FreeIfAnyMore(w, Elements(result), answered);
    FreeOneMore(w, Elements(result) + Elements(answered), submitted);
  }

  // ---- the driver's answers ----

  lemma ResolveKeepsWorld(w: World, h: nat, ok: bool)
    requires WorldOk(w)
    ensures WorldOk(Resolve(w, h, ok))
  {
  }

  lemma ResolveKeepsShape(w: World, h: nat, ok: bool, x: Struct)
    requires Shape(w, x)
    ensures Shape(Resolve(w, h, ok), x)
  {
  }
}
