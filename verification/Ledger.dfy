/**
 The driver's handles, and what every operation of session.c, statement.c, result.c and
 the callbacks of future.c does to them. Handles are numbers that are never reused. The
 functions are total: a use that the driver does not allow sets the flag fault, and a
 second free shows in the count of frees.
 */
module Ledger {
  import opened Prelude
  import opened BindValues
  import opened BindLog
  import opened Paging

  const DEFAULT_PAGE_SIZE := 10000

  datatype Reply = Waiting | Refused | Done

  /** A CassPrepared, a CassStatement, a CassFuture of either kind, or a CassResult. */
  datatype Handle =
    | PreparedHandle(prepared: Prepared)
    | StatementHandle(message: Message)
    | PrepareFuture(query: string, reply: Reply)
    | ExecuteFuture(statement: nat, sent: Message, reply: Reply)
    | ResultHandle(page: Page)

  /**
   The driver's side. owner is the ledger: the Ruby object or call that has each live
   handle, or None while a C function has it in a local variable. inFlight has the
   executions the server has not answered, even if their future was freed.
   */
  datatype World = World(
    nextId: nat,
    handles: map<nat, Handle>,
    owner: map<nat, Option<nat>>,
    freed: multiset<nat>,
    inFlight: map<nat, (nat, Message)>,
    fault: bool)

  const NOTHING := World(0, map[], map[], multiset{}, map[], false)

  // ---- the driver's functions ----

  predicate IsPrepared(w: World, h: nat) {
    h in w.handles && w.handles[h].PreparedHandle?
  }

  predicate IsStatement(w: World, h: nat) {
    h in w.handles && w.handles[h].StatementHandle?
  }

  predicate IsResult(w: World, h: nat) {
    h in w.handles && w.handles[h].ResultHandle?
  }

  predicate IsFuture(w: World, h: nat) {
    h in w.handles && (w.handles[h].PrepareFuture? || w.handles[h].ExecuteFuture?)
  }

  predicate Replied(w: World, f: nat, reply: Reply) {
    IsFuture(w, f) && w.handles[f].reply == reply
  }

  /** The driver's IO thread may be encoding the statement. */
  predicate Busy(w: World, h: nat) {
    exists f :: f in w.inFlight && w.inFlight[f].0 == h
  }

  const BLANK := Message(map[], 0, None, None)

  function MessageAt(w: World, h: nat): Message {
    if IsStatement(w, h) then w.handles[h].message else BLANK
  }

  function Fault(w: World): World {
    w.(fault := true)
  }

  /** A new handle, in a local variable of the running C function. */
  function New(w: World, x: Handle): (World, nat) {
    (w.(nextId := w.nextId + 1, handles := w.handles[w.nextId := x], owner := w.owner[w.nextId := None]), w.nextId)
  }

  /** The four cass_*_free functions. */
  function Free(w: World, h: nat): World {
    w.(handles := w.handles - {h}, owner := w.owner - {h}, freed := w.freed + multiset{h})
  }

  function FreeIfAny(w: World, h: Option<nat>): World {
    if h.Some? then Free(w, h.value) else w
  }

  /** Every setter of a driver statement. None may touch a statement that is being encoded. */
  function SetStatement(w: World, h: nat, m: Message): World {
    if IsStatement(w, h) && !Busy(w, h) then w.(handles := w.handles[h := StatementHandle(m)]) else Fault(w)
  }

  /** cass_prepared_bind: every parameter unset. */
  function PreparedBind(w: World, p: nat): (World, nat) {
    New(if IsPrepared(w, p) then w else Fault(w), StatementHandle(BLANK))
  }

  /** cass_session_execute: the driver encodes the statement on its own thread until the server answers. */
  function SessionExecute(w: World, h: nat): (World, nat) {
    var m := MessageAt(w, h);
    var (v, f) := New(if IsStatement(w, h) then w else Fault(w), ExecuteFuture(h, m, Waiting));
    (v.(inFlight := v.inFlight[f := (h, m)]), f)
  }

  /** The driver resolves a future, once; an execution is answered even if its future was freed. */
  function Resolve(w: World, f: nat, ok: bool): World {
    var answered := w.(inFlight := w.inFlight - {f});
    if Replied(w, f, Waiting) then answered.(handles := w.handles[f := w.handles[f].(reply := if ok then Done else Refused)])
    else answered
  }

  function GetPrepared(w: World, server: Server, f: nat): (World, nat) {
    if Replied(w, f, Done) && w.handles[f].PrepareFuture? then New(w, PreparedHandle(server.prepare(w.handles[f].query)))
    else New(Fault(w), StatementHandle(BLANK))
  }

  function GetResult(w: World, server: Server, f: nat): (World, nat) {
    if Replied(w, f, Done) && w.handles[f].ExecuteFuture? then New(w, ResultHandle(server.page(w.handles[f].sent)))
    else New(Fault(w), StatementHandle(BLANK))
  }

  // ---- the structs ----

  /** Where a C function that gave up the GVL stands, on behalf of a Result. */
  datatype Call = NoCall | Awaiting | NextPaging(future: nat)

  /** The structs that hold handles, and the local variables of a session_prepare that is waiting. */
  datatype Struct =
    | StatementStruct(prepared: nat, scratch: nat, kept: Kept, pageSize: int, idempotent: Option<bool>)
    | FutureStruct(future: nat, executed: Option<nat>)
    | ResultStruct(result: Option<nat>, answered: Option<nat>, submitted: nat, call: Call)
    | PrepareCall(waiting: nat)

  function Elements(h: Option<nat>): set<nat> {
    if h.Some? then {h.value} else {}
  }

  function Fields(o: Struct): set<nat> {
    match o
    case StatementStruct(prepared, scratch, _, _, _) => {prepared, scratch}
    case FutureStruct(future, executed) => {future} + Elements(executed)
    case ResultStruct(result, answered, submitted, call) =>
      Elements(result) + Elements(answered) + {submitted} + (if call.NextPaging? then {call.future} else {})
    case PrepareCall(waiting) => {waiting}
  }

  /** Struct id takes possession of the handles in its fields. */
  function Possessed(w: World, id: nat, o: Struct): World {
    w.(owner := map h | h in w.owner :: if h in Fields(o) then Some(id) else w.owner[h])
  }

  // ---- the operations ----

  /** session_prepare_async (session.c:27-36), and the first half of session_prepare (session.c:46-56). */
  function PrepareAsync(w: World, query: string): (World, Struct) {
    var (v, f) := New(w, PrepareFuture(query, Waiting));
    (v, FutureStruct(f, None))
  }

  function PrepareStart(w: World, query: string): (World, Struct) {
    var (v, f) := New(w, PrepareFuture(query, Waiting));
    (v, PrepareCall(f))
  }

  /** statement_default_config (statement.c:27-33). */
  function DefaultConfig(w: World, prepared: nat, scratch: nat): (World, Struct) {
    (SetStatement(w, scratch, MessageAt(w, scratch).(pageSize := DEFAULT_PAGE_SIZE)),
     StatementStruct(prepared, scratch, [], DEFAULT_PAGE_SIZE, None))
  }

  /** The rest of session_prepare (session.c:58-75), once the future has resolved: a Statement, or an exception. */
  function PrepareEnd(w: World, server: Server, f: nat): (World, Option<Struct>) {
    if Replied(w, f, Refused) then (Free(w, f), None)
    else
      var (w1, p) := GetPrepared(w, server, f);
      var (w2, h) := PreparedBind(w1, p);
      var (w3, o) := DefaultConfig(Free(w2, f), p, h);
      (w3, Some(o))
  }

  /** The object made for a success block of a prepare future (future.c:96-109). */
  function YieldStatement(w: World, server: Server, f: nat): (World, Struct) {
    var (w1, p) := GetPrepared(w, server, f);
    var (w2, h) := PreparedBind(w1, p);
    DefaultConfig(w2, p, h)
  }

  /** statement_bind (statement.c:231-256). */
  function Bind(w: World, o: Struct, hash: seq<(Value, Value)>): (World, Struct, Option<Exception>)
    requires o.StatementStruct?
  {
    if !IsPrepared(w, o.prepared) then (Fault(w), o, None)
    else
      var m := MessageAt(w, o.scratch);
      var (st, e) := BindAll(w.handles[o.prepared].prepared, Scratch(m.slots, o.kept), hash);
      (SetStatement(w, o.scratch, m.(slots := st.slots)), o.(kept := st.kept), e)
  }

  /** statement_page_size and statement_idempotent (statement.c:264-290). */
  function SetPageSize(w: World, o: Struct, size: int): (World, Struct)
    requires o.StatementStruct?
  {
    (SetStatement(w, o.scratch, MessageAt(w, o.scratch).(pageSize := size)), o.(pageSize := size))
  }

  function SetIdempotent(w: World, o: Struct, value: Value): (World, Struct)
    requires o.StatementStruct?
  {
    (SetStatement(w, o.scratch, MessageAt(w, o.scratch).(idempotent := Some(Truthy(value)))), o.(idempotent := Some(Truthy(value))))
  }

  /** The first half of statement_build_for_execution (statement.c:196-201). */
  function Configured(w: World, o: Struct): (World, nat)
    requires o.StatementStruct?
  {
    var (w1, h) := PreparedBind(w, o.prepared);
    var w2 := SetStatement(w1, h, MessageAt(w1, h).(pageSize := o.pageSize));
    (if o.idempotent.Some? then SetStatement(w2, h, MessageAt(w2, h).(idempotent := o.idempotent)) else w2, h)
  }

  /** statement_build_for_execution (statement.c:194-219): a statement of its own for one execution, or an exception and nothing. */
  function BuildForExecution(w: World, o: Struct): (World, Result<nat, Exception>)
    requires o.StatementStruct?
  {
    var (v, h) := Configured(w, o);
    if !IsPrepared(v, o.prepared) then (Fault(v), Failure(StatementError))
    else
      var (slots, e) := Replay(v.handles[o.prepared].prepared, MessageAt(v, h).slots, o.kept);
      var replayed := SetStatement(v, h, MessageAt(v, h).(slots := slots));
      if e.Some? then (Free(replayed, h), Failure(e.value)) else (replayed, Success(h))
  }

  /** Builds a statement and submits it (session.c:98-99 and 128-129): the two new handles, or an exception. */
  function Submit(w: World, o: Struct): (World, Result<(nat, nat), Exception>)
    requires o.StatementStruct?
  {
    var (v, built) := BuildForExecution(w, o);
    if built.Failure? then (v, Failure(built.error))
    else
      var (u, f) := SessionExecute(v, built.value);
      (u, Success((built.value, f)))
  }

  /** session_execute_async (session.c:84-106). */
  function ExecuteAsync(w: World, o: Struct): (World, Result<Struct, Exception>)
    requires o.StatementStruct?
  {
    var (v, r) := Submit(w, o);
    (v, if r.Failure? then Failure(r.error) else Success(FutureStruct(r.value.1, Some(r.value.0))))
  }

  /** session_execute (session.c:116-138), up to the wait. */
  function ExecuteStart(w: World, o: Struct): (World, Result<Struct, Exception>)
    requires o.StatementStruct?
  {
    var (v, r) := Submit(w, o);
    (v, if r.Failure? then Failure(r.error) else Success(ResultStruct(None, Some(r.value.1), r.value.0, Awaiting)))
  }

  /** The rest of result_await (result.c:22-33), once the future has resolved. */
  function ExecuteEnd(w: World, server: Server, o: Struct): (World, Struct, Option<Exception>)
    requires o.ResultStruct? && o.answered.Some?
  {
    if Replied(w, o.answered.value, Refused) then (w, o.(call := NoCall), Some(ExecutionError))
    else if o.result.None? then
      var (v, r) := GetResult(w, server, o.answered.value);
      (v, o.(result := Some(r), call := NoCall), None)
    else (w, o.(call := NoCall), None)
  }

  /** The object made for a success block of an execute future (future.c:111-126): it takes the executed statement over. */
  function YieldResult(w: World, server: Server, o: Struct): (World, Struct, Struct)
    requires o.FutureStruct? && o.executed.Some?
  {
    var (v, r) := GetResult(w, server, o.future);
    (v, o.(executed := None), ResultStruct(Some(r), None, o.executed.value, NoCall))
  }

  function PageAt(w: World, h: nat): Page {
    if IsResult(w, h) then w.handles[h].page else Page([], None)
  }

  /** result_next_page (result.c:42-81), up to the wait; without a next page it is over at once. */
  function NextPageStart(w: World, o: Struct): (World, Struct)
    requires o.ResultStruct? && o.result.Some?
  {
    if !IsResult(w, o.result.value) then (Fault(w), o)
    else
      var token := PageAt(w, o.result.value).next;
      if token.None? then (w, o)
      else
        var v := SetStatement(w, o.submitted, MessageAt(w, o.submitted).(paging := token));
        var (u, f) := SessionExecute(v, o.submitted);
        (u, o.(call := NextPaging(f)))
  }

  /** The rest of result_next_page (result.c:67-80), once the new future has resolved. */
  function NextPageEnd(w: World, server: Server, o: Struct): (World, Struct, Option<Exception>)
    requires o.ResultStruct? && o.result.Some? && o.call.NextPaging?
  {
    var f := o.call.future;
    if Replied(w, f, Refused) then (Free(w, f), o.(call := NoCall), Some(ExecutionError))
    else
      var w1 := FreeIfAny(Free(w, o.result.value), o.answered);
      var (w2, r) := GetResult(w1, server, f);
      (w2, o.(result := Some(r), answered := Some(f), call := NoCall), None)
  }

  /** statement_destroy, future_destroy and result_destroy (statement.c:299-310, future.c:367-381, result.c:257-271). */
  function Destroyed(w: World, o: Struct): World {
    match o
    case StatementStruct(prepared, scratch, _, _, _) => Free(Free(w, prepared), scratch)
    case FutureStruct(future, executed) => FreeIfAny(Free(w, future), executed)
    case ResultStruct(result, answered, submitted, _) => Free(FreeIfAny(FreeIfAny(w, result), answered), submitted)
    case PrepareCall(_) => w
  }
}
