/**
 The Ruby objects of session.c, statement.c and result.c as mutable objects over one
 driver, with the handle fields of future.c (its flags and callbacks are in
 FutureObjects). Each method is proved to do what the function of the same operation in
 Ledger does. Where the C code waits with the GVL released, the methods take the
 server's verdict ok and let nothing else happen in between; LedgerMachine does not.
 */
module Cassandra {
  import opened Prelude
  import opened BindValues
  import opened BindLog
  import opened Rows
  import opened Paging
  import opened Ledger
  import opened LedgerLocal
  import opened LedgerTheorems

  /** The driver: its functions, on its own state. A handle may be used only while it is live, and set only while it is idle. */
  class Driver {
    const server: Server
    var w: World

    constructor (server: Server)
      ensures w == NOTHING && this.server == server
    {
      this.server, w := server, NOTHING;
    }

    method Make(x: Handle) returns (h: nat)
      modifies this
      ensures (w, h) == New(old(w), x)
    {
      h := w.nextId;
      w := New(w, x).0;
    }

    method Set(h: nat, m: Message)
      requires IsStatement(w, h) && !Busy(w, h)
      modifies this
      ensures w == SetStatement(old(w), h, m)
    {
      w := w.(handles := w.handles[h := StatementHandle(m)]);
    }

    method Release(h: nat)
      requires h in w.handles
      modifies this
      ensures w == Free(old(w), h)
    {
      w := Free(w, h);
    }

    method BindPrepared(p: nat) returns (h: nat)
      requires IsPrepared(w, p)
      modifies this
      ensures (w, h) == PreparedBind(old(w), p)
    {
      h := Make(StatementHandle(BLANK));
    }

    method Execute(h: nat) returns (f: nat)
      requires IsStatement(w, h)
      modifies this
      ensures (w, f) == SessionExecute(old(w), h)
    {
      f := w.nextId;
      w := SessionExecute(w, h).0;
    }

    method Answer(f: nat, ok: bool)
      requires IsFuture(w, f)
      modifies this
      ensures w == Resolve(old(w), f, ok)
    {
      w := Resolve(w, f, ok);
    }

    method FuturePrepared(f: nat) returns (h: nat)
      requires Replied(w, f, Done) && w.handles[f].PrepareFuture?
      modifies this
      ensures (w, h) == GetPrepared(old(w), server, f)
    {
      h := Make(PreparedHandle(server.prepare(w.handles[f].query)));
    }

    method FutureResult(f: nat) returns (h: nat)
      requires Replied(w, f, Done) && w.handles[f].ExecuteFuture?
      modifies this
      ensures (w, h) == GetResult(old(w), server, f)
    {
      h := Make(ResultHandle(server.page(w.handles[f].sent)));
    }
  }

  /** A Ruby hash with string keys. */
  class RubyHash {
    var entries: Kept

    constructor (entries: Kept)
      ensures this.entries == entries
    {
      this.entries := entries;
    }

    /** rb_hash_aset. */
    method Aset(name: string, v: Value)
      modifies this
      ensures entries == Stored(old(entries), name, v)
    {
      entries := Stored(entries, name, v);
    }
  }

  // ---- hash_cb ----

  /** hash_cb (statement.c:35-172): binds one entry on a driver statement, and records it if there is a hash to record in. */
  method HashCb(driver: Driver, p: Prepared, target: nat, record: RubyHash?, key: Value, value: Value) returns (raised: Option<Exception>)
    requires IsStatement(driver.w, target) && !Busy(driver.w, target)
    modifies driver, record
    ensures Entry(p, key, value).Failure? ==>
              && raised == Some(Entry(p, key, value).error) && driver.w == old(driver.w)
              && (record != null ==> record.entries == old(record.entries))
    ensures Entry(p, key, value).Success? ==>
              var (name, c) := Entry(p, key, value).value;
              var m := MessageAt(old(driver.w), target);
              && raised == None && driver.w == SetStatement(old(driver.w), target, m.(slots := Bound(p, m.slots, name, c.bound)))
              && (record != null ==> record.entries == Stored(old(record.entries), name, c.kept))
  {
    var name := KeyName(key);
    if name.Failure? {
      return Some(name.error);
    }
    if p.columns(name.value) == {} {
      return Some(StatementError);
    }
    var converted := Convert(p, p.typeOf(name.value), value);
    if converted.Failure? {
      return Some(converted.error);
    }
    if !p.accepts(name.value, converted.value.bound) {
      return Some(StatementError);
    }
    var m := driver.w.handles[target].message;
    driver.Set(target, m.(slots := Bound(p, m.slots, name.value, converted.value.bound)));
    if record != null {
      record.Aset(name.value, converted.value.kept);
    }
    raised := None;
  }

  function EntriesOf(record: RubyHash?): Kept
    reads record
  {
    if record == null then [] else record.entries
  }

  lemma SetTwice(w: World, h: nat, m: Message, n: Message)
    requires IsStatement(w, h) && !Busy(w, h)
    ensures SetStatement(SetStatement(w, h, m), h, n) == SetStatement(w, h, n)
    ensures IsStatement(SetStatement(w, h, m), h) && !Busy(SetStatement(w, h, m), h) && MessageAt(SetStatement(w, h, m), h) == m
  {
    assert w.handles[h := StatementHandle(m)][h := StatementHandle(n)] == w.handles[h := StatementHandle(n)];
  }

  lemma SetSame(w: World, h: nat)
    requires IsStatement(w, h) && !Busy(w, h)
    ensures SetStatement(w, h, MessageAt(w, h)) == w
  {
    assert w.handles[h := StatementHandle(MessageAt(w, h))] == w.handles;
  }

  /** rb_hash_foreach(hash, hash_cb): stops at the first entry that raises. */
  method HashForeach(driver: Driver, p: Prepared, target: nat, record: RubyHash?, hash: seq<(Value, Value)>) returns (raised: Option<Exception>)
    requires IsStatement(driver.w, target) && !Busy(driver.w, target)
    modifies driver, record
    ensures var m := MessageAt(old(driver.w), target);
            var (after, e) := BindAll(p, Scratch(m.slots, old(EntriesOf(record))), hash);
      && raised == e && driver.w == SetStatement(old(driver.w), target, m.(slots := after.slots))
      && (record != null ==> record.entries == after.kept)
  {
    ghost var kept := EntriesOf(record);
    ghost var w0, m := driver.w, MessageAt(driver.w, target);
    ghost var before := Scratch(m.slots, kept);
    ghost var slots := m.slots;
    SetSame(w0, target);
    for i := 0 to |hash|
      invariant driver.w == SetStatement(w0, target, m.(slots := slots))
      invariant record != null ==> record.entries == kept
      invariant BindAll(p, before, hash) == BindAll(p, Scratch(slots, kept), hash[i..])
    {
      SetTwice(w0, target, m.(slots := slots), m);
      assert hash[i..][0] == hash[i] && hash[i..][1..] == hash[i + 1..];
      raised := HashCb(driver, p, target, record, hash[i].0, hash[i].1);
      if raised.Some? {
        return;
      }
      ghost var (name, c) := Entry(p, hash[i].0, hash[i].1).value;
      SetTwice(w0, target, m.(slots := slots), m.(slots := Bound(p, slots, name, c.bound)));
      slots, kept := Bound(p, slots, name, c.bound), Stored(kept, name, c.kept);
    }
    raised := None;
  }

  // ---- statement.c ----

  /** The entries of a kept hash, as rb_hash_foreach hands them to hash_cb. */
  function Keyed(kept: Kept): seq<(Value, Value)> {
    seq(|kept|, i requires 0 <= i < |kept| => (Str(kept[i].0), kept[i].1))
  }

  /** Running hash_cb over a kept hash is replaying it. */
  lemma {:induction false} KeyedReplay(p: Prepared, slots: Slots, other: Kept, kept: Kept)
    ensures var r := BindAll(p, Scratch(slots, other), Keyed(kept)); (r.0.slots, r.1) == Replay(p, slots, kept)
    decreases kept
  {
    if kept != [] {
      assert Keyed(kept)[0] == (Str(kept[0].0), kept[0].1) && Keyed(kept)[1..] == Keyed(kept[1..]);
      if Entry(p, Str(kept[0].0), kept[0].1).Success? {
        var (name, c) := Entry(p, Str(kept[0].0), kept[0].1).value;
        KeyedReplay(p, Bound(p, slots, name, c.bound), Stored(other, name, c.kept), kept[1..]);
      }
    }
  }

  /** The struct CassandraStatement. */
  class CassandraStatement {
    const driver: Driver
    var prepared: nat
    var statement: nat                // the scratch statement
    var bound: RubyHash?
    var pageSize: int
    var idempotent: Option<bool>

    ghost function View(): Struct
      reads this, bound
    {
      StatementStruct(prepared, statement, EntriesOf(bound), pageSize, idempotent)
    }

    /** A new object with its handles, configured by default (statement.c:27-33). */
    constructor (driver: Driver, prepared: nat, statement: nat)
      requires IsStatement(driver.w, statement) && !Busy(driver.w, statement)
      modifies driver
      ensures (driver.w, View()) == DefaultConfig(old(driver.w), prepared, statement) && this.driver == driver && bound == null
    {
      this.driver, this.prepared, this.statement := driver, prepared, statement;
      bound, pageSize, idempotent := null, DEFAULT_PAGE_SIZE, None;
      new;
      driver.Set(statement, MessageAt(driver.w, statement).(pageSize := DEFAULT_PAGE_SIZE));
    }

    /**
     statement_bind (statement.c:231-256): merges into a copy of the hash, so that the
     hash there was, which an execution may be reading, stays what it was.
     */
    method Bind(hash: seq<(Value, Value)>) returns (raised: Option<Exception>)
      requires Shape(driver.w, View())
      modifies this`bound, driver
      ensures (driver.w, View(), raised) == Ledger.Bind(old(driver.w), old(View()), hash)
      ensures bound != null && fresh(bound) && (old(bound) != null ==> old(bound).entries == old(bound.entries))
    {
      var copy: RubyHash;
      if bound == null {
        copy := new RubyHash([]);
      } else {
        copy := new RubyHash(bound.entries);
      }
      bound := copy;
      raised := HashForeach(driver, driver.w.handles[prepared].prepared, statement, copy, hash);
    }

    /** statement_page_size (statement.c:264-272): what does not fit a C int raises, and changes nothing. */
    method SetPageSize(value: Value) returns (raised: Option<Exception>)
      requires Shape(driver.w, View())
      modifies this`pageSize, driver
      ensures ToInt(value).Failure? ==> raised == Some(ToInt(value).error) && driver.w == old(driver.w) && View() == old(View())
      ensures ToInt(value).Success? ==>
                raised == None && (driver.w, View()) == Ledger.SetPageSize(old(driver.w), old(View()), ToInt(value).value)
    {
      var size := ToInt(value);
      if size.Failure? {
        return Some(size.error);
      }
      raised := None;
      pageSize := size.value;
      driver.Set(statement, MessageAt(driver.w, statement).(pageSize := pageSize));
    }

    /** statement_idempotent (statement.c:282-290). */
    method SetIdempotent(value: Value)
      requires Shape(driver.w, View())
      modifies this`idempotent, driver
      ensures (driver.w, View()) == Ledger.SetIdempotent(old(driver.w), old(View()), value)
    {
      idempotent := Some(Truthy(value));
      driver.Set(statement, MessageAt(driver.w, statement).(idempotent := idempotent));
    }

    /** statement_build_for_execution (statement.c:194-219). */
    method BuildForExecution() returns (r: Result<nat, Exception>)
      requires WorldOk(driver.w) && Shape(driver.w, View())
      modifies driver
      ensures (driver.w, r) == Ledger.BuildForExecution(old(driver.w), View())
    {
      var h := Configure();
      ghost var v := driver.w;
      ConfiguredIsOneStep(old(driver.w), View());
      FreshIsIdle(old(driver.w), Message(map[], pageSize, idempotent, None));
      SetSame(v, h);
      if bound != null {
        KeyedReplay(driver.w.handles[prepared].prepared, map[], [], bound.entries);
        var raised := HashForeach(driver, driver.w.handles[prepared].prepared, h, null, Keyed(bound.entries));
        if raised.Some? {
          driver.Release(h);
          return Failure(raised.value);
        }
      }
      r := Success(h);
    }

    /** Its first half: a fresh statement with the current configuration. */
    method Configure() returns (h: nat)
      requires WorldOk(driver.w) && Shape(driver.w, View())
      modifies driver
      ensures (driver.w, h) == Configured(old(driver.w), View())
    {
      h := driver.BindPrepared(prepared);
      FreshIsIdle(old(driver.w), BLANK);
      ghost var v := driver.w;
      SetTwice(v, h, BLANK.(pageSize := pageSize), BLANK);
      driver.Set(h, MessageAt(driver.w, h).(pageSize := pageSize));
      if idempotent.Some? {
        driver.Set(h, MessageAt(driver.w, h).(idempotent := idempotent));
      }
    }

    /** statement_destroy (statement.c:299-310). */
    method Destroy()
      requires Shape(driver.w, View())
      modifies driver
      ensures driver.w == Destroyed(old(driver.w), View())
    {
      driver.Release(prepared);
      driver.Release(statement);
    }
  }

  lemma FreshIsIdle(w: World, m: Message)
    requires WorldOk(w)
    ensures var (v, h) := New(w, StatementHandle(m)); IsStatement(v, h) && !Busy(v, h) && MessageAt(v, h) == m
  {
  }

  // ---- the handles of future.c ----

  /** The fields of the struct CassandraFuture that hold handles. */
  class CassandraFuture {
    const driver: Driver
    var future: nat
    var executed: Option<nat>

    ghost function View(): Struct
      reads this
    {
      FutureStruct(future, executed)
    }

    constructor (driver: Driver, future: nat, executed: Option<nat>)
      ensures this.driver == driver && View() == FutureStruct(future, executed)
    {
      this.driver, this.future, this.executed := driver, future, executed;
    }

    /** future_result_success_yield, case prepare_async (future.c:96-109). */
    method SuccessStatement() returns (x: CassandraStatement)
      requires WorldOk(driver.w) && Replied(driver.w, future, Done) && driver.w.handles[future].PrepareFuture?
      modifies driver
      ensures fresh(x) && x.driver == driver
      ensures (driver.w, x.View()) == YieldStatement(old(driver.w), driver.server, future)
    {
      YieldStatementKeeps(driver.w, driver.server, future);
      var p := driver.FuturePrepared(future);
      NewKeeps(old(driver.w), driver.w.handles[p], {});
      FreshIsIdle(driver.w, BLANK);
      var h := driver.BindPrepared(p);
      x := new CassandraStatement(driver, p, h);
    }

    /** future_result_success_yield, case execute_async (future.c:111-126): hands the executed statement over. */
    method SuccessResult() returns (x: CassandraResult)
      requires Shape(driver.w, View()) && executed.Some? && Replied(driver.w, future, Done)
      modifies this`executed, driver
      ensures fresh(x) && x.driver == driver
      ensures (driver.w, View(), x.View()) == YieldResult(old(driver.w), driver.server, old(View()))
    {
      var r := driver.FutureResult(future);
      x := new CassandraResult(driver, Some(r), None, executed.value);
      executed := None;
    }

    /** future_destroy (future.c:367-381). */
    method Destroy()
      requires Shape(driver.w, View())
      modifies driver
      ensures driver.w == Destroyed(old(driver.w), View())
    {
      driver.Release(future);
      if executed.Some? {
        driver.Release(executed.value);
      }
    }
  }

  // ---- result.c ----

  /** The struct CassandraResult. The Result of an execute that raised has no page; Ruby code never sees it. */
  class CassandraResult {
    const driver: Driver
    var result: Option<nat>
    var future: Option<nat>
    var executed: nat

    /** While a C function waits on behalf of the Result, it stands at call. */
    ghost function During(call: Call): (o: Struct)
      reads this
      ensures o.ResultStruct?
    {
      ResultStruct(result, future, executed, call)
    }

    ghost function View(): Struct
      reads this
    {
      During(NoCall)
    }

    constructor (driver: Driver, result: Option<nat>, future: Option<nat>, executed: nat)
      ensures this.driver == driver && View() == ResultStruct(result, future, executed, NoCall)
    {
      this.driver, this.result, this.future, this.executed := driver, result, future, executed;
    }

    /** result_await once its future has resolved, whatever happened while it waited (result.c:24-33). */
    method Await() returns (raised: Option<Exception>)
      requires Shape(driver.w, During(Awaiting)) && !driver.w.handles[future.value].reply.Waiting?
      modifies this`result, driver
      ensures (driver.w, View(), raised) == ExecuteEnd(old(driver.w), driver.server, old(During(Awaiting)))
    {
      if driver.w.handles[future.value].reply.Refused? {
        return Some(ExecutionError);
      }
      if result.None? {
        var r := driver.FutureResult(future.value);
        result := Some(r);
      }
      raised := None;
    }

    /** result_await (result.c:20-34), when nothing happens during the wait but the driver's answer. */
    method AwaitAlone(ok: bool) returns (raised: Option<Exception>)
      requires Shape(driver.w, During(Awaiting))
      modifies this`result, driver
      ensures (driver.w, View(), raised)
              == ExecuteEnd(Resolve(old(driver.w), future.value, ok), driver.server, old(During(Awaiting)))
    {
      AnswerReplies(driver.w, During(Awaiting), ok);
      driver.Answer(future.value, ok);
      raised := Await();
    }

    /** result_next_page up to the wait (result.c:52-64): the new future, or nothing if there is no next page. */
    method AskNextPage() returns (f: Option<nat>)
      requires Shape(driver.w, View()) && result.Some?
      modifies driver
      ensures (driver.w, During(if f.None? then NoCall else NextPaging(f.value))) == NextPageStart(old(driver.w), View())
    {
      var page := driver.w.handles[result.value].page;
      if page.next.None? {
        return None;
      }
      SetTwice(driver.w, executed, MessageAt(driver.w, executed).(paging := page.next), BLANK);
      driver.Set(executed, MessageAt(driver.w, executed).(paging := page.next));
      var next := driver.Execute(executed);
      f := Some(next);
    }

    /** The rest, once f has resolved (result.c:67-80). */
    method TakeNextPage(f: nat) returns (r: Result<bool, Exception>)
      requires Shape(driver.w, During(NextPaging(f))) && !driver.w.handles[f].reply.Waiting?
      modifies this`result, this`future, driver
      ensures (driver.w, View(), r) == NextPageAnswered(driver.server, old(driver.w), old(During(NextPaging(f))))
    {
      if driver.w.handles[f].reply.Refused? {
        driver.Release(f);
        return Failure(ExecutionError);
      }
      driver.Release(result.value);
      if future.Some? {
        driver.Release(future.value);
      }
      var next := driver.FutureResult(f);
      result, future := Some(next), Some(f);
      r := Success(true);
    }

    /** result_next_page (result.c:42-81): Success(false) is nil. */
    method NextPage(ok: bool) returns (r: Result<bool, Exception>)
      requires WorldOk(driver.w) && Shape(driver.w, View()) && result.Some?
      modifies this`result, this`future, driver
      ensures (driver.w, View(), r) == NextPageAlone(driver.server, old(driver.w), old(View()), ok)
    {
      var f := AskNextPage();
      if f.None? {
        return Success(false);
      }
      NextPageStartKeeps(old(driver.w), View());
      ResolveKeepsShape(driver.w, f.value, ok, During(NextPaging(f.value)));
      driver.Answer(f.value, ok);
      r := TakeNextPage(f.value);
    }

    /**
     result_each with the iteration of result_each_body (result.c:209-249): yields one hash
     for each row of the page, in order, up to the first row that cannot be converted.
     */
    method Each(uuidText: int -> string) returns (yielded: seq<map<string, Value>>, raised: Option<Exception>)
      requires Shape(driver.w, View()) && result.Some?
      ensures OneForEachRow(uuidText, PageAt(driver.w, result.value).rows, yielded, raised)
    {
      var rows := driver.w.handles[result.value].page.rows;
      yielded, raised := [], None;
      for i := 0 to |rows|
        invariant raised == None && |yielded| == i
        invariant forall k :: 0 <= k < i ==> Success(yielded[k]) == RowHash(uuidText, rows[k], |rows[k]|)
      {
        var hash := ConvertRow(uuidText, rows[i]);
        if hash.Failure? {
          raised := Some(hash.error);
          return;
        }
        yielded := yielded + [hash.value];
      }
    }

    /** result_destroy (result.c:257-271). */
    method Destroy()
      requires Shape(driver.w, View())
      modifies driver
      ensures driver.w == Destroyed(old(driver.w), View())
    {
      if result.Some? {
        driver.Release(result.value);
      }
      if future.Some? {
        driver.Release(future.value);
      }
      driver.Release(executed);
    }
  }

  /** NextPageEnd, with what next_page returns or raises. */
  function NextPageAnswered(server: Server, w: World, o: Struct): (World, Struct, Result<bool, Exception>)
    requires o.ResultStruct? && o.result.Some? && o.call.NextPaging?
  {
    var (v, o', raised) := NextPageEnd(w, server, o);
    (v, o', if raised.Some? then Failure(raised.value) else Success(true))
  }

  /** The two halves of next_page, with the driver's answer between them and nothing else. */
  function NextPageAlone(server: Server, w: World, o: Struct, ok: bool): (World, Struct, Result<bool, Exception>)
    requires o.ResultStruct? && o.result.Some? && o.call.NoCall?
  {
    var (v, o') := NextPageStart(w, o);
    if o'.call.NextPaging? then NextPageAnswered(server, Resolve(v, o'.call.future, ok), o') else (v, o', Success(false))
  }

  /**
   One hash for each row, in order; or an exception, which is that of the first row that
   cannot be converted, after the hashes of the rows before it.
   */
  ghost predicate OneForEachRow(uuidText: int -> string, rows: seq<Row>, hashes: seq<map<string, Value>>, raised: Option<Exception>) {
    && |hashes| <= |rows|
    && (forall i :: 0 <= i < |hashes| ==> Success(hashes[i]) == RowHash(uuidText, rows[i], |rows[i]|))
    && (raised.None? ==> |hashes| == |rows|)
    && (raised.Some? ==> |hashes| < |rows| && RowHash(uuidText, rows[|hashes|], |rows[|hashes|]|) == Failure(raised.value))
  }

  lemma RowsInTwo(uuidText: int -> string, a: seq<Row>, b: seq<Row>, hashes: seq<map<string, Value>>,
                  more: seq<map<string, Value>>, raised: Option<Exception>)
    requires OneForEachRow(uuidText, a, hashes, None) && OneForEachRow(uuidText, b, more, raised)
    ensures OneForEachRow(uuidText, a + b, hashes + more, raised)
  {
  }

  // ---- what next_page means to its caller ----

  lemma PagedThroughAnswer(w: World, o: Struct, f: nat, ok: bool, m: Message, page: Page)
    requires PagedIn(w, o, m, page) && Shape(w, o)
    ensures PagedIn(Resolve(w, f, ok), o, m, page)
  {
  }

  lemma AnswerMeaning(server: Server, w: World, o: Struct, m: Message, page: Page)
    requires WorldOk(w) && Shape(w, o) && o.ResultStruct? && o.call.NextPaging? && PagedIn(w, o, m, page)
    requires !w.handles[o.call.future].reply.Waiting?
    ensures var (v, o', r) := NextPageAnswered(server, w, o);
      && WorldOk(v) && Shape(v, o') && o'.ResultStruct? && o'.call.NoCall?
      && (if Replied(w, o.call.future, Done) then r == Success(true) && ShowsIn(v, o', m, Following(server, m, page))
          else r == Failure(ExecutionError) && o' == o.(call := NoCall) && ShowsIn(v, o', m, page))
  {
    ShapeLive(w, o);
    NextPageEndKeeps(w, server, o);
    if Replied(w, o.call.future, Done) {
      AnswerIsPaged(w, server, o, m, page);
    } else {
      RefusalIsPaged(w, o, m, page);
    }
  }

  /**
   next_page: nil and nothing else if there is no next page; otherwise the next page, or,
   if the server refuses, an exception and the same Result as before, although the paging
   state was written before the attempt.
   */
  lemma NextPageMeaning(server: Server, w: World, o: Struct, ok: bool, m: Message, page: Page)
    requires WorldOk(w) && Shape(w, o) && o.ResultStruct? && o.call.NoCall? && ShowsIn(w, o, m, page)
    ensures var (v, o', r) := NextPageAlone(server, w, o, ok);
      && WorldOk(v) && Shape(v, o') && o'.ResultStruct? && o'.call.NoCall?
      && (page.next.None? ==> r == Success(false) && v == w && o' == o)
      && (page.next.Some? && ok ==> r == Success(true) && ShowsIn(v, o', m, server.page(m.(paging := page.next))))
      && (page.next.Some? && !ok ==> r == Failure(ExecutionError) && o' == o && ShowsIn(v, o', m, page))
  {
    if page.next.Some? {
      var (w1, o1) := NextPageStart(w, o);
      NextPageStartKeeps(w, o);
      BeginIsPaged(w, o, m, page);
      FreshAnswer(w, o, ok);
      ResolveKeepsWorld(w1, w.nextId, ok);
      ResolveKeepsShape(w1, w.nextId, ok, o1);
      PagedThroughAnswer(w1, o1, w.nextId, ok, m, page);
      AnswerMeaning(server, Resolve(w1, w.nextId, ok), o1, m, page);
    }
  }

  lemma FreshAnswer(w: World, o: Struct, ok: bool)
    requires Shape(w, o) && o.ResultStruct? && o.result.Some? && o.call.NoCall? && PageAt(w, o.result.value).next.Some?
    ensures var (w1, o1) := NextPageStart(w, o);
      o1 == o.(call := NextPaging(w.nextId)) && Replied(Resolve(w1, w.nextId, ok), w.nextId, if ok then Done else Refused)
  {
  }

  // ---- session.c ----

  /** session_prepare, with the driver's answer while it waits and nothing else. */
  function PrepareAlone(server: Server, w: World, query: string, ok: bool): (World, Option<Struct>) {
    var (v, call) := PrepareStart(w, query);
    PrepareEnd(Resolve(v, call.waiting, ok), server, call.waiting)
  }

  lemma PreparedAnswer(w: World, query: string, ok: bool)
    requires WorldOk(w)
    ensures var (v, call) := PrepareStart(w, query);
      var u := Resolve(v, call.waiting, ok);
      && call.waiting == w.nextId && WorldOk(v) && IsFuture(v, w.nextId) && WorldOk(u)
      && w.nextId in u.handles && u.handles[w.nextId] == PrepareFuture(query, if ok then Done else Refused)
  {
    PrepareKeeps(w, query);
    ResolveKeepsWorld(PrepareStart(w, query).0, w.nextId, ok);
  }

  /** A future that the driver has answered is not waiting any more, and a struct has the shape it had. */
  lemma AnswerReplies(w: World, o: Struct, ok: bool)
    requires o.ResultStruct? && o.answered.Some? && Shape(w, o)
    ensures var v := Resolve(w, o.answered.value, ok); Shape(v, o) && !v.handles[o.answered.value].reply.Waiting?
  {
    ResolveKeepsShape(w, o.answered.value, ok, o);
  }

  /** session_execute, with the driver's answer while it waits and nothing else. */
  function ExecuteAlone(server: Server, w: World, o: Struct, ok: bool): (World, Option<Struct>, Option<Exception>)
    requires o.StatementStruct?
  {
    var (v, r) := ExecuteStart(w, o);
    if r.Failure? then (v, None, Some(r.error))
    else
      var (u, x, e) := ExecuteEnd(Resolve(v, r.value.answered.value, ok), server, r.value);
      (u, Some(x), e)
  }

  lemma StartedAwaits(w: World, o: Struct)
    requires WorldOk(w) && o.StatementStruct? && Shape(w, o)
    ensures var (v, r) := ExecuteStart(w, o); r.Success? ==> Shape(v, r.value)
  {
    ExecuteStartKeeps(w, o);
  }

  class Session {
    const driver: Driver

    constructor (driver: Driver)
      ensures this.driver == driver
    {
      this.driver := driver;
    }

    /** session_prepare_async (session.c:27-36). */
    method PrepareAsync(query: string) returns (x: CassandraFuture)
      modifies driver
      ensures fresh(x) && x.driver == driver && (driver.w, x.View()) == Ledger.PrepareAsync(old(driver.w), query)
    {
      var f := driver.Make(PrepareFuture(query, Waiting));
      x := new CassandraFuture(driver, f, None);
    }

    /** session_prepare up to its wait (session.c:55). */
    method SendPrepare(query: string) returns (f: nat)
      modifies driver
      ensures (driver.w, PrepareCall(f)) == PrepareStart(old(driver.w), query)
    {
      f := driver.Make(PrepareFuture(query, Waiting));
    }

    /** The rest, once f has resolved, whatever happened meanwhile (session.c:58-74). */
    method ReceivePrepared(f: nat) returns (r: Result<CassandraStatement, Exception>)
      requires WorldOk(driver.w) && Shape(driver.w, PrepareCall(f)) && !driver.w.handles[f].reply.Waiting?
      modifies driver
      ensures driver.w == PrepareEnd(old(driver.w), driver.server, f).0
      ensures r.Success? ==> fresh(r.value) && r.value.driver == driver
                             && PrepareEnd(old(driver.w), driver.server, f).1 == Some(r.value.View())
      ensures r.Failure? ==> r.error == ExecutionError && PrepareEnd(old(driver.w), driver.server, f).1 == None
    {
      if driver.w.handles[f].reply.Refused? {
        driver.Release(f);
        return Failure(ExecutionError);
      }
      var x := StatementOf(f);
      r := Success(x);
    }

    /** session_prepare (session.c:46-75), when nothing happens during the wait but the driver's answer. */
    method Prepare(query: string, ok: bool) returns (r: Result<CassandraStatement, Exception>)
      requires WorldOk(driver.w)
      modifies driver
      ensures driver.w == PrepareAlone(driver.server, old(driver.w), query, ok).0
      ensures ok ==> r.Success? && fresh(r.value) && r.value.driver == driver
                     && PrepareAlone(driver.server, old(driver.w), query, ok).1 == Some(r.value.View())
      ensures !ok ==> r == Failure(ExecutionError) && PrepareAlone(driver.server, old(driver.w), query, ok).1 == None
    {
      PreparedAnswer(driver.w, query, ok);
      var f := SendPrepare(query);
      driver.Answer(f, ok);
      r := ReceivePrepared(f);
    }

    /** The Statement of a resolved prepare future, which is freed before the configuration is set (session.c:66-74). */
    method StatementOf(f: nat) returns (x: CassandraStatement)
      requires WorldOk(driver.w) && Replied(driver.w, f, Done) && driver.w.handles[f].PrepareFuture?
      modifies driver
      ensures fresh(x) && x.driver == driver
      ensures (driver.w, Some(x.View())) == PrepareEnd(old(driver.w), driver.server, f)
    {
      var p := driver.FuturePrepared(f);
      NewKeeps(old(driver.w), driver.w.handles[p], {});
      FreshIsIdle(driver.w, BLANK);
      var h := driver.BindPrepared(p);
      driver.Release(f);
      x := new CassandraStatement(driver, p, h);
    }

    /** Builds a statement for one execution and submits it (session.c:98-99 and 128-129). */
    method Submit(st: CassandraStatement) returns (r: Result<(nat, nat), Exception>)
      requires st.driver == driver && WorldOk(driver.w) && Shape(driver.w, st.View())
      modifies driver
      ensures (driver.w, r) == Ledger.Submit(old(driver.w), st.View())
    {
      BuildIsAtomic(driver.w, st.View());
      var built := st.BuildForExecution();
      if built.Failure? {
        return Failure(built.error);
      }
      var f := driver.Execute(built.value);
      r := Success((built.value, f));
    }

    /** session_execute_async (session.c:84-106). */
    method ExecuteAsync(st: CassandraStatement) returns (r: Result<CassandraFuture, Exception>)
      requires st.driver == driver && WorldOk(driver.w) && Shape(driver.w, st.View())
      modifies driver
      ensures driver.w == Ledger.ExecuteAsync(old(driver.w), st.View()).0
      ensures r.Failure? ==> Ledger.ExecuteAsync(old(driver.w), st.View()).1 == Failure(r.error)
      ensures r.Success? ==> fresh(r.value) && r.value.driver == driver
                             && Ledger.ExecuteAsync(old(driver.w), st.View()).1 == Success(r.value.View())
    {
      var submitted := Submit(st);
      if submitted.Failure? {
        return Failure(submitted.error);
      }
      var x := new CassandraFuture(driver, submitted.value.1, Some(submitted.value.0));
      r := Success(x);
    }

    /** session_execute up to its wait (session.c:128-134): the Result that result_await then waits for. */
    method SendExecute(st: CassandraStatement) returns (r: Result<CassandraResult, Exception>)
      requires st.driver == driver && WorldOk(driver.w) && Shape(driver.w, st.View())
      modifies driver
      ensures driver.w == ExecuteStart(old(driver.w), st.View()).0
      ensures r.Failure? ==> ExecuteStart(old(driver.w), st.View()).1 == Failure(r.error)
      ensures r.Success? ==> fresh(r.value) && r.value.driver == driver
                             && ExecuteStart(old(driver.w), st.View()).1 == Success(r.value.During(Awaiting))
    {
      var submitted := Submit(st);
      if submitted.Failure? {
        return Failure(submitted.error);
      }
      var x := new CassandraResult(driver, None, Some(submitted.value.1), submitted.value.0);
      r := Success(x);
    }

    /**
     session_execute (session.c:116-138), when nothing happens during the wait but the
     driver's answer. If the server refuses, the Result object is left to the garbage
     collector, which destroys it with its handles.
     */
    method Execute(st: CassandraStatement, ok: bool) returns (x: CassandraResult?, raised: Option<Exception>)
      requires st.driver == driver && WorldOk(driver.w) && Shape(driver.w, st.View())
      modifies driver
      ensures var (w, o, e) := ExecuteAlone(driver.server, old(driver.w), st.View(), ok);
        && driver.w == w && raised == e && (x == null <==> o.None?)
        && (x != null ==> fresh(x) && x.driver == driver && o == Some(x.View()))
    {
      StartedAwaits(driver.w, st.View());
      var sent := SendExecute(st);
      if sent.Failure? {
        return null, Some(sent.error);
      }
      x := sent.value;
      raised := x.AwaitAlone(ok);
    }
  }

  // ---- the paging loop of a program ----

  /** Between two calls, the Result shows this page of m. */
  ghost predicate Stands(x: CassandraResult, m: Message, page: Page)
    reads x, x.driver
  {
    WorldOk(x.driver.w) && Shape(x.driver.w, x.View()) && ShowsIn(x.driver.w, x.View(), m, page)
  }

  /** What a program has read grows by what the next page yields. */
  lemma ReadOn(server: Server, uuidText: int -> string, m: Message, first: Page, k: nat,
               hashes: seq<map<string, Value>>, more: seq<map<string, Value>>, raised: Option<Exception>)
    requires PageAfter(server, m, first, k).next.Some? && HasRead(server, uuidText, m, first, k, hashes, None)
    requires OneForEachRow(uuidText, Following(server, m, PageAfter(server, m, first, k)).rows, more, raised)
    ensures PageAfter(server, m, first, k + 1) == Following(server, m, PageAfter(server, m, first, k))
    ensures HasRead(server, uuidText, m, first, k + 1, hashes + more, raised)
  {
    OnePageMore(server, m, first, k);
    RowsInTwo(uuidText, RowsThrough(server, m, first, k), Following(server, m, PageAfter(server, m, first, k)).rows, hashes, more, raised);
  }

  /** What a program has read when the Result stands on the k-th page. */
  ghost predicate HasRead(server: Server, uuidText: int -> string, m: Message, first: Page, k: nat,
                          hashes: seq<map<string, Value>>, raised: Option<Exception>)
  {
    OneForEachRow(uuidText, RowsThrough(server, m, first, k), hashes, raised)
  }

  /** The first page is read before the loop. */
  method ReadFirst(x: CassandraResult, uuidText: int -> string, ghost m: Message, ghost first: Page)
    returns (hashes: seq<map<string, Value>>, raised: Option<Exception>)
    requires Stands(x, m, first)
    ensures PageAfter(x.driver.server, m, first, 0) == first
    ensures HasRead(x.driver.server, uuidText, m, first, 0, hashes, raised)
  {
    hashes, raised := x.Each(uuidText);
    assert RowsThrough(x.driver.server, m, first, 0) == first.rows;
  }

  /** At a page with no next one, every row has been read. */
  lemma AllIsRead(server: Server, uuidText: int -> string, m: Message, first: Page, rank: Page -> nat, k: nat, hashes: seq<map<string, Value>>)
    requires Shrinks(server, m, first, rank) && PageAfter(server, m, first, k).next.None?
    requires HasRead(server, uuidText, m, first, k, hashes, None)
    ensures OneForEachRow(uuidText, AllRows(server, m, first, rank), hashes, None)
  {
    WalkedToTheEnd(server, m, first, k, rank);
  }

  lemma TurningShrinks(server: Server, m: Message, first: Page, rank: Page -> nat, k: nat)
    requires Shrinks(server, m, first, rank) && PageAfter(server, m, first, k).next.Some?
    ensures rank(PageAfter(server, m, first, k + 1)) < rank(PageAfter(server, m, first, k))
  {
    assert ShrinksAt(server, m, first, rank, k);
    OnePageMore(server, m, first, k);
  }

  /**
   One round of the loop: asks for the next page, and reads it if it is there. k counts
   the pages, as seen from the first.
   */
  method TurnAndRead(x: CassandraResult, uuidText: int -> string, ok: bool, read: seq<map<string, Value>>,
                     ghost m: Message, ghost first: Page, ghost rank: Page -> nat, ghost k: nat)
    returns (r: Result<bool, Exception>, hashes: seq<map<string, Value>>, raised: Option<Exception>, ghost n: nat)
    requires Stands(x, m, PageAfter(x.driver.server, m, first, k)) && HasRead(x.driver.server, uuidText, m, first, k, read, None)
    requires Shrinks(x.driver.server, m, first, rank)
    modifies x`result, x`future, x.driver
    ensures r == if PageAfter(x.driver.server, m, first, k).next.None? then Success(false)
                 else if ok then Success(true) else Failure(ExecutionError)
    ensures n == if r == Success(true) then k + 1 else k
    ensures Stands(x, m, PageAfter(x.driver.server, m, first, n)) && HasRead(x.driver.server, uuidText, m, first, n, hashes, raised)
    ensures r == Success(true) ==> rank(PageAfter(x.driver.server, m, first, n)) < rank(PageAfter(x.driver.server, m, first, k))
    ensures r != Success(true) ==> raised.None?
    ensures r == Success(false) ==> OneForEachRow(uuidText, AllRows(x.driver.server, m, first, rank), hashes, None)
  {
    ghost var page := PageAfter(x.driver.server, m, first, k);
    NextPageMeaning(x.driver.server, x.driver.w, x.View(), ok, m, page);
    r := x.NextPage(ok);
    hashes, raised, n := read, None, k;
    if r == Success(true) {
      n := k + 1;
      var more;
      more, raised := x.Each(uuidText);
      ReadOn(x.driver.server, uuidText, m, first, k, read, more, raised);
      TurningShrinks(x.driver.server, m, first, rank, k);
      hashes := read + more;
    } else if r == Success(false) {
      AllIsRead(x.driver.server, uuidText, m, first, rank, k, hashes);
    }
  }

  /**
   The loop of README.md:107-118: read a page, ask for the next one, until there is none.
   The server may refuse any attempt; the program then tries again, patience times in all.
   What the block gets is, hash by hash and in order, the rows of the first page and of the
   k pages after it; and if the program gets to the end, every row there was.
   */
  method Drain(x: CassandraResult, uuidText: int -> string, patience: nat, ghost m: Message, ghost first: Page, ghost rank: Page -> nat)
    returns (hashes: seq<map<string, Value>>, raised: Option<Exception>, complete: bool, refused: nat, ghost k: nat)
    requires Stands(x, m, first) && Shrinks(x.driver.server, m, first, rank)
    modifies x`result, x`future, x.driver
    ensures Stands(x, m, PageAfter(x.driver.server, m, first, k))
    ensures HasRead(x.driver.server, uuidText, m, first, k, hashes, raised)
    ensures complete ==> raised.None? && OneForEachRow(uuidText, AllRows(x.driver.server, m, first, rank), hashes, None)
    ensures !complete ==> raised.Some? || refused == patience + 1
  {
    complete, k, refused := false, 0, 0;
    hashes, raised := ReadFirst(x, uuidText, m, first);
    while raised.None?
      invariant Stands(x, m, PageAfter(x.driver.server, m, first, k))
      invariant HasRead(x.driver.server, uuidText, m, first, k, hashes, raised)
      invariant refused <= patience && !complete
      decreases rank(PageAfter(x.driver.server, m, first, k)), patience - refused, raised.None?
    {
      var ok: bool := *;
      var r;
      r, hashes, raised, k := TurnAndRead(x, uuidText, ok, hashes, m, first, rank, k);
      if r == Success(false) {
        complete := true;
        return;
      }
      if r.Failure? {
        refused := refused + 1;
        if refused > patience {
          return;
        }
      }
    }
  }
}
