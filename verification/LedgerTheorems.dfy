/** What the ledger guarantees in every reachable state, and over every run. */
module LedgerTheorems {
  import opened Prelude
  import opened BindValues
  import opened Paging
  import opened Ledger
  import opened LedgerLocal
  import opened LedgerMachine
  import opened LedgerInvariant

  // ---- single ownership ----

  /**
   In every reachable state: the driver was never misused, every handle it ever made is
   either live or has been freed exactly once, and every live handle is in a field of
   exactly one struct, whose fields have no other handles.
   */
  lemma SingleOwnership(server: Server, s: State)
    requires Reachable(server, s)
    ensures !s.w.fault
    ensures forall h: nat :: h < s.w.nextId ==> s.w.freed[h] + (if h in s.w.handles then 1 else 0) == 1
    ensures forall h :: h in s.w.handles ==> exists id :: id in s.structs && h in Fields(s.structs[id])
    ensures forall a, b :: a in s.structs && b in s.structs && a != b ==> Fields(s.structs[a]) !! Fields(s.structs[b])
    ensures forall id :: id in s.structs ==> Fields(s.structs[id]) <= s.w.handles.Keys && Distinct(s.structs[id])
  {
    ReachableInv(server, s);
    forall h | h in s.w.handles ensures exists id :: id in s.structs && h in Fields(s.structs[id]) {
      assert Held(s, h);
    }
    forall a, b | a in s.structs && b in s.structs && a != b ensures Fields(s.structs[a]) !! Fields(s.structs[b]) {
      FieldsApart(s, a, b);
    }
    forall id | id in s.structs ensures Fields(s.structs[id]) <= s.w.handles.Keys && Distinct(s.structs[id]) {
      assert Owned(s.w, id, s.structs[id]);
      ShapeLive(s.w, s.structs[id]);
    }
  }

  /** No call is running. */
  predicate AtRest(s: State) {
    forall id :: id in s.structs ==> !s.structs[id].PrepareCall? && (s.structs[id].ResultStruct? ==> s.structs[id].call.NoCall?)
  }

  function DestroyAll(order: seq<nat>): seq<Event>
    decreases order
  {
    if order == [] then [] else [Destroys(order[0])] + DestroyAll(order[1..])
  }

  /** All structs there are, each once. */
  ghost predicate Lists(order: seq<nat>, s: State) {
    (forall id :: id in order <==> id in s.structs) && (forall i, j :: 0 <= i < j < |order| ==> order[i] != order[j])
  }

  lemma {:induction false} DestroyingEmpties(server: Server, s: State, order: seq<nat>)
    requires Inv(s) && AtRest(s)
    requires Lists(order, s)
    ensures IsRun(server, s, DestroyAll(order)) && Inv(After(server, s, DestroyAll(order)))
    ensures After(server, s, DestroyAll(order)).structs == map[] && After(server, s, DestroyAll(order)).w.nextId == s.w.nextId
    decreases order
  {
    if order != [] {
      assert order[0] in s.structs by { assert order[0] in order; }
      DestroyingOne(server, s, order[0]);
      var t := Step(server, s, Destroys(order[0]));
      FirstDestroyed(s, order, t);
      DestroyingEmpties(server, t, order[1..]);
      var rest := DestroyAll(order[1..]);
      assert DestroyAll(order)[0] == Destroys(order[0]) && DestroyAll(order)[1..] == rest;
    } else {
      assert forall id :: id in s.structs ==> id in order;
    }
  }

  lemma FirstDestroyed(s: State, order: seq<nat>, t: State)
    requires order != [] && t.structs == s.structs - {order[0]}
    requires Lists(order, s)
    ensures Lists(order[1..], t)
  {
    forall id ensures id in order[1..] <==> id in t.structs {
      assert id in s.structs <==> id in order;
    }
  }

  lemma DestroyingOne(server: Server, s: State, id: nat)
    requires Inv(s) && AtRest(s) && id in s.structs
    ensures Allowed(s, Destroys(id))
    ensures var t := Step(server, s, Destroys(id));
      Inv(t) && AtRest(t) && t.structs == s.structs - {id} && t.w.nextId == s.w.nextId
  {
    DestroyStepKeepsInv(server, s, id);
    DestroyedKeepsCount(s.w, s.structs[id]);
  }

  lemma DestroyedKeepsCount(w: World, o: Struct)
    ensures Destroyed(w, o).nextId == w.nextId
  {
  }

  /**
   Whatever has happened, once no call is running the Ruby objects can be destroyed in any
   order, and then every handle that was ever made has been freed exactly once.
   */
  lemma AllFreedInAnyOrder(server: Server, s: State, order: seq<nat>)
    requires Reachable(server, s) && AtRest(s)
    requires Lists(order, s)
    ensures IsRun(server, s, DestroyAll(order))
    ensures var t := After(server, s, DestroyAll(order));
      && t.w.handles == map[] && !t.w.fault
      && forall h: nat :: t.w.freed[h] == if h < s.w.nextId then 1 else 0
  {
    ReachableInv(server, s);
    DestroyingEmpties(server, s, order);
    var t := After(server, s, DestroyAll(order));
    assert forall h :: h in t.w.handles ==> Held(t, h);
  }

  // ---- isolation ----

  /** A future may have been resolved meanwhile; nothing else about a handle may differ. */
  ghost predicate SameButReply(x: Handle, y: Handle) {
    match x
    case PrepareFuture(query, reply) => y.PrepareFuture? && y.query == query && (!reply.Waiting? ==> y == x)
    case ExecuteFuture(statement, sent, reply) =>
      y.ExecuteFuture? && y.statement == statement && y.sent == sent && (!reply.Waiting? ==> y == x)
    case _ => y == x
  }

  ghost predicate StillThere(s: State, t: State, id: nat)
    requires id in s.structs
  {
    && id in t.structs && t.structs[id] == s.structs[id]
    && forall h :: h in Fields(s.structs[id]) ==> h in s.w.handles && h in t.w.handles && SameButReply(s.w.handles[h], t.w.handles[h])
  }

  lemma SameStillThere(s: State, t: State, id: nat)
    requires Inv(s) && id in s.structs && id in t.structs && t.structs[id] == s.structs[id] && Same(s.w, t.w, Fields(s.structs[id]))
    ensures StillThere(s, t, id)
  {
  }

  lemma ResolvedHandle(w: World, f: nat, ok: bool, h: nat)
    requires h in w.handles
    ensures h in Resolve(w, f, ok).handles && SameButReply(w.handles[h], Resolve(w, f, ok).handles[h])
  {
  }

  lemma FieldsLive(s: State, id: nat)
    requires Inv(s) && id in s.structs
    ensures Fields(s.structs[id]) <= s.w.handles.Keys
  {
    assert Owned(s.w, id, s.structs[id]);
    ShapeLive(s.w, s.structs[id]);
  }

  lemma ResolveLeavesAlone(s: State, id: nat, f: nat, ok: bool)
    requires id in s.structs && Fields(s.structs[id]) <= s.w.handles.Keys
    ensures StillThere(s, State(Resolve(s.w, f, ok), s.structs), id)
  {
    forall h | h in Fields(s.structs[id]) ensures h in Resolve(s.w, f, ok).handles && SameButReply(s.w.handles[h], Resolve(s.w, f, ok).handles[h]) {
      ResolvedHandle(s.w, f, ok, h);
    }
  }

  lemma StepLeavesAlone(server: Server, s: State, e: Event, id: nat)
    requires Inv(s) && Allowed(s, e) && id in s.structs && Worker(e) != Some(id)
    ensures Inv(Step(server, s, e)) && StillThere(s, Step(server, s, e), id)
  {
    StepKeepsInv(server, s, e);
    if e.Resolves? {
      FieldsLive(s, id);
      ResolveLeavesAlone(s, id, e.handle, e.ok);
    } else {
      SameStillThere(s, Step(server, s, e), id);
    }
  }

  lemma StillThereTransitive(s: State, t: State, u: State, id: nat)
    requires id in s.structs && StillThere(s, t, id) && StillThere(t, u, id)
    ensures StillThere(s, u, id)
  {
  }

  /** A struct on which nothing is called stays what it is, and so does every handle in its fields. */
  lemma {:induction false} RunLeavesAlone(server: Server, s: State, events: seq<Event>, id: nat)
    requires Inv(s) && IsRun(server, s, events) && id in s.structs
    requires forall i :: 0 <= i < |events| ==> Worker(events[i]) != Some(id)
    ensures Inv(After(server, s, events)) && StillThere(s, After(server, s, events), id)
    decreases events
  {
    if events == [] {
      FieldsLive(s, id);
    } else {
      assert Worker(events[0]) != Some(id);
      StepLeavesAlone(server, s, events[0], id);
      var t := Step(server, s, events[0]);
      RunLeavesAlone(server, t, events[1..], id);
      StillThereTransitive(s, t, After(server, t, events[1..]), id);
    }
  }

  /** The Future has the statement of an execution of m, as submitted. */
  ghost predicate Carries(s: State, id: nat, m: Message) {
    && HasFuture(s, id) && s.structs[id].executed.Some? && s.structs[id].executed.value in s.w.handles
    && s.w.handles[s.structs[id].executed.value] == StatementHandle(m)
    && s.structs[id].future in s.w.handles && s.w.handles[s.structs[id].future].ExecuteFuture?
    && s.w.handles[s.structs[id].future].sent == m
  }

  lemma AsyncCarries(server: Server, s: State, st: nat, id: nat)
    requires Inv(s) && Allowed(s, ExecutesAsync(st, id)) && MessageNow(s.w, s.structs[st]).Success?
    ensures Carries(Step(server, s, ExecutesAsync(st, id)), id, MessageNow(s.w, s.structs[st]).value)
  {
    assert Owned(s.w, st, s.structs[st]);
    SubmitKeeps(s.w, s.structs[st]);
    var (h, f) := Submit(s.w, s.structs[st]).1.value;
    assert Step(server, s, ExecutesAsync(st, id)).structs[id] == FutureStruct(f, Some(h));
  }

  lemma StillCarries(s: State, t: State, id: nat, m: Message)
    requires Carries(s, id, m) && StillThere(s, t, id)
    ensures Carries(t, id, m)
  {
  }

  /** The page of a Result, and the message it was fetched with, but for the paging state. */
  ghost predicate ShowsIn(w: World, o: Struct, m: Message, page: Page) {
    && o.ResultStruct? && o.result.Some? && PageAt(w, o.result.value) == page
    && MessageAt(w, o.submitted).(paging := None) == m.(paging := None)
  }

  ghost predicate Shows(s: State, id: nat, m: Message, page: Page) {
    id in s.structs && ShowsIn(s.w, s.structs[id], m, page)
  }

  lemma YieldedPage(server: Server, s: State, id: nat, next: nat, m: Message)
    requires Conserved(s.w) && Allowed(s, ResultYielded(id, next)) && Carries(s, id, m)
    ensures var (w, _, r) := YieldResult(s.w, server, s.structs[id]);
      r.result.Some? && PageAt(w, r.result.value) == server.page(m) && MessageAt(w, r.submitted) == m
  {
  }

  lemma YieldShows(server: Server, s: State, id: nat, next: nat, m: Message)
    requires Conserved(s.w) && Allowed(s, ResultYielded(id, next)) && Carries(s, id, m)
    ensures Shows(Step(server, s, ResultYielded(id, next)), next, m, server.page(m))
  {
    YieldedPage(server, s, id, next, m);
    var (w, o, r) := YieldResult(s.w, server, s.structs[id]);
    var t := Step(server, s, ResultYielded(id, next));
    assert t == HandedOver(s, w, id, o, next, r);
    assert t.w.handles == w.handles && t.structs[next] == r;
  }

  lemma CarriedUntilYielded(server: Server, s: State, id: nat, m: Message, events: seq<Event>, next: nat)
    requires Inv(s) && Carries(s, id, m) && IsRun(server, s, events)
    requires forall i :: 0 <= i < |events| ==> Worker(events[i]) != Some(id)
    ensures var u := After(server, s, events);
      && Carries(u, id, m)
      && (Allowed(u, ResultYielded(id, next)) ==> Shows(Step(server, u, ResultYielded(id, next)), next, m, server.page(m)))
  {
    RunLeavesAlone(server, s, events, id);
    var u := After(server, s, events);
    StillCarries(s, u, id, m);
    if Allowed(u, ResultYielded(id, next)) {
      YieldShows(server, u, id, next, m);
    }
  }

  /**
   The statement of an execute_async carries the configuration and the bindings of the
   moment of submission, through any interleaving of binds, setters, other executions,
   paging, destruction of other objects and answers of the driver; and the success block
   gets the page that the server sends for exactly that message.
   */
  lemma AsyncIsolation(server: Server, s: State, st: nat, id: nat, events: seq<Event>, next: nat)
    requires Inv(s) && Allowed(s, ExecutesAsync(st, id)) && MessageNow(s.w, s.structs[st]).Success?
    requires IsRun(server, Step(server, s, ExecutesAsync(st, id)), events)
    requires forall i :: 0 <= i < |events| ==> Worker(events[i]) != Some(id)
    ensures var m := MessageNow(s.w, s.structs[st]).value;
      var u := After(server, Step(server, s, ExecutesAsync(st, id)), events);
      && Carries(u, id, m)
      && (Allowed(u, ResultYielded(id, next)) ==> Shows(Step(server, u, ResultYielded(id, next)), next, m, server.page(m)))
  {
    ExecutesAsyncKeepsInv(server, s, st, id);
    AsyncCarries(server, s, st, id);
    var t := Step(server, s, ExecutesAsync(st, id));
    CarriedUntilYielded(server, t, id, MessageNow(s.w, s.structs[st]).value, events, next);
  }

  /** The Result of an execute that is waiting for the answer to m. */
  ghost predicate Awaits(s: State, id: nat, m: Message) {
    && HasResult(s, id) && s.structs[id].call.Awaiting? && s.structs[id].result.None? && s.structs[id].answered.Some?
    && s.structs[id].submitted in s.w.handles && s.w.handles[s.structs[id].submitted] == StatementHandle(m)
    && s.structs[id].answered.value in s.w.handles && s.w.handles[s.structs[id].answered.value].ExecuteFuture?
    && s.w.handles[s.structs[id].answered.value].sent == m
  }

  lemma SyncAwaits(server: Server, s: State, st: nat, id: nat)
    requires Inv(s) && Allowed(s, ExecuteBegins(st, id)) && MessageNow(s.w, s.structs[st]).Success?
    ensures Awaits(Step(server, s, ExecuteBegins(st, id)), id, MessageNow(s.w, s.structs[st]).value)
  {
    assert Owned(s.w, st, s.structs[st]);
    SubmitKeeps(s.w, s.structs[st]);
    var (h, f) := Submit(s.w, s.structs[st]).1.value;
    assert Step(server, s, ExecuteBegins(st, id)).structs[id] == ResultStruct(None, Some(f), h, Awaiting);
  }

  lemma StillAwaits(s: State, t: State, id: nat, m: Message)
    requires Awaits(s, id, m) && StillThere(s, t, id)
    ensures Awaits(t, id, m)
  {
  }

  /** What session_execute leaves: a Result that shows the first page of m, or, with the exception, one without a page. */
  lemma AwaitedShows(server: Server, s: State, id: nat, m: Message)
    requires Conserved(s.w) && Allowed(s, ExecuteReturns(id)) && Awaits(s, id, m)
    ensures var t := Step(server, s, ExecuteReturns(id));
      && HasResult(t, id) && t.structs[id].call.NoCall?
      && (if Replied(s.w, s.structs[id].answered.value, Done)
          then Shows(t, id, m, server.page(m)) && ExecuteEnd(s.w, server, s.structs[id]).2 == None
          else t.structs[id].result.None? && ExecuteEnd(s.w, server, s.structs[id]).2 == Some(ExecutionError))
  {
    var (w, o, _) := ExecuteEnd(s.w, server, s.structs[id]);
    var t := Step(server, s, ExecuteReturns(id));
    assert t.w.handles == w.handles && t.structs[id] == o;
  }

  /** The same isolation for a synchronous execute, while it waits. */
  lemma SyncIsolation(server: Server, s: State, st: nat, id: nat, events: seq<Event>)
    requires Inv(s) && Allowed(s, ExecuteBegins(st, id)) && MessageNow(s.w, s.structs[st]).Success?
    requires IsRun(server, Step(server, s, ExecuteBegins(st, id)), events)
    requires forall i :: 0 <= i < |events| ==> Worker(events[i]) != Some(id)
    ensures var m := MessageNow(s.w, s.structs[st]).value;
      var u := After(server, Step(server, s, ExecuteBegins(st, id)), events);
      && Awaits(u, id, m)
      && (Allowed(u, ExecuteReturns(id)) && Replied(u.w, u.structs[id].answered.value, Done) ==>
            Shows(Step(server, u, ExecuteReturns(id)), id, m, server.page(m)))
  {
    ExecuteBeginsKeepsInv(server, s, st, id);
    SyncAwaits(server, s, st, id);
    AwaitedThroughout(server, Step(server, s, ExecuteBegins(st, id)), id, MessageNow(s.w, s.structs[st]).value, events);
  }

  lemma AwaitedThroughout(server: Server, s: State, id: nat, m: Message, events: seq<Event>)
    requires Inv(s) && Awaits(s, id, m) && IsRun(server, s, events)
    requires forall i :: 0 <= i < |events| ==> Worker(events[i]) != Some(id)
    ensures var u := After(server, s, events);
      && Awaits(u, id, m)
      && (Allowed(u, ExecuteReturns(id)) && Replied(u.w, u.structs[id].answered.value, Done) ==>
            Shows(Step(server, u, ExecuteReturns(id)), id, m, server.page(m)))
  {
    RunLeavesAlone(server, s, events, id);
    var u := After(server, s, events);
    StillAwaits(s, u, id, m);
    if Allowed(u, ExecuteReturns(id)) {
      AwaitedShows(server, u, id, m);
    }
  }

  // ---- paging ----

  /** The Result shows this page of m; a next_page that is waiting has asked for the page after it. */
  ghost predicate PagedIn(w: World, o: Struct, m: Message, page: Page) {
    && ShowsIn(w, o, m, page)
    && (o.call.NextPaging? ==>
          && page.next.Some? && o.call.future in w.handles && w.handles[o.call.future].ExecuteFuture?
          && w.handles[o.call.future].sent == m.(paging := page.next))
  }

  ghost predicate Paged(s: State, id: nat, m: Message, page: Page) {
    id in s.structs && PagedIn(s.w, s.structs[id], m, page)
  }

  /** A next_page of this Result comes back with a page. */
  predicate Turns(s: State, e: Event, id: nat)
    requires Allowed(s, e)
  {
    e == NextPageReturns(id) && Replied(s.w, s.structs[id].call.future, Done)
  }

  lemma StillPaged(s: State, t: State, id: nat, m: Message, page: Page)
    requires Paged(s, id, m, page) && StillThere(s, t, id)
    ensures Paged(t, id, m, page)
  {
  }

  lemma PutIsPaged(s: State, w: World, id: nat, o: Struct, m: Message, page: Page)
    requires PagedIn(w, o, m, page)
    ensures Paged(Put(s, w, id, o), id, m, page)
  {
  }

  /** Asking for the next page does not change what the Result shows. */
  lemma BeginIsPaged(w: World, o: Struct, m: Message, page: Page)
    requires WorldOk(w) && Shape(w, o) && PagedIn(w, o, m, page) && o.call.NoCall?
    ensures var (v, o') := NextPageStart(w, o); PagedIn(v, o', m, page)
  {
    ShapeLive(w, o);
  }

  /** A refusal does not either. */
  lemma RefusalIsPaged(w: World, o: Struct, m: Message, page: Page)
    requires PagedIn(w, o, m, page) && o.call.NextPaging? && Distinct(o)
    ensures PagedIn(Free(w, o.call.future), o.(call := NoCall), m, page)
  {
  }

  /** An answer moves it to the page after. */
  lemma AnswerIsPaged(w: World, server: Server, o: Struct, m: Message, page: Page)
    requires Conserved(w) && PagedIn(w, o, m, page) && o.call.NextPaging? && Distinct(o) && Fields(o) <= w.handles.Keys
    requires Replied(w, o.call.future, Done)
    ensures var (v, o', _) := NextPageEnd(w, server, o); PagedIn(v, o', m, Following(server, m, page))
  {
    NextPageEndIsReplacement(w, server, o);
  }

  lemma ReturnIsPaged(server: Server, s: State, id: nat, m: Message, page: Page)
    requires Inv(s) && Allowed(s, NextPageReturns(id)) && Paged(s, id, m, page)
    ensures Paged(Step(server, s, NextPageReturns(id)), id, m, if Turns(s, NextPageReturns(id), id) then Following(server, m, page) else page)
  {
    assert Owned(s.w, id, s.structs[id]);
    ShapeLive(s.w, s.structs[id]);
    var (w, o, _) := NextPageEnd(s.w, server, s.structs[id]);
    if Turns(s, NextPageReturns(id), id) {
      AnswerIsPaged(s.w, server, s.structs[id], m, page);
      PutIsPaged(s, w, id, o, m, Following(server, m, page));
    } else {
      RefusalIsPaged(s.w, s.structs[id], m, page);
      PutIsPaged(s, w, id, o, m, page);
    }
  }

  lemma StepIsPaged(server: Server, s: State, e: Event, id: nat, m: Message, page: Page)
    requires Inv(s) && Allowed(s, e) && e != Destroys(id) && Paged(s, id, m, page)
    ensures Inv(Step(server, s, e)) && Paged(Step(server, s, e), id, m, if Turns(s, e, id) then Following(server, m, page) else page)
  {
    StepKeepsInv(server, s, e);
    if Worker(e) != Some(id) {
      StepLeavesAlone(server, s, e, id);
      StillPaged(s, Step(server, s, e), id, m, page);
    } else if e.NextPageBegins? {
      assert Owned(s.w, id, s.structs[id]);
      BeginIsPaged(s.w, s.structs[id], m, page);
      var (w, o) := NextPageStart(s.w, s.structs[id]);
      PutIsPaged(s, w, id, o, m, page);
    } else {
      assert Owned(s.w, id, s.structs[id]);
      assert e == NextPageReturns(id);
      ReturnIsPaged(server, s, id, m, page);
    }
  }

  /** How often next_page of this Result succeeds in a run. */
  function Turned(server: Server, s: State, events: seq<Event>, id: nat): nat
    requires IsRun(server, s, events)
    decreases events
  {
    if events == [] then 0
    else (if Turns(s, events[0], id) then 1 else 0) + Turned(server, Step(server, s, events[0]), events[1..], id)
  }

  /** The same, page by page along the run. */
  function PageAfterRun(server: Server, s: State, events: seq<Event>, id: nat, m: Message, page: Page): Page
    requires IsRun(server, s, events)
    decreases events
  {
    if events == [] then page
    else PageAfterRun(server, Step(server, s, events[0]), events[1..], id, m, NextShown(server, s, events[0], id, m, page))
  }

  function NextShown(server: Server, s: State, e: Event, id: nat, m: Message, page: Page): Page
    requires Allowed(s, e)
  {
    if Turns(s, e, id) && page.next.Some? then Following(server, m, page) else page
  }

  lemma {:induction false} PageAfterRunIsPageAfter(server: Server, s: State, events: seq<Event>, id: nat, m: Message, page: Page)
    requires IsRun(server, s, events)
    ensures PageAfterRun(server, s, events, id, m, page) == PageAfter(server, m, page, Turned(server, s, events, id))
    decreases events
  {
    if events != [] {
      PageAfterRunIsPageAfter(server, Step(server, s, events[0]), events[1..], id, m, NextShown(server, s, events[0], id, m, page));
    }
  }

  /** A Result that has no next page does not turn. */
  lemma StepShows(server: Server, s: State, e: Event, id: nat, m: Message, page: Page)
    requires Inv(s) && Allowed(s, e) && e != Destroys(id) && Paged(s, id, m, page)
    ensures Inv(Step(server, s, e)) && Paged(Step(server, s, e), id, m, NextShown(server, s, e, id, m, page))
  {
    StepIsPaged(server, s, e, id, m, page);
  }

  lemma {:induction false} RunShows(server: Server, s: State, events: seq<Event>, id: nat, m: Message, page: Page)
    requires Inv(s) && IsRun(server, s, events) && Paged(s, id, m, page)
    requires forall i :: 0 <= i < |events| ==> events[i] != Destroys(id)
    ensures Paged(After(server, s, events), id, m, PageAfterRun(server, s, events, id, m, page))
    decreases events
  {
    if events != [] {
      assert events[0] != Destroys(id);
      StepShows(server, s, events[0], id, m, page);
      RunShows(server, Step(server, s, events[0]), events[1..], id, m, NextShown(server, s, events[0], id, m, page));
    }
  }

  /**
   In any run, with any number of refused attempts and whatever happens to the Statement
   and to other objects in between, a Result whose next_page has succeeded k times shows
   the k-th page after the one it started from.
   */
  lemma PagesInOrder(server: Server, s: State, events: seq<Event>, id: nat, m: Message, page: Page)
    requires Inv(s) && IsRun(server, s, events) && Paged(s, id, m, page)
    requires forall i :: 0 <= i < |events| ==> events[i] != Destroys(id)
    ensures Paged(After(server, s, events), id, m, PageAfter(server, m, page, Turned(server, s, events, id)))
  {
    RunShows(server, s, events, id, m, page);
    PageAfterRunIsPageAfter(server, s, events, id, m, page);
  }

  /** A run that goes on from s with event e and then these. */
  predicate GoesOn(server: Server, s: State, e: Event, events: seq<Event>) {
    Allowed(s, e) && IsRun(server, Step(server, s, e), events)
  }

  function AfterIt(server: Server, s: State, e: Event, events: seq<Event>): State
    requires GoesOn(server, s, e, events)
  {
    After(server, Step(server, s, e), events)
  }

  /**
   The pages of an execute_async, from its submission on: whatever happens until the
   success block gets the Result, and whatever happens after that, with rebinds, setters
   and refused attempts anywhere, a Result whose next_page has succeeded k times shows the
   k-th page of the message that the Statement would have sent at the moment of submission.
   */
  lemma AsyncPages(server: Server, s: State, st: nat, id: nat, events: seq<Event>, next: nat, more: seq<Event>)
    requires Inv(s) && GoesOn(server, s, ExecutesAsync(st, id), events) && MessageNow(s.w, s.structs[st]).Success?
    requires forall i :: 0 <= i < |events| ==> Worker(events[i]) != Some(id)
    requires GoesOn(server, AfterIt(server, s, ExecutesAsync(st, id), events), ResultYielded(id, next), more)
    requires forall i :: 0 <= i < |more| ==> more[i] != Destroys(next)
    ensures var m := MessageNow(s.w, s.structs[st]).value;
      var u := AfterIt(server, s, ExecutesAsync(st, id), events);
      var t := Step(server, u, ResultYielded(id, next));
      Paged(After(server, t, more), next, m, PageAfter(server, m, server.page(m), Turned(server, t, more, next)))
  {
    var m := MessageNow(s.w, s.structs[st]).value;
    AsyncIsolation(server, s, st, id, events, next);
    ExecutesAsyncKeepsInv(server, s, st, id);
    RunKeepsInv(server, Step(server, s, ExecutesAsync(st, id)), events);
    PagesFromYield(server, AfterIt(server, s, ExecutesAsync(st, id), events), id, next, m, more);
  }

  lemma PagesFromYield(server: Server, u: State, id: nat, next: nat, m: Message, more: seq<Event>)
    requires Inv(u) && Carries(u, id, m) && GoesOn(server, u, ResultYielded(id, next), more)
    requires forall i :: 0 <= i < |more| ==> more[i] != Destroys(next)
    ensures var t := Step(server, u, ResultYielded(id, next));
      Paged(After(server, t, more), next, m, PageAfter(server, m, server.page(m), Turned(server, t, more, next)))
  {
    var t := Step(server, u, ResultYielded(id, next));
    StepKeepsInv(server, u, ResultYielded(id, next));
    YieldShows(server, u, id, next, m);
    YieldedRests(server, u, id, next);
    PagesInOrder(server, t, more, next, m, server.page(m));
  }

  lemma YieldedRests(server: Server, u: State, id: nat, next: nat)
    requires Allowed(u, ResultYielded(id, next))
    ensures var t := Step(server, u, ResultYielded(id, next)); HasResult(t, next) && t.structs[next].call.NoCall?
  {
  }

  /** The execute that waits for this Result has an answer, and it is no refusal. */
  predicate Answered(s: State, id: nat) {
    HasResult(s, id) && s.structs[id].answered.Some? && Replied(s.w, s.structs[id].answered.value, Done)
  }

  /** The same from a synchronous execute that got its answer. */
  lemma SyncPages(server: Server, s: State, st: nat, id: nat, events: seq<Event>, more: seq<Event>)
    requires Inv(s) && GoesOn(server, s, ExecuteBegins(st, id), events) && MessageNow(s.w, s.structs[st]).Success?
    requires forall i :: 0 <= i < |events| ==> Worker(events[i]) != Some(id)
    requires GoesOn(server, AfterIt(server, s, ExecuteBegins(st, id), events), ExecuteReturns(id), more)
    requires Answered(AfterIt(server, s, ExecuteBegins(st, id), events), id)
    requires forall i :: 0 <= i < |more| ==> more[i] != Destroys(id)
    ensures var m := MessageNow(s.w, s.structs[st]).value;
      var u := AfterIt(server, s, ExecuteBegins(st, id), events);
      var t := Step(server, u, ExecuteReturns(id));
      Paged(After(server, t, more), id, m, PageAfter(server, m, server.page(m), Turned(server, t, more, id)))
  {
    var m := MessageNow(s.w, s.structs[st]).value;
    SyncIsolation(server, s, st, id, events);
    ExecuteBeginsKeepsInv(server, s, st, id);
    RunKeepsInv(server, Step(server, s, ExecuteBegins(st, id)), events);
    PagesFromReturn(server, AfterIt(server, s, ExecuteBegins(st, id), events), id, m, more);
  }

  lemma PagesFromReturn(server: Server, u: State, id: nat, m: Message, more: seq<Event>)
    requires Inv(u) && Awaits(u, id, m) && GoesOn(server, u, ExecuteReturns(id), more)
    requires Answered(u, id)
    requires forall i :: 0 <= i < |more| ==> more[i] != Destroys(id)
    ensures var t := Step(server, u, ExecuteReturns(id));
      Paged(After(server, t, more), id, m, PageAfter(server, m, server.page(m), Turned(server, t, more, id)))
  {
    var t := Step(server, u, ExecuteReturns(id));
    StepKeepsInv(server, u, ExecuteReturns(id));
    AwaitedShows(server, u, id, m);
    PagesInOrder(server, t, more, id, m, server.page(m));
  }

  /**
   So once a Result shows a page without a next one, in whatever run it got there, the
   pages it has shown are all rows from the first page on, each once and in order.
   */
  lemma DrainedAtTheEnd(server: Server, s: State, events: seq<Event>, id: nat, m: Message, page: Page, rank: Page -> nat)
    requires Inv(s) && IsRun(server, s, events) && Paged(s, id, m, page) && Shrinks(server, m, page, rank)
    requires forall i :: 0 <= i < |events| ==> events[i] != Destroys(id)
    ensures var u := After(server, s, events);
      && HasResult(u, id) && u.structs[id].result.Some?
      && (PageAt(u.w, u.structs[id].result.value).next.None? ==>
            RowsThrough(server, m, page, Turned(server, s, events, id)) == AllRows(server, m, page, rank))
  {
    PagesInOrder(server, s, events, id, m, page);
    if PageAfter(server, m, page, Turned(server, s, events, id)).next.None? {
      WalkedToTheEnd(server, m, page, Turned(server, s, events, id), rank);
    }
  }
}
