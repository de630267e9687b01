/**
 What can be done: from any state that the objects of a session can be in, a program can
 prepare, set, bind, execute and page, and get to any page, if the server does not refuse.
 */
module LedgerProgress {
  import opened Prelude
  import opened BindValues
  import opened BindLog
  import opened Paging
  import opened Ledger
  import opened LedgerLocal
  import opened LedgerMachine
  import opened LedgerInvariant
  import opened LedgerTheorems
  import opened LedgerReplay

  ghost predicate Leads(server: Server, s: State, t: State) {
    exists events :: IsRun(server, s, events) && After(server, s, events) == t
  }

  lemma {:induction false} RunThen(server: Server, s: State, events: seq<Event>, e: Event)
    requires IsRun(server, s, events) && Allowed(After(server, s, events), e)
    ensures IsRun(server, s, events + [e]) && After(server, s, events + [e]) == Step(server, After(server, s, events), e)
    decreases events
  {
    if events == [] {
      assert [e][1..] == [];
    } else {
      RunThen(server, Step(server, s, events[0]), events[1..], e);
      assert (events + [e])[1..] == events[1..] + [e];
    }
  }

  lemma LeadsHere(server: Server, s: State)
    ensures Leads(server, s, s)
  {
    assert IsRun(server, s, []) && After(server, s, []) == s;
  }

  lemma LedKeepsInv(server: Server, s: State, t: State)
    requires Reachable(server, s) && Leads(server, s, t)
    ensures Inv(t)
  {
    var events :| IsRun(server, s, events) && After(server, s, events) == t;
    ReachableInv(server, s);
    RunKeepsInv(server, s, events);
  }

  lemma OneMore(server: Server, s: State, t: State, e: Event)
    requires Leads(server, s, t) && Allowed(t, e)
    ensures Leads(server, s, Step(server, t, e))
  {
    var events :| IsRun(server, s, events) && After(server, s, events) == t;
    RunThen(server, s, events, e);
  }

  /** The server answers a future of struct id. */
  lemma AnswerComes(server: Server, s: State, t: State, id: nat, f: nat) returns (u: State)
    requires Reachable(server, s) && Leads(server, s, t) && id in t.structs && f in Fields(t.structs[id]) && Replied(t.w, f, Waiting)
    ensures Leads(server, s, u) && u.structs == t.structs && StillThere(t, u, id)
    ensures Replied(u.w, f, Done) && SameButReply(t.w.handles[f], u.w.handles[f])
  {
    u := Step(server, t, Resolves(f, true));
    OneMore(server, s, t, Resolves(f, true));
    LedKeepsInv(server, s, t);
    StepLeavesAlone(server, t, Resolves(f, true), id);
  }

  /** The server may answer or refuse any request that waits, at any time. */
  lemma EitherAnswerIsPossible(server: Server, s: State, f: nat, ok: bool)
    requires Replied(s.w, f, Waiting)
    ensures Allowed(s, Resolves(f, ok))
    ensures var t := Step(server, s, Resolves(f, ok)); t.structs == s.structs && Replied(t.w, f, if ok then Done else Refused)
  {
  }

  // ---- to a Statement ----

  lemma PrepareAnswered(server: Server, s: State, t: State, id: nat, f: nat, query: string) returns (u: State)
    requires Reachable(server, s) && Leads(server, s, t) && id in t.structs && f in Fields(t.structs[id])
    requires Asked(t, f, query) && Replied(t.w, f, Waiting)
    ensures Leads(server, s, u) && u.structs == t.structs && Asked(u, f, query) && Replied(u.w, f, Done)
  {
    u := AnswerComes(server, s, t, id, f);
  }

  lemma PrepareCalls(server: Server, s: State, t: State, id: nat, query: string) returns (u: State)
    requires Reachable(server, s) && Leads(server, s, t) && id !in t.structs
    ensures Leads(server, s, u) && u.structs == t.structs[id := PrepareCall(t.w.nextId)]
    ensures Asked(u, t.w.nextId, query) && Replied(u.w, t.w.nextId, Waiting)
  {
    u := Step(server, t, PrepareBegins(id, query));
    OneMore(server, s, t, PrepareBegins(id, query));
  }

  lemma PrepareEnds(server: Server, s: State, t: State, id: nat, query: string) returns (u: State)
    requires Reachable(server, s) && Leads(server, s, t) && id in t.structs && t.structs[id].PrepareCall?
    requires Asked(t, t.structs[id].waiting, query) && Replied(t.w, t.structs[id].waiting, Done)
    ensures Leads(server, s, u) && u.structs.Keys == t.structs.Keys
    ensures Mirrors(u, id, server.prepare(query), BLANK_SCRATCH) && ConfiguredAs(u, id, 10000, None)
  {
    u := Step(server, t, PrepareReturns(id));
    OneMore(server, s, t, PrepareReturns(id));
    LedKeepsInv(server, s, t);
    PrepareResultIsAsked(server, t, id, query);
  }

  /** prepare. */
  lemma StatementByPrepare(server: Server, s: State, t: State, id: nat, query: string) returns (u: State)
    requires Reachable(server, s) && Leads(server, s, t) && id !in t.structs
    ensures Leads(server, s, u) && u.structs.Keys == t.structs.Keys + {id}
    ensures Mirrors(u, id, server.prepare(query), BLANK_SCRATCH) && ConfiguredAs(u, id, 10000, None)
  {
    u := PrepareCalls(server, s, t, id, query);
    u := PrepareAnswered(server, s, u, id, t.w.nextId, query);
    u := PrepareEnds(server, s, u, id, query);
  }

  lemma PrepareIsSent(server: Server, s: State, t: State, f: nat, query: string) returns (u: State)
    requires Reachable(server, s) && Leads(server, s, t) && f !in t.structs
    ensures Leads(server, s, u) && u.structs == t.structs[f := FutureStruct(t.w.nextId, None)]
    ensures Asked(u, t.w.nextId, query) && Replied(u.w, t.w.nextId, Waiting)
  {
    u := Step(server, t, PreparesAsync(f, query));
    OneMore(server, s, t, PreparesAsync(f, query));
  }

  lemma YieldedStep(server: Server, s: State, t: State, f: nat, id: nat, query: string)
    requires Reachable(server, s) && Leads(server, s, t) && Allowed(t, StatementYielded(f, id)) && Asked(t, t.structs[f].future, query)
    ensures var u := Step(server, t, StatementYielded(f, id));
      Mirrors(u, id, server.prepare(query), BLANK_SCRATCH) && ConfiguredAs(u, id, 10000, None)
  {
    LedKeepsInv(server, s, t);
    YieldedMirrors(server, t, f, id);
  }

  lemma BlockGetsStatement(server: Server, s: State, t: State, f: nat, id: nat, query: string) returns (u: State)
    requires Reachable(server, s) && Leads(server, s, t) && HasFuture(t, f) && id !in t.structs
    requires Asked(t, t.structs[f].future, query) && Replied(t.w, t.structs[f].future, Done)
    ensures Leads(server, s, u) && u.structs.Keys == t.structs.Keys + {id}
    ensures Mirrors(u, id, server.prepare(query), BLANK_SCRATCH) && ConfiguredAs(u, id, 10000, None)
  {
    u := Step(server, t, StatementYielded(f, id));
    OneMore(server, s, t, StatementYielded(f, id));
    YieldedStep(server, s, t, f, id, query);
  }

  /** prepare_async, whose future is f, and its success block. */
  lemma StatementByBlock(server: Server, s: State, t: State, f: nat, id: nat, query: string) returns (u: State)
    requires Reachable(server, s) && Leads(server, s, t) && f !in t.structs && id !in t.structs && f != id
    ensures Leads(server, s, u) && u.structs.Keys == t.structs.Keys + {f, id}
    ensures Mirrors(u, id, server.prepare(query), BLANK_SCRATCH) && ConfiguredAs(u, id, 10000, None)
  {
    u := PrepareIsSent(server, s, t, f, query);
    u := PrepareAnswered(server, s, u, f, t.w.nextId, query);
    u := BlockGetsStatement(server, s, u, f, id, query);
  }

  // ---- to a message ----

  /** page_size=, idempotent= and bind on a new Statement. */
  lemma StatementSetUp(server: Server, s: State, t: State, st: nat, p: Prepared, size: int, value: Value, hash: seq<(Value, Value)>)
    returns (u: State)
    requires Reachable(server, s) && Leads(server, s, t) && Mirrors(t, st, p, BLANK_SCRATCH) && ConfiguredAs(t, st, 10000, None)
    ensures Leads(server, s, u) && u.structs.Keys == t.structs.Keys
    ensures Mirrors(u, st, p, BindAll(p, BLANK_SCRATCH, hash).0) && ConfiguredAs(u, st, size, Told(Some(value)))
  {
    u := StatementSet(server, s, t, st, p, BLANK_SCRATCH, PageSizeSet(st, size), 10000, None);
    u := StatementSet(server, s, u, st, p, BLANK_SCRATCH, IdempotentSet(st, value), size, None);
    u := StatementSet(server, s, u, st, p, BLANK_SCRATCH, Binds(st, hash), size, Some(value));
  }

  lemma SetStep(server: Server, s: State, t: State, st: nat, p: Prepared, scratch: Scratch, e: Event, size: int, value: Option<Value>)
    requires Reachable(server, s) && Leads(server, s, t) && Mirrors(t, st, p, scratch) && ConfiguredAs(t, st, size, Told(value))
    requires Allowed(t, e) && (e.Binds? || e.PageSizeSet? || e.IdempotentSet?) && e.id == st
    ensures Mirrors(Step(server, t, e), st, p, BoundBy(p, scratch, e, st))
    ensures ConfiguredAs(Step(server, t, e), st, PageSizeAfter(e, st, size), Told(IdempotentAfter(e, st, value)))
  {
    LedKeepsInv(server, s, t);
    StepMirrors(server, t, e, st, p, scratch);
    StepConfigures(server, t, e, st, size, value);
  }

  lemma StatementSet(server: Server, s: State, t: State, st: nat, p: Prepared, scratch: Scratch, e: Event, size: int, value: Option<Value>)
    returns (u: State)
    requires Reachable(server, s) && Leads(server, s, t) && Mirrors(t, st, p, scratch) && ConfiguredAs(t, st, size, Told(value))
    requires (e.Binds? || e.PageSizeSet? || e.IdempotentSet?) && e.id == st
    ensures Leads(server, s, u) && u.structs.Keys == t.structs.Keys
    ensures Mirrors(u, st, p, BoundBy(p, scratch, e, st))
    ensures ConfiguredAs(u, st, PageSizeAfter(e, st, size), Told(IdempotentAfter(e, st, value)))
  {
    u := Step(server, t, e);
    OneMore(server, s, t, e);
    SetStep(server, s, t, st, p, scratch, e, size, value);
  }

  // ---- to a Result ----

  /** Struct id is ready for next_page, and shows this page. */
  ghost predicate RestsOn(t: State, id: nat, m: Message, page: Page) {
    Paged(t, id, m, page) && t.structs[id].call.NoCall?
  }

  lemma SubmittedWaits(w: World, o: Struct)
    requires o.StatementStruct? && Submit(w, o).1.Success?
    ensures Replied(Submit(w, o).0, Submit(w, o).1.value.1, Waiting)
  {
  }

  lemma ExecuteCalls(server: Server, s: State, t: State, st: nat, id: nat, m: Message) returns (u: State)
    requires Reachable(server, s) && Leads(server, s, t) && HasStatement(t, st) && id !in t.structs && MessageNow(t.w, t.structs[st]) == Success(m)
    ensures Leads(server, s, u) && Awaits(u, id, m) && Replied(u.w, u.structs[id].answered.value, Waiting)
  {
    u := Step(server, t, ExecuteBegins(st, id));
    OneMore(server, s, t, ExecuteBegins(st, id));
    LedKeepsInv(server, s, t);
    SyncAwaits(server, t, st, id);
    SubmittedWaits(t.w, t.structs[st]);
  }

  lemma ExecuteAnswered(server: Server, s: State, t: State, id: nat, m: Message) returns (u: State)
    requires Reachable(server, s) && Leads(server, s, t) && Awaits(t, id, m) && Replied(t.w, t.structs[id].answered.value, Waiting)
    ensures Leads(server, s, u) && Awaits(u, id, m) && Replied(u.w, u.structs[id].answered.value, Done)
  {
    u := AnswerComes(server, s, t, id, t.structs[id].answered.value);
    StillAwaits(t, u, id, m);
  }

  lemma ExecuteEnds(server: Server, s: State, t: State, id: nat, m: Message) returns (u: State)
    requires Reachable(server, s) && Leads(server, s, t) && Awaits(t, id, m) && Replied(t.w, t.structs[id].answered.value, Done)
    ensures Leads(server, s, u) && RestsOn(u, id, m, server.page(m))
  {
    u := Step(server, t, ExecuteReturns(id));
    OneMore(server, s, t, ExecuteReturns(id));
    LedKeepsInv(server, s, t);
    AwaitedShows(server, t, id, m);
  }

  /** execute. */
  lemma ResultByExecute(server: Server, s: State, t: State, st: nat, id: nat, m: Message) returns (u: State)
    requires Reachable(server, s) && Leads(server, s, t) && HasStatement(t, st) && id !in t.structs && MessageNow(t.w, t.structs[st]) == Success(m)
    ensures Leads(server, s, u) && RestsOn(u, id, m, server.page(m))
  {
    u := ExecuteCalls(server, s, t, st, id, m);
    u := ExecuteAnswered(server, s, u, id, m);
    u := ExecuteEnds(server, s, u, id, m);
  }

  lemma ExecutesCarries(server: Server, s: State, t: State, st: nat, f: nat)
    requires Reachable(server, s) && Leads(server, s, t) && Allowed(t, ExecutesAsync(st, f)) && MessageNow(t.w, t.structs[st]).Success?
    ensures Carries(Step(server, t, ExecutesAsync(st, f)), f, MessageNow(t.w, t.structs[st]).value)
  {
    LedKeepsInv(server, s, t);
    AsyncCarries(server, t, st, f);
  }

  lemma ExecuteIsSent(server: Server, s: State, t: State, st: nat, f: nat, m: Message) returns (u: State)
    requires Reachable(server, s) && Leads(server, s, t) && HasStatement(t, st) && f !in t.structs && MessageNow(t.w, t.structs[st]) == Success(m)
    ensures Leads(server, s, u) && Carries(u, f, m) && Replied(u.w, u.structs[f].future, Waiting) && u.structs.Keys == t.structs.Keys + {f}
  {
    u := Step(server, t, ExecutesAsync(st, f));
    OneMore(server, s, t, ExecutesAsync(st, f));
    ExecutesCarries(server, s, t, st, f);
    SubmittedWaits(t.w, t.structs[st]);
  }

  lemma SentIsAnswered(server: Server, s: State, t: State, f: nat, m: Message) returns (u: State)
    requires Reachable(server, s) && Leads(server, s, t) && Carries(t, f, m) && Replied(t.w, t.structs[f].future, Waiting)
    ensures Leads(server, s, u) && Carries(u, f, m) && Replied(u.w, u.structs[f].future, Done) && u.structs.Keys == t.structs.Keys
  {
    u := AnswerComes(server, s, t, f, t.structs[f].future);
    StillCarries(t, u, f, m);
  }

  lemma BlockGetsResult(server: Server, s: State, t: State, f: nat, id: nat, m: Message) returns (u: State)
    requires Reachable(server, s) && Leads(server, s, t) && Carries(t, f, m) && Replied(t.w, t.structs[f].future, Done) && id !in t.structs
    ensures Leads(server, s, u) && RestsOn(u, id, m, server.page(m))
  {
    u := Step(server, t, ResultYielded(f, id));
    OneMore(server, s, t, ResultYielded(f, id));
    LedKeepsInv(server, s, t);
    YieldShows(server, t, f, id, m);
    YieldedRests(server, t, f, id);
  }

  /** execute_async, whose future is f, and its success block. */
  lemma ResultByBlock(server: Server, s: State, t: State, st: nat, f: nat, id: nat, m: Message) returns (u: State)
    requires Reachable(server, s) && Leads(server, s, t) && HasStatement(t, st) && f !in t.structs && id !in t.structs && f != id
    requires MessageNow(t.w, t.structs[st]) == Success(m)
    ensures Leads(server, s, u) && RestsOn(u, id, m, server.page(m))
  {
    u := ExecuteIsSent(server, s, t, st, f, m);
    u := SentIsAnswered(server, s, u, f, m);
    u := BlockGetsResult(server, s, u, f, id, m);
  }

  // ---- to a page ----

  lemma NextPageWaits(w: World, o: Struct)
    requires o.ResultStruct? && o.result.Some? && PageAt(w, o.result.value).next.Some?
    ensures NextPageStart(w, o).1 == o.(call := NextPaging(w.nextId)) && Replied(NextPageStart(w, o).0, w.nextId, Waiting)
  {
  }

  lemma PageAsked(server: Server, s: State, t: State, id: nat, m: Message, page: Page) returns (u: State)
    requires Reachable(server, s) && Leads(server, s, t) && RestsOn(t, id, m, page) && page.next.Some?
    ensures Leads(server, s, u) && Paged(u, id, m, page) && u.structs[id].call.NextPaging? && Replied(u.w, u.structs[id].call.future, Waiting)
  {
    u := Step(server, t, NextPageBegins(id));
    OneMore(server, s, t, NextPageBegins(id));
    LedKeepsInv(server, s, t);
    NextPageWaits(t.w, t.structs[id]);
    StepIsPaged(server, t, NextPageBegins(id), id, m, page);
  }

  lemma PageAnswered(server: Server, s: State, t: State, id: nat, m: Message, page: Page) returns (u: State)
    requires Reachable(server, s) && Leads(server, s, t) && Paged(t, id, m, page)
    requires t.structs[id].call.NextPaging? && Replied(t.w, t.structs[id].call.future, Waiting)
    ensures Leads(server, s, u) && Paged(u, id, m, page) && u.structs[id].call.NextPaging? && Replied(u.w, u.structs[id].call.future, Done)
  {
    u := AnswerComes(server, s, t, id, t.structs[id].call.future);
    StillPaged(t, u, id, m, page);
  }

  lemma PageTurned(server: Server, s: State, t: State, id: nat, m: Message, page: Page) returns (u: State)
    requires Reachable(server, s) && Leads(server, s, t) && Paged(t, id, m, page)
    requires t.structs[id].call.NextPaging? && Replied(t.w, t.structs[id].call.future, Done)
    ensures Leads(server, s, u) && RestsOn(u, id, m, Following(server, m, page))
  {
    u := Step(server, t, NextPageReturns(id));
    OneMore(server, s, t, NextPageReturns(id));
    LedKeepsInv(server, s, t);
    StepIsPaged(server, t, NextPageReturns(id), id, m, page);
  }

  /** next_page. */
  lemma PageTurnedOnce(server: Server, s: State, t: State, id: nat, m: Message, page: Page) returns (u: State)
    requires Reachable(server, s) && Leads(server, s, t) && RestsOn(t, id, m, page) && page.next.Some?
    ensures Leads(server, s, u) && RestsOn(u, id, m, Following(server, m, page))
  {
    u := PageAsked(server, s, t, id, m, page);
    u := PageAnswered(server, s, u, id, m, page);
    u := PageTurned(server, s, u, id, m, page);
  }

  /** next_page, k times or until there is no next page. */
  lemma {:induction false} PageByNextPage(server: Server, s: State, t: State, id: nat, m: Message, page: Page, k: nat) returns (u: State)
    requires Reachable(server, s) && Leads(server, s, t) && RestsOn(t, id, m, page)
    ensures Leads(server, s, u) && RestsOn(u, id, m, PageAfter(server, m, page, k))
    decreases k
  {
    u := t;
    if k > 0 && page.next.Some? {
      u := PageTurnedOnce(server, s, u, id, m, page);
      u := PageByNextPage(server, s, u, id, m, Following(server, m, page), k - 1);
    }
  }

  /** What an execution sends after page_size=, idempotent= and bind on a new Statement. */
  function MessageAfter(p: Prepared, size: int, value: Value, hash: seq<(Value, Value)>): Message {
    Message(Replay(p, map[], BindAll(p, BLANK_SCRATCH, hash).0.kept).0, size, Told(Some(value)), None)
  }

  lemma StatementReached(server: Server, s: State, st: nat, future: Option<nat>, query: string) returns (u: State)
    requires Reachable(server, s) && st !in s.structs && future != Some(st) && (future.Some? ==> future.value !in s.structs)
    ensures Leads(server, s, u) && u.structs.Keys == s.structs.Keys + Elements(future) + {st}
    ensures Mirrors(u, st, server.prepare(query), BLANK_SCRATCH) && ConfiguredAs(u, st, 10000, None)
  {
    LeadsHere(server, s);
    if future.Some? {
      u := StatementByBlock(server, s, s, future.value, st, query);
    } else {
      u := StatementByPrepare(server, s, s, st, query);
    }
  }

  lemma ResultReached(server: Server, s: State, t: State, st: nat, id: nat, future: Option<nat>, m: Message) returns (u: State)
    requires Reachable(server, s) && Leads(server, s, t) && HasStatement(t, st) && id !in t.structs
    requires future != Some(id) && (future.Some? ==> future.value !in t.structs)
    requires MessageNow(t.w, t.structs[st]) == Success(m)
    ensures Leads(server, s, u) && RestsOn(u, id, m, server.page(m))
  {
    if future.Some? {
      u := ResultByBlock(server, s, t, st, future.value, id, m);
    } else {
      u := ResultByExecute(server, s, t, st, id, m);
    }
  }

  /**
   From every state that a session can be in, a program gets to any page of any query: it
   prepares a Statement, sets and binds it, executes it, and asks for the next page, if
   what bind keeps is accepted again. prepare and execute may each be the call that waits,
   or the _async one with a future and a success block. The message, and so the page, is
   the one that the arguments of the calls say.
   */
  lemma EveryPageIsReached(server: Server, s: State, query: string, size: int, value: Value, hash: seq<(Value, Value)>, k: nat,
                           st: nat, id: nat, preparing: Option<nat>, executing: Option<nat>)
    requires Reachable(server, s) && {st, id} + Elements(preparing) + Elements(executing) !! s.structs.Keys
    requires |{st, id} + Elements(preparing) + Elements(executing)| == 2 + |Elements(preparing)| + |Elements(executing)|
    requires var p := server.prepare(query); Replay(p, map[], BindAll(p, BLANK_SCRATCH, hash).0.kept).1 == None
    ensures var m := MessageAfter(server.prepare(query), size, value, hash);
      exists u :: Leads(server, s, u) && RestsOn(u, id, m, PageAfter(server, m, server.page(m), k))
  {
    var p := server.prepare(query);
    var m := MessageAfter(p, size, value, hash);
    var u := StatementReached(server, s, st, preparing, query);
    u := StatementSetUp(server, s, u, st, p, size, value, hash);
    MirrorSends(u.w, u.structs[st], p, BindAll(p, BLANK_SCRATCH, hash).0);
    u := ResultReached(server, s, u, st, id, executing, m);
    u := PageByNextPage(server, s, u, id, m, server.page(m), k);
  }
}
