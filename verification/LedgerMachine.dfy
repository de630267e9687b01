/**
 The Ruby objects of one session as a transition system over their driver handles. A
 call that gives up the GVL while it waits is two steps, so that other Ruby threads and
 the driver may do anything in between.
 */
module LedgerMachine {
  import opened Prelude
  import opened BindValues
  import opened Paging
  import opened Ledger

  datatype State = State(w: World, structs: map<nat, Struct>)

  /** id names the struct that works, or that is made. */
  datatype Event =
    | PreparesAsync(id: nat, query: string)
    | PrepareBegins(id: nat, query: string)
    | PrepareReturns(id: nat)
    | StatementYielded(future: nat, id: nat)
    | Binds(id: nat, hash: seq<(Value, Value)>)
    | PageSizeSet(id: nat, size: int)
    | IdempotentSet(id: nat, value: Value)
    | ExecutesAsync(statement: nat, id: nat)
    | ExecuteBegins(statement: nat, id: nat)
    | ExecuteReturns(id: nat)
    | ResultYielded(future: nat, id: nat)
    | NextPageBegins(id: nat)
    | NextPageReturns(id: nat)
    | Destroys(id: nat)
    | Resolves(handle: nat, ok: bool)

  predicate HasReply(w: World, f: nat) {
    IsFuture(w, f) && !w.handles[f].reply.Waiting?
  }

  predicate HasStatement(s: State, id: nat) {
    id in s.structs && s.structs[id].StatementStruct?
  }

  predicate HasFuture(s: State, id: nat) {
    id in s.structs && s.structs[id].FutureStruct?
  }

  predicate HasResult(s: State, id: nat) {
    id in s.structs && s.structs[id].ResultStruct?
  }

  /**
   What can happen next. A waiting call returns once its future is resolved; a block is
   called once, with the handles of a future that succeeded; one thread uses a Result at
   a time, and a Result that raised in execute is not seen by Ruby code; and an object is
   not destroyed under a running call.
   */
  predicate Allowed(s: State, e: Event) {
    match e
    case PreparesAsync(id, _) => id !in s.structs
    case PrepareBegins(id, _) => id !in s.structs
    case PrepareReturns(id) => id in s.structs && s.structs[id].PrepareCall? && HasReply(s.w, s.structs[id].waiting)
    case StatementYielded(f, id) =>
      HasFuture(s, f) && id !in s.structs && Replied(s.w, s.structs[f].future, Done) && s.w.handles[s.structs[f].future].PrepareFuture?
    case Binds(id, _) => HasStatement(s, id)
    case PageSizeSet(id, _) => HasStatement(s, id)
    case IdempotentSet(id, _) => HasStatement(s, id)
    case ExecutesAsync(st, id) => HasStatement(s, st) && id !in s.structs
    case ExecuteBegins(st, id) => HasStatement(s, st) && id !in s.structs
    case ExecuteReturns(id) =>
      HasResult(s, id) && s.structs[id].call.Awaiting? && s.structs[id].answered.Some? && HasReply(s.w, s.structs[id].answered.value)
    case ResultYielded(f, id) =>
      HasFuture(s, f) && id !in s.structs && s.structs[f].executed.Some? && Replied(s.w, s.structs[f].future, Done)
    case NextPageBegins(id) => HasResult(s, id) && s.structs[id].result.Some? && s.structs[id].call.NoCall?
    case NextPageReturns(id) =>
      && HasResult(s, id) && s.structs[id].result.Some? && s.structs[id].call.NextPaging?
      && HasReply(s.w, s.structs[id].call.future)
    case Destroys(id) =>
      id in s.structs && !s.structs[id].PrepareCall? && (s.structs[id].ResultStruct? ==> s.structs[id].call.NoCall?)
    case Resolves(_, _) => true
  }

  function Put(s: State, w: World, id: nat, o: Struct): State {
    State(Possessed(w, id, o), s.structs[id := o])
  }

  function PutIfMade(s: State, w: World, id: nat, o: Result<Struct, Exception>): State {
    if o.Success? then Put(s, w, id, o.value) else State(w, s.structs)
  }

  function Step(server: Server, s: State, e: Event): State
    requires Allowed(s, e)
  {
    match e
    case PreparesAsync(id, query) => var (w, o) := PrepareAsync(s.w, query); Put(s, w, id, o)
    case PrepareBegins(id, query) => var (w, o) := PrepareStart(s.w, query); Put(s, w, id, o)
    case PrepareReturns(id) =>
      var (w, o) := PrepareEnd(s.w, server, s.structs[id].waiting);
      if o.Some? then Put(s, w, id, o.value) else State(w, s.structs - {id})
    case StatementYielded(f, id) => var (w, o) := YieldStatement(s.w, server, s.structs[f].future); Put(s, w, id, o)
    case Binds(id, hash) => var (w, o, _) := Bind(s.w, s.structs[id], hash); Put(s, w, id, o)
    case PageSizeSet(id, size) => var (w, o) := SetPageSize(s.w, s.structs[id], size); Put(s, w, id, o)
    case IdempotentSet(id, value) => var (w, o) := SetIdempotent(s.w, s.structs[id], value); Put(s, w, id, o)
    case ExecutesAsync(st, id) => var (w, o) := ExecuteAsync(s.w, s.structs[st]); PutIfMade(s, w, id, o)
    case ExecuteBegins(st, id) => var (w, o) := ExecuteStart(s.w, s.structs[st]); PutIfMade(s, w, id, o)
    case ExecuteReturns(id) => var (w, o, _) := ExecuteEnd(s.w, server, s.structs[id]); Put(s, w, id, o)
    case ResultYielded(f, id) => var (w, o, r) := YieldResult(s.w, server, s.structs[f]); Put(Put(s, w, f, o), Possessed(w, f, o), id, r)
    case NextPageBegins(id) => var (w, o) := NextPageStart(s.w, s.structs[id]); Put(s, w, id, o)
    case NextPageReturns(id) => var (w, o, _) := NextPageEnd(s.w, server, s.structs[id]); Put(s, w, id, o)
    case Destroys(id) => State(Destroyed(s.w, s.structs[id]), s.structs - {id})
    case Resolves(h, ok) => State(Resolve(s.w, h, ok), s.structs)
  }

  predicate IsRun(server: Server, s: State, events: seq<Event>)
    decreases events
  {
    events == [] || (Allowed(s, events[0]) && IsRun(server, Step(server, s, events[0]), events[1..]))
  }

  function After(server: Server, s: State, events: seq<Event>): State
    requires IsRun(server, s, events)
    decreases events
  {
    if events == [] then s else After(server, Step(server, s, events[0]), events[1..])
  }

  const START := State(NOTHING, map[])

  ghost predicate Reachable(server: Server, s: State) {
    exists events :: IsRun(server, START, events) && After(server, START, events) == s
  }
}
