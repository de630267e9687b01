/** Ownership and isolation hold between any two steps of any run. */
module LedgerInvariant {
  import opened Prelude
  import opened BindValues
  import opened BindLog
  import opened Paging
  import opened Ledger
  import opened LedgerLocal
  import opened LedgerMachine

  /** The owner of h, in the ledger, is a struct that exists and has h in one of its fields. */
  ghost predicate Held(s: State, h: nat)
    requires h in s.w.owner
  {
    s.w.owner[h].Some? && s.w.owner[h].value in s.structs && h in Fields(s.structs[s.w.owner[h].value])
  }

  /** Every live handle is in a field of the one struct that owns it, and no field has another handle. */
  ghost predicate Inv(s: State) {
    && WorldOk(s.w)
    && (forall id :: id in s.structs ==> Owned(s.w, id, s.structs[id]))
    && (forall h :: h in s.w.owner ==> Held(s, h))
  }

  function FieldsAt(s: State, id: nat): set<nat> {
    if id in s.structs then Fields(s.structs[id]) else {}
  }

  /** What one struct does to its handles leaves every other struct as it was. */
  lemma OthersStay(w: World, v: World, mine: set<nat>, fields: set<nat>, id: nat, x: Struct)
    requires WorldOk(w) && WorldOk(v) && Framed(w, v, mine, fields) && Owned(w, id, x) && Fields(x) !! mine
    ensures Owned(v, id, x)
  {
  }

  lemma ShapeIgnoresOwner(v: World, owner: map<nat, Option<nat>>, x: Struct)
    ensures Shape(v.(owner := owner), x) == Shape(v, x)
  {
  }

  lemma PossessionKeepsWorld(v: World, id: nat, o: Struct)
    requires WorldOk(v)
    ensures WorldOk(Possessed(v, id, o))
  {
  }

  /** Claiming handles makes them one's own, and leaves those of the others alone. */
  lemma PossessedIsOwned(v: World, id: nat, o: Struct)
    requires Conserved(v) && Shape(v, o)
    ensures Owned(Possessed(v, id, o), id, o)
  {
    ShapeIgnoresOwner(v, Possessed(v, id, o).owner, o);
    ShapeLive(v, o);
  }

  lemma PossessionLeavesOthers(v: World, id: nat, o: Struct, i: nat, x: Struct)
    requires Owned(v, i, x) && Fields(o) !! Fields(x)
    ensures Owned(Possessed(v, id, o), i, x)
  {
    ShapeIgnoresOwner(v, Possessed(v, id, o).owner, x);
  }

  /** Handles of two structs are different handles. */
  lemma FieldsApart(s: State, a: nat, b: nat)
    requires Inv(s) && b in s.structs && a != b
    ensures FieldsAt(s, a) !! Fields(s.structs[b])
  {
    assert Owned(s.w, b, s.structs[b]);
    if a in s.structs {
      assert Owned(s.w, a, s.structs[a]);
    }
  }

  /** A struct that did not work still owns its handles, and has none of the new ones. */
  lemma BystanderStays(s: State, v: World, id: nat, fields: set<nat>, i: nat)
    requires Inv(s) && WorldOk(v) && Framed(s.w, v, FieldsAt(s, id), fields) && i in s.structs && i != id
    ensures Owned(v, i, s.structs[i]) && fields !! Fields(s.structs[i])
  {
    FieldsApart(s, id, i);
    assert Owned(s.w, i, s.structs[i]);
    OthersStay(s.w, v, FieldsAt(s, id), fields, i, s.structs[i]);
  }

  /** A handle outside the new fields is where it was. */
  lemma BystanderHolds(s: State, v: World, id: nat, fields: set<nat>, h: nat)
    requires Inv(s) && Conserved(v) && Framed(s.w, v, FieldsAt(s, id), fields) && h in v.owner && h !in fields
    ensures h in s.w.owner && v.owner[h] == s.w.owner[h] && Held(s, h) && s.w.owner[h] != Some(id)
  {
    assert Held(s, h);
  }

  /** These handles are live, and stay what they are. */
  ghost predicate Same(w: World, v: World, hs: set<nat>) {
    forall h :: h in hs ==> h in w.handles && h in v.handles && v.handles[h] == w.handles[h]
  }

  /** Every struct but one stays what it is, and so do its handles. */
  ghost predicate Untouched(s: State, t: State, id: nat) {
    forall i :: i in s.structs && i != id ==> i in t.structs && t.structs[i] == s.structs[i] && Same(s.w, t.w, Fields(s.structs[i]))
  }

  lemma FramedLeavesUntouched(s: State, v: World, id: nat, fields: set<nat>, t: State)
    requires Inv(s) && Framed(s.w, v, FieldsAt(s, id), fields) && t.w.handles == v.handles
    requires forall i :: i in s.structs && i != id ==> i in t.structs && t.structs[i] == s.structs[i]
    ensures Untouched(s, t, id)
  {
    forall i | i in s.structs && i != id ensures Same(s.w, t.w, Fields(s.structs[i])) {
      FieldsApart(s, id, i);
      assert Owned(s.w, i, s.structs[i]);
    }
  }

  lemma PutOwned(s: State, v: World, id: nat, o: Struct, i: nat)
    requires Inv(s) && WorldOk(v) && Shape(v, o) && Framed(s.w, v, FieldsAt(s, id), Fields(o)) && (i == id || i in s.structs)
    ensures Owned(Possessed(v, id, o), i, s.structs[id := o][i])
  {
    if i == id {
      PossessedIsOwned(v, id, o);
    } else {
      BystanderStays(s, v, id, Fields(o), i);
      PossessionLeavesOthers(v, id, o, i, s.structs[i]);
    }
  }

  lemma PutHeld(s: State, v: World, id: nat, o: Struct, h: nat)
    requires Inv(s) && Conserved(v) && Framed(s.w, v, FieldsAt(s, id), Fields(o)) && h in v.owner
    ensures Held(Put(s, v, id, o), h)
  {
    if h !in Fields(o) {
      BystanderHolds(s, v, id, Fields(o), h);
    }
  }

  lemma PutKeepsInv(s: State, v: World, id: nat, o: Struct)
    requires Inv(s) && WorldOk(v) && Shape(v, o) && Framed(s.w, v, FieldsAt(s, id), Fields(o))
    ensures Inv(Put(s, v, id, o)) && Untouched(s, Put(s, v, id, o), id)
  {
    var t := Put(s, v, id, o);
    FramedLeavesUntouched(s, v, id, Fields(o), t);
    PossessionKeepsWorld(v, id, o);
    forall i | i in t.structs ensures Owned(t.w, i, t.structs[i]) {
      PutOwned(s, v, id, o, i);
    }
    forall h | h in t.w.owner ensures Held(t, h) {
      PutHeld(s, v, id, o, h);
    }
  }

  /** One struct handed some of its handles over to a new one. */
  ghost predicate HandsOver(s: State, v: World, id: nat, o: Struct, next: nat, r: Struct) {
    && Inv(s) && WorldOk(v) && Shape(v, o) && Shape(v, r) && id in s.structs && next !in s.structs
    && Fields(o) !! Fields(r) && Framed(s.w, v, FieldsAt(s, id), Fields(o) + Fields(r))
  }

  function HandedOver(s: State, v: World, id: nat, o: Struct, next: nat, r: Struct): State {
    Put(Put(s, v, id, o), Possessed(v, id, o), next, r)
  }

  lemma HandOverOwned(s: State, v: World, id: nat, o: Struct, next: nat, r: Struct, i: nat)
    requires HandsOver(s, v, id, o, next, r) && i in s.structs[id := o][next := r]
    ensures Owned(HandedOver(s, v, id, o, next, r).w, i, s.structs[id := o][next := r][i])
  {
    var u := Possessed(v, id, o);
    if i == id {
      PossessedIsOwned(v, id, o);
      PossessionLeavesOthers(u, next, r, id, o);
    } else if i == next {
      ShapeIgnoresOwner(v, u.owner, r);
      PossessionKeepsWorld(v, id, o);
      PossessedIsOwned(u, next, r);
    } else {
      BystanderStays(s, v, id, Fields(o) + Fields(r), i);
      PossessionLeavesOthers(v, id, o, i, s.structs[i]);
      PossessionLeavesOthers(u, next, r, i, s.structs[i]);
    }
  }

  lemma HandOverHeld(s: State, v: World, id: nat, o: Struct, next: nat, r: Struct, h: nat)
    requires HandsOver(s, v, id, o, next, r) && h in v.owner
    ensures Held(HandedOver(s, v, id, o, next, r), h)
  {
    if h !in Fields(o) && h !in Fields(r) {
      BystanderHolds(s, v, id, Fields(o) + Fields(r), h);
    }
  }

  lemma HandOverSpares(s: State, v: World, id: nat, o: Struct, next: nat, r: Struct)
    requires Inv(s) && next !in s.structs && Framed(s.w, v, FieldsAt(s, id), Fields(o) + Fields(r))
    ensures Untouched(s, HandedOver(s, v, id, o, next, r), id)
  {
    HandedOverStructs(s, v, id, o, next, r);
    FramedLeavesUntouched(s, v, id, Fields(o) + Fields(r), HandedOver(s, v, id, o, next, r));
  }

  lemma HandedOverStructs(s: State, v: World, id: nat, o: Struct, next: nat, r: Struct)
    requires next !in s.structs
    ensures var t := HandedOver(s, v, id, o, next, r);
      && t.w.handles == v.handles
      && forall i :: i in s.structs && i != id ==> i in t.structs && t.structs[i] == s.structs[i]
  {
  }

  lemma HandOverKeepsInv(s: State, v: World, id: nat, o: Struct, next: nat, r: Struct)
    requires HandsOver(s, v, id, o, next, r)
    ensures Inv(HandedOver(s, v, id, o, next, r)) && Untouched(s, HandedOver(s, v, id, o, next, r), id)
  {
    var t := HandedOver(s, v, id, o, next, r);
    HandOverSpares(s, v, id, o, next, r);
    PossessionKeepsWorld(v, id, o);
    PossessionKeepsWorld(Possessed(v, id, o), next, r);
    forall i | i in t.structs ensures Owned(t.w, i, t.structs[i]) {
      HandOverOwned(s, v, id, o, next, r, i);
    }
    forall h | h in t.w.owner ensures Held(t, h) {
      HandOverHeld(s, v, id, o, next, r, h);
    }
  }

  /** The struct is gone, with all its handles; or nothing at all was there. */
  lemma RemoveKeepsInv(s: State, v: World, id: nat)
    requires Inv(s) && WorldOk(v) && Framed(s.w, v, FieldsAt(s, id), {})
    ensures Inv(State(v, s.structs - {id})) && Untouched(s, State(v, s.structs - {id}), id)
  {
    var t := State(v, s.structs - {id});
    FramedLeavesUntouched(s, v, id, {}, t);
    forall i | i in t.structs ensures Owned(t.w, i, t.structs[i]) {
      BystanderStays(s, v, id, {}, i);
    }
    forall h | h in t.w.owner ensures Held(t, h) {
      assert Held(s, h);
    }
  }

  lemma ResolveKeepsOwned(w: World, h: nat, ok: bool, id: nat, x: Struct)
    requires Owned(w, id, x)
    ensures Owned(Resolve(w, h, ok), id, x)
  {
    ResolveKeepsShape(w, h, ok, x);
  }

  lemma ResolveKeepsInv(s: State, h: nat, ok: bool)
    requires Inv(s)
    ensures Inv(State(Resolve(s.w, h, ok), s.structs))
  {
    var t := State(Resolve(s.w, h, ok), s.structs);
    ResolveKeepsWorld(s.w, h, ok);
    forall i | i in t.structs ensures Owned(t.w, i, t.structs[i]) {
      ResolveKeepsOwned(s.w, h, ok, i, s.structs[i]);
    }
    forall g | g in t.w.owner ensures Held(t, g) {
      assert Held(s, g);
    }
  }

  // ---- every step ----

  /** The struct an event works on; a statement that is executed, or a prepare future, is only read. */
  function Worker(e: Event): Option<nat> {
    match e
    case ResultYielded(f, _) => Some(f)
    case Resolves(_, _) => None
    case _ => Some(e.id)
  }

  /** A step leaves alone whatever struct it does not work on. */
  ghost predicate Spares(server: Server, s: State, e: Event)
    requires Allowed(s, e)
  {
    Worker(e).Some? ==> Untouched(s, Step(server, s, e), Worker(e).value)
  }

  lemma PrepareStepKeepsInv(server: Server, s: State, e: Event)
    requires Inv(s) && Allowed(s, e) && (e.PreparesAsync? || e.PrepareBegins? || e.StatementYielded?)
    ensures Inv(Step(server, s, e)) && Spares(server, s, e)
  {
    match e
    case PreparesAsync(id, query) =>
      PrepareKeeps(s.w, query);
      var (w, o) := PrepareAsync(s.w, query);
      PutKeepsInv(s, w, id, o);
    case PrepareBegins(id, query) =>
      PrepareKeeps(s.w, query);
      var (w, o) := PrepareStart(s.w, query);
      PutKeepsInv(s, w, id, o);
    case StatementYielded(f, id) =>
      YieldStatementKeeps(s.w, server, s.structs[f].future);
      var (w, o) := YieldStatement(s.w, server, s.structs[f].future);
      PutKeepsInv(s, w, id, o);
  }

  lemma PrepareReturnKeepsInv(server: Server, s: State, id: nat)
    requires Inv(s) && Allowed(s, PrepareReturns(id))
    ensures Inv(Step(server, s, PrepareReturns(id))) && Spares(server, s, PrepareReturns(id))
  {
    assert Owned(s.w, id, s.structs[id]);
    PrepareEndKeeps(s.w, server, s.structs[id].waiting);
    var (w, o) := PrepareEnd(s.w, server, s.structs[id].waiting);
    if o.Some? {
      PutKeepsInv(s, w, id, o.value);
    } else {
      RemoveKeepsInv(s, w, id);
    }
  }

  lemma SettingStepKeepsInv(server: Server, s: State, e: Event)
    requires Inv(s) && Allowed(s, e) && (e.Binds? || e.PageSizeSet? || e.IdempotentSet?)
    ensures Inv(Step(server, s, e)) && Spares(server, s, e)
  {
    var o := s.structs[e.id];
    assert Owned(s.w, e.id, o);
    var m := match e
      case Binds(_, hash) =>
        MessageAt(s.w, o.scratch).(slots := BindAll(s.w.handles[o.prepared].prepared, Scratch(MessageAt(s.w, o.scratch).slots, o.kept), hash).0.slots)
      case PageSizeSet(_, size) => MessageAt(s.w, o.scratch).(pageSize := size)
      case IdempotentSet(_, value) => MessageAt(s.w, o.scratch).(idempotent := Some(Truthy(value)));
    SettingKeeps(s.w, o, m);
    var t := Step(server, s, e);
    var v := SetStatement(s.w, o.scratch, m);
    assert t == Put(s, v, e.id, t.structs[e.id]);
    PutKeepsInv(s, v, e.id, t.structs[e.id]);
  }

  lemma ExecutesAsyncKeepsInv(server: Server, s: State, st: nat, id: nat)
    requires Inv(s) && Allowed(s, ExecutesAsync(st, id))
    ensures Inv(Step(server, s, ExecutesAsync(st, id))) && Spares(server, s, ExecutesAsync(st, id))
  {
    assert Owned(s.w, st, s.structs[st]);
    ExecuteAsyncKeeps(s.w, s.structs[st]);
    var (w, r) := ExecuteAsync(s.w, s.structs[st]);
    MadeOrNotKeepsInv(s, w, id, r);
  }

  lemma ExecuteBeginsKeepsInv(server: Server, s: State, st: nat, id: nat)
    requires Inv(s) && Allowed(s, ExecuteBegins(st, id))
    ensures Inv(Step(server, s, ExecuteBegins(st, id))) && Spares(server, s, ExecuteBegins(st, id))
  {
    assert Owned(s.w, st, s.structs[st]);
    ExecuteStartKeeps(s.w, s.structs[st]);
    var (w, r) := ExecuteStart(s.w, s.structs[st]);
    MadeOrNotKeepsInv(s, w, id, r);
  }

  lemma MadeOrNotKeepsInv(s: State, v: World, id: nat, r: Result<Struct, Exception>)
    requires Inv(s) && WorldOk(v) && id !in s.structs && (r.Success? ==> Shape(v, r.value))
    requires Framed(s.w, v, {}, if r.Success? then Fields(r.value) else {})
    ensures Inv(PutIfMade(s, v, id, r)) && Untouched(s, PutIfMade(s, v, id, r), id)
  {
    if r.Success? {
      PutKeepsInv(s, v, id, r.value);
    } else {
      assert s.structs - {id} == s.structs;
      RemoveKeepsInv(s, v, id);
    }
  }

  lemma ResultStepKeepsInv(server: Server, s: State, e: Event)
    requires Inv(s) && Allowed(s, e) && (e.ExecuteReturns? || e.NextPageBegins? || e.NextPageReturns?)
    ensures Inv(Step(server, s, e)) && Spares(server, s, e)
  {
    assert Owned(s.w, e.id, s.structs[e.id]);
    match e
    case ExecuteReturns(id) =>
      ExecuteEndKeeps(s.w, server, s.structs[id]);
      var (w, o, _) := ExecuteEnd(s.w, server, s.structs[id]);
      PutKeepsInv(s, w, id, o);
    case NextPageBegins(id) =>
      NextPageStartKeeps(s.w, s.structs[id]);
      var (w, o) := NextPageStart(s.w, s.structs[id]);
      PutKeepsInv(s, w, id, o);
    case NextPageReturns(id) =>
      NextPageEndKeeps(s.w, server, s.structs[id]);
      var (w, o, _) := NextPageEnd(s.w, server, s.structs[id]);
      PutKeepsInv(s, w, id, o);
  }

  lemma YieldStepKeepsInv(server: Server, s: State, f: nat, id: nat)
    requires Inv(s) && Allowed(s, ResultYielded(f, id))
    ensures Inv(Step(server, s, ResultYielded(f, id))) && Spares(server, s, ResultYielded(f, id))
  {
    assert Owned(s.w, f, s.structs[f]);
    YieldResultKeeps(s.w, server, s.structs[f]);
    var (w, o, r) := YieldResult(s.w, server, s.structs[f]);
    HandOverKeepsInv(s, w, f, o, id, r);
  }

  lemma DestroyStepKeepsInv(server: Server, s: State, id: nat)
    requires Inv(s) && Allowed(s, Destroys(id))
    ensures Inv(Step(server, s, Destroys(id))) && Spares(server, s, Destroys(id))
  {
    assert Owned(s.w, id, s.structs[id]);
    DestroyedKeeps(s.w, s.structs[id]);
    assert Freed(s.structs[id]) == Fields(s.structs[id]);
    RemoveKeepsInv(s, Destroyed(s.w, s.structs[id]), id);
  }

  lemma StepKeepsInv(server: Server, s: State, e: Event)
    requires Inv(s) && Allowed(s, e)
    ensures Inv(Step(server, s, e)) && Spares(server, s, e)
  {
    match e
    case PrepareReturns(id) => PrepareReturnKeepsInv(server, s, id);
    case ResultYielded(f, id) => YieldStepKeepsInv(server, s, f, id);
    case Destroys(id) => DestroyStepKeepsInv(server, s, id);
    case Resolves(h, ok) => ResolveKeepsInv(s, h, ok);
    case Binds(_, _) => SettingStepKeepsInv(server, s, e);
    case PageSizeSet(_, _) => SettingStepKeepsInv(server, s, e);
    case IdempotentSet(_, _) => SettingStepKeepsInv(server, s, e);
    case ExecutesAsync(st, id) => ExecutesAsyncKeepsInv(server, s, st, id);
    case ExecuteBegins(st, id) => ExecuteBeginsKeepsInv(server, s, st, id);
    case ExecuteReturns(_) => ResultStepKeepsInv(server, s, e);
    case NextPageBegins(_) => ResultStepKeepsInv(server, s, e);
    case NextPageReturns(_) => ResultStepKeepsInv(server, s, e);
    case _ => PrepareStepKeepsInv(server, s, e);
  }

  lemma {:induction false} RunKeepsInv(server: Server, s: State, events: seq<Event>)
    requires Inv(s) && IsRun(server, s, events)
    ensures Inv(After(server, s, events))
    decreases events
  {
    if events != [] {
      StepKeepsInv(server, s, events[0]);
      RunKeepsInv(server, Step(server, s, events[0]), events[1..]);
    }
  }

  lemma StartInv()
    ensures Inv(START)
  {
  }

  lemma ReachableInv(server: Server, s: State)
    requires Reachable(server, s)
    ensures Inv(s)
  {
    var events :| IsRun(server, START, events) && After(server, START, events) == s;
    StartInv();
    RunKeepsInv(server, START, events);
  }
}
