/**
 Log compaction. Statement#bind applies every entry at once to a scratch statement and
 to an insertion-ordered hash; an execution replays only the hash. The replay gives
 what the scratch statement has seen, over any number of binds, completed or raised.
 */
module BindLog {
  import opened Prelude
  import opened BindValues

  /** The parameters bound on a driver statement; the others are unset. */
  type Slots = map<nat, CassValue>

  /** A Ruby hash with string keys, in insertion order. */
  type Kept = seq<(string, Value)>

  /** cass_statement_bind_*_by_name. */
  function Bound(p: Prepared, slots: Slots, name: string, v: CassValue): Slots {
    map i | i in slots.Keys + p.columns(name) :: if i in p.columns(name) then v else slots[i]
  }

  /** rb_hash_aset: an existing key keeps its place. */
  function Stored(kept: Kept, name: string, v: Value): Kept
    decreases kept
  {
    if kept == [] then [(name, v)]
    else if kept[0].0 == name then [(name, v)] + kept[1..]
    else [kept[0]] + Stored(kept[1..], name, v)
  }

  datatype Scratch = Scratch(slots: Slots, kept: Kept)

  /** rb_hash_foreach(hash, hash_cb): entry by entry, until one raises. */
  function BindAll(p: Prepared, st: Scratch, hash: seq<(Value, Value)>): (Scratch, Option<Exception>)
    decreases hash
  {
    if hash == [] then (st, None)
    else match Entry(p, hash[0].0, hash[0].1)
      case Failure(e) => (st, Some(e))
      case Success((name, c)) =>
        BindAll(p, Scratch(Bound(p, st.slots, name, c.bound), Stored(st.kept, name, c.kept)), hash[1..])
  }

  /** Any number of bind calls; one that raises leaves what it had done, and the program may go on binding. */
  function BindRuns(p: Prepared, st: Scratch, hashes: seq<seq<(Value, Value)>>): Scratch
    decreases hashes
  {
    if hashes == [] then st else BindRuns(p, BindAll(p, st, hashes[0]).0, hashes[1..])
  }

  /** statement_rebind_body: replay into a statement, without keeping anything. */
  function Replay(p: Prepared, slots: Slots, kept: Kept): (Slots, Option<Exception>)
    decreases kept
  {
    if kept == [] then (slots, None)
    else match Entry(p, Str(kept[0].0), kept[0].1)
      case Failure(e) => (slots, Some(e))
      case Success((name, c)) => Replay(p, Bound(p, slots, name, c.bound), kept[1..])
  }

  // ---- one entry after the other ----

  /** What a bind has done by the end of a is what the rest goes on from, if nothing raised. */
  lemma {:induction false} BindInTwo(p: Prepared, st: Scratch, a: seq<(Value, Value)>, b: seq<(Value, Value)>)
    ensures var (mid, e) := BindAll(p, st, a); BindAll(p, st, a + b) == if e.Some? then (mid, e) else BindAll(p, mid, b)
    decreases a
  {
    if a == [] {
      assert a + b == b;
    } else {
      assert (a + b)[1..] == a[1..] + b;
      if Entry(p, a[0].0, a[0].1).Success? {
        var (name, c) := Entry(p, a[0].0, a[0].1).value;
        BindInTwo(p, Scratch(Bound(p, st.slots, name, c.bound), Stored(st.kept, name, c.kept)), a[1..], b);
      }
    }
  }

  /** The first entry that raises ends a bind with its exception; the entries before it stay, and those after it do nothing. */
  lemma BindStopsAtTheFirst(p: Prepared, st: Scratch, a: seq<(Value, Value)>, key: Value, v: Value, b: seq<(Value, Value)>)
    requires BindAll(p, st, a).1 == None && Entry(p, key, v).Failure?
    ensures BindAll(p, st, a + ([(key, v)] + b)) == (BindAll(p, st, a).0, Some(Entry(p, key, v).error))
  {
    BindInTwo(p, st, a, [(key, v)] + b);
    assert ([(key, v)] + b)[0] == (key, v);
  }

  /** So a bind raises exactly if some entry does, and with the exception of the first of them. */
  lemma {:induction false} BindRaisesIff(p: Prepared, st: Scratch, hash: seq<(Value, Value)>)
    ensures var e := BindAll(p, st, hash).1;
      && (e.None? <==> forall i :: 0 <= i < |hash| ==> Entry(p, hash[i].0, hash[i].1).Success?)
      && (e.Some? ==> exists k :: 0 <= k < |hash| && Entry(p, hash[k].0, hash[k].1) == Failure(e.value)
                                  && forall i :: 0 <= i < k ==> Entry(p, hash[i].0, hash[i].1).Success?)
    decreases hash
  {
    if hash != [] && Entry(p, hash[0].0, hash[0].1).Success? {
      var (name, c) := Entry(p, hash[0].0, hash[0].1).value;
      var next := Scratch(Bound(p, st.slots, name, c.bound), Stored(st.kept, name, c.kept));
      var rest := hash[1..];
      BindRaisesIff(p, next, rest);
      forall i | 0 <= i < |rest| ensures rest[i] == hash[i + 1] {
      }
      if BindAll(p, next, rest).1.Some? {
        var k :| 0 <= k < |rest| && Entry(p, rest[k].0, rest[k].1) == Failure(BindAll(p, next, rest).1.value)
                 && forall i :: 0 <= i < k ==> Entry(p, rest[i].0, rest[i].1).Success?;
        assert forall i :: 0 <= i < k + 1 ==> i == 0 || hash[i] == rest[i - 1];
        assert hash[k + 1] == rest[k];
      } else {
        assert forall i :: 0 <= i < |hash| ==> i == 0 || hash[i] == rest[i - 1];
      }
    }
  }

  /** An entry that is accepted sets the parameters of its name, and these only, and is the hash's value under that name. */
  lemma BindOne(p: Prepared, st: Scratch, key: Value, v: Value)
    requires Entry(p, key, v).Success?
    ensures var (name, c) := Entry(p, key, v).value;
      var (after, e) := BindAll(p, st, [(key, v)]);
      && e == None
      && (forall i :: i in after.slots <==> i in st.slots || i in p.columns(name))
      && (forall i :: i in after.slots ==> after.slots[i] == if i in p.columns(name) then c.bound else st.slots[i])
      && (name, c.kept) in after.kept
  {
    assert [(key, v)][1..] == [];
    StoredIsThere(st.kept, Entry(p, key, v).value.0, Entry(p, key, v).value.1.kept);
  }

  lemma {:induction false} StoredIsThere(kept: Kept, name: string, v: Value)
    ensures (name, v) in Stored(kept, name, v)
    decreases kept
  {
    if kept != [] && kept[0].0 != name {
      StoredIsThere(kept[1..], name, v);
      assert Stored(kept, name, v)[1..] == Stored(kept[1..], name, v);
    } else {
      assert Stored(kept, name, v)[0] == (name, v);
    }
  }

  // ---- what was accepted ----

  /** The value last accepted under each name, as bind was given it. */
  type Latest = map<string, Value>

  function Taken(p: Prepared, latest: Latest, hash: seq<(Value, Value)>): Latest
    decreases hash
  {
    if hash == [] then latest
    else match Entry(p, hash[0].0, hash[0].1)
      case Failure(_) => latest
      case Success((name, _)) => Taken(p, latest[name := hash[0].1], hash[1..])
  }

  function TakenRuns(p: Prepared, latest: Latest, hashes: seq<seq<(Value, Value)>>): Latest
    decreases hashes
  {
    if hashes == [] then latest else TakenRuns(p, Taken(p, latest, hashes[0]), hashes[1..])
  }

  predicate AcceptedUnder(p: Prepared, name: string, v: Value) {
    Entry(p, Str(name), v).Success? && Entry(p, Str(name), v).value.0 == name
  }

  function BoundUnder(p: Prepared, name: string, v: Value): CassValue
    requires AcceptedUnder(p, name, v)
  {
    Entry(p, Str(name), v).value.1.bound
  }

  function KeptUnder(p: Prepared, name: string, v: Value): Value
    requires AcceptedUnder(p, name, v)
  {
    Entry(p, Str(name), v).value.1.kept
  }

  /** The normalised key of an accepted entry is accepted with the same result. */
  lemma AcceptedAgain(p: Prepared, key: Value, v: Value)
    requires Entry(p, key, v).Success?
    ensures var (name, c) := Entry(p, key, v).value;
      AcceptedUnder(p, name, v) && BoundUnder(p, name, v) == c.bound && KeptUnder(p, name, v) == c.kept
  {
  }

  function Names(kept: Kept): seq<string> {
    seq(|kept|, i requires 0 <= i < |kept| => kept[i].0)
  }

  ghost predicate NamesOnce(kept: Kept) {
    forall i, j :: 0 <= i < j < |kept| ==> kept[i].0 != kept[j].0
  }

  /** An entry of the hash is what was kept of the last value accepted under its name. */
  predicate EntryRecorded(p: Prepared, e: (string, Value), latest: Latest) {
    e.0 in latest && AcceptedUnder(p, e.0, latest[e.0]) && e.1 == KeptUnder(p, e.0, latest[e.0])
  }

  predicate AllAccepted(p: Prepared, latest: Latest) {
    forall n :: n in latest ==> AcceptedUnder(p, n, latest[n])
  }

  /** The hash has exactly the names under which something was accepted, each once, with what was kept of the last value. */
  ghost predicate Recorded(p: Prepared, kept: Kept, latest: Latest) {
    && NamesOnce(kept)
    && AllAccepted(p, latest)
    && (forall n :: n in latest <==> n in Names(kept))
    && forall i :: 0 <= i < |kept| ==> EntryRecorded(p, kept[i], latest)
  }

  lemma NamesOnceFrom(e: (string, Value), rest: Kept)
    ensures NamesOnce([e] + rest) <==> NamesOnce(rest) && e.0 !in Names(rest)
  {
    var kept := [e] + rest;
    if NamesOnce(kept) {
      forall j | 0 <= j < |rest| ensures rest[j].0 != e.0 && forall i :: 0 <= i < j ==> rest[i].0 != rest[j].0 {
        assert kept[0].0 != kept[j + 1].0 && rest[j] == kept[j + 1];
        forall i | 0 <= i < j ensures rest[i].0 != rest[j].0 {
          assert rest[i] == kept[i + 1] && kept[i + 1].0 != kept[j + 1].0;
        }
      }
    } else if NamesOnce(rest) {
      var i, j :| 0 <= i < j < |kept| && kept[i].0 == kept[j].0;
      assert i == 0 && Names(rest)[j - 1] == e.0;
    }
  }

  /** rb_hash_aset overwrites the one entry of the name, or adds one, and leaves the others. */
  lemma {:induction false} StoredEntries(kept: Kept, name: string, v: Value)
    requires NamesOnce(kept)
    ensures var kept' := Stored(kept, name, v);
      NamesOnce(kept') && forall e :: e in kept' ==> e == (name, v) || (e in kept && e.0 != name)
    decreases kept
  {
    if kept != [] {
      var rest := kept[1..];
      assert kept == [kept[0]] + rest;
      NamesOnceFrom(kept[0], rest);
      if kept[0].0 == name {
        assert forall e :: e in rest ==> e.0 in Names(rest) by {
          assert forall i :: 0 <= i < |rest| ==> Names(rest)[i] == rest[i].0;
        }
        NamesOnceFrom((name, v), rest);
      } else {
        StoredEntries(rest, name, v);
        StoredNames(rest, name, v);
        NamesOnceFrom(kept[0], Stored(rest, name, v));
      }
    }
  }

  lemma StillRecorded(p: Prepared, e: (string, Value), latest: Latest, name: string, v: Value)
    requires AcceptedUnder(p, name, v)
    requires e == (name, KeptUnder(p, name, v)) || (EntryRecorded(p, e, latest) && e.0 != name)
    ensures EntryRecorded(p, e, latest[name := v])
  {
  }

  lemma StoreIsRecorded(p: Prepared, kept: Kept, latest: Latest, name: string, v: Value)
    requires Recorded(p, kept, latest) && AcceptedUnder(p, name, v)
    ensures Recorded(p, Stored(kept, name, KeptUnder(p, name, v)), latest[name := v])
  {
    var kept' := Stored(kept, name, KeptUnder(p, name, v));
    StoredEntries(kept, name, KeptUnder(p, name, v));
    StoredNames(kept, name, KeptUnder(p, name, v));
    forall i | 0 <= i < |kept'| ensures EntryRecorded(p, kept'[i], latest[name := v]) {
      assert kept'[i] in kept';
      StillRecorded(p, kept'[i], latest, name, v);
    }
    assert AllAccepted(p, latest[name := v]);
  }

  lemma {:induction false} StoredNames(kept: Kept, name: string, v: Value)
    ensures forall n :: n in Names(Stored(kept, name, v)) <==> n in Names(kept) || n == name
    decreases kept
  {
    if kept == [] {
      assert Names([(name, v)]) == [name];
    } else if kept[0].0 == name {
      assert Names(Stored(kept, name, v)) == [name] + Names(kept[1..]);
      assert Names(kept) == [name] + Names(kept[1..]);
    } else {
      StoredNames(kept[1..], name, v);
      assert Names(Stored(kept, name, v)) == [kept[0].0] + Names(Stored(kept[1..], name, v));
      assert Names(kept) == [kept[0].0] + Names(kept[1..]);
    }
  }

  // ---- a replay, name by name ----

  type Bindings = map<string, CassValue>

  /** What each name is bound to. */
  function BoundTo(p: Prepared, latest: Latest): Bindings
    requires AllAccepted(p, latest)
  {
    map n | n in latest :: BoundUnder(p, n, latest[n])
  }

  /** The slots that binding each name to its value gives, on top of slots. */
  function Image(p: Prepared, slots: Slots, names: seq<string>, bs: Bindings): Slots
    requires forall n :: n in names ==> n in bs
    decreases names
  {
    if names == [] then slots else Image(p, Bound(p, slots, names[0], bs[names[0]]), names[1..], bs)
  }

  /** A kept entry replays, to value b of its name. */
  ghost predicate Replays(p: Prepared, e: (string, Value), b: CassValue) {
    Entry(p, Str(e.0), e.1).Success? && Entry(p, Str(e.0), e.1).value.0 == e.0 && Entry(p, Str(e.0), e.1).value.1.bound == b
  }

  ghost predicate AllReplay(p: Prepared, kept: Kept, bs: Bindings) {
    forall i :: 0 <= i < |kept| ==> kept[i].0 in bs && Replays(p, kept[i], bs[kept[i].0])
  }

  lemma NamesIn(kept: Kept, bs: Bindings)
    requires forall i :: 0 <= i < |kept| ==> kept[i].0 in bs
    ensures forall n :: n in Names(kept) ==> n in bs
  {
  }

  lemma {:induction false} SoundReplay(p: Prepared, slots: Slots, kept: Kept, bs: Bindings)
    requires AllReplay(p, kept, bs)
    ensures (forall n :: n in Names(kept) ==> n in bs) && Replay(p, slots, kept) == (Image(p, slots, Names(kept), bs), None)
    decreases kept
  {
    NamesIn(kept, bs);
    if kept != [] {
      assert Replays(p, kept[0], bs[kept[0].0]);
      assert Names(kept)[1..] == Names(kept[1..]);
      SoundReplay(p, Bound(p, slots, kept[0].0, bs[kept[0].0]), kept[1..], bs);
    }
  }

  predicate Spoilt(p: Prepared, kept: Kept, i: nat)
    requires i < |kept|
  {
    Entry(p, Str(kept[i].0), kept[i].1).Failure?
  }

  /** A replay raises exactly if some entry of the hash does, whatever it replays into. */
  lemma {:induction false} ReplayRaisesIff(p: Prepared, slots: Slots, kept: Kept)
    ensures Replay(p, slots, kept).1.Some? <==> exists i: nat :: i < |kept| && Spoilt(p, kept, i)
    decreases kept
  {
    if kept != [] {
      var rest := kept[1..];
      forall i: nat | i < |rest| ensures Spoilt(p, rest, i) <==> Spoilt(p, kept, i + 1) {
      }
      if Spoilt(p, kept, 0) {
      } else {
        var (name, c) := Entry(p, Str(kept[0].0), kept[0].1).value;
        ReplayRaisesIff(p, Bound(p, slots, name, c.bound), rest);
        if i: nat :| i < |kept| && Spoilt(p, kept, i) {
          assert Spoilt(p, rest, i - 1);
        }
      }
    }
  }

  lemma BoundCommutes(p: Prepared, slots: Slots, m: string, a: CassValue, n: string, b: CassValue)
    requires p.columns(m) !! p.columns(n)
    ensures Bound(p, Bound(p, slots, m, a), n, b) == Bound(p, Bound(p, slots, n, b), m, a)
  {
  }

  lemma BoundAgain(p: Prepared, slots: Slots, n: string, a: CassValue, b: CassValue)
    ensures Bound(p, Bound(p, slots, n, a), n, b) == Bound(p, slots, n, b)
  {
  }

  /** Binding n last is the same as binding it first, when nothing else touches its parameters. */
  lemma {:induction false} BoundMovesLast(p: Prepared, slots: Slots, names: seq<string>, bs: Bindings, n: string, b: CassValue)
    requires forall m :: m in names ==> m in bs && p.columns(m) !! p.columns(n)
    ensures Image(p, Bound(p, slots, n, b), names, bs) == Bound(p, Image(p, slots, names, bs), n, b)
    decreases names
  {
    if names != [] {
      BoundCommutes(p, slots, n, b, names[0], bs[names[0]]);
      BoundMovesLast(p, Bound(p, slots, names[0], bs[names[0]]), names[1..], bs, n, b);
    }
  }

  /** A binding that none of the names has does not matter. */
  lemma {:induction false} ImageElsewhere(p: Prepared, slots: Slots, names: seq<string>, bs: Bindings, n: string, b: CassValue)
    requires n !in names && forall m :: m in names ==> m in bs
    ensures Image(p, slots, names, bs[n := b]) == Image(p, slots, names, bs)
    decreases names
  {
    if names != [] {
      ImageElsewhere(p, Bound(p, slots, names[0], bs[names[0]]), names[1..], bs, n, b);
    }
  }

  /** Overwriting in place is worth a write at the end: the heart of the compaction. */
  lemma {:induction false} StoreIsLastWrite(p: Prepared, slots: Slots, kept: Kept, bs: Bindings, name: string, v: Value, b: CassValue)
    requires NamesOnce(kept)
    requires forall m :: m in Names(kept) ==> m in bs && (m != name ==> p.columns(m) !! p.columns(name))
    ensures var kept', bs' := Stored(kept, name, v), bs[name := b];
      && (forall m :: m in Names(kept') ==> m in bs')
      && Image(p, slots, Names(kept'), bs') == Bound(p, Image(p, slots, Names(kept), bs), name, b)
    decreases kept
  {
    var kept', bs' := Stored(kept, name, v), bs[name := b];
    StoredNames(kept, name, v);
    if kept == [] {
      assert Names(kept') == [name] && Names(kept')[1..] == [];
    } else {
      var rest := kept[1..];
      assert Names(kept) == [kept[0].0] + Names(rest) && Names(kept') == [kept[0].0] + Names(kept'[1..]);
      if kept[0].0 == name {
        assert kept'[1..] == rest && name !in Names(rest);
        ImageElsewhere(p, Bound(p, slots, name, b), Names(rest), bs, name, b);
        BoundAgain(p, slots, name, bs[name], b);
        BoundMovesLast(p, Bound(p, slots, name, bs[name]), Names(rest), bs, name, b);
      } else {
        assert kept'[1..] == Stored(rest, name, v);
        StoreIsLastWrite(p, Bound(p, slots, kept[0].0, bs[kept[0].0]), rest, bs, name, v, b);
      }
    }
  }

  /** A parameter of one name has its value after all, when no other name touches it. */
  lemma {:induction false} ImageAt(p: Prepared, slots: Slots, names: seq<string>, bs: Bindings, n: string, c: nat)
    requires forall m :: m in names ==> m in bs && (m != n ==> p.columns(m) !! p.columns(n))
    requires c in p.columns(n) && n in bs && (n in names || (c in slots && slots[c] == bs[n]))
    ensures c in Image(p, slots, names, bs) && Image(p, slots, names, bs)[c] == bs[n]
    decreases names
  {
    if names != [] {
      ImageAt(p, Bound(p, slots, names[0], bs[names[0]]), names[1..], bs, n, c);
    }
  }

  // ---- the hash and the scratch statement, over any number of binds ----

  /** No two of these names resolve to a common parameter. */
  predicate NamesApart(p: Prepared, names: set<string>) {
    forall m, n :: m in names && n in names && m != n ==> p.columns(m) !! p.columns(n)
  }

  /** The hash records what was accepted, and the scratch statement holds it, name by name. */
  ghost predicate Compacted(p: Prepared, st: Scratch, latest: Latest) {
    && Recorded(p, st.kept, latest)
    && st.slots == Image(p, map[], Names(st.kept), BoundTo(p, latest))
  }

  /** Whatever is bound, a hash only records what was accepted, last value by last value. */
  lemma {:induction false} BindKeepsRecorded(p: Prepared, st: Scratch, latest: Latest, hash: seq<(Value, Value)>)
    requires Recorded(p, st.kept, latest)
    ensures Recorded(p, BindAll(p, st, hash).0.kept, Taken(p, latest, hash))
    decreases hash
  {
    if hash != [] && Entry(p, hash[0].0, hash[0].1).Success? {
      var (name, c) := Entry(p, hash[0].0, hash[0].1).value;
      AcceptedAgain(p, hash[0].0, hash[0].1);
      StoreIsRecorded(p, st.kept, latest, name, hash[0].1);
      BindKeepsRecorded(p, Scratch(Bound(p, st.slots, name, c.bound), Stored(st.kept, name, c.kept)), latest[name := hash[0].1], hash[1..]);
    }
  }

  lemma {:induction false} RunsKeepRecorded(p: Prepared, st: Scratch, latest: Latest, hashes: seq<seq<(Value, Value)>>)
    requires Recorded(p, st.kept, latest)
    ensures Recorded(p, BindRuns(p, st, hashes).kept, TakenRuns(p, latest, hashes))
    decreases hashes
  {
    if hashes != [] {
      BindKeepsRecorded(p, st, latest, hashes[0]);
      RunsKeepRecorded(p, BindAll(p, st, hashes[0]).0, Taken(p, latest, hashes[0]), hashes[1..]);
    }
  }

  lemma {:induction false} TakenGrows(p: Prepared, latest: Latest, hash: seq<(Value, Value)>)
    ensures latest.Keys <= Taken(p, latest, hash).Keys
    decreases hash
  {
    if hash != [] && Entry(p, hash[0].0, hash[0].1).Success? {
      TakenGrows(p, latest[Entry(p, hash[0].0, hash[0].1).value.0 := hash[0].1], hash[1..]);
    }
  }

  lemma {:induction false} TakenRunsGrow(p: Prepared, latest: Latest, hashes: seq<seq<(Value, Value)>>)
    ensures latest.Keys <= TakenRuns(p, latest, hashes).Keys
    decreases hashes
  {
    if hashes != [] {
      TakenGrows(p, latest, hashes[0]);
      TakenRunsGrow(p, Taken(p, latest, hashes[0]), hashes[1..]);
    }
  }

  lemma BoundToNext(p: Prepared, latest: Latest, name: string, v: Value)
    requires AllAccepted(p, latest) && AcceptedUnder(p, name, v)
    ensures AllAccepted(p, latest[name := v]) && BoundTo(p, latest[name := v]) == BoundTo(p, latest)[name := BoundUnder(p, name, v)]
  {
  }

  lemma OneBindKeepsCompacted(p: Prepared, st: Scratch, latest: Latest, names: set<string>, key: Value, v: Value)
    requires Compacted(p, st, latest) && NamesApart(p, names) && latest.Keys <= names
    requires Entry(p, key, v).Success? && Entry(p, key, v).value.0 in names
    ensures var (name, c) := Entry(p, key, v).value;
      Compacted(p, Scratch(Bound(p, st.slots, name, c.bound), Stored(st.kept, name, c.kept)), latest[name := v])
  {
    var (name, c) := Entry(p, key, v).value;
    AcceptedAgain(p, key, v);
    StoreIsRecorded(p, st.kept, latest, name, v);
    BoundToNext(p, latest, name, v);
    StoreIsLastWrite(p, map[], st.kept, BoundTo(p, latest), name, c.kept, c.bound);
  }

  /** One bind, complete or raised part-way, keeps the scratch statement what the accepted values make of it. */
  lemma {:induction false} BindKeepsCompacted(p: Prepared, st: Scratch, latest: Latest, hash: seq<(Value, Value)>, names: set<string>)
    requires Compacted(p, st, latest) && NamesApart(p, names) && Taken(p, latest, hash).Keys <= names
    ensures Compacted(p, BindAll(p, st, hash).0, Taken(p, latest, hash))
    decreases hash
  {
    TakenGrows(p, latest, hash);
    if hash != [] && Entry(p, hash[0].0, hash[0].1).Success? {
      var (name, c) := Entry(p, hash[0].0, hash[0].1).value;
      var latest' := latest[name := hash[0].1];
      TakenGrows(p, latest', hash[1..]);
      assert name in latest';
      OneBindKeepsCompacted(p, st, latest, names, hash[0].0, hash[0].1);
      BindKeepsCompacted(p, Scratch(Bound(p, st.slots, name, c.bound), Stored(st.kept, name, c.kept)), latest', hash[1..], names);
    }
  }

  lemma {:induction false} RunsKeepCompacted(p: Prepared, st: Scratch, latest: Latest, hashes: seq<seq<(Value, Value)>>, names: set<string>)
    requires Compacted(p, st, latest) && NamesApart(p, names) && TakenRuns(p, latest, hashes).Keys <= names
    ensures Compacted(p, BindRuns(p, st, hashes), TakenRuns(p, latest, hashes))
    decreases hashes
  {
    if hashes != [] {
      TakenRunsGrow(p, Taken(p, latest, hashes[0]), hashes[1..]);
      BindKeepsCompacted(p, st, latest, hashes[0], names);
      RunsKeepCompacted(p, BindAll(p, st, hashes[0]).0, Taken(p, latest, hashes[0]), hashes[1..], names);
    }
  }

  const BLANK_SCRATCH := Scratch(map[], [])

  lemma BlankIsCompacted(p: Prepared)
    ensures Compacted(p, BLANK_SCRATCH, map[])
  {
    assert Names([]) == [];
  }

  // ---- validate once, replay always ----

  /** Every last accepted value is settled: only the to_time of an object bound to a timestamp column can fail this. */
  predicate AllSettled(p: Prepared, latest: Latest) {
    forall n :: n in latest ==> Settled(p, p.typeOf(n), latest[n])
  }

  /** What is kept of this value is accepted again. */
  predicate StaysAccepted(p: Prepared, name: string, v: Value) {
    AcceptedUnder(p, name, v) ==> AcceptedUnder(p, name, KeptUnder(p, name, v))
  }

  predicate SomeUnaccepted(p: Prepared, latest: Latest) {
    exists n :: n in latest && !StaysAccepted(p, n, latest[n])
  }

  lemma SpoiltAt(p: Prepared, kept: Kept, latest: Latest, i: nat)
    requires Recorded(p, kept, latest) && i < |kept|
    ensures Spoilt(p, kept, i) <==> !StaysAccepted(p, kept[i].0, latest[kept[i].0])
  {
  }

  lemma PlaceOf(kept: Kept, n: string) returns (i: nat)
    requires n in Names(kept)
    ensures i < |kept| && kept[i].0 == n
  {
    i :| i < |kept| && Names(kept)[i] == n;
  }

  lemma SpoiltIff(p: Prepared, kept: Kept, latest: Latest)
    requires Recorded(p, kept, latest)
    ensures (exists i: nat :: i < |kept| && Spoilt(p, kept, i)) <==> SomeUnaccepted(p, latest)
  {
    if i: nat :| i < |kept| && Spoilt(p, kept, i) {
      SpoiltAt(p, kept, latest, i);
    }
    if n :| n in latest && !StaysAccepted(p, n, latest[n]) {
      var i := PlaceOf(kept, n);
      SpoiltAt(p, kept, latest, i);
    }
  }

  /**
   Whatever was bound, and whatever the names resolve to: a replay raises if and only if,
   under some name, what was kept of the last accepted value is not accepted again.
   */
  lemma ReplayRaisesIffLastUnaccepted(p: Prepared, slots: Slots, hashes: seq<seq<(Value, Value)>>)
    ensures Replay(p, slots, BindRuns(p, BLANK_SCRATCH, hashes).kept).1.Some? <==> SomeUnaccepted(p, TakenRuns(p, map[], hashes))
  {
    BlankIsCompacted(p);
    RunsKeepRecorded(p, BLANK_SCRATCH, map[], hashes);
    ReplayRaisesIff(p, slots, BindRuns(p, BLANK_SCRATCH, hashes).kept);
    SpoiltIff(p, BindRuns(p, BLANK_SCRATCH, hashes).kept, TakenRuns(p, map[], hashes));
  }

  lemma SettledReplays(p: Prepared, kept: Kept, latest: Latest)
    requires Recorded(p, kept, latest)
    ensures forall i :: 0 <= i < |kept| ==>
              (Settled(p, p.typeOf(kept[i].0), latest[kept[i].0]) <==> Replays(p, kept[i], BoundTo(p, latest)[kept[i].0]))
  {
    forall i | 0 <= i < |kept|
      ensures Settled(p, p.typeOf(kept[i].0), latest[kept[i].0]) <==> Replays(p, kept[i], BoundTo(p, latest)[kept[i].0])
    {
      KeptEntryReplays(p, Str(kept[i].0), latest[kept[i].0]);
    }
  }

  /**
   Validate once, replay always. After any binds, raised ones included, and for any names,
   aliases included: if the last values accepted are settled, a replay raises nothing, and
   each name is bound to the value that its last accepted entry was bound to.
   */
  lemma ReplayNeverRaises(p: Prepared, slots: Slots, hashes: seq<seq<(Value, Value)>>)
    requires AllSettled(p, TakenRuns(p, map[], hashes))
    ensures var kept, latest := BindRuns(p, BLANK_SCRATCH, hashes).kept, TakenRuns(p, map[], hashes);
      && Recorded(p, kept, latest)
      && AllReplay(p, kept, BoundTo(p, latest))
      && Replay(p, slots, kept) == (Image(p, slots, Names(kept), BoundTo(p, latest)), None)
  {
    var kept, latest := BindRuns(p, BLANK_SCRATCH, hashes).kept, TakenRuns(p, map[], hashes);
    BlankIsCompacted(p);
    RunsKeepRecorded(p, BLANK_SCRATCH, map[], hashes);
    SettledReplays(p, kept, latest);
    SoundReplay(p, slots, kept, BoundTo(p, latest));
  }

  /** What each name is bound to by a replay that raises nothing. */
  function ReplayedTo(p: Prepared, kept: Kept): Bindings
    requires forall i: nat :: i < |kept| ==> !Spoilt(p, kept, i)
    decreases kept
  {
    if kept == [] then map[]
    else
      assert !Spoilt(p, kept, 0);
      assert forall i: nat :: i < |kept[1..]| ==> (Spoilt(p, kept[1..], i) <==> Spoilt(p, kept, i + 1));
      ReplayedTo(p, kept[1..])[kept[0].0 := Entry(p, Str(kept[0].0), kept[0].1).value.1.bound]
  }

  lemma {:induction false} ReplayedToReplays(p: Prepared, kept: Kept)
    requires NamesOnce(kept) && forall i: nat :: i < |kept| ==> !Spoilt(p, kept, i)
    ensures AllReplay(p, kept, ReplayedTo(p, kept))
    decreases kept
  {
    if kept != [] {
      var rest := kept[1..];
      assert kept == [kept[0]] + rest;
      NamesOnceFrom(kept[0], rest);
      assert !Spoilt(p, kept, 0);
      assert forall i: nat :: i < |rest| ==> (Spoilt(p, rest, i) <==> Spoilt(p, kept, i + 1));
      ReplayedToReplays(p, rest);
      forall i | 0 <= i < |kept| ensures kept[i].0 in ReplayedTo(p, kept) && Replays(p, kept[i], ReplayedTo(p, kept)[kept[i].0]) {
        if i > 0 {
          assert kept[i] == rest[i - 1] && Names(rest)[i - 1] == kept[i].0;
        }
      }
    }
  }

  /** Two bindings of names that do not alias, different on one of them, have different images. */
  lemma ImagesDiffer(p: Prepared, names: seq<string>, bs: Bindings, cs: Bindings, n: string)
    requires n in names && p.columns(n) != {}
    requires forall m :: m in names ==> m in bs && m in cs && (m != n ==> p.columns(m) !! p.columns(n))
    requires bs[n] != cs[n]
    ensures Image(p, map[], names, bs) != Image(p, map[], names, cs)
  {
    var c :| c in p.columns(n);
    ImageAt(p, map[], names, bs, n, c);
    ImageAt(p, map[], names, cs, n, c);
  }

  /** If some last value is not settled, the replay raises or gives something else. */
  lemma UnsettledReplaysWrong(p: Prepared, st: Scratch, latest: Latest, n: string)
    requires Compacted(p, st, latest) && NamesApart(p, latest.Keys) && n in latest && !Settled(p, p.typeOf(n), latest[n])
    ensures Replay(p, map[], st.kept) != (st.slots, None)
  {
    ReplayRaisesIff(p, map[], st.kept);
    if Replay(p, map[], st.kept).1 == None {
      var bs, cs := ReplayedTo(p, st.kept), BoundTo(p, latest);
      ReplayedToReplays(p, st.kept);
      SoundReplay(p, map[], st.kept, bs);
      SettledReplays(p, st.kept, latest);
      var i := PlaceOf(st.kept, n);
      assert Replays(p, st.kept[i], bs[n]) && !Replays(p, st.kept[i], cs[n]);
      ImagesDiffer(p, Names(st.kept), bs, cs, n);
    }
  }

  /**
   Log compaction, exactly. After any sequence of binds, raised ones included, over names
   that do not alias: replaying the hash into a fresh statement raises nothing and gives
   exactly the bindings of the scratch statement, null and unset kept apart, if and only
   if the last value accepted under each name is settled.
   */
  lemma LogCompaction(p: Prepared, hashes: seq<seq<(Value, Value)>>)
    requires NamesApart(p, TakenRuns(p, map[], hashes).Keys)
    ensures var st := BindRuns(p, BLANK_SCRATCH, hashes);
      Replay(p, map[], st.kept) == (st.slots, None) <==> AllSettled(p, TakenRuns(p, map[], hashes))
  {
    var st, latest := BindRuns(p, BLANK_SCRATCH, hashes), TakenRuns(p, map[], hashes);
    BlankIsCompacted(p);
    RunsKeepCompacted(p, BLANK_SCRATCH, map[], hashes, latest.Keys);
    if AllSettled(p, latest) {
      ReplayNeverRaises(p, map[], hashes);
    } else {
      var n :| n in latest && !Settled(p, p.typeOf(n), latest[n]);
      UnsettledReplaysWrong(p, st, latest, n);
    }
  }

  // ---- until the key is bound again ----

  /** This bind accepts nothing under the name. */
  predicate LeavesName(p: Prepared, name: string, hash: seq<(Value, Value)>)
    decreases hash
  {
    hash == [] ||
    match Entry(p, hash[0].0, hash[0].1)
    case Failure(_) => true
    case Success((n, _)) => n != name && LeavesName(p, name, hash[1..])
  }

  lemma {:induction false} TakenLeaves(p: Prepared, latest: Latest, name: string, hash: seq<(Value, Value)>)
    requires name in latest && LeavesName(p, name, hash)
    ensures name in Taken(p, latest, hash) && Taken(p, latest, hash)[name] == latest[name]
    decreases hash
  {
    if hash != [] && Entry(p, hash[0].0, hash[0].1).Success? {
      TakenLeaves(p, latest[Entry(p, hash[0].0, hash[0].1).value.0 := hash[0].1], name, hash[1..]);
    }
  }

  lemma {:induction false} TakenRunsLeave(p: Prepared, latest: Latest, name: string, hashes: seq<seq<(Value, Value)>>)
    requires name in latest && forall i :: 0 <= i < |hashes| ==> LeavesName(p, name, hashes[i])
    ensures name in TakenRuns(p, latest, hashes) && TakenRuns(p, latest, hashes)[name] == latest[name]
    decreases hashes
  {
    if hashes != [] {
      TakenLeaves(p, latest, name, hashes[0]);
      TakenRunsLeave(p, Taken(p, latest, hashes[0]), name, hashes[1..]);
    }
  }

  lemma {:induction false} TakenRunsInTwo(p: Prepared, latest: Latest, hashes: seq<seq<(Value, Value)>>, more: seq<seq<(Value, Value)>>)
    ensures TakenRuns(p, latest, hashes + more) == TakenRuns(p, TakenRuns(p, latest, hashes), more)
    decreases hashes
  {
    if hashes == [] {
      assert hashes + more == more;
    } else {
      assert (hashes + more)[1..] == hashes[1..] + more;
      TakenRunsInTwo(p, Taken(p, latest, hashes[0]), hashes[1..], more);
    }
  }

  /** An object whose to_time answers with a number. */
  predicate NumericToTime(v: Value) {
    v.Obj? && v.toTime.Some? && (v.toTime.value.Int? || v.toTime.value.Float?)
  }

  lemma NumericToTimeIsNotAccepted(p: Prepared, name: string, v: Value)
    requires AcceptedUnder(p, name, v) && p.typeOf(name).Timestamped? && NumericToTime(v)
    ensures !StaysAccepted(p, name, v) && Entry(p, Str(name), KeptUnder(p, name, v)) == Failure(TypeError)
  {
  }

  /**
   Once bind has accepted a numeric to_time for a timestamp column, every replay raises,
   through any further binds, until one accepts something under that name again.
   */
  lemma RaisesUntilBoundAgain(p: Prepared, slots: Slots, hashes: seq<seq<(Value, Value)>>, name: string, more: seq<seq<(Value, Value)>>)
    requires var latest := TakenRuns(p, map[], hashes);
      name in latest && p.typeOf(name).Timestamped? && NumericToTime(latest[name])
    requires forall i :: 0 <= i < |more| ==> LeavesName(p, name, more[i])
    ensures Replay(p, slots, BindRuns(p, BLANK_SCRATCH, hashes + more).kept).1.Some?
  {
    var latest := TakenRuns(p, map[], hashes);
    BlankIsCompacted(p);
    RunsKeepRecorded(p, BLANK_SCRATCH, map[], hashes);
    TakenRunsInTwo(p, map[], hashes, more);
    TakenRunsLeave(p, latest, name, more);
    NumericToTimeIsNotAccepted(p, name, latest[name]);
    ReplayRaisesIffLastUnaccepted(p, slots, hashes + more);
  }

  /** A symbol and a string of the same text are the same key, and a later value replaces the earlier one in place. */
  lemma SymbolsAndStringsMerge(p: Prepared, st: Scratch, s: string, v: Value, w: Value)
    requires Entry(p, Str(s), v).Success? && Entry(p, Str(s), w).Success?
    ensures BindAll(p, st, [(Sym(s), v), (Str(s), w)]) == BindAll(p, st, [(Str(s), v), (Sym(s), w)])
    ensures var kept := BindAll(p, st, [(Sym(s), v), (Str(s), w)]).0.kept;
      kept == Stored(st.kept, s, Entry(p, Str(s), w).value.1.kept)
  {
    var e, d := Entry(p, Str(s), v).value, Entry(p, Str(s), w).value;
    assert Entry(p, Sym(s), v) == Success(e) && Entry(p, Sym(s), w) == Success(d) && e.0 == s && d.0 == s;
    StoredTwice(st.kept, s, e.1.kept, d.1.kept);
    var mid := Scratch(Bound(p, st.slots, s, e.1.bound), Stored(st.kept, s, e.1.kept));
    var end := Scratch(Bound(p, mid.slots, s, d.1.bound), Stored(mid.kept, s, d.1.kept));
    assert BindAll(p, mid, [(Str(s), w)]) == BindAll(p, end, []) == (end, None);
    assert BindAll(p, mid, [(Sym(s), w)]) == BindAll(p, end, []);
    assert [(Sym(s), v), (Str(s), w)][1..] == [(Str(s), w)];
    assert [(Str(s), v), (Sym(s), w)][1..] == [(Sym(s), w)];
  }

  lemma {:induction false} StoredTwice(kept: Kept, name: string, v: Value, w: Value)
    ensures Stored(Stored(kept, name, v), name, w) == Stored(kept, name, w)
    decreases kept
  {
    if kept != [] && kept[0].0 != name {
      StoredTwice(kept[1..], name, v, w);
    }
  }

  // ---- when names do alias ----

  /** Replaying gives the scratch bindings after every sequence of binds that accepts these names only, settled in the end. */
  ghost predicate ReplaysRight(p: Prepared, names: set<string>) {
    forall hashes: seq<seq<(Value, Value)>> :: BoundWell(p, names, hashes) ==>
      var st := BindRuns(p, BLANK_SCRATCH, hashes); Replay(p, map[], st.kept) == (st.slots, None)
  }

  predicate BoundWell(p: Prepared, names: set<string>, hashes: seq<seq<(Value, Value)>>) {
    var latest := TakenRuns(p, map[], hashes); latest.Keys <= names && AllSettled(p, latest)
  }

  /** A settled value that bind accepts under this name, and what it binds. */
  predicate Accepts(p: Prepared, name: string, v: Value, b: CassValue) {
    && Entry(p, Str(name), v).Success? && Entry(p, Str(name), v).value.0 == name && Entry(p, Str(name), v).value.1.bound == b
    && Settled(p, p.typeOf(name), v)
  }

  /** Names that share a parameter accept two values that bind differently, as a parameter of any supported type does. */
  ghost predicate TakesTwoValues(p: Prepared, names: set<string>) {
    forall m, n :: m in names && n in names && m != n && p.columns(m) * p.columns(n) != {} ==>
      exists v, w, a, b :: Accepts(p, m, v, a) && Accepts(p, n, w, b) && a != b
  }

  function Single(name: string, v: Value): seq<(Value, Value)> {
    [(Str(name), v)]
  }

  lemma BindSingle(p: Prepared, st: Scratch, name: string, v: Value, b: CassValue)
    requires Accepts(p, name, v, b)
    ensures BindAll(p, st, Single(name, v))
            == (Scratch(Bound(p, st.slots, name, b), Stored(st.kept, name, Entry(p, Str(name), v).value.1.kept)), None)
  {
    assert Single(name, v)[1..] == [];
  }

  lemma KeptAsAccepted(p: Prepared, name: string, v: Value, b: CassValue)
    requires Accepts(p, name, v, b)
    ensures Replays(p, (name, Entry(p, Str(name), v).value.1.kept), b)
  {
    KeptEntryReplays(p, Str(name), v);
  }

  lemma ReplayOfTwo(p: Prepared, m: string, v: Value, a: CassValue, n: string, w: Value, b: CassValue)
    requires Replays(p, (m, v), a) && Replays(p, (n, w), b)
    ensures Replay(p, map[], [(m, v), (n, w)]) == (Bound(p, Bound(p, map[], m, a), n, b), None)
  {
    var kept := [(m, v), (n, w)];
    assert kept[1..] == [(n, w)] && kept[1..][1..] == [];
    assert Replay(p, Bound(p, map[], m, a), kept[1..]) == Replay(p, Bound(p, Bound(p, map[], m, a), n, b), []);
  }

  lemma StoredThrice(m: string, v: Value, n: string, w: Value)
    requires m != n
    ensures Stored(Stored(Stored([], m, v), n, w), m, v) == [(m, v), (n, w)]
  {
    var one, two := [(m, v)], [(m, v), (n, w)];
    assert Stored([], m, v) == one && Stored([], n, w) == [(n, w)];
    assert one[1..] == [] && Stored(one, n, w) == one + [(n, w)] == two;
    assert two[1..] == [(n, w)];
  }

  /**
   For any two names that share a parameter and any two values: bind the one, the other,
   and the one again. The scratch statement ends with the first value, which was bound
   last; the replay raises nothing and ends with the second.
   */
  lemma AliasedNamesReplayWrong(p: Prepared, m: string, n: string, v: Value, w: Value, a: CassValue, b: CassValue, c: nat)
    requires m != n && c in p.columns(m) && c in p.columns(n)
    requires Accepts(p, m, v, a) && Accepts(p, n, w, b)
    ensures var st := BindRuns(p, BLANK_SCRATCH, [Single(m, v), Single(n, w), Single(m, v)]);
      && c in st.slots && st.slots[c] == a
      && Replay(p, map[], st.kept).1 == None
      && c in Replay(p, map[], st.kept).0 && Replay(p, map[], st.kept).0[c] == b
  {
    var kv, kw := Entry(p, Str(m), v).value.1.kept, Entry(p, Str(n), w).value.1.kept;
    var s1 := BindAll(p, BLANK_SCRATCH, Single(m, v)).0;
    var s2 := BindAll(p, s1, Single(n, w)).0;
    BindSingle(p, BLANK_SCRATCH, m, v, a);
    BindSingle(p, s1, n, w, b);
    BindSingle(p, s2, m, v, a);
    RunsThree(p, BLANK_SCRATCH, Single(m, v), Single(n, w), Single(m, v));
    StoredThrice(m, kv, n, kw);
    KeptAsAccepted(p, m, v, a);
    KeptAsAccepted(p, n, w, b);
    ReplayOfTwo(p, m, kv, a, n, kw, b);
  }

  lemma RunsThree(p: Prepared, st: Scratch, b1: seq<(Value, Value)>, b2: seq<(Value, Value)>, b3: seq<(Value, Value)>)
    ensures BindRuns(p, st, [b1, b2, b3]) == BindAll(p, BindAll(p, BindAll(p, st, b1).0, b2).0, b3).0
  {
    assert [b1, b2, b3][1..] == [b2, b3] && [b2, b3][1..] == [b3] && [b3][1..] == [];
    var one := BindAll(p, st, b1).0;
    var two := BindAll(p, one, b2).0;
    assert BindRuns(p, two, [b3]) == BindRuns(p, BindAll(p, two, b3).0, []);
    assert BindRuns(p, one, [b2, b3]) == BindRuns(p, two, [b3]);
  }

  lemma AliasedNamesRefute(p: Prepared, names: set<string>, m: string, n: string)
    requires m in names && n in names && m != n && p.columns(m) * p.columns(n) != {} && TakesTwoValues(p, names)
    ensures !ReplaysRight(p, names)
  {
    var c :| c in p.columns(m) * p.columns(n);
    var v, w, a, b :| Accepts(p, m, v, a) && Accepts(p, n, w, b) && a != b;
    AliasedPairRefutes(p, names, m, n, v, w, a, b, c);
  }

  lemma TakenSingle(p: Prepared, latest: Latest, name: string, v: Value, b: CassValue)
    requires Accepts(p, name, v, b)
    ensures Taken(p, latest, Single(name, v)) == latest[name := v]
  {
    assert Single(name, v)[1..] == [];
  }

  lemma ThreeAreWell(p: Prepared, names: set<string>, m: string, n: string, v: Value, w: Value, a: CassValue, b: CassValue)
    requires m in names && n in names && m != n && Accepts(p, m, v, a) && Accepts(p, n, w, b)
    ensures BoundWell(p, names, [Single(m, v), Single(n, w), Single(m, v)])
  {
    var hashes := [Single(m, v), Single(n, w), Single(m, v)];
    assert hashes[1..] == [Single(n, w), Single(m, v)] && hashes[1..][1..] == [Single(m, v)] && hashes[1..][1..][1..] == [];
    var one, two := map[m := v], map[m := v][n := w];
    TakenSingle(p, map[], m, v, a);
    TakenSingle(p, one, n, w, b);
    TakenSingle(p, two, m, v, a);
    assert TakenRuns(p, two, [Single(m, v)]) == TakenRuns(p, two[m := v], []) == two[m := v];
    assert TakenRuns(p, one, [Single(n, w), Single(m, v)]) == two[m := v];
  }

  lemma AliasedPairRefutes(p: Prepared, names: set<string>, m: string, n: string, v: Value, w: Value, a: CassValue, b: CassValue, c: nat)
    requires m in names && n in names && m != n && c in p.columns(m) && c in p.columns(n)
    requires Accepts(p, m, v, a) && Accepts(p, n, w, b) && a != b
    ensures !ReplaysRight(p, names)
  {
    AliasedNamesReplayWrong(p, m, n, v, w, a, b, c);
    ThreeAreWell(p, names, m, n, v, w, a, b);
    OneRunRefutes(p, names, [Single(m, v), Single(n, w), Single(m, v)]);
  }

  lemma OneRunRefutes(p: Prepared, names: set<string>, hashes: seq<seq<(Value, Value)>>)
    requires BoundWell(p, names, hashes)
    requires var st := BindRuns(p, BLANK_SCRATCH, hashes); Replay(p, map[], st.kept).0 != st.slots
    ensures !ReplaysRight(p, names)
  {
  }

  lemma NothingInCommon(x: set<nat>, y: set<nat>)
    ensures x !! y <==> x * y == {}
  {
    assert x * y == {} ==> forall c :: c in x ==> c !in x * y;
  }

  /**
   The exact condition: executions send what the scratch statement holds after all binds
   over these names, if and only if no two of the names resolve to a common parameter.
   */
  lemma ReplaysRightIffNamesApart(p: Prepared, names: set<string>)
    requires TakesTwoValues(p, names)
    ensures ReplaysRight(p, names) <==> NamesApart(p, names)
  {
    if NamesApart(p, names) {
      forall hashes: seq<seq<(Value, Value)>> | BoundWell(p, names, hashes)
        ensures var st := BindRuns(p, BLANK_SCRATCH, hashes); Replay(p, map[], st.kept) == (st.slots, None)
      {
        LogCompaction(p, hashes);
      }
    } else {
      var m, n :| m in names && n in names && m != n && !(p.columns(m) !! p.columns(n));
      NothingInCommon(p.columns(m), p.columns(n));
      AliasedNamesRefute(p, names, m, n);
    }
  }

  /** One integer parameter, which both "id" and "ID" resolve to: names are not case-sensitive to the driver. */
  function Aliased(): Prepared {
    Prepared(n => if n == "id" || n == "ID" then {0} else {}, _ => Int32, (_, _) => true,
             x => x, x => x, x => x, _ => 0, _ => None, _ => None)
  }

  /** For example bind(id: 1), bind(ID: 2), bind(id: 1): executions send 2. */
  lemma CaseReplaysWrong()
    ensures !ReplaysRight(Aliased(), {"id", "ID"})
  {
    var p := Aliased();
    assert Accepts(p, "id", Int(1), Integer(32, 1)) && Accepts(p, "ID", Int(2), Integer(32, 2));
    AliasedPairRefutes(p, {"id", "ID"}, "id", "ID", Int(1), Int(2), Integer(32, 1), Integer(32, 2), 0);
  }
}
