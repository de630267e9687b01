/**
 Rows read back: result_convert_row (result.c:90-202) turns the cells of a row into a
 Ruby hash, and gives back what Statement#bind was given.
 */
module Rows {
  import opened Prelude
  import opened BindValues
  import opened BindLog
  import Timestamp

  /** A value with the name and type of its column. */
  datatype Cell = Cell(name: string, columnType: ColumnType, value: CassValue)

  type Row = seq<Cell>

  /** A Time of seconds and microseconds. */
  function FromTime(t: Timestamp.RubyTime): Value {
    Time(t.seconds as real + t.micros as real / 1000000.0)
  }

  /** One round of the loop: the type switch on a cell; a value that the driver cannot decode raises. */
  function Decode(uuidText: int -> string, t: ColumnType, v: CassValue): Result<Value, Exception> {
    if v.Null? then Success(Nil) else
    match (t, v)
    case (TinyInt, Integer(_, i)) => Success(Int(i))
    case (SmallInt, Integer(_, i)) => Success(Int(i))
    case (Int32, Integer(_, i)) => Success(Int(i))
    case (BigInt, Integer(_, i)) => Success(Int(i))
    case (Float32, Float32Value(d)) => Success(Float(d))
    case (Double64, DoubleValue(d)) => Success(Float(d))
    case (Boolean, BoolValue(b)) => Success(Bool(b))
    case (Text, TextValue(s)) => Success(Str(s))
    case (Timestamped, Integer(_, i)) => Success(FromTime(Timestamp.ReadTime(i)))
    case (Uuid, UuidValue(u)) => Success(Str(uuidText(u)))
    case (Unsupported, _) => Success(Sym("unsupported_column_type"))
    case _ => Failure(ExecutionError)
  }

  /**
   What a cell reads as: nil if it is null, whatever its type; the symbol for unsupported
   types; an exception if the driver cannot decode it; else the value of the column's kind.
   */
  lemma CellReads(uuidText: int -> string, t: ColumnType, v: CassValue)
    ensures Decode(uuidText, t, Null) == Success(Nil)
    ensures !v.Null? ==> Decode(uuidText, Unsupported, v) == Success(Sym("unsupported_column_type"))
    ensures !t.Unsupported? ==> Decode(uuidText, t, Undecodable) == Failure(ExecutionError)
    ensures v.Integer? && (t.TinyInt? || t.SmallInt? || t.Int32? || t.BigInt?) ==> Decode(uuidText, t, v) == Success(Int(v.i))
    ensures v.Integer? ==> Decode(uuidText, Timestamped, v) == Success(Time(v.i as real / 1000.0))
    ensures v.Float32Value? ==> Decode(uuidText, Float32, v) == Success(Float(v.d))
    ensures v.DoubleValue? ==> Decode(uuidText, Double64, v) == Success(Float(v.d))
    ensures v.BoolValue? ==> Decode(uuidText, Boolean, v) == Success(Bool(v.b))
    ensures v.TextValue? ==> Decode(uuidText, Text, v) == Success(Str(v.s))
    ensures v.UuidValue? ==> Decode(uuidText, Uuid, v) == Success(Str(uuidText(v.u)))
  {
    if v.Integer? {
      InstantReads(v.i);
    }
  }

  /** The hash of the first n cells, or the exception of the first cell that raises. */
  function RowHash(uuidText: int -> string, row: Row, n: nat): Result<map<string, Value>, Exception>
    requires n <= |row|
    decreases n
  {
    if n == 0 then Success(map[])
    else
      match RowHash(uuidText, row, n - 1)
      case Failure(e) => Failure(e)
      case Success(hash) =>
        match Decode(uuidText, row[n - 1].columnType, row[n - 1].value)
        case Failure(e) => Failure(e)
        case Success(v) => Success(hash[row[n - 1].name := v])
  }

  /** result_convert_row, with its loop over the columns. */
  method ConvertRow(uuidText: int -> string, row: Row) returns (r: Result<map<string, Value>, Exception>)
    ensures r == RowHash(uuidText, row, |row|)
    ensures r.Failure? <==> exists i :: 0 <= i < |row| && Decode(uuidText, row[i].columnType, row[i].value).Failure?
    ensures r.Success? && NamesDiffer(row) ==>
              && r.value.Keys == NamesOf(row, |row|)
              && forall i :: 0 <= i < |row| ==> Success(r.value[row[i].name]) == Decode(uuidText, row[i].columnType, row[i].value)
  {
    var hash: map<string, Value> := map[];
    for i := 0 to |row|
      invariant RowHash(uuidText, row, i) == Success(hash)
    {
      var v := Decode(uuidText, row[i].columnType, row[i].value);
      if v.Failure? {
        RowFails(uuidText, row, i + 1, |row|);
        RowMeaning(uuidText, row, |row|);
        return Failure(v.error);
      }
      hash := hash[row[i].name := v.value];
    }
    RowMeaning(uuidText, row, |row|);
    r := Success(hash);
  }

  /** The column names of the first n cells. */
  function NamesOf(row: Row, n: nat): set<string>
    requires n <= |row|
  {
    set i | 0 <= i < n :: row[i].name
  }

  predicate NamesDiffer(row: Row) {
    forall i, j :: 0 <= i < j < |row| ==> row[i].name != row[j].name
  }

  lemma {:induction false} RowFails(uuidText: int -> string, row: Row, k: nat, n: nat)
    requires k <= n <= |row| && RowHash(uuidText, row, k).Failure?
    ensures RowHash(uuidText, row, n) == RowHash(uuidText, row, k)
    decreases n
  {
    if k < n {
      RowFails(uuidText, row, k, n - 1);
    }
  }

  /** A row raises exactly if one of its cells does; otherwise every column of a name of its own is there with its value. */
  lemma {:induction false} RowMeaning(uuidText: int -> string, row: Row, n: nat)
    requires n <= |row|
    ensures RowHash(uuidText, row, n).Failure? <==> exists i :: 0 <= i < n && Decode(uuidText, row[i].columnType, row[i].value).Failure?
    ensures RowHash(uuidText, row, n).Success? ==>
              && RowHash(uuidText, row, n).value.Keys == NamesOf(row, n)
              && (NamesDiffer(row) ==> forall i :: 0 <= i < n ==>
                    Success(RowHash(uuidText, row, n).value[row[i].name]) == Decode(uuidText, row[i].columnType, row[i].value))
    decreases n
  {
    if n > 0 {
      RowMeaning(uuidText, row, n - 1);
      OneNameMore(row, n);
    }
  }

  lemma OneNameMore(row: Row, n: nat)
    requires 0 < n <= |row|
    ensures NamesOf(row, n) == NamesOf(row, n - 1) + {row[n - 1].name}
  {
  }

  // ---- what was bound is what is read ----

  predicate IntegerFits(t: ColumnType, i: int) {
    || (t.TinyInt? && -0x80 <= i < 0x80) || (t.SmallInt? && -0x8000 <= i < 0x8000)
    || (t.Int32? && -0x8000_0000 <= i < 0x8000_0000) || (t.BigInt? && -0x8000_0000_0000_0000 <= i < 0x8000_0000_0000_0000)
  }

  predicate FloatFits(t: ColumnType, d: Double) {
    t.Double64? || (t.Float32? && (d.Finite? ==> -LARGEST_FLOAT <= d.r <= LARGEST_FLOAT))
  }

  predicate TextFits(p: Prepared, t: ColumnType, s: string) {
    '\0' !in s && (t.Text? || (t.Uuid? && p.parseUuid(s).Some?))
  }

  /**
   The column type can hold the value, or something that the value converts to. Any column
   holds null; a boolean column takes anything, for its truth.
   */
  predicate Holds(p: Prepared, t: ColumnType, v: Value) {
    v.Nil? || t.Boolean? ||
    match v
    case Int(i) => IntegerFits(t, i) || FloatFits(t, Finite(p.rnd(i as real)))
    case Float(d) => FloatFits(t, d) || (d.Finite? && IntegerFits(t, Timestamp.Trunc(d.r)))
    case Str(s) => TextFits(p, t, s)
    case Time(_) => t.Timestamped?
    case Obj(numeric, toStr, toInt, toFloat, toTime) =>
      || (toInt.Some? && IntegerFits(t, toInt.value))
      || (numeric && toFloat.Some? && FloatFits(t, Finite(p.rnd(toFloat.value))))
      || (toStr.Some? && TextFits(p, t, toStr.value))
      || (t.Timestamped? && toTime.Some? && SecondsFrom(p, toTime.value).Some?)
    case _ => false
  }

  // ---- what a value stands for ----

  function IntegerOf(v: Value): Option<int> {
    match v
    case Int(i) => Some(i)
    case Float(Finite(r)) => Some(Timestamp.Trunc(r))
    case Obj(_, _, toInt, _, _) => toInt
    case _ => None
  }

  function DoubleOf(p: Prepared, v: Value): Option<Double> {
    match v
    case Int(i) => Some(Finite(p.rnd(i as real)))
    case Float(d) => Some(d)
    case Obj(true, _, _, Some(r), _) => Some(Finite(p.rnd(r)))
    case _ => None
  }

  function TextOf(v: Value): Option<string> {
    match v
    case Str(s) => Some(s)
    case Obj(_, toStr, _, _, _) => toStr
    case _ => None
  }

  /** Seconds since the epoch, of a value that to_time answered with: a Time, a number, or a text or object that Float() takes. */
  function SecondsFrom(p: Prepared, w: Value): Option<Double> {
    match w
    case Time(seconds) => Some(Finite(p.toF(seconds)))
    case Int(i) => Some(Finite(p.rnd(i as real)))
    case Float(d) => Some(d)
    case Str(s) => if p.parseFloat(s).Some? then Some(Finite(p.rnd(p.parseFloat(s).value))) else None
    case Obj(_, _, _, toFloat, _) => if toFloat.Some? then Some(Finite(p.rnd(toFloat.value))) else None
    case _ => None
  }

  function SecondsOf(p: Prepared, v: Value): Option<Double> {
    match v
    case Time(seconds) => Some(Finite(p.toF(seconds)))
    case Obj(_, _, _, _, Some(w)) => SecondsFrom(p, w)
    case _ => None
  }

  /** The milliseconds of a double of seconds, if they fit 64 bits; otherwise what the platform's cast gives. */
  function MillisFrom(p: Prepared, d: Double): int {
    if d.Finite? && Timestamp.Int64(Timestamp.Trunc(p.rnd(d.r * 1000.0))) then Timestamp.Trunc(p.rnd(d.r * 1000.0)) else p.wildCast(d)
  }

  /** What the column gives back. */
  function ReadBack(p: Prepared, uuidText: int -> string, t: ColumnType, v: Value): Value
    requires Holds(p, t, v)
  {
    if v.Nil? then Nil else
    match t
    case Float32 => Float(var d := DoubleOf(p, v).value; if d.Finite? then Finite(p.narrow(d.r)) else d)
    case Double64 => Float(DoubleOf(p, v).value)
    case Boolean => Bool(v != Bool(false))
    case Text => Str(TextOf(v).value)
    case Timestamped => Time(MillisFrom(p, SecondsOf(p, v).value) as real / 1000.0)
    case Uuid => Str(uuidText(p.parseUuid(TextOf(v).value).value))
    case _ => Int(IntegerOf(v).value)
  }

  /** A timestamp cell reads back as the instant stored. */
  lemma InstantReads(ms: int)
    ensures FromTime(Timestamp.ReadTime(ms)) == Time(ms as real / 1000.0)
  {
    var t := Timestamp.ReadTime(ms);
    Timestamp.ReadInstant(ms);
    assert t.seconds * 1_000_000 + t.micros == ms * 1000;
    assert (t.seconds as real) * 1000000.0 + t.micros as real == (ms as real) * 1000.0;
  }

  /** A value is converted exactly if the column can hold it, and decoding gives back what it stands for. */
  ghost predicate RoundTrips(p: Prepared, uuidText: int -> string, t: ColumnType, v: Value) {
    && (Convert(p, t, v).Success? <==> Holds(p, t, v))
    && (Holds(p, t, v) ==> Decode(uuidText, t, Convert(p, t, v).value.bound) == Success(ReadBack(p, uuidText, t, v)))
  }

  lemma IntegerRoundTrips(p: Prepared, uuidText: int -> string, t: ColumnType, v: Value)
    requires t.TinyInt? || t.SmallInt? || t.Int32? || t.BigInt?
    ensures RoundTrips(p, uuidText, t, v)
  {
  }

  lemma FloatRoundTrips(p: Prepared, uuidText: int -> string, t: ColumnType, v: Value)
    requires t.Float32? || t.Double64?
    ensures RoundTrips(p, uuidText, t, v)
  {
  }

  lemma TextRoundTrips(p: Prepared, uuidText: int -> string, t: ColumnType, v: Value)
    requires t.Text? || t.Uuid?
    ensures RoundTrips(p, uuidText, t, v)
  {
  }

  lemma InstantRoundTrips(p: Prepared, uuidText: int -> string, v: Value)
    ensures RoundTrips(p, uuidText, Timestamped, v)
  {
    if Holds(p, Timestamped, v) && !v.Nil? {
      InstantReads(MillisFrom(p, SecondsOf(p, v).value));
    }
  }

  /** Every value, for every column type. */
  lemma ValueRoundTrip(p: Prepared, uuidText: int -> string, t: ColumnType, v: Value)
    ensures RoundTrips(p, uuidText, t, v)
  {
    match t
    case Float32 | Double64 => FloatRoundTrips(p, uuidText, t, v);
    case Text | Uuid => TextRoundTrips(p, uuidText, t, v);
    case Timestamped => InstantRoundTrips(p, uuidText, v);
    case Boolean | Unsupported =>
    case _ => IntegerRoundTrips(p, uuidText, t, v);
  }

  /**
   A value of the column's own kind is given back as it is: integers, booleans, text, and
   floats, these in a float column if they are floats already; a UUID if its text is the
   one the driver writes; and a Time of whole seconds. Any other Time, of milliseconds, is
   given back as it was stored.
   */
  lemma OwnKindReadsBack(p: Prepared, uuidText: int -> string, t: ColumnType, v: Value)
    requires Holds(p, t, v)
    ensures var r := ReadBack(p, uuidText, t, v);
      && (v.Nil? ==> r == v)
      && (v.Int? && (t.TinyInt? || t.SmallInt? || t.Int32? || t.BigInt?) ==> r == v)
      && (v.Bool? && t.Boolean? ==> r == v)
      && (v.Str? && t.Text? ==> r == v)
      && (v.Str? && t.Uuid? && uuidText(p.parseUuid(v.s).value) == v.s ==> r == v)
      && (v.Float? && t.Double64? ==> r == v)
      && (v.Float? && t.Float32? && (v.d.Finite? ==> p.narrow(v.d.r) == v.d.r) ==> r == v)
  {
  }

  /** Columns with names and types of their own, one parameter each; the driver takes every value that is converted for them. */
  ghost predicate Table(p: Prepared, columns: seq<(string, ColumnType)>) {
    && (forall i :: 0 <= i < |columns| ==>
          && p.columns(columns[i].0) == {i} && p.typeOf(columns[i].0) == columns[i].1 && '\0' !in columns[i].0
          && forall v :: p.accepts(columns[i].0, v))
    && forall i, j :: 0 <= i < j < |columns| ==> columns[i].0 != columns[j].0
  }

  /** The hash { name => value } from column k on, as bind is given it. */
  function Given(columns: seq<(string, ColumnType)>, values: seq<Value>, k: nat): seq<(Value, Value)>
    requires k <= |columns| == |values|
    decreases |columns| - k
  {
    if k == |columns| then [] else [(Str(columns[k].0), values[k])] + Given(columns, values, k + 1)
  }

  /** The row that an INSERT of all columns with these parameters stores; an unset parameter leaves no value. */
  function StoredRow(columns: seq<(string, ColumnType)>, slots: Slots): Row {
    seq(|columns|, i requires 0 <= i < |columns| => Cell(columns[i].0, columns[i].1, if i in slots then slots[i] else Null))
  }

  function ColumnNames(columns: seq<(string, ColumnType)>): set<string> {
    set i | 0 <= i < |columns| :: columns[i].0
  }

  /** An entry of the hash is taken exactly if the column can hold the value. */
  lemma EntryGiven(p: Prepared, columns: seq<(string, ColumnType)>, k: nat, v: Value)
    requires Table(p, columns) && k < |columns|
    ensures Entry(p, Str(columns[k].0), v) == if Holds(p, columns[k].1, v) then Success((columns[k].0, Convert(p, columns[k].1, v).value))
                                              else Failure(Convert(p, columns[k].1, v).error)
    ensures Holds(p, columns[k].1, v) <==> Convert(p, columns[k].1, v).Success?
  {
    ValueRoundTrip(p, _ => "", columns[k].1, v);
  }

  lemma BoundOne(p: Prepared, columns: seq<(string, ColumnType)>, k: nat, slots: Slots, v: CassValue)
    requires Table(p, columns) && k < |columns|
    ensures Bound(p, slots, columns[k].0, v) == slots[k := v]
  {
    assert p.columns(columns[k].0) == {k};
  }

  /** From column k on, parameter i has value i; before that nothing has changed. */
  ghost predicate BoundFrom(p: Prepared, columns: seq<(string, ColumnType)>, values: seq<Value>, k: nat, before: Slots, after: Slots)
    requires |columns| == |values|
  {
    && (forall i: nat :: i < k && i in before ==> i in after && after[i] == before[i])
    && (forall i :: k <= i < |columns| ==> i in after && Success(after[i]) == BoundOf(p, columns[i].1, values[i]))
  }

  /** The scratch statement and the hash after the entry of column k. */
  function GivenNext(p: Prepared, columns: seq<(string, ColumnType)>, values: seq<Value>, k: nat, st: Scratch): Scratch
    requires k < |columns| == |values| && Convert(p, columns[k].1, values[k]).Success?
  {
    var c := Convert(p, columns[k].1, values[k]).value;
    Scratch(st.slots[k := c.bound], Stored(st.kept, columns[k].0, c.kept))
  }

  lemma GivenStep(p: Prepared, columns: seq<(string, ColumnType)>, values: seq<Value>, k: nat, st: Scratch)
    requires Table(p, columns) && k < |columns| == |values|
    ensures !Holds(p, columns[k].1, values[k]) ==> BindAll(p, st, Given(columns, values, k)).1.Some?
    ensures Holds(p, columns[k].1, values[k]) ==>
              && Convert(p, columns[k].1, values[k]).Success?
              && BindAll(p, st, Given(columns, values, k)) == BindAll(p, GivenNext(p, columns, values, k, st), Given(columns, values, k + 1))
  {
    var hash := Given(columns, values, k);
    assert hash[0] == (Str(columns[k].0), values[k]) && hash[1..] == Given(columns, values, k + 1);
    EntryGiven(p, columns, k, values[k]);
    if Holds(p, columns[k].1, values[k]) {
      BoundOne(p, columns, k, st.slots, Convert(p, columns[k].1, values[k]).value.bound);
    }
  }

  ghost predicate HoldFrom(p: Prepared, columns: seq<(string, ColumnType)>, values: seq<Value>, k: nat)
    requires |columns| == |values|
  {
    forall i :: k <= i < |columns| ==> Holds(p, columns[i].1, values[i])
  }

  lemma BoundFromBefore(p: Prepared, columns: seq<(string, ColumnType)>, values: seq<Value>, k: nat, before: Slots, after: Slots)
    requires k < |columns| == |values| && BoundOf(p, columns[k].1, values[k]).Success?
    requires BoundFrom(p, columns, values, k + 1, before[k := BoundOf(p, columns[k].1, values[k]).value], after)
    ensures BoundFrom(p, columns, values, k, before, after)
  {
    var b := BoundOf(p, columns[k].1, values[k]).value;
    assert before[k := b][k] == b;
    forall i: nat | i < k && i in before ensures i in after && after[i] == before[i] {
      assert before[k := b][i] == before[i];
    }
  }

  /** From column k on: if every column can hold its value, bind binds them all. */
  lemma {:induction false} BindsThrough(p: Prepared, columns: seq<(string, ColumnType)>, values: seq<Value>, k: nat, st: Scratch)
    requires Table(p, columns) && k <= |columns| == |values| && HoldFrom(p, columns, values, k)
    ensures BindAll(p, st, Given(columns, values, k)).1 == None
    ensures BoundFrom(p, columns, values, k, st.slots, BindAll(p, st, Given(columns, values, k)).0.slots)
    decreases |columns| - k
  {
    if k < |columns| {
      assert Holds(p, columns[k].1, values[k]);
      GivenStep(p, columns, values, k, st);
      var next := GivenNext(p, columns, values, k, st);
      BindsThrough(p, columns, values, k + 1, next);
      BoundFromBefore(p, columns, values, k, st.slots, BindAll(p, next, Given(columns, values, k + 1)).0.slots);
    }
  }

  /** If column i cannot hold its value, it raises. */
  lemma {:induction false} BindRaises(p: Prepared, columns: seq<(string, ColumnType)>, values: seq<Value>, k: nat, i: nat, st: Scratch)
    requires Table(p, columns) && k <= i < |columns| == |values| && !Holds(p, columns[i].1, values[i])
    ensures BindAll(p, st, Given(columns, values, k)).1.Some?
    decreases |columns| - k
  {
    GivenStep(p, columns, values, k, st);
    if Holds(p, columns[k].1, values[k]) {
      BindRaises(p, columns, values, k + 1, i, GivenNext(p, columns, values, k, st));
    }
  }

  function BoundOf(p: Prepared, t: ColumnType, v: Value): Result<CassValue, Exception> {
    match Convert(p, t, v)
    case Failure(e) => Failure(e)
    case Success(c) => Success(c.bound)
  }

  lemma StoredCellReads(p: Prepared, uuidText: int -> string, columns: seq<(string, ColumnType)>, values: seq<Value>, slots: Slots, i: nat)
    requires i < |columns| == |values| && HoldFrom(p, columns, values, 0)
    requires BoundFrom(p, columns, values, 0, map[], slots)
    ensures Decode(uuidText, columns[i].1, StoredRow(columns, slots)[i].value) == Success(ReadBack(p, uuidText, columns[i].1, values[i]))
  {
    assert Holds(p, columns[i].1, values[i]);
    ValueRoundTrip(p, uuidText, columns[i].1, values[i]);
  }

  lemma StoredCellsRead(p: Prepared, uuidText: int -> string, columns: seq<(string, ColumnType)>, values: seq<Value>, slots: Slots)
    requires |columns| == |values| && HoldFrom(p, columns, values, 0)
    requires BoundFrom(p, columns, values, 0, map[], slots)
    ensures forall i :: 0 <= i < |columns| ==>
              Decode(uuidText, columns[i].1, StoredRow(columns, slots)[i].value) == Success(ReadBack(p, uuidText, columns[i].1, values[i]))
  {
    forall i: nat | i < |columns|
      ensures Decode(uuidText, columns[i].1, StoredRow(columns, slots)[i].value) == Success(ReadBack(p, uuidText, columns[i].1, values[i]))
    {
      StoredCellReads(p, uuidText, columns, values, slots, i);
    }
  }

  lemma StoredRowNames(columns: seq<(string, ColumnType)>, slots: Slots)
    ensures NamesOf(StoredRow(columns, slots), |columns|) == ColumnNames(columns)
  {
    var row := StoredRow(columns, slots);
    assert forall i :: 0 <= i < |columns| ==> row[i].name == columns[i].0;
  }

  lemma StoredRowReads(p: Prepared, uuidText: int -> string, columns: seq<(string, ColumnType)>, values: seq<Value>, slots: Slots)
    requires |columns| == |values| && HoldFrom(p, columns, values, 0)
    requires BoundFrom(p, columns, values, 0, map[], slots)
    requires forall i, j :: 0 <= i < j < |columns| ==> columns[i].0 != columns[j].0
    ensures var r := RowHash(uuidText, StoredRow(columns, slots), |columns|);
      && r.Success? && r.value.Keys == ColumnNames(columns)
      && forall i :: 0 <= i < |columns| ==> r.value[columns[i].0] == ReadBack(p, uuidText, columns[i].1, values[i])
  {
    StoredCellsRead(p, uuidText, columns, values, slots);
    RowMeaning(uuidText, StoredRow(columns, slots), |columns|);
    StoredRowNames(columns, slots);
  }

  /**
   For every table, whatever its column types, and every row of values: bind takes a hash of
   all columns exactly if each column can hold its value, and the row stored then reads back
   as a hash of exactly the columns, each with what its value stands for.
   */
  lemma TypedRoundTrip(p: Prepared, uuidText: int -> string, columns: seq<(string, ColumnType)>, values: seq<Value>)
    requires Table(p, columns) && |columns| == |values|
    ensures var (after, e) := BindAll(p, Scratch(map[], []), Given(columns, values, 0));
      && (e == None <==> HoldFrom(p, columns, values, 0))
      && (e == None ==>
            var r := RowHash(uuidText, StoredRow(columns, after.slots), |columns|);
            && r.Success? && r.value.Keys == ColumnNames(columns)
            && forall i :: 0 <= i < |columns| ==> r.value[columns[i].0] == ReadBack(p, uuidText, columns[i].1, values[i]))
  {
    var (after, e) := BindAll(p, Scratch(map[], []), Given(columns, values, 0));
    if !HoldFrom(p, columns, values, 0) {
      var i: nat :| i < |columns| && !Holds(p, columns[i].1, values[i]);
      BindRaises(p, columns, values, 0, i, Scratch(map[], []));
    } else {
      BindsThrough(p, columns, values, 0, Scratch(map[], []));
      StoredRowReads(p, uuidText, columns, values, after.slots);
    }
  }

  /** A timestamp column gives back the instant that was stored, to the millisecond, for every 64-bit value. */
  lemma TimestampReads(uuidText: int -> string, ms: int)
    requires Timestamp.Int64(ms)
    ensures Decode(uuidText, Timestamped, Integer(64, ms)) == Success(Time(ms as real / 1000.0))
  {
    InstantReads(ms);
  }

  /** What is stored of a Time of whole milliseconds is what Written says, and it is read back. */
  lemma TimestampStored(p: Prepared, uuidText: int -> string, ms: int)
    requires Timestamp.Int64(Timestamp.Written(p.rnd, p.toF, ms))
    ensures var stored, t := Timestamp.Written(p.rnd, p.toF, ms), Time(ms as real / 1000.0);
      && BoundOf(p, Timestamped, t) == Success(Integer(64, stored))
      && Decode(uuidText, Timestamped, Integer(64, stored)) == Success(Time(stored as real / 1000.0))
      && ReadBack(p, uuidText, Timestamped, t) == Time(stored as real / 1000.0)
  {
    TimestampReads(uuidText, Timestamp.Written(p.rnd, p.toF, ms));
  }

  /**
   A Time of whole milliseconds, up to 2^51 of them, that is bound and read back is the
   same instant or one millisecond nearer zero, and still in the same second.
   */
  lemma TimestampRoundTrip(p: Prepared, uuidText: int -> string, ms: int)
    requires Timestamp.Rounds(p.rnd) && Timestamp.Clock(p.toF) && -Timestamp.TWO_51 <= ms <= Timestamp.TWO_51
    ensures var stored := Timestamp.Written(p.rnd, p.toF, ms);
      && BoundOf(p, Timestamped, Time(ms as real / 1000.0)) == Success(Integer(64, stored))
      && Decode(uuidText, Timestamped, Integer(64, stored)) == Success(Time(stored as real / 1000.0))
      && (ms >= 0 ==> ms - 1 <= stored <= ms) && (ms <= 0 ==> ms <= stored <= ms + 1)
      && Timestamp.SecondOf(stored) == Timestamp.SecondOf(ms) && (ms % 1000 == 0 ==> stored == ms)
      && ReadBack(p, uuidText, Timestamped, Time(ms as real / 1000.0)) == Time(stored as real / 1000.0)
  {
    Timestamp.WriteErrorBound(p.rnd, p.toF, ms);
    Timestamp.WriteStaysInSecond(p.rnd, p.toF, ms);
    TimestampStored(p, uuidText, ms);
  }

  /**
   A double column takes every float and gives it back, infinities and NaN included. A
   float column refuses exactly the finite ones beyond FLT_MAX, with RangeError, and gives
   back the others as narrowed: unchanged, if they are not finite or are floats already.
   */
  lemma FloatRoundTrip(p: Prepared, uuidText: int -> string, d: Double)
    ensures BoundOf(p, Double64, Float(d)).Success?
            && Decode(uuidText, Double64, BoundOf(p, Double64, Float(d)).value) == Success(Float(d))
    ensures var tooBig := d.Finite? && (d.r > LARGEST_FLOAT || -d.r > LARGEST_FLOAT);
      && (tooBig <==> BoundOf(p, Float32, Float(d)) == Failure(RangeError))
      && (!tooBig ==> BoundOf(p, Float32, Float(d)).Success?
                      && Decode(uuidText, Float32, BoundOf(p, Float32, Float(d)).value) == Success(Float(Narrowed(p, d))))
    ensures !d.Finite? || p.narrow(d.r) == d.r ==> Narrowed(p, d) == d
  {
  }
}
