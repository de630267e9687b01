/**
 hash_cb (statement.c:35-172) as a function: what one key and one value handed to
 Statement#bind become, for the driver and for the hash of bound values.
 */
module BindValues {
  import opened Prelude
  import Timestamp

  /** Ruby values, with the conversions that other objects may offer, numbers or not. Conversions are pure. */
  datatype Value =
    | Nil
    | Bool(b: bool)
    | Int(i: int)
    | Float(d: Double)
    | Str(s: string)
    | Sym(s: string)
    | Time(seconds: real)
    | Obj(numeric: bool, toStr: Option<string>, toInt: Option<int>, toFloat: Option<real>, toTime: Option<Value>)

  datatype Double = Finite(r: real) | Infinite(positive: bool) | NotANumber

  datatype ColumnType = TinyInt | SmallInt | Int32 | BigInt | Float32 | Double64 | Boolean | Text | Timestamped | Uuid | Unsupported

  datatype CassValue =
    | Null
    | Integer(width: nat, i: int)
    | Float32Value(d: Double)
    | DoubleValue(d: Double)
    | BoolValue(b: bool)
    | TextValue(s: string)
    | UuidValue(u: int)
    | Undecodable             // a zero-length value of a fixed-width column; only a server has these

  datatype Exception = RangeError | TypeError | ArgumentError | StatementError | ExecutionError

  /**
   A prepared statement as this code sees it, and the arithmetic of the platform:
   the parameters a name resolves to, their type, whether the driver takes a value,
   rounding to double, Time#to_f, rounding from double to float, the cast of a double
   outside the 64-bit range, and two parsers.
   */
  datatype Prepared = Prepared(
    columns: string -> set<nat>,
    typeOf: string -> ColumnType,
    accepts: (string, CassValue) -> bool,
    rnd: real -> real,
    toF: real -> real,
    narrow: real -> real,
    wildCast: Double -> int,
    parseFloat: string -> Option<real>,
    parseUuid: string -> Option<int>)

  // ---- Ruby's conversions ----

  /** NUM2LONG. */
  function ToLong(v: Value): Result<int, Exception> {
    match v
    case Int(i) => if Timestamp.Int64(i) then Success(i) else Failure(RangeError)
    case Float(Finite(r)) => if Timestamp.Int64(Timestamp.Trunc(r)) then Success(Timestamp.Trunc(r)) else Failure(RangeError)
    case Float(_) => Failure(RangeError)
    case Obj(_, _, Some(i), _, _) => if Timestamp.Int64(i) then Success(i) else Failure(RangeError)
    case _ => Failure(TypeError)
  }

  /** NUM2INT. */
  function ToInt(v: Value): Result<int, Exception> {
    match ToLong(v)
    case Failure(e) => Failure(e)
    case Success(i) => if -0x8000_0000 <= i < 0x8000_0000 then Success(i) else Failure(RangeError)
  }

  /** NUM2DBL: of the other objects it takes only numbers, such as a Rational. */
  function ToDouble(p: Prepared, v: Value): Result<Double, Exception> {
    match v
    case Int(i) => Success(Finite(p.rnd(i as real)))
    case Float(d) => Success(d)
    case Obj(true, _, _, Some(r), _) => Success(Finite(p.rnd(r)))
    case _ => Failure(TypeError)
  }

  /** NUM2DBL(rb_Float(value)), which also takes a Time, a numeric string and anything with to_f. */
  function KernelFloat(p: Prepared, v: Value): Result<Double, Exception> {
    match v
    case Int(i) => Success(Finite(p.rnd(i as real)))
    case Float(d) => Success(d)
    case Time(seconds) => Success(Finite(p.toF(seconds)))
    case Str(s) => (match p.parseFloat(s) case Some(r) => Success(Finite(p.rnd(r))) case None => Failure(ArgumentError))
    case Obj(_, _, _, Some(r), _) => Success(Finite(p.rnd(r)))
    case _ => Failure(TypeError)
  }

  /** StringValueCStr: the string, which also replaces the variable it was taken from. */
  function CString(v: Value): Result<string, Exception> {
    match v
    case Str(s) => if '\0' in s then Failure(ArgumentError) else Success(s)
    case Obj(_, Some(s), _, _, _) => if '\0' in s then Failure(ArgumentError) else Success(s)
    case _ => Failure(TypeError)
  }

  /** RTEST. */
  predicate Truthy(v: Value) {
    !v.Nil? && v != Bool(false)
  }

  const FLT_MAX: real := 340282346638528859811704183484516925440.0

  /** A double passed as a cass_float_t. */
  function Narrowed(p: Prepared, d: Double): Double {
    if d.Finite? then Finite(p.narrow(d.r)) else d
  }

  function Millis(p: Prepared, d: Double): int {
    if d.Finite? && Timestamp.Int64(Timestamp.ToMillis(p.rnd, d.r)) then Timestamp.ToMillis(p.rnd, d.r) else p.wildCast(d)
  }

  // ---- one entry ----

  /** What the driver is given, and what the value variable holds afterwards. */
  datatype Converted = Converted(bound: CassValue, kept: Value)

  function Ranged(v: Value, width: nat, limit: int): Result<Converted, Exception> {
    match ToLong(v)
    case Failure(e) => Failure(e)
    case Success(i) => if -limit <= i < limit then Success(Converted(Integer(width, i), v)) else Failure(RangeError)
  }

  function AsTimestamp(p: Prepared, v: Value): Result<Converted, Exception> {
    match KernelFloat(p, v)
    case Failure(e) => Failure(e)
    case Success(d) => Success(Converted(Integer(64, Millis(p, d)), v))
  }

  /** The type switch of hash_cb, up to the call of the driver. */
  function Convert(p: Prepared, t: ColumnType, v: Value): Result<Converted, Exception> {
    if v.Nil? then Success(Converted(Null, Nil)) else
    match t
    case TinyInt => Ranged(v, 8, 0x80)
    case SmallInt => Ranged(v, 16, 0x8000)
    case Int32 => Ranged(v, 32, 0x8000_0000)
    case BigInt => Ranged(v, 64, 0x8000_0000_0000_0000)
    case Float32 => (
      match ToDouble(p, v)
      case Failure(e) => Failure(e)
      case Success(d) =>
        if d.Finite? && (d.r < -FLT_MAX || d.r > FLT_MAX) then Failure(RangeError)
        else Success(Converted(Float32Value(Narrowed(p, d)), v)))
    case Double64 => (
      match ToDouble(p, v)
      case Failure(e) => Failure(e)
      case Success(d) => Success(Converted(DoubleValue(d), v)))
    case Boolean => Success(Converted(BoolValue(Truthy(v)), v))
    case Text => (
      match CString(v)
      case Failure(e) => Failure(e)
      case Success(s) => Success(Converted(TextValue(s), Str(s))))
    case Timestamped =>
      if v.Time? then AsTimestamp(p, v)
      else if v.Obj? && v.toTime.Some? then AsTimestamp(p, v.toTime.value)
      else Failure(TypeError)
    case Uuid => (
      match CString(v)
      case Failure(e) => Failure(e)
      case Success(s) =>
        match p.parseUuid(s)
        case None => Failure(StatementError)
        case Some(u) => Success(Converted(UuidValue(u), Str(s))))
    case Unsupported => Failure(TypeError)
  }

  /** Symbols become strings; other keys must convert to one. */
  function KeyName(key: Value): Result<string, Exception> {
    CString(if key.Sym? then Str(key.s) else key)
  }

  /** One round of hash_cb: the normalised key and the converted value, or the exception raised. */
  function Entry(p: Prepared, key: Value, v: Value): Result<(string, Converted), Exception> {
    match KeyName(key)
    case Failure(e) => Failure(e)
    case Success(name) =>
      if p.columns(name) == {} then Failure(StatementError) else
      match Convert(p, p.typeOf(name), v)
      case Failure(e) => Failure(e)
      case Success(c) => if p.accepts(name, c.bound) then Success((name, c)) else Failure(StatementError)
  }

  // ---- what is kept, and what is raised ----

  /** Strings and UUIDs are kept as text, a to_time as its answer, and everything else as it came. */
  lemma WhatIsKept(p: Prepared, t: ColumnType, v: Value)
    requires Convert(p, t, v).Success?
    ensures var kept := Convert(p, t, v).value.kept;
      if v.Obj? && (t.Text? || t.Uuid?) then v.toStr.Some? && kept == Str(v.toStr.value)
      else if v.Obj? && t.Timestamped? then v.toTime.Some? && kept == v.toTime.value
      else kept == v
  {
  }

  /** The keys of a hash: symbols and strings without NUL, and what converts to one. */
  lemma KeysTaken(s: string, key: Value)
    ensures '\0' !in s ==> KeyName(Str(s)) == Success(s) && KeyName(Sym(s)) == Success(s)
    ensures '\0' in s ==> KeyName(Str(s)) == Failure(ArgumentError) && KeyName(Sym(s)) == Failure(ArgumentError)
    ensures key.Nil? || key.Int? || key.Float? || key.Bool? || key.Time? ==> KeyName(key) == Failure(TypeError)
    ensures key.Obj? ==> KeyName(key) == if key.toStr.None? then Failure(TypeError) else KeyName(Str(key.toStr.value))
  {
  }

  /** The greatest 32-bit float of IEEE 754: 24 binary ones before 104 zeros. */
  const LARGEST_FLOAT: real := 16777215.0 * 20282409603651670423947251286016.0

  /** What the driver is given for null, and for a value of the column's own kind. */
  lemma WhatIsBound(p: Prepared, t: ColumnType, v: Value)
    ensures Convert(p, t, Nil) == Success(Converted(Null, Nil))
    ensures Convert(p, t, v).Success? && !v.Nil? ==>
      match Convert(p, t, v).value.bound
      case Null => false
      case Integer(width, i) =>
        || (width == 8 && t.TinyInt? && -128 <= i <= 127) || (width == 16 && t.SmallInt? && -32768 <= i <= 32767)
        || (width == 32 && t.Int32? && -2147483648 <= i <= 2147483647) || (width == 64 && (t.BigInt? || t.Timestamped?))
      case Float32Value(d) => t.Float32?
      case DoubleValue(d) => t.Double64?
      case BoolValue(b) => t.Boolean? && (b <==> v != Bool(false))
      case TextValue(s) => t.Text? && '\0' !in s && (v.Str? ==> s == v.s)
      case UuidValue(u) => t.Uuid? && (v.Str? ==> p.parseUuid(v.s) == Some(u))
      case Undecodable => false
    ensures Convert(p, t, v).Success? && v.Int? && (t.TinyInt? || t.SmallInt? || t.Int32? || t.BigInt?) ==> Convert(p, t, v).value.bound.i == v.i
  {
  }

  /**
   The exceptions of a bind. An unknown name, a text that is no UUID and a value that the
   driver refuses raise StatementError; numbers out of the column's range RangeError; a NUL
   in a string ArgumentError; and values of the wrong kind, and columns of an unsupported
   type, TypeError.
   */
  lemma WhatIsRaised(p: Prepared, name: string, v: Value)
    requires '\0' !in name
    ensures p.columns(name) == {} ==> Entry(p, Str(name), v) == Failure(StatementError)
    ensures p.columns(name) != {} && !v.Nil? ==>
      var t, e := p.typeOf(name), Entry(p, Str(name), v);
      && (v.Int? && t.TinyInt? && (v.i < -128 || v.i > 127) ==> e == Failure(RangeError))
      && (v.Int? && t.SmallInt? && (v.i < -32768 || v.i > 32767) ==> e == Failure(RangeError))
      && (v.Int? && t.Int32? && (v.i < -2147483648 || v.i > 2147483647) ==> e == Failure(RangeError))
      && (v.Int? && t.BigInt? && (v.i < -9223372036854775808 || v.i > 9223372036854775807) ==> e == Failure(RangeError))
      && ((t.TinyInt? || t.SmallInt? || t.Int32? || t.BigInt? || t.Float32? || t.Double64?) && (v.Str? || v.Sym? || v.Bool? || v.Time?) ==>
            e == Failure(TypeError))
      && ((t.Text? || t.Uuid?) && (v.Int? || v.Float? || v.Sym? || v.Bool? || v.Time?) ==> e == Failure(TypeError))
      && ((t.Text? || t.Uuid?) && v.Str? && '\0' in v.s ==> e == Failure(ArgumentError))
      && (t.Uuid? && v.Str? && '\0' !in v.s && p.parseUuid(v.s).None? ==> e == Failure(StatementError))
      && (t.Timestamped? && (v.Int? || v.Float? || v.Str? || v.Sym? || v.Bool?) ==> e == Failure(TypeError))
      && (t.Timestamped? && v.Obj? && v.toTime.None? ==> e == Failure(TypeError))
      && (t.Timestamped? && v.Obj? && v.toTime.Some? && v.toTime.value.Str? && p.parseFloat(v.toTime.value.s).None? ==> e == Failure(ArgumentError))
      && (t.Float32? && v.Float? && v.d.Finite? && (v.d.r < -LARGEST_FLOAT || v.d.r > LARGEST_FLOAT) ==> e == Failure(RangeError))
      && (t.Unsupported? ==> e == Failure(TypeError))
      && (Convert(p, t, v).Success? && !p.accepts(name, Convert(p, t, v).value.bound) ==> e == Failure(StatementError))
  {
  }

  /** What page_size= takes: numbers that fit 32 bits, a float for its integer part. */
  lemma PageSizesTaken(v: Value)
    ensures v.Int? ==> ToInt(v) == if -2147483648 <= v.i <= 2147483647 then Success(v.i) else Failure(RangeError)
    ensures v.Nil? || v.Bool? || v.Str? || v.Sym? || v.Time? ==> ToInt(v) == Failure(TypeError)
    ensures v.Float? && !v.d.Finite? ==> ToInt(v) == Failure(RangeError)
    ensures v.Float? && v.d.Finite? ==> ToInt(v) == ToInt(Int(Timestamp.Trunc(v.d.r)))
    ensures v.Obj? ==> ToInt(v) == if v.toInt.None? then Failure(TypeError) else ToInt(Int(v.toInt.value))
  {
  }

  // ---- replaying what was kept ----

  /**
   to_time gave a Time, or an object whose own to_time gives the same instant. This is
   what a caller can look at before binding a value that is not itself a Time.
   */
  predicate SettledTime(p: Prepared, v: Value) {
    v.Time? || (v.Obj? && v.toTime.Some? &&
      var w := v.toTime.value;
      w.Time? || (w.Obj? && w.toTime.Some? && KernelFloat(p, w).Success?
                  && AsTimestamp(p, w.toTime.value).Success?
                  && AsTimestamp(p, w.toTime.value).value.bound == AsTimestamp(p, w).value.bound))
  }

  /** Outside timestamps every accepted value is accepted again, and binds the same. */
  predicate Settled(p: Prepared, t: ColumnType, v: Value) {
    t.Timestamped? && !v.Nil? ==> SettledTime(p, v)
  }

  /**
   Validate once, replay always: an accepted value, as kept, is accepted again with the
   same bound value if and only if it is settled, that is, outside timestamps always.
   */
  lemma KeptValueReplays(p: Prepared, t: ColumnType, v: Value)
    requires Convert(p, t, v).Success?
    ensures var c := Convert(p, t, v).value;
      Settled(p, t, v) <==> (Convert(p, t, c.kept).Success? && Convert(p, t, c.kept).value.bound == c.bound)
  {
  }

  lemma KeptEntryReplays(p: Prepared, key: Value, v: Value)
    requires Entry(p, key, v).Success?
    ensures var (name, c) := Entry(p, key, v).value;
      Settled(p, p.typeOf(name), v) <==>
        (Entry(p, Str(name), c.kept).Success? && Entry(p, Str(name), c.kept).value.0 == name
         && Entry(p, Str(name), c.kept).value.1.bound == c.bound)
  {
    var (name, _) := Entry(p, key, v).value;
    KeptValueReplays(p, p.typeOf(name), v);
  }

  /** An object whose to_time answers with a number: bind takes it, but it cannot be replayed. */
  lemma NumericToTimeDoesNotReplay(p: Prepared, seconds: real)
    ensures var v := Obj(false, None, None, None, Some(Float(Finite(seconds))));
      && Convert(p, Timestamped, v).Success?
      && Convert(p, Timestamped, Convert(p, Timestamped, v).value.kept) == Failure(TypeError)
      && !Settled(p, Timestamped, v)
  {
  }
}
