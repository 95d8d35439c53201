/**
 The Iceberg sink's conversion of input columns to a table's types: the
 checker that decides whether a conversion is allowed, the converter, the
 theorem that the first makes the second meaning-preserving, and the types of
 auto-created tables.
 */
module SchemaConversion {
  import opened DecimalTexts
  import opened Integers
  import opened Wrappers
  import opened ArrowTypes

  // ---------------------------------------------------------------- the allowlist

  function IntegerDigits(w: Width, signed: bool): int {
    match w
    case W8 => 3
    case W16 => 5
    case W32 => 10
    case W64 => if signed then 19 else 20
  }

  function Bits(w: Width): nat {
    match w
    case W8 => 8
    case W16 => 16
    case W32 => 32
    case W64 => 64
  }

  predicate UnitOk(from: TimeUnit, to: TimeUnit) {
    Rank(from) <= Rank(to) || (from == Nanosecond && to == Microsecond)
  }

  predicate IsLossless(from: DataType, to: DataType) {
    match (from, to)
    case (Int(fs, fw), Int(ts, tw)) =>
      if fs == ts then Bits(fw) <= Bits(tw) else !fs && Bits(fw) < Bits(tw)
    case (Int(s, w), Decimal128(p, scale)) => p - scale >= IntegerDigits(w, s)
    case (Float16, Float32) => true
    case (Float16, Float64) => true
    case (Float32, Float32) => true
    case (Float32, Float64) => true
    case (Float64, Float64) => true
    case (Decimal128(fp, fs), Decimal128(tp, ts)) => fs == ts && tp >= fp
    case (Decimal256(fp, fs), Decimal128(tp, ts)) => fs == ts && tp >= fp
    case (Decimal256(_, _), Text(k)) => k != Utf8View
    case (Text(_), Text(_)) => true
    case (Bytes(_), Bytes(_)) => true
    case (FixedBytes(_), Bytes(_)) => true
    case (Date32, Date32) => true
    case (Date64, Date32) => true
    case (Timestamp(f, _), Timestamp(t, _)) => UnitOk(f, t)
    case _ => false
  }

  // ---------------------------------------------------------------- the checker

  type CanCast = (DataType, DataType) -> bool

  /** What the checker accepts. */
  predicate Convertible(can: CanCast, from: DataType, to: DataType)
    decreases from
  {
    from == to ||
    match (from, to)
    case (Dictionary(_, value), _) => Convertible(can, value, to)
    case (Struct(fs), Struct(ts)) =>
      && (forall i | 0 <= i < |fs| ::
            Find(ts, fs[i].name).Some? && Convertible(can, fs[i].dtype, ts[Find(ts, fs[i].name).value].dtype))
      && (forall j | 0 <= j < |ts| :: ts[j].nullable || Find(fs, ts[j].name).Some?)
    case (List(_, f), List(k, t)) => !k.Fixed? && Convertible(can, f.dtype, t.dtype)
    case (Map(fe, _), Map(te, _)) =>
      && fe.dtype.Struct? && te.dtype.Struct? && |fe.dtype.children| == |te.dtype.children| == 2
      && forall i | 0 <= i < |fe.dtype.children| :: Convertible(can, fe.dtype.children[i].dtype, te.dtype.children[i].dtype)
    case _ => IsLossless(from, to) && can(from, to)
  }

  predicate FieldKnown(can: CanCast, f: Field, ts: seq<Field>) {
    Find(ts, f.name).Some? && Convertible(can, f.dtype, ts[Find(ts, f.name).value].dtype)
  }

  predicate FieldSupplied(t: Field, fs: seq<Field>) {
    t.nullable || Find(fs, t.name).Some?
  }

  lemma StructConvertible(can: CanCast, from: DataType, to: DataType)
    requires from.Struct? && to.Struct? && from != to
    ensures Convertible(can, from, to) <==>
      && (forall k | 0 <= k < |from.children| :: FieldKnown(can, from.children[k], to.children))
      && (forall k | 0 <= k < |to.children| :: FieldSupplied(to.children[k], from.children))
  {
    hide IsLossless;
  }

  lemma ListConvertible(can: CanCast, from: DataType, to: DataType)
    requires from.List? && to.List? && from != to
    ensures Convertible(can, from, to) <==> !to.kind.Fixed? && Convertible(can, from.child.dtype, to.child.dtype)
  {
    hide IsLossless;
  }

  predicate MapPair(from: DataType, to: DataType) {
    && from.Map? && to.Map? && from.entries.dtype.Struct? && to.entries.dtype.Struct?
    && |from.entries.dtype.children| == |to.entries.dtype.children| == 2
  }

  lemma MapConvertible(can: CanCast, from: DataType, to: DataType)
    requires from.Map? && to.Map? && from != to
    ensures Convertible(can, from, to) <==>
      && MapPair(from, to)
      && Convertible(can, from.entries.dtype.children[0].dtype, to.entries.dtype.children[0].dtype)
      && Convertible(can, from.entries.dtype.children[1].dtype, to.entries.dtype.children[1].dtype)
  {
    hide IsLossless;
  }

  lemma DictConvertible(can: CanCast, from: DataType, to: DataType)
    requires from.Dictionary? && from != to
    ensures Convertible(can, from, to) <==> Convertible(can, from.value, to)
  {
    hide IsLossless;
  }

  /** The types are compared level by level only when both are structs, lists or maps. */
  predicate SameShape(from: DataType, to: DataType) {
    (from.Struct? && to.Struct?) || (from.List? && to.List?) || (from.Map? && to.Map?)
  }

  lemma LeafConvertible(can: CanCast, from: DataType, to: DataType)
    requires !from.Dictionary? && !SameShape(from, to) && from != to
    ensures Convertible(can, from, to) <==> IsLossless(from, to) && can(from, to)
    ensures Convertible(can, from, to) ==> IsLeaf(from) && IsLeaf(to)
  {
  }

  datatype Problem =
    | Lossy(path: seq<string>)
    | UnknownField(path: seq<string>)
    | MissingRequired(path: seq<string>)
    | MalformedMap(path: seq<string>)

  /** Collects the problems of a conversion; there are none exactly when it is convertible. */
  method CheckConversion(can: CanCast, path: seq<string>, from: DataType, to: DataType, before: seq<Problem>) returns (problems: seq<Problem>)
    ensures before <= problems
    ensures problems == before <==> Convertible(can, from, to)
    decreases from, 1
  {
    problems := before;
    if from == to {
      return;
    }
    hide Convertible, IsLossless;
    if from.Dictionary? {
      DictConvertible(can, from, to);
      problems := CheckConversion(can, path, from.value, to, problems);
    } else if from.Struct? && to.Struct? {
      problems := CheckStruct(can, path, from, to, problems);
    } else if from.List? && to.List? {
      ListConvertible(can, from, to);
      if to.kind.Fixed? {
        problems := problems + [Lossy(path)];
      } else {
        problems := CheckConversion(can, path + ["element"], from.child.dtype, to.child.dtype, problems);
      }
    } else if from.Map? && to.Map? {
      problems := CheckMap(can, path, from, to, problems);
    } else {
      LeafConvertible(can, from, to);
      if !(IsLossless(from, to) && can(from, to)) {
        problems := problems + [Lossy(path)];
      }
    }
  }

  /** The entries' two fields are paired by place, not by name. */
  method CheckMap(can: CanCast, path: seq<string>, from: DataType, to: DataType, before: seq<Problem>) returns (problems: seq<Problem>)
    requires from.Map? && to.Map? && from != to
    ensures before <= problems
    ensures problems == before <==> Convertible(can, from, to)
    decreases from, 0
  {
    hide Convertible;
    MapConvertible(can, from, to);
    if MapPair(from, to) {
      var fk, tk := from.entries.dtype.children, to.entries.dtype.children;
      var keyed := CheckConversion(can, path + ["key"], fk[0].dtype, tk[0].dtype, before);
      problems := CheckConversion(can, path + ["value"], fk[1].dtype, tk[1].dtype, keyed);
      assert before <= keyed <= problems;
    } else {
      problems := before + [MalformedMap(path)];
    }
  }

  /** Struct fields match by name; every required table field must be there. */
  method CheckStruct(can: CanCast, path: seq<string>, from: DataType, to: DataType, before: seq<Problem>) returns (problems: seq<Problem>)
    requires from.Struct? && to.Struct? && from != to
    ensures before <= problems
    ensures problems == before <==> Convertible(can, from, to)
    decreases from, 0
  {
    hide Convertible;
    StructConvertible(can, from, to);
    var fs, ts := from.children, to.children;
    problems := before;
    for i := 0 to |fs|
      invariant before <= problems
      invariant problems == before <==> forall k | 0 <= k < i :: FieldKnown(can, fs[k], ts)
    {
      var name := fs[i].name;
      match Find(ts, name) {
        case Some(j) =>
          var more := CheckConversion(can, path + [name], fs[i].dtype, ts[j].dtype, problems);
          assert before <= problems <= more;
          problems := more;
        case None => problems := problems + [UnknownField(path + [name])];
      }
    }
    ghost var known := problems;
    for j := 0 to |ts|
      invariant before <= known <= problems
      invariant problems == known <==> forall k | 0 <= k < j :: FieldSupplied(ts[k], fs)
    {
      if !ts[j].nullable && Find(fs, ts[j].name).None? {
        problems := problems + [MissingRequired(path + [ts[j].name])];
      }
    }
    assert problems == before <==> (forall k | 0 <= k < |fs| :: FieldKnown(can, fs[k], ts)) && (forall k | 0 <= k < |ts| :: FieldSupplied(ts[k], fs));
  }

  // ---------------------------------------------------------------- the converter

  datatype CastError = CastError

  /** The cast kernel on arrays: leaves value by value, dictionaries through their values. */
  function CastArray(a: Array, to: DataType): Result<Array, CastError>
    requires WellFormed(a)
    decreases a
  {
    if TypeOf(a) == to then Ok(a)
    else match a
      case Leaf(t, items) =>
        if IsLeaf(to) && forall i | 0 <= i < |items| && items[i].Some? :: CastScalar(t, to, items[i].value).Some?
        then Ok(Leaf(to, seq(|items|, i requires 0 <= i < |items| => if items[i].Some? then CastScalar(t, to, items[i].value) else None)))
        else Err(CastError)
      case Dict(_, keys, values) =>
        (match CastArray(values, to)
         case Ok(v) => if WellFormed(v) && KeysIn(keys, Len(v)) then Ok(Gather(v, keys)) else Err(CastError)
         case Err(e) => Err(e))
      case _ => Err(CastError)
  }

  const MAX_I32 := 0x7FFF_FFFF

  /** Nested dictionaries and containers still to be undone before the types can be compared level by level. */
  function Depth(t: DataType): nat {
    match t
    case Dictionary(_, value) => 1 + Depth(value)
    case _ => 0
  }

  function KindChange(a: Array, to: DataType): nat {
    if a.Lists? && to.List? && a.kind != to.kind then 1 else 0
  }

  /** A struct array is refused when a required child has a null in a valid row. */
  predicate NullsAllowed(fields: seq<Field>, columns: seq<Array>, valid: seq<bool>)
    requires |fields| == |columns|
  {
    forall j, i | 0 <= j < |columns| && !fields[j].nullable && 0 <= i < |valid| && valid[i] :: !IsNull(columns[j], i)
  }

  /** A required field without parent rows to be null in has no nulls at all. */
  predicate Supplies(c: Array, field: Field) {
    field.nullable || forall i | 0 <= i < Len(c) :: !IsNull(c, i)
  }

  predicate IsNull(a: Array, i: nat) {
    match a
    case Leaf(_, items) => i < |items| && items[i].None?
    case Structs(_, _, valid) => i < |valid| && !valid[i]
    case Lists(_, _, spans, _) => i < |spans| && spans[i].None?
    case Maps(_, _, spans, _) => i < |spans| && spans[i].None?
    case Dict(_, keys, values) => i < |keys| && (keys[i].None? || IsNull(values, keys[i].value))
  }

  predicate AllOk(rs: seq<Result<Array, CastError>>) {
    forall j | 0 <= j < |rs| :: rs[j].Ok?
  }

  function Values(rs: seq<Result<Array, CastError>>): seq<Array>
    requires AllOk(rs)
  {
    seq(|rs|, j requires 0 <= j < |rs| => rs[j].value)
  }

  /** A dictionary is unpacked before a nested conversion. */
  predicate Unpacks(to: DataType) {
    to.Struct? || to.Map? || (to.List? && !to.kind.Fixed?)
  }

  function Convert(a: Array, to: DataType): Result<Array, CastError>
    requires WellFormed(a)
    decreases (to), Depth(TypeOf(a)), KindChange(a, to), 1
  {
    if TypeOf(a) == to then Ok(a)
    else if a.Dict? then
      if Unpacks(to) then GatherKeepsValues(a.values, a.keys); Convert(Gather(a.values, a.keys), to)
      else CastArray(a, to)
    else if a.Structs? && to.Struct? then ConvertStruct(a, to)
    else if a.Lists? && to.List? then ConvertList(a, to)
    else if a.Maps? && to.Map? then ConvertMap(a, to)
    else CastArray(a, to)
  }

  /** Children are matched by name; one the input does not have becomes null. */
  function ConvertStruct(a: Array, to: DataType): Result<Array, CastError>
    requires WellFormed(a) && a.Structs? && to.Struct?
    decreases (to), Depth(TypeOf(a)), KindChange(a, to), 0
  {
    var kids := to.children;
    var rs := seq(|kids|, j requires 0 <= j < |kids| =>
      match Find(a.fields, kids[j].name)
      case Some(i) => Convert(a.columns[i], kids[j].dtype)
      case None => Ok(NullArray(kids[j].dtype, |a.valid|)));
    if AllOk(rs) && ColumnsFit(kids, Values(rs), |a.valid|) && NullsAllowed(kids, Values(rs), a.valid)
    then Ok(Structs(kids, Values(rs), a.valid)) else Err(CastError)
  }

  /** The offsets are widened or narrowed first, then the items are converted. */
  function ConvertList(a: Array, to: DataType): Result<Array, CastError>
    requires WellFormed(a) && a.Lists? && to.List?
    decreases (to), Depth(TypeOf(a)), KindChange(a, to), 0
  {
    if to.kind.Fixed? then Err(CastError)
    else if a.kind == to.kind then
      match Convert(a.values, to.child.dtype)
      case Ok(v) =>
        if TypeOf(v) == to.child.dtype && SpansIn(a.spans, Len(v)) && Supplies(v, to.child) then Ok(Lists(to.kind, to.child, a.spans, v))
        else Err(CastError)
      case Err(e) => Err(e)
    else if to.kind == Small && Len(a.values) > MAX_I32 then Err(CastError)
    else Convert(Lists(to.kind, a.child, a.spans, a.values), to)
  }

  function ConvertMap(a: Array, to: DataType): Result<Array, CastError>
    requires WellFormed(a) && a.Maps? && to.Map?
    decreases (to), Depth(TypeOf(a)), KindChange(a, to), 0
  {
    if !to.entries.dtype.Struct? then Err(CastError)
    else
      var kids := to.entries.dtype.children;
      var n := if |kids| < |a.columns| then |kids| else |a.columns|;
      var rs := seq(n, j requires 0 <= j < n => Convert(a.columns[j], kids[j].dtype));
      if AllOk(rs) && |rs| == 2 && ColumnsFit(kids, Values(rs), Len(a.columns[0])) && (forall j | 0 <= j < |rs| :: Supplies(Values(rs)[j], kids[j]))
      then Ok(Maps(to.entries, to.sorted, a.spans, Values(rs)))
      else Err(CastError)
  }

  // ---------------------------------------------------------------- what a conversion must preserve

  /** The instant a timestamp stands for, in nanoseconds. */
  function Instant(u: TimeUnit, n: int): int {
    n * UnitNanos(u)
  }

  /**
   The same leaf value, up to these exceptions: sub-microsecond digits, times
   of day in dates, which are cut off toward zero, and dates whose day number
   exceeds 32 bits, which become another day.
   */
  predicate SameLeaf(t: DataType, x: Scalar, u: DataType, y: Scalar) {
    match (t, u)
    case (Int(_, _), Int(_, _)) => x == y
    case (Int(_, _), Decimal128(_, s)) => x.N? && y.N? && s >= 0 && y.n == x.n * Pow10(s)
    case (Decimal128(_, s), Decimal128(_, s')) => x == y && s == s'
    case (Decimal256(_, s), Decimal128(_, s')) => x == y && s == s'
    case (Decimal256(_, s), Text(_)) => x.N? && y.S? && Denotes(y.s, x.n, s)
    case (Text(_), Text(_)) => x == y
    case (Bytes(_), Bytes(_)) => x == y
    case (FixedBytes(_), Bytes(_)) => x == y
    case (Date64, Date32) =>
      x.N? && y.N? && (y.n * MS_PER_DAY == x.n <==> WholeDay(x.n))
      && (DayFits(x.n) ==> Truncated(x.n, y.n * MS_PER_DAY, MS_PER_DAY))
    case (Timestamp(f, _), Timestamp(t, _)) =>
      x.N? && y.N?
      && (Rank(f) <= Rank(t) ==> Instant(t, y.n) == Instant(f, x.n))
      && (Rank(f) > Rank(t) ==> f == Nanosecond && t == Microsecond && Truncated(x.n, Instant(t, y.n), 1000))
    case _ => x == y && (t == u || (IsFloat(t) && IsFloat(u)))
  }

  predicate IsFloat(t: DataType) {
    t.Float16? || t.Float32? || t.Float64?
  }

  /** The day number has 32 bits. */
  predicate DayFits(ms: int) {
    -0x8000_0000 <= TruncDiv(ms, MS_PER_DAY) < 0x8000_0000
  }

  predicate WholeDay(ms: int) {
    ms % MS_PER_DAY == 0 && DayFits(ms)
  }

  /** `m` is `n` with less than `step` cut off toward zero. */
  predicate Truncated(n: int, m: int, step: int) {
    if n >= 0 then 0 <= n - m < step && m >= 0 else 0 <= m - n < step && m <= 0
  }

  function Lookup(fs: seq<FieldValue>, name: string): Option<Value> {
    if fs == [] then None else if fs[0].name == name then Some(fs[0].value) else Lookup(fs[1..], name)
  }

  predicate HasField(gs: seq<FieldValue>, name: string) {
    exists j :: 0 <= j < |gs| && gs[j].name == name
  }

  /** `w` holds the value `v`: nulls for nulls, struct fields by name with absent ones null, elements and map entries by position. */
  ghost predicate Agrees(v: Value, w: Value)
    decreases w
  {
    v == w ||
    match (v, w)
    case (VLeaf(t, x), VLeaf(u, y)) => SameLeaf(t, x, u, y)
    case (VStruct(fs), VStruct(gs)) =>
      && (forall i | 0 <= i < |fs| :: HasField(gs, fs[i].name))
      && (forall j | 0 <= j < |gs| :: FieldAgrees(fs, gs[j]))
    case (VList(xs), VList(ys)) => |xs| == |ys| && forall j | 0 <= j < |ys| :: Agrees(xs[j], ys[j])
    case (VMap(ks, xs), VMap(ls, ys)) =>
      && |ks| == |ls| && |xs| == |ys|
      && (forall j | 0 <= j < |ls| :: Agrees(ks[j], ls[j])) && (forall j | 0 <= j < |ys| :: Agrees(xs[j], ys[j]))
    case _ => false
  }

  ghost predicate FieldAgrees(fs: seq<FieldValue>, g: FieldValue)
    decreases g
  {
    match Lookup(fs, g.name)
    case Some(u) => Agrees(u, g.value)
    case None => g.value == VNull
  }

  /** Types an Iceberg table can have: field names are distinct, maps well formed, scales not negative and zones UTC. */
  predicate TableLike(t: DataType) {
    match t
    case Struct(children) => DistinctNames(children) && forall j | 0 <= j < |children| :: TableLike(children[j].dtype)
    case List(_, child) => TableLike(child.dtype)
    case Map(entries, _) =>
      && entries.dtype.Struct? && |entries.dtype.children| == 2
      && forall j | 0 <= j < |entries.dtype.children| :: TableLike(entries.dtype.children[j].dtype)
    case Dictionary(_, value) => TableLike(value)
    case Decimal128(_, s) => s >= 0
    case Timestamp(_, tz) => tz.None? || tz == Some(0)
    case _ => true
  }

  lemma {:induction false} TableLikeMaps(t: DataType)
    requires TableLike(t)
    ensures MapsOk(t)
    decreases t
  {
    match t {
      case Struct(children) =>
        forall j | 0 <= j < |children| ensures MapsOk(children[j].dtype) { TableLikeMaps(children[j].dtype); }
      case List(_, child) => TableLikeMaps(child.dtype);
      case Map(entries, _) =>
        forall j | 0 <= j < |entries.dtype.children| ensures MapsOk(entries.dtype.children[j].dtype) {
          TableLikeMaps(entries.dtype.children[j].dtype);
        }
      case Dictionary(_, value) => TableLikeMaps(value);
      case _ =>
    }
  }

  /** The result of a conversion: the wanted type, as many rows, and in every row the same value. */
  ghost predicate Faithful(a: Array, b: Array, to: DataType)
    requires WellFormed(a)
  {
    && WellFormed(b) && TypeOf(b) == to && Len(b) == Len(a)
    && forall i | 0 <= i < Len(a) :: Agrees(ValueAt(a, i), ValueAt(b, i))
  }

  // ---------------------------------------------------------------- leaves

  lemma Pow10Monotone(a: nat, b: nat)
    requires a <= b
    ensures Pow10(a) <= Pow10(b)
  {
    if a < b {
      Pow10Monotone(a, b - 1);
    }
  }

  lemma Pow10Add(a: nat, b: nat)
    ensures Pow10(a + b) == Pow10(a) * Pow10(b)
  {
    if b > 0 {
      Pow10Add(a, b - 1);
      assert Pow10(a + b) == 10 * (Pow10(a) * Pow10(b - 1));
      assert 10 * (Pow10(a) * Pow10(b - 1)) == Pow10(a) * (10 * Pow10(b - 1));
    }
  }

  lemma {:induction false} Pow10Values()
    ensures Pow10(3) == 1000 && Pow10(5) == 100_000 && Pow10(10) == 10_000_000_000
    ensures Pow10(19) == 10_000_000_000_000_000_000 && Pow10(20) == 100_000_000_000_000_000_000
  {
    assert Pow10(5) == 100_000;
    Pow10Add(5, 5);
    Pow10Add(10, 5);
    Pow10Add(15, 4);
    assert Pow10(4) == 10_000;
    Pow10Add(10, 10);
  }

  /** The table of digits is right: every value of an integer type has fewer. */
  lemma DigitsSuffice(s: bool, w: Width, n: int)
    requires InRange(s, w, n)
    ensures -Pow10(IntegerDigits(w, s)) < n < Pow10(IntegerDigits(w, s))
  {
    Pow10Values();
  }

  lemma ScaledFits(n: int, d: nat, s: nat, p: int)
    requires -Pow10(d) < n < Pow10(d) && p - s >= d
    ensures Digits(p, n * Pow10(s))
  {
    Pow10Add(d, s);
    Pow10Monotone(d + s, p);
    ScaleBound(n, Pow10(d), Pow10(s));
  }

  lemma {:induction false} ScaleBound(n: int, d: int, s: int)
    requires -d < n < d && s >= 1
    ensures -(d * s) < n * s < d * s
  {
    if s > 1 {
      ScaleBound(n, d, s - 1);
      assert n * s == n * (s - 1) + n && d * s == d * (s - 1) + d;
    }
  }

  /** Integers, decimals, floats, text and bytes that pass the allowlist are never refused. */
  lemma LosslessNeverFails(from: DataType, to: DataType, x: Scalar)
    requires IsLossless(from, to) && ScalarOk(from, x) && TableLike(to) && from != to
    requires !from.Timestamp?
    ensures CastScalar(from, to, x).Some?
  {
    if from.Int? && to.Decimal128? {
      DigitsSuffice(from.signed, from.width, x.n);
      ScaledFits(x.n, IntegerDigits(from.width, from.signed), to.scale, to.precision);
    } else if to.Decimal128? && from.precision >= 0 {
      Pow10Monotone(from.precision, to.precision);
    }
  }

  lemma LosslessKeepsMeaning(from: DataType, to: DataType, x: Scalar)
    requires IsLossless(from, to) && ScalarOk(from, x) && TableLike(to) && from != to && CastScalar(from, to, x).Some?
    ensures ScalarOk(to, CastScalar(from, to, x).value) && SameLeaf(from, x, to, CastScalar(from, to, x).value)
  {
    if from.Decimal256? && to.Text? {
      DecimalTextDenotes(x.n, from.scale);
    } else if from.Date64? {
      DaysOf(x.n);
    } else if from.Timestamp? {
      InstantKept(from.unit, to.unit, x.n);
    }
  }

  /** A date becomes its day exactly when it is a whole day of 32 bits, and loses its time of day when it is in range. */
  lemma DaysOf(ms: int)
    ensures var d := WrapI32(TruncDiv(ms, MS_PER_DAY));
      (d * MS_PER_DAY == ms <==> WholeDay(ms)) && (DayFits(ms) ==> Truncated(ms, d * MS_PER_DAY, MS_PER_DAY))
  {
    var t := TruncDiv(ms, MS_PER_DAY);
    TruncatedDay(ms);
    if DayFits(ms) {
      assert WrapI32(t) == t;
    } else {
      assert WrapI32(t) != t;
      FarDay(ms, t, WrapI32(t));
    }
  }

  lemma TruncatedDay(ms: int)
    ensures var t := TruncDiv(ms, MS_PER_DAY);
      Truncated(ms, t * MS_PER_DAY, MS_PER_DAY) && (t * MS_PER_DAY == ms <==> ms % MS_PER_DAY == 0)
  {
  }

  lemma FarDay(ms: int, t: int, d: int)
    requires Truncated(ms, t * MS_PER_DAY, MS_PER_DAY) && d != t && (d < 0 <= t || t < 0 <= d || d - t >= 2 || t - d >= 2)
    ensures d * MS_PER_DAY != ms
  {
  }

  /** The exception is real: a whole day past the range is accepted and becomes a day in the distant past. */
  lemma FarDateWraps()
    ensures IsLossless(Date64, Date32) && ScalarOk(Date64, N(0x8000_0000 * MS_PER_DAY))
    ensures CastScalar(Date64, Date32, N(0x8000_0000 * MS_PER_DAY)) == Some(N(-0x8000_0000))
  {
    assert TruncDiv(0x8000_0000 * MS_PER_DAY, MS_PER_DAY) == 0x8000_0000;
  }

  lemma InstantKept(f: TimeUnit, t: TimeUnit, n: int)
    requires UnitOk(f, t)
    ensures Rank(f) <= Rank(t) ==> Instant(t, n * (UnitNanos(f) / UnitNanos(t))) == Instant(f, n)
    ensures Rank(f) > Rank(t) ==> Truncated(n, Instant(t, TruncDiv(n, UnitNanos(t) / UnitNanos(f))), 1000)
  {
    if Rank(f) > Rank(t) {
      assert UnitNanos(t) / UnitNanos(f) == 1000;
    } else {
      UnitsDivide(f, t);
      MulAssociates(n, UnitNanos(f) / UnitNanos(t), UnitNanos(t));
    }
  }

  lemma UnitsDivide(f: TimeUnit, t: TimeUnit)
    requires Rank(f) <= Rank(t)
    ensures (UnitNanos(f) / UnitNanos(t)) * UnitNanos(t) == UnitNanos(f)
  {
    match t {
      case Second =>
      case Millisecond =>
      case Microsecond =>
      case Nanosecond =>
    }
  }

  lemma MulAssociates(a: int, b: int, c: int)
    ensures a * b * c == a * (b * c)
  {
  }

  // ---------------------------------------------------------------- the allowlist is exactly what the types can hold

  function FloatBits(t: DataType): nat {
    match t
    case Float16 => 16
    case Float32 => 32
    case Float64 => 64
    case _ => 0
  }

  /**
   Every value of `from` is a value of `to`: ranges for integers, digits for
   decimals, width for floats, the instants of the unit for timestamps, up to
   the admitted loss of sub-microsecond digits. Text views are no target of a
   wide decimal.
   */
  ghost predicate Carries(from: DataType, to: DataType)
    requires to.Decimal128? ==> to.scale >= 0
  {
    match (from, to)
    case (Int(fs, fw), Int(ts, tw)) => forall n :: InRange(fs, fw, n) ==> InRange(ts, tw, n)
    case (Int(s, w), Decimal128(p, scale)) => forall n :: InRange(s, w, n) ==> Digits(p, n * Pow10(scale))
    case (Decimal128(fp, fs), Decimal128(tp, ts)) => fs == ts && forall n :: Digits(fp, n) ==> Digits(tp, n)
    case (Decimal256(fp, fs), Decimal128(tp, ts)) => fs == ts && forall n :: Digits(fp, n) ==> Digits(tp, n)
    case (Decimal256(_, _), Text(k)) => k == Utf8 || k == LargeUtf8
    case (Timestamp(f, _), Timestamp(t, _)) => UnitNanos(f) % UnitNanos(t) == 0 || (UnitNanos(f) == 1 && UnitNanos(t) == 1000)
    case _ =>
      if IsFloat(from) || IsFloat(to) then 0 < FloatBits(from) <= FloatBits(to)
      else (from.Text? && to.Text?) || ((from.Bytes? || from.FixedBytes?) && to.Bytes?) || ((from.Date32? || from.Date64?) && to.Date32?)
  }

  /** The allowlist admits a leaf conversion to a table type exactly when the table type carries every value. */
  lemma AllowlistExact(from: DataType, to: DataType)
    requires TableLike(to) && from != to
    requires from.Decimal128? || from.Decimal256? ==> from.precision >= 0
    ensures IsLossless(from, to) <==> Carries(from, to)
  {
    hide InRange, Digits, UnitOk, UnitNanos, IntegerDigits, Bits, Pow10, TableLike;
    assert to.Decimal128? ==> to.scale >= 0 by { ScaleNotNegative(to); }
    if from.Int? && to.Int? {
      RangesExact(from.signed, from.width, to.signed, to.width);
    } else if from.Int? && to.Decimal128? {
      DigitsExact(from.signed, from.width, to.precision, to.scale);
    } else if (from.Decimal128? || from.Decimal256?) && to.Decimal128? {
      PrecisionsExact(from.precision, to.precision);
    } else if from.Timestamp? && to.Timestamp? {
      UnitsExact(from.unit, to.unit);
    } else {
      OthersExact(from, to);
    }
  }

  lemma ScaleNotNegative(t: DataType)
    requires TableLike(t)
    ensures t.Decimal128? ==> t.scale >= 0
  {
  }

  lemma OthersExact(from: DataType, to: DataType)
    requires from != to && (to.Decimal128? ==> to.scale >= 0)
    requires !(from.Int? && (to.Int? || to.Decimal128?)) && !(from.Timestamp? && to.Timestamp?)
    requires !((from.Decimal128? || from.Decimal256?) && to.Decimal128?)
    ensures IsLossless(from, to) <==> Carries(from, to)
  {
    hide InRange, Digits, UnitOk, UnitNanos, IntegerDigits, Bits, Pow10;
  }

  lemma RangesExact(fs: bool, fw: Width, ts: bool, tw: Width)
    ensures IsLossless(Int(fs, fw), Int(ts, tw)) <==> forall n :: InRange(fs, fw, n) ==> InRange(ts, tw, n)
  {
    var hi := MaxInt(fs, fw);
    var lo := if fs then -hi - 1 else 0;
    assert InRange(fs, fw, hi) && InRange(fs, fw, lo);
    if InRange(ts, tw, hi) && InRange(ts, tw, lo) {
      assert forall n | InRange(fs, fw, n) :: InRange(ts, tw, n);
    }
  }

  lemma DigitsExact(signed: bool, w: Width, p: int, s: nat)
    ensures IsLossless(Int(signed, w), Decimal128(p, s)) <==> forall n :: InRange(signed, w, n) ==> Digits(p, n * Pow10(s))
  {
    var d := IntegerDigits(w, signed);
    if p - s >= d {
      forall n | InRange(signed, w, n)
        ensures Digits(p, n * Pow10(s))
      {
        DigitsSuffice(signed, w, n);
        ScaledFits(n, d, s, p);
      }
    } else {
      var n := MaxInt(signed, w);
      assert InRange(signed, w, n);
      DigitsTight(signed, w);
      ScaledOverflows(n, d - 1, s, p);
    }
  }

  /** The table of digits is tight: the largest value of the type needs all of them. */
  lemma DigitsTight(signed: bool, w: Width)
    ensures MaxInt(signed, w) >= Pow10(IntegerDigits(w, signed) - 1)
  {
    Pow10Values();
    assert Pow10(3) == 10 * Pow10(2) && Pow10(5) == 10 * Pow10(4) && Pow10(10) == 10 * Pow10(9);
    assert Pow10(19) == 10 * Pow10(18) && Pow10(20) == 10 * Pow10(19);
  }

  lemma ScaledOverflows(n: nat, d: nat, s: nat, p: int)
    requires n >= Pow10(d) && p <= d + s
    ensures !Digits(p, n * Pow10(s))
  {
    if p >= 0 {
      Pow10Add(d, s);
      Pow10Monotone(p, d + s);
      ProductGrows(n, Pow10(d), Pow10(s));
    }
  }

  lemma PrecisionsExact(fp: nat, tp: int)
    ensures tp >= fp <==> forall n :: Digits(fp, n) ==> Digits(tp, n)
  {
    if tp >= fp {
      Pow10Monotone(fp, tp);
    } else {
      assert Digits(fp, Pow10(fp) - 1);
      if tp >= 0 {
        Pow10Monotone(tp + 1, fp);
        assert Pow10(tp + 1) == 10 * Pow10(tp);
      }
    }
  }

  lemma UnitsExact(f: TimeUnit, t: TimeUnit)
    ensures UnitOk(f, t) <==> UnitNanos(f) % UnitNanos(t) == 0 || (UnitNanos(f) == 1 && UnitNanos(t) == 1000)
  {
  }

  // ---------------------------------------------------------------- soundness

  lemma {:induction false} CastIsFaithful(can: CanCast, a: Array, to: DataType)
    requires WellFormed(a) && Convertible(can, TypeOf(a), to) && TableLike(to) && CastArray(a, to).Ok?
    requires a.Dict? || a.Leaf? || TypeOf(a) == to
    ensures Faithful(a, CastArray(a, to).value, to)
    decreases a
  {
    hide Convertible, Faithful, TableLike, Gather;
    if TypeOf(a) == to {
      SameIsFaithful(a);
    } else if a.Leaf? {
      LeafHasLeafType(a);
      assert IsLeaf(to) by { assert CastArray(a, to).Ok?; }
      LeafConvertible(can, a.t, to);
      LeafCastIsFaithful(a, to);
    } else {
      DictConvertible(can, TypeOf(a), to);
      DictCast(a, to);
      CastIsFaithful(can, a.values, to);
      DictIsFaithful(a, CastArray(a.values, to).value, to);
    }
  }

  lemma DictCast(a: Array, to: DataType)
    requires WellFormed(a) && a.Dict? && TypeOf(a) != to && CastArray(a, to).Ok?
    ensures WellFormed(a.values) && CastArray(a.values, to).Ok?
    ensures a.values.Dict? || a.values.Leaf? || TypeOf(a.values) == to
    ensures var v := CastArray(a.values, to).value;
      WellFormed(v) && KeysIn(a.keys, Len(v)) && CastArray(a, to) == Ok(Gather(v, a.keys))
  {
  }

  lemma DictIsFaithful(a: Array, v: Array, to: DataType)
    requires WellFormed(a) && a.Dict? && WellFormed(a.values) && WellFormed(v) && KeysIn(a.keys, Len(v)) && Faithful(a.values, v, to)
    ensures Faithful(a, Gather(v, a.keys), to)
  {
    GatherKeepsValues(v, a.keys);
    var g := Gather(v, a.keys);
    assert Len(a) == |a.keys| && KeysIn(a.keys, Len(a.values));
    hide Gather, Agrees, WellFormed, ValueAt;
    forall i | 0 <= i < Len(a)
      ensures Agrees(ValueAt(a, i), ValueAt(g, i))
    {
      DictRow(a, i);
      SameAgrees(VNull);
    }
  }

  lemma DictRow(a: Array, i: nat)
    requires WellFormed(a) && a.Dict? && i < |a.keys| && WellFormed(a.values) && KeysIn(a.keys, Len(a.values))
    ensures ValueAt(a, i) == if a.keys[i].None? then VNull else ValueAt(a.values, a.keys[i].value)
  {
  }

  lemma LeafCastIsFaithful(a: Array, to: DataType)
    requires WellFormed(a) && a.Leaf? && IsLossless(a.t, to) && TableLike(to) && a.t != to && CastArray(a, to).Ok?
    ensures Faithful(a, CastArray(a, to).value, to)
  {
    hide IsLossless, TableLike, ScalarOk, SameLeaf, CastScalar;
    var b := CastArray(a, to).value;
    forall i | 0 <= i < |a.items|
      ensures b.items[i].Some? ==> ScalarOk(to, b.items[i].value)
      ensures a.items[i].Some? <==> b.items[i].Some?
      ensures a.items[i].Some? ==> SameLeaf(a.t, a.items[i].value, to, b.items[i].value)
    {
      if a.items[i].Some? {
        LosslessKeepsMeaning(a.t, to, a.items[i].value);
      }
    }
    hide CastArray;
    assert WellFormed(b);
  }

  /**
   Soundness of the checker: a conversion it lets through either fails the
   batch or gives the target type with the same rows, the same nulls, and at
   every field-name path the same value.
   */
  lemma {:induction false} ConvertIsFaithful(can: CanCast, a: Array, to: DataType)
    requires WellFormed(a) && Convertible(can, TypeOf(a), to) && TableLike(to) && Convert(a, to).Ok?
    ensures Faithful(a, Convert(a, to).value, to)
    decreases (to), Depth(TypeOf(a)), KindChange(a, to), 2
  {
    hide Convertible, Faithful, WellFormed, TableLike, Convert;
    if TypeOf(a) == to {
      SameIsFaithful(a);
    } else {
      LeafHasLeafType(a);
      if a.Dict? {
        DictsAreFaithful(can, a, to);
      } else if a.Structs? && to.Struct? {
        StructsAreFaithful(can, a, to);
      } else if a.Lists? && to.List? {
        ListsAreFaithful(can, a, to);
      } else if a.Maps? && to.Map? {
        MapsAreFaithful(can, a, to);
      } else {
        LeavesAreFaithful(can, a, to);
      }
    }
  }

  lemma LeafHasLeafType(a: Array)
    requires WellFormed(a)
    ensures a.Leaf? ==> IsLeaf(TypeOf(a))
  {
  }

  lemma SameIsFaithful(a: Array)
    requires WellFormed(a)
    ensures Convert(a, TypeOf(a)) == Ok(a) && Faithful(a, a, TypeOf(a))
  {
  }

  lemma LeavesAreFaithful(can: CanCast, a: Array, to: DataType)
    requires WellFormed(a) && Convertible(can, TypeOf(a), to) && TableLike(to) && Convert(a, to).Ok?
    requires !a.Dict? && !SameShape(TypeOf(a), to) && TypeOf(a) != to
    ensures Faithful(a, Convert(a, to).value, to)
  {
    hide Convertible, Faithful, TableLike;
    LeafConvertible(can, TypeOf(a), to);
    assert a.Leaf?;
    assert Convert(a, to) == CastArray(a, to);
    CastIsFaithful(can, a, to);
  }

  lemma {:induction false} DictsAreFaithful(can: CanCast, a: Array, to: DataType)
    requires WellFormed(a) && Convertible(can, TypeOf(a), to) && TableLike(to) && Convert(a, to).Ok?
    requires a.Dict? && TypeOf(a) != to
    ensures Faithful(a, Convert(a, to).value, to)
    decreases (to), Depth(TypeOf(a)), KindChange(a, to), 0
  {
    hide Convertible, TableLike, WellFormed, Faithful, Convert, Gather;
    DictConvertible(can, TypeOf(a), to);
    Unpacked(a, to);
    if Unpacks(to) {
      ConvertIsFaithful(can, Gather(a.values, a.keys), to);
      SameRowsFaithful(a, Gather(a.values, a.keys), Convert(a, to).value, to);
    } else {
      CastIsFaithful(can, a, to);
    }
  }

  lemma Unpacked(a: Array, to: DataType)
    requires WellFormed(a) && a.Dict? && TypeOf(a) != to
    ensures WellFormed(a.values) && KeysIn(a.keys, Len(a.values))
    ensures var g := Gather(a.values, a.keys);
      && WellFormed(g) && TypeOf(g) == TypeOf(a.values) && Len(g) == Len(a)
      && (forall i | 0 <= i < Len(a) :: ValueAt(g, i) == ValueAt(a, i))
      && Convert(a, to) == if Unpacks(to) then Convert(g, to) else CastArray(a, to)
  {
    GatherKeepsValues(a.values, a.keys);
    hide Gather;
  }

  lemma SameRowsFaithful(a: Array, c: Array, b: Array, to: DataType)
    requires WellFormed(a) && WellFormed(c) && Len(c) == Len(a) && Faithful(c, b, to)
    requires forall i | 0 <= i < Len(a) :: ValueAt(c, i) == ValueAt(a, i)
    ensures Faithful(a, b, to)
  {
    hide WellFormed, ValueAt, Agrees;
  }

  lemma {:induction false} ListsAreFaithful(can: CanCast, a: Array, to: DataType)
    requires WellFormed(a) && Convertible(can, TypeOf(a), to) && TableLike(to) && Convert(a, to).Ok?
    requires a.Lists? && to.List? && TypeOf(a) != to
    ensures Faithful(a, Convert(a, to).value, to)
    decreases (to), Depth(TypeOf(a)), KindChange(a, to), 0
  {
    hide Convertible, WellFormed, TableLike, Faithful, Convert;
    var b := Convert(a, to).value;
    ListConvertible(can, TypeOf(a), to);
    ListResult(a, to);
    if a.kind == to.kind {
      ConvertIsFaithful(can, a.values, to.child.dtype);
      ListIsFaithful(a, b);
    } else {
      var c := Lists(to.kind, a.child, a.spans, a.values);
      if TypeOf(c) != to {
        ListConvertible(can, TypeOf(c), to);
      } else {
        SameConvertible(can, to);
      }
      ConvertIsFaithful(can, c, to);
      KindKeepsValues(a, c, b, to);
    }
  }

  lemma SameConvertible(can: CanCast, t: DataType)
    ensures Convertible(can, t, t)
  {
  }

  lemma ListResult(a: Array, to: DataType)
    requires WellFormed(a) && a.Lists? && to.List? && TypeOf(a) != to && TableLike(to) && Convert(a, to).Ok?
    ensures WellFormed(a.values) && TypeOf(a.values) == a.child.dtype && TableLike(to.child.dtype)
    ensures var b := Convert(a, to).value;
      if a.kind == to.kind then
        && Convert(a.values, to.child.dtype).Ok?
        && b == Lists(to.kind, to.child, a.spans, Convert(a.values, to.child.dtype).value)
      else
        var c := Lists(to.kind, a.child, a.spans, a.values);
        WellFormed(c) && Convert(c, to) == Ok(b)
  {
  }

  lemma KindKeepsValues(a: Array, c: Array, b: Array, to: DataType)
    requires WellFormed(a) && a.Lists? && c.Lists? && c.spans == a.spans && c.values == a.values
    requires WellFormed(c) && Faithful(c, b, to)
    ensures Faithful(a, b, to)
  {
    hide Agrees;
    assert forall i | 0 <= i < Len(a) :: ValueAt(a, i) == ValueAt(c, i);
  }

  lemma ListIsFaithful(a: Array, b: Array)
    requires WellFormed(a) && a.Lists? && b.Lists? && a.spans == b.spans
    requires WellFormed(a.values) && Faithful(a.values, b.values, b.child.dtype)
    ensures Faithful(a, b, TypeOf(b))
  {
    assert WellFormed(b);
    hide Agrees, Faithful;
    forall i | 0 <= i < Len(a)
      ensures Agrees(ValueAt(a, i), ValueAt(b, i))
    {
      hide WellFormed, ValueAt;
      ListRow(a, b, i);
    }
    assert Faithful(a, b, TypeOf(b)) by { RowsMakeFaithful(a, b); }
  }

  lemma RowsMakeFaithful(a: Array, b: Array)
    requires WellFormed(a) && WellFormed(b) && Len(a) == Len(b)
    requires forall i | 0 <= i < Len(a) :: Agrees(ValueAt(a, i), ValueAt(b, i))
    ensures Faithful(a, b, TypeOf(b))
  {
  }

  lemma ListRow(a: Array, b: Array, i: nat)
    requires WellFormed(a) && WellFormed(b) && a.Lists? && b.Lists? && a.spans == b.spans && i < |a.spans|
    requires WellFormed(a.values) && Faithful(a.values, b.values, b.child.dtype)
    ensures Agrees(ValueAt(a, i), ValueAt(b, i))
  {
    hide ValueAt, Agrees;
    var v, w := ValueAt(a, i), ValueAt(b, i);
    ListValue(a, i);
    ListValue(b, i);
    if a.spans[i].None? {
      SameAgrees(v);
    } else {
      var (lo, hi) := a.spans[i].value;
      RowsAgree(a.values, b.values, lo, hi);
      forall j | 0 <= j < hi - lo
        ensures Agrees(v.items[j], w.items[j])
      {
        assert v.items[j] == ValueAt(a.values, lo + j) && w.items[j] == ValueAt(b.values, lo + j);
      }
      ItemsAgree(v, w);
    }
  }

  lemma ListValue(a: Array, i: nat)
    requires WellFormed(a) && a.Lists? && i < |a.spans|
    ensures WellFormed(a.values)
    ensures a.spans[i].None? ==> ValueAt(a, i) == VNull
    ensures a.spans[i].Some? ==>
      var (lo, hi) := a.spans[i].value;
      && lo <= hi <= Len(a.values) && ValueAt(a, i).VList? && |ValueAt(a, i).items| == hi - lo
      && forall j | 0 <= j < hi - lo :: ValueAt(a, i).items[j] == ValueAt(a.values, lo + j)
  {
  }

  lemma ItemsAgree(v: Value, w: Value)
    requires v.VList? && w.VList? && |v.items| == |w.items| && forall j | 0 <= j < |v.items| :: Agrees(v.items[j], w.items[j])
    ensures Agrees(v, w)
  {
  }

  lemma {:induction false} MapsAreFaithful(can: CanCast, a: Array, to: DataType)
    requires WellFormed(a) && Convertible(can, TypeOf(a), to) && TableLike(to) && Convert(a, to).Ok?
    requires a.Maps? && to.Map? && TypeOf(a) != to
    ensures Faithful(a, Convert(a, to).value, to)
    decreases (to), Depth(TypeOf(a)), KindChange(a, to), 0
  {
    hide Convertible, Convert, WellFormed, TableLike, Faithful;
    var b := Convert(a, to).value;
    MapConvertible(can, TypeOf(a), to);
    MapResult(a, to);
    var kids := to.entries.dtype.children;
    ConvertIsFaithful(can, a.columns[0], kids[0].dtype);
    ConvertIsFaithful(can, a.columns[1], kids[1].dtype);
    MapIsFaithful(a, b);
  }

  lemma MapIsFaithful(a: Array, b: Array)
    requires WellFormed(a) && a.Maps? && b.Maps? && a.spans == b.spans && |a.columns| == |b.columns| == 2
    requires b.entries.dtype.Struct? && |b.entries.dtype.children| == 2
    requires forall j | 0 <= j < 2 ::
      WellFormed(a.columns[j]) && Faithful(a.columns[j], b.columns[j], b.entries.dtype.children[j].dtype)
    ensures Faithful(a, b, TypeOf(b))
  {
    hide Agrees, ValueAt;
    EntriesFit(a, b);
    assert EntriesFaithful(a, b);
    hide WellFormed, EntriesFaithful;
    forall i | 0 <= i < Len(a)
      ensures Agrees(ValueAt(a, i), ValueAt(b, i))
    {
      MapRow(a, b, i);
    }
  }

  lemma MapResult(a: Array, to: DataType)
    requires WellFormed(a) && a.Maps? && to.Map? && TypeOf(a) != to && TableLike(to) && Convert(a, to).Ok?
    ensures to.entries.dtype.Struct? && |to.entries.dtype.children| == 2 && |a.columns| == 2
    ensures a.entries.dtype.Struct? && |a.entries.dtype.children| == 2
    ensures var b, kids := Convert(a, to).value, to.entries.dtype.children;
      && b.Maps? && b.entries == to.entries && b.sorted == to.sorted && b.spans == a.spans && |b.columns| == 2
      && (forall j | 0 <= j < 2 ::
            && WellFormed(a.columns[j]) && TypeOf(a.columns[j]) == a.entries.dtype.children[j].dtype && TableLike(kids[j].dtype)
            && Convert(a.columns[j], kids[j].dtype).Ok? && b.columns[j] == Convert(a.columns[j], kids[j].dtype).value)
  {
    assert Convert(a, to) == ConvertMap(a, to);
    hide Convert;
    MapParts(a, to);
    hide WellFormed, TableLike;
    MapColumns(a, to);
  }

  lemma MapParts(a: Array, to: DataType)
    requires WellFormed(a) && a.Maps? && to.Map? && TableLike(to)
    ensures to.entries.dtype.Struct? && |to.entries.dtype.children| == 2 && |a.columns| == 2
    ensures a.entries.dtype.Struct? && |a.entries.dtype.children| == 2
    ensures forall j | 0 <= j < 2 ::
      && WellFormed(a.columns[j]) && TypeOf(a.columns[j]) == a.entries.dtype.children[j].dtype
      && TableLike(to.entries.dtype.children[j].dtype)
  {
  }

  lemma MapColumns(a: Array, to: DataType)
    requires WellFormed(a) && a.Maps? && to.Map? && |a.columns| == 2 && to.entries.dtype.Struct? && |to.entries.dtype.children| == 2
    requires WellFormed(a.columns[0]) && WellFormed(a.columns[1]) && ConvertMap(a, to).Ok?
    ensures var b, kids := ConvertMap(a, to).value, to.entries.dtype.children;
      && b.Maps? && b.entries == to.entries && b.sorted == to.sorted && b.spans == a.spans && |b.columns| == 2
      && forall j | 0 <= j < 2 ::
           Convert(a.columns[j], kids[j].dtype).Ok? && b.columns[j] == Convert(a.columns[j], kids[j].dtype).value
  {
    hide Convert, WellFormed;
    var kids := to.entries.dtype.children;
    var rs := seq(2, j requires 0 <= j < 2 => Convert(a.columns[j], kids[j].dtype));
    assert rs[0] == Convert(a.columns[0], kids[0].dtype) && rs[1] == Convert(a.columns[1], kids[1].dtype);
    assert ConvertMap(a, to).value.columns == Values(rs);
  }

  lemma EntriesFit(a: Array, b: Array)
    requires WellFormed(a) && a.Maps? && b.Maps? && a.spans == b.spans && |b.columns| == 2
    requires b.entries.dtype.Struct? && |b.entries.dtype.children| == 2
    requires forall j | 0 <= j < 2 ::
      WellFormed(b.columns[j]) && TypeOf(b.columns[j]) == b.entries.dtype.children[j].dtype && Len(b.columns[j]) == Len(a.columns[j])
    ensures WellFormed(b)
  {
  }

  ghost predicate EntriesFaithful(a: Array, b: Array) {
    && a.Maps? && b.Maps? && a.spans == b.spans && |a.columns| == |b.columns| == 2
    && forall j | 0 <= j < 2 ::
         && WellFormed(a.columns[j]) && WellFormed(b.columns[j]) && Len(a.columns[j]) == Len(b.columns[j])
         && Faithful(a.columns[j], b.columns[j], TypeOf(b.columns[j]))
  }

  lemma MapRow(a: Array, b: Array, i: nat)
    requires WellFormed(a) && WellFormed(b) && i < Len(a) == Len(b) && EntriesFaithful(a, b)
    ensures Agrees(ValueAt(a, i), ValueAt(b, i))
  {
    hide ValueAt, WellFormed, Agrees, Faithful;
    if a.spans[i].Some? {
      MapValue(a, i);
      MapValue(b, i);
      var (lo, hi) := a.spans[i].value;
      MapRowAgrees(ValueAt(a, i), ValueAt(b, i), a.columns[0], b.columns[0], a.columns[1], b.columns[1], lo, hi);
    } else {
      MapNull(a, i);
      MapNull(b, i);
      SameAgrees(VNull);
    }
  }

  /** `v` is made of the rows `lo..hi` of a key and a value column. */
  ghost predicate EntriesAt(v: Value, k: Array, x: Array, lo: nat, hi: nat) {
    && WellFormed(k) && WellFormed(x) && lo <= hi <= Len(k) == Len(x)
    && v.VMap? && |v.keys| == |v.vals| == hi - lo
    && forall j | 0 <= j < hi - lo :: v.keys[j] == ValueAt(k, lo + j) && v.vals[j] == ValueAt(x, lo + j)
  }

  lemma MapRowAgrees(v: Value, w: Value, k: Array, k': Array, x: Array, x': Array, lo: nat, hi: nat)
    requires EntriesAt(v, k, x, lo, hi) && EntriesAt(w, k', x', lo, hi) && Len(k) == Len(k')
    requires Faithful(k, k', TypeOf(k')) && Faithful(x, x', TypeOf(x'))
    ensures Agrees(v, w)
  {
    hide ValueAt, WellFormed, Agrees, Faithful;
    RowsAgree(k, k', lo, hi);
    RowsAgree(x, x', lo, hi);
    forall j | 0 <= j < hi - lo
      ensures Agrees(v.keys[j], w.keys[j]) && Agrees(v.vals[j], w.vals[j])
    {
      assert v.keys[j] == ValueAt(k, lo + j) && v.vals[j] == ValueAt(x, lo + j);
    }
    EntriesAgree(v, w);
  }

  lemma RowsAgree(x: Array, y: Array, lo: nat, hi: nat)
    requires WellFormed(x) && WellFormed(y) && Faithful(x, y, TypeOf(y)) && lo <= hi <= Len(x) && Len(y) == Len(x)
    ensures forall r | lo <= r < hi :: Agrees(ValueAt(x, r), ValueAt(y, r))
  {
    hide ValueAt, WellFormed, Agrees;
  }

  lemma MapNull(a: Array, i: nat)
    requires WellFormed(a) && a.Maps? && i < |a.spans| && a.spans[i].None?
    ensures ValueAt(a, i) == VNull
  {
  }

  lemma SameAgrees(v: Value)
    ensures Agrees(v, v)
  {
  }

  lemma MapValue(a: Array, i: nat)
    requires WellFormed(a) && a.Maps? && i < |a.spans| && a.spans[i].Some?
    ensures |a.columns| == 2 && WellFormed(a.columns[0]) && WellFormed(a.columns[1])
    ensures EntriesAt(ValueAt(a, i), a.columns[0], a.columns[1], a.spans[i].value.0, a.spans[i].value.1)
  {
  }

  lemma EntriesAgree(v: Value, w: Value)
    requires v.VMap? && w.VMap? && |v.keys| == |w.keys| == |v.vals| == |w.vals|
    requires forall j | 0 <= j < |v.keys| :: Agrees(v.keys[j], w.keys[j]) && Agrees(v.vals[j], w.vals[j])
    ensures Agrees(v, w)
  {
  }

  lemma {:induction false} StructsAreFaithful(can: CanCast, a: Array, to: DataType)
    requires WellFormed(a) && Convertible(can, TypeOf(a), to) && TableLike(to) && Convert(a, to).Ok?
    requires a.Structs? && to.Struct? && TypeOf(a) != to
    ensures Faithful(a, Convert(a, to).value, to)
    decreases (to), Depth(TypeOf(a)), KindChange(a, to), 1
  {
    hide Convertible, Convert, WellFormed, TableLike, Faithful, Agrees, ValueAt;
    var b := Convert(a, to).value;
    StructResult(a, to);
    StructConvertible(can, TypeOf(a), to);
    forall j | 0 <= j < |to.children|
      ensures WellFormed(b.columns[j]) && Len(b.columns[j]) == |a.valid|
      ensures ColumnAgrees(a, Find(a.fields, to.children[j].name), b.columns[j])
    {
      StructColumn(can, a, to, j);
    }
    hide ColumnAgrees;
    assert WellFormed(b) by { StructWellFormed(b); }
    forall i | 0 <= i < |a.valid|
      ensures Agrees(ValueAt(a, i), ValueAt(b, i))
    {
      StructRow(a, b, i);
    }
    assert Faithful(a, b, to) by { RowsMakeFaithful(a, b); }
  }

  lemma StructWellFormed(b: Array)
    requires b.Structs? && ColumnsFit(b.fields, b.columns, |b.valid|) && forall j | 0 <= j < |b.columns| :: WellFormed(b.columns[j])
    ensures WellFormed(b)
  {
  }

  /** The column a target field is made of. */
  function SourceColumn(a: Array, kid: Field): Result<Array, CastError>
    requires WellFormed(a) && a.Structs?
  {
    match Find(a.fields, kid.name)
    case Some(i) => Convert(a.columns[i], kid.dtype)
    case None => Ok(NullArray(kid.dtype, |a.valid|))
  }

  lemma StructResult(a: Array, to: DataType)
    requires WellFormed(a) && a.Structs? && to.Struct? && TypeOf(a) != to && Convert(a, to).Ok?
    ensures |a.columns| == |a.fields|
    ensures var b := Convert(a, to).value;
      && b.Structs? && b.fields == to.children && b.valid == a.valid && ColumnsFit(b.fields, b.columns, |b.valid|)
      && forall j | 0 <= j < |to.children| :: SourceColumn(a, to.children[j]) == Ok(b.columns[j])
  {
    var kids := to.children;
    var rs := seq(|kids|, j requires 0 <= j < |kids| =>
      match Find(a.fields, kids[j].name)
      case Some(i) => Convert(a.columns[i], kids[j].dtype)
      case None => Ok(NullArray(kids[j].dtype, |a.valid|)));
    var b := Convert(a, to).value;
    assert b == Structs(kids, Values(rs), a.valid);
    forall j | 0 <= j < |kids|
      ensures SourceColumn(a, kids[j]) == Ok(b.columns[j])
    {
      assert rs[j].Ok? && b.columns[j] == rs[j].value;
    }
  }

  lemma {:induction false} StructColumn(can: CanCast, a: Array, to: DataType, j: nat)
    requires WellFormed(a) && Convertible(can, TypeOf(a), to) && TableLike(to) && a.Structs? && to.Struct? && TypeOf(a) != to
    requires j < |to.children| && SourceColumn(a, to.children[j]).Ok?
    ensures var c := SourceColumn(a, to.children[j]).value;
      WellFormed(c) && Len(c) == |a.valid| && |a.columns| == |a.fields| && ColumnAgrees(a, Find(a.fields, to.children[j].name), c)
    decreases (to), 0, 0, 0
  {
    hide Convertible, Convert, Agrees, ValueAt;
    var kid := to.children[j];
    StructConvertible(can, TypeOf(a), to);
    FoundIsSame(to.children, j);
    match Find(a.fields, kid.name) {
      case Some(i) =>
        assert FieldKnown(can, a.fields[i], to.children);
        ConvertIsFaithful(can, a.columns[i], kid.dtype);
      case None =>
        TableLikeMaps(kid.dtype);
        NullArrayIsNull(kid.dtype, |a.valid|);
    }
  }

  lemma FoundIsSame(fields: seq<Field>, j: nat)
    requires DistinctNames(fields) && j < |fields|
    ensures Find(fields, fields[j].name) == Some(j)
  {
  }

  ghost predicate ColumnAgrees(a: Array, i: Option<nat>, c: Array)
    requires WellFormed(a) && WellFormed(c) && a.Structs? && Len(c) == |a.valid| && (i.Some? ==> i.value < |a.columns|)
  {
    forall r | 0 <= r < Len(c) ::
      if i.Some? then Agrees(ValueAt(a.columns[i.value], r), ValueAt(c, r)) else ValueAt(c, r) == VNull
  }

  lemma StructRow(a: Array, b: Array, i: nat)
    requires WellFormed(a) && WellFormed(b) && a.Structs? && b.Structs? && a.valid == b.valid && i < |a.valid|
    requires forall k | 0 <= k < |a.fields| :: Find(b.fields, a.fields[k].name).Some?
    requires forall j | 0 <= j < |b.fields| :: ColumnAgrees(a, Find(a.fields, b.fields[j].name), b.columns[j])
    ensures Agrees(ValueAt(a, i), ValueAt(b, i))
  {
    if a.valid[i] {
      StructValue(a, i);
      StructValue(b, i);
      hide Agrees, FieldAgrees, ValueAt, WellFormed, ColumnAgrees;
      var fs, gs := ValueAt(a, i).fields, ValueAt(b, i).fields;
      forall k | 0 <= k < |fs|
        ensures HasField(gs, fs[k].name)
      {
        var j := Find(b.fields, a.fields[k].name).value;
        assert gs[j].name == fs[k].name;
      }
      forall j | 0 <= j < |gs|
        ensures FieldAgrees(fs, gs[j])
      {
        OneFieldAgrees(a, b, i, j, fs);
      }
      FieldsAgree(fs, gs);
    }
  }

  lemma StructValue(a: Array, i: nat)
    requires WellFormed(a) && a.Structs? && i < |a.valid| && a.valid[i]
    ensures |a.columns| == |a.fields| && forall k | 0 <= k < |a.columns| :: WellFormed(a.columns[k]) && Len(a.columns[k]) == |a.valid|
    ensures var v := ValueAt(a, i);
      && v.VStruct? && |v.fields| == |a.fields|
      && forall k | 0 <= k < |a.fields| :: v.fields[k] == FieldValue(a.fields[k].name, ValueAt(a.columns[k], i))
  {
  }

  lemma OneFieldAgrees(a: Array, b: Array, i: nat, j: nat, fs: seq<FieldValue>)
    requires WellFormed(a) && WellFormed(b) && a.Structs? && b.Structs? && a.valid == b.valid && i < |a.valid|
    requires j < |b.fields| && ColumnAgrees(a, Find(a.fields, b.fields[j].name), b.columns[j])
    requires |fs| == |a.fields| && forall k | 0 <= k < |fs| :: fs[k] == FieldValue(a.fields[k].name, ValueAt(a.columns[k], i))
    ensures FieldAgrees(fs, FieldValue(b.fields[j].name, ValueAt(b.columns[j], i)))
  {
    LookupFinds(a.fields, fs, b.fields[j].name);
    hide Agrees, ValueAt, Lookup, Find;
  }

  lemma FieldsAgree(fs: seq<FieldValue>, gs: seq<FieldValue>)
    requires forall k | 0 <= k < |fs| :: HasField(gs, fs[k].name)
    requires forall j | 0 <= j < |gs| :: FieldAgrees(fs, gs[j])
    ensures Agrees(VStruct(fs), VStruct(gs))
  {
    hide HasField, SameLeaf;
    var v, w := VStruct(fs), VStruct(gs);
    assert forall j | 0 <= j < |w.fields| :: FieldAgrees(v.fields, w.fields[j]);
  }

  lemma {:induction false} LookupFinds(fields: seq<Field>, fs: seq<FieldValue>, name: string)
    requires |fields| == |fs| && forall i | 0 <= i < |fs| :: fs[i].name == fields[i].name
    ensures Lookup(fs, name) == match Find(fields, name) case Some(i) => Some(fs[i].value) case None => None
  {
    if fs != [] && fs[0].name != name {
      LookupFinds(fields[1..], fs[1..], name);
    }
  }

  // ---------------------------------------------------------------- completeness

  /** The instant of a timestamp fits the 64 bits of the target's unit. */
  predicate InstantFits(from: DataType, to: DataType, x: Scalar) {
    from.Timestamp? && to.Timestamp? && x.N? ==>
      -0x8000_0000_0000_0000 * UnitNanos(to.unit) <= Instant(from.unit, x.n) <= 0x7FFF_FFFF_FFFF_FFFF * UnitNanos(to.unit)
  }

  /**
   What can make an accepted conversion fail, looked up in the input: an
   instant out of range, items too many for 32-bit offsets, a null where the
   table requires a value.
   */
  predicate Fits(a: Array, to: DataType)
    requires WellFormed(a)
    decreases (to), Depth(TypeOf(a)), 0
  {
    TypeOf(a) == to ||
    match a
    case Leaf(t, items) => forall i | 0 <= i < |items| && items[i].Some? :: InstantFits(t, to, items[i].value)
    case Dict(_, keys, values) =>
      if Unpacks(to) then GatherKeepsValues(values, keys); Fits(Gather(values, keys), to) else Fits(values, to)
    case Structs(_, _, _) => to.Struct? && forall j | 0 <= j < |to.children| :: ChildFits(a, to.children[j])
    case Lists(kind, child, _, values) =>
      && to.List? && (kind != to.kind && to.kind == Small ==> Len(values) <= MAX_I32)
      && (child == to.child || Supplies(values, to.child)) && Fits(values, to.child.dtype)
    case Maps(_, _, _, columns) =>
      && to.Map? && to.entries.dtype.Struct? && |to.entries.dtype.children| == 2
      && forall j | 0 <= j < |to.entries.dtype.children| :: EntryFits(columns[j], to.entries.dtype.children[j])
  }

  predicate ChildFits(a: Array, child: Field)
    requires WellFormed(a) && a.Structs?
    decreases (child), 0, 0
  {
    match Find(a.fields, child.name)
    case Some(k) =>
      && Fits(a.columns[k], child.dtype)
      && (child.nullable || forall i | 0 <= i < |a.valid| && a.valid[i] :: !IsNull(a.columns[k], i))
    case None => true
  }

  predicate EntryFits(c: Array, child: Field)
    requires WellFormed(c)
    decreases (child), 0, 0
  {
    Fits(c, child.dtype) && Supplies(c, child)
  }

  lemma NullByValue(a: Array, i: nat)
    requires WellFormed(a) && i < Len(a)
    ensures IsNull(a, i) <==> ValueAt(a, i) == VNull
    decreases a
  {
    match a {
      case Dict(_, keys, values) =>
        if keys[i].Some? {
          NullByValue(values, keys[i].value);
        }
      case _ =>
    }
  }

  lemma NullAgrees(v: Value, w: Value)
    requires Agrees(v, w)
    ensures v == VNull <==> w == VNull
  {
  }

  /** A faithful column has its nulls where the input has them. */
  lemma NullsKept(a: Array, b: Array, to: DataType)
    requires WellFormed(a) && Faithful(a, b, to)
    ensures Len(a) == Len(b) && TypeOf(b) == to && WellFormed(b) && forall i | 0 <= i < Len(a) :: IsNull(a, i) <==> IsNull(b, i)
  {
    hide WellFormed, ValueAt, Agrees, IsNull;
    forall i | 0 <= i < Len(a)
      ensures IsNull(a, i) <==> IsNull(b, i)
    {
      NullByValue(a, i);
      NullByValue(b, i);
      NullAgrees(ValueAt(a, i), ValueAt(b, i));
    }
  }

  lemma InstantExact(from: DataType, to: DataType, x: Scalar)
    requires IsLossless(from, to) && ScalarOk(from, x) && TableLike(to) && from != to
    ensures CastScalar(from, to, x).Some? <==> InstantFits(from, to, x)
  {
    if from.Timestamp? {
      ScaleExact(from.unit, to.unit, x.n);
    } else {
      LosslessNeverFails(from, to, x);
    }
  }

  /** A rescaled timestamp fits 64 bits exactly when its instant does. */
  lemma ScaleExact(f: TimeUnit, t: TimeUnit, n: int)
    requires UnitOk(f, t) && InRange(true, W64, n)
    ensures InRange(true, W64, if Rank(f) <= Rank(t) then n * (UnitNanos(f) / UnitNanos(t)) else TruncDiv(n, UnitNanos(t) / UnitNanos(f)))
      <==> -0x8000_0000_0000_0000 * UnitNanos(t) <= Instant(f, n) <= 0x7FFF_FFFF_FFFF_FFFF * UnitNanos(t)
  {
    if Rank(f) <= Rank(t) {
      InstantKept(f, t, n);
      ScaledBounds(t, n * (UnitNanos(f) / UnitNanos(t)));
    } else {
      assert f == Nanosecond && t == Microsecond;
    }
  }

  lemma ScaledBounds(t: TimeUnit, n: int)
    ensures InRange(true, W64, n) <==> -0x8000_0000_0000_0000 * UnitNanos(t) <= Instant(t, n) <= 0x7FFF_FFFF_FFFF_FFFF * UnitNanos(t)
  {
    match t {
      case Second =>
      case Millisecond =>
      case Microsecond =>
      case Nanosecond =>
    }
  }

  lemma LeafCastExact(a: Array, to: DataType)
    requires WellFormed(a) && a.Leaf? && IsLossless(a.t, to) && TableLike(to) && a.t != to
    ensures CastArray(a, to).Ok? <==> Fits(a, to)
  {
    hide TableLike, InstantFits, ScalarOk, CastScalar;
    assert IsLeaf(to);
    hide IsLossless;
    forall i | 0 <= i < |a.items| && a.items[i].Some?
      ensures CastScalar(a.t, to, a.items[i].value).Some? <==> InstantFits(a.t, to, a.items[i].value)
    {
      InstantExact(a.t, to, a.items[i].value);
    }
  }

  lemma {:induction false} CastExact(can: CanCast, a: Array, to: DataType)
    requires WellFormed(a) && Convertible(can, TypeOf(a), to) && TableLike(to) && !Unpacks(to)
    requires a.Dict? || a.Leaf? || TypeOf(a) == to
    ensures CastArray(a, to).Ok? <==> Fits(a, to)
    decreases a
  {
    hide Convertible, Faithful, TableLike, Gather;
    if TypeOf(a) == to {
    } else if a.Leaf? {
      LeafHasLeafType(a);
      LeafConvertible(can, a.t, to);
      LeafCastExact(a, to);
    } else {
      DictConvertible(can, TypeOf(a), to);
      DictOrLeaf(can, a.values, to);
      CastExact(can, a.values, to);
      if CastArray(a.values, to).Ok? {
        CastIsFaithful(can, a.values, to);
        NullsKept(a.values, CastArray(a.values, to).value, to);
      }
    }
  }

  lemma DictOrLeaf(can: CanCast, a: Array, to: DataType)
    requires WellFormed(a) && Convertible(can, TypeOf(a), to) && !Unpacks(to)
    ensures a.Dict? || a.Leaf? || TypeOf(a) == to
  {
    if TypeOf(a) != to && !a.Dict? {
      if !SameShape(TypeOf(a), to) {
        LeafConvertible(can, TypeOf(a), to);
      }
    }
  }

  /**
   Completeness of the converter: what the checker accepts is converted unless
   an instant, an offset or a required value does not fit.
   */
  lemma {:induction false} ConvertExact(can: CanCast, a: Array, to: DataType)
    requires WellFormed(a) && Convertible(can, TypeOf(a), to) && TableLike(to)
    ensures Convert(a, to).Ok? <==> Fits(a, to)
    decreases (to), Depth(TypeOf(a)), KindChange(a, to), 2
  {
    hide Convertible, WellFormed, TableLike, Convert, Fits;
    if TypeOf(a) == to {
      SameFits(a);
    } else {
      LeafHasLeafType(a);
      if a.Dict? {
        DictsExact(can, a, to);
      } else if a.Structs? && to.Struct? {
        StructsExact(can, a, to);
      } else if a.Lists? && to.List? {
        ListsExact(can, a, to);
      } else if a.Maps? && to.Map? {
        MapsExact(can, a, to);
      } else {
        LeavesExact(can, a, to);
      }
    }
  }

  lemma SameFits(a: Array)
    requires WellFormed(a)
    ensures Convert(a, TypeOf(a)).Ok? && Fits(a, TypeOf(a))
  {
  }

  lemma LeavesExact(can: CanCast, a: Array, to: DataType)
    requires WellFormed(a) && Convertible(can, TypeOf(a), to) && TableLike(to)
    requires !a.Dict? && !SameShape(TypeOf(a), to) && TypeOf(a) != to
    ensures Convert(a, to).Ok? <==> Fits(a, to)
  {
    LeafConvertible(can, TypeOf(a), to);
    hide Convertible, TableLike, Fits;
    assert a.Leaf? && !Unpacks(to);
    assert Convert(a, to) == CastArray(a, to);
    CastExact(can, a, to);
  }

  lemma {:induction false} DictsExact(can: CanCast, a: Array, to: DataType)
    requires WellFormed(a) && Convertible(can, TypeOf(a), to) && TableLike(to)
    requires a.Dict? && TypeOf(a) != to
    ensures Convert(a, to).Ok? <==> Fits(a, to)
    decreases (to), Depth(TypeOf(a)), KindChange(a, to), 0
  {
    hide Convertible, TableLike, WellFormed, Convert, Gather, Fits;
    DictConvertible(can, TypeOf(a), to);
    Unpacked(a, to);
    if Unpacks(to) {
      DictFits(a, to);
      ConvertExact(can, Gather(a.values, a.keys), to);
    } else {
      CastExact(can, a, to);
    }
  }

  lemma DictFits(a: Array, to: DataType)
    requires WellFormed(a) && a.Dict? && TypeOf(a) != to && Unpacks(to)
    ensures WellFormed(Gather(a.values, a.keys)) && (Fits(a, to) <==> Fits(Gather(a.values, a.keys), to))
  {
    GatherKeepsValues(a.values, a.keys);
  }

  lemma {:induction false} ListsExact(can: CanCast, a: Array, to: DataType)
    requires WellFormed(a) && Convertible(can, TypeOf(a), to) && TableLike(to)
    requires a.Lists? && to.List? && TypeOf(a) != to
    ensures Convert(a, to).Ok? <==> Fits(a, to)
    decreases (to), Depth(TypeOf(a)), KindChange(a, to), 0
  {
    hide Convertible, WellFormed, TableLike, Convert, Fits, Faithful;
    ListConvertible(can, TypeOf(a), to);
    ListParts(a, to);
    if a.kind == to.kind {
      ConvertExact(can, a.values, to.child.dtype);
      if Convert(a.values, to.child.dtype).Ok? {
        ConvertIsFaithful(can, a.values, to.child.dtype);
        NullsKept(a.values, Convert(a.values, to.child.dtype).value, to.child.dtype);
        SuppliesKept(a.values, Convert(a.values, to.child.dtype).value, to.child);
      }
      ItemsConvert(a, to);
    } else {
      var c := Lists(to.kind, a.child, a.spans, a.values);
      if TypeOf(c) != to {
        ListConvertible(can, TypeOf(c), to);
        ListParts(c, to);
      } else {
        SameConvertible(can, to);
        SameFits(c);
        SameFits(a.values);
      }
      ConvertExact(can, c, to);
      OffsetsConvert(a, c, to);
    }
  }

  lemma ListParts(a: Array, to: DataType)
    requires WellFormed(a) && a.Lists? && to.List? && TypeOf(a) != to && TableLike(to)
    ensures WellFormed(a.values) && TypeOf(a.values) == a.child.dtype && TableLike(to.child.dtype)
    ensures WellFormed(Lists(to.kind, a.child, a.spans, a.values))
    ensures Fits(a, to) <==>
      && (a.kind != to.kind && to.kind == Small ==> Len(a.values) <= MAX_I32)
      && (a.child == to.child || Supplies(a.values, to.child)) && Fits(a.values, to.child.dtype)
  {
    hide TableLike;
    assert TableLike(to.child.dtype) by { ListTableLike(to); }
  }

  lemma ListTableLike(t: DataType)
    requires t.List? && TableLike(t)
    ensures TableLike(t.child.dtype)
  {
  }

  lemma SuppliesKept(a: Array, b: Array, child: Field)
    requires Len(a) == Len(b) && forall i | 0 <= i < Len(a) :: IsNull(a, i) <==> IsNull(b, i)
    ensures Supplies(a, child) <==> Supplies(b, child)
  {
    hide IsNull;
  }

  lemma ItemsConvert(a: Array, to: DataType)
    requires WellFormed(a) && a.Lists? && to.List? && TypeOf(a) != to && a.kind == to.kind && !to.kind.Fixed? && WellFormed(a.values)
    requires Convert(a.values, to.child.dtype).Ok? ==>
      var v := Convert(a.values, to.child.dtype).value;
      TypeOf(v) == to.child.dtype && Len(v) == Len(a.values)
    ensures Convert(a, to).Ok? <==>
      Convert(a.values, to.child.dtype).Ok? && Supplies(Convert(a.values, to.child.dtype).value, to.child)
  {
    assert Convert(a, to) == ConvertList(a, to);
    assert SpansIn(a.spans, Len(a.values));
    hide Convert, WellFormed, Supplies;
  }

  lemma OffsetsConvert(a: Array, c: Array, to: DataType)
    requires WellFormed(a) && a.Lists? && to.List? && a.kind != to.kind && !to.kind.Fixed?
    requires c == Lists(to.kind, a.child, a.spans, a.values) && WellFormed(c)
    ensures Convert(a, to).Ok? <==> (to.kind == Small ==> Len(a.values) <= MAX_I32) && Convert(c, to).Ok?
  {
    assert Convert(a, to) == ConvertList(a, to);
    hide Convert, WellFormed;
  }

  lemma {:induction false} MapsExact(can: CanCast, a: Array, to: DataType)
    requires WellFormed(a) && Convertible(can, TypeOf(a), to) && TableLike(to)
    requires a.Maps? && to.Map? && TypeOf(a) != to
    ensures Convert(a, to).Ok? <==> Fits(a, to)
    decreases (to), Depth(TypeOf(a)), KindChange(a, to), 0
  {
    hide Convertible, Convert, WellFormed, TableLike, Faithful, Fits, Supplies;
    MapConvertible(can, TypeOf(a), to);
    MapParts(a, to);
    EntriesSameLength(a);
    MapFits(a, to);
    var kids := to.entries.dtype.children;
    EntryExact(can, a.columns[0], kids[0]);
    EntryExact(can, a.columns[1], kids[1]);
    EntriesConvert(a, to);
  }

  /** The entry column converts to a column that fits the field. */
  ghost predicate EntryConverts(c: Array, child: Field)
    requires WellFormed(c)
  {
    var r := Convert(c, child.dtype);
    r.Ok? && TypeOf(r.value) == child.dtype && Len(r.value) == Len(c) && Supplies(r.value, child)
  }

  lemma {:induction false} EntryExact(can: CanCast, c: Array, child: Field)
    requires WellFormed(c) && Convertible(can, TypeOf(c), child.dtype) && TableLike(child.dtype)
    ensures EntryConverts(c, child) <==> EntryFits(c, child)
    decreases (child.dtype), Depth(TypeOf(c)), KindChange(c, child.dtype), 3
  {
    hide Convertible, Convert, WellFormed, TableLike, Faithful, Fits, Supplies;
    ConvertExact(can, c, child.dtype);
    if Convert(c, child.dtype).Ok? {
      ConvertIsFaithful(can, c, child.dtype);
      NullsKept(c, Convert(c, child.dtype).value, child.dtype);
      SuppliesKept(c, Convert(c, child.dtype).value, child);
    }
  }

  lemma EntriesSameLength(a: Array)
    requires WellFormed(a) && a.Maps?
    ensures |a.columns| == 2 && Len(a.columns[0]) == Len(a.columns[1])
  {
  }

  lemma MapFits(a: Array, to: DataType)
    requires WellFormed(a) && a.Maps? && to.Map? && TypeOf(a) != to && to.entries.dtype.Struct? && |to.entries.dtype.children| == 2
    requires |a.columns| == 2 && WellFormed(a.columns[0]) && WellFormed(a.columns[1])
    ensures Fits(a, to) <==>
      EntryFits(a.columns[0], to.entries.dtype.children[0]) && EntryFits(a.columns[1], to.entries.dtype.children[1])
  {
    hide EntryFits;
  }

  lemma EntriesConvert(a: Array, to: DataType)
    requires WellFormed(a) && a.Maps? && to.Map? && TypeOf(a) != to && to.entries.dtype.Struct? && |to.entries.dtype.children| == 2
    requires |a.columns| == 2 && WellFormed(a.columns[0]) && WellFormed(a.columns[1]) && Len(a.columns[0]) == Len(a.columns[1])
    ensures EntryConverts(a.columns[0], to.entries.dtype.children[0]) && EntryConverts(a.columns[1], to.entries.dtype.children[1])
      <==> Convert(a, to).Ok?
  {
    assert Convert(a, to) == ConvertMap(a, to);
    hide Convert, WellFormed, EntryConverts, ConvertMap;
    var kids := to.entries.dtype.children;
    var rs := [Convert(a.columns[0], kids[0].dtype), Convert(a.columns[1], kids[1].dtype)];
    MapConverts(a, to, rs);
    TwoEntries(a, kids, rs);
  }

  lemma MapConverts(a: Array, to: DataType, rs: seq<Result<Array, CastError>>)
    requires WellFormed(a) && a.Maps? && to.Map? && to.entries.dtype.Struct? && |to.entries.dtype.children| == 2
    requires |a.columns| == |rs| == 2 && WellFormed(a.columns[0]) && WellFormed(a.columns[1])
    requires forall j | 0 <= j < 2 :: rs[j] == Convert(a.columns[j], to.entries.dtype.children[j].dtype)
    ensures var kids := to.entries.dtype.children;
      ConvertMap(a, to).Ok? <==>
        AllOk(rs) && ColumnsFit(kids, Values(rs), Len(a.columns[0])) && forall j | 0 <= j < |rs| :: Supplies(Values(rs)[j], kids[j])
  {
    hide Convert, WellFormed, Supplies, ColumnsFit;
    var kids := to.entries.dtype.children;
    assert seq(2, j requires 0 <= j < 2 => Convert(a.columns[j], kids[j].dtype)) == rs;
  }

  lemma TwoEntries(a: Array, kids: seq<Field>, rs: seq<Result<Array, CastError>>)
    requires a.Maps? && |a.columns| == 2 && WellFormed(a.columns[0]) && WellFormed(a.columns[1]) && Len(a.columns[0]) == Len(a.columns[1])
    requires |kids| == |rs| == 2 && forall j | 0 <= j < 2 :: rs[j] == Convert(a.columns[j], kids[j].dtype)
    ensures EntryConverts(a.columns[0], kids[0]) && EntryConverts(a.columns[1], kids[1]) <==>
      AllOk(rs) && ColumnsFit(kids, Values(rs), Len(a.columns[0])) && forall j | 0 <= j < |rs| :: Supplies(Values(rs)[j], kids[j])
  {
    hide Convert, WellFormed, Supplies;
  }

  lemma {:induction false} StructsExact(can: CanCast, a: Array, to: DataType)
    requires WellFormed(a) && Convertible(can, TypeOf(a), to) && TableLike(to)
    requires a.Structs? && to.Struct? && TypeOf(a) != to
    ensures Convert(a, to).Ok? <==> Fits(a, to)
    decreases (to), Depth(TypeOf(a)), KindChange(a, to), 1
  {
    hide Convertible, Convert, WellFormed, TableLike, Fits;
    forall j | 0 <= j < |to.children|
      ensures ChildConverts(a, to.children[j]) <==> ChildFits(a, to.children[j])
    {
      ChildExact(can, a, to, j);
    }
    hide ChildConverts, ChildFits;
    StructFits(a, to);
    ChildrenConvert(a, to);
  }

  lemma StructFits(a: Array, to: DataType)
    requires WellFormed(a) && a.Structs? && to.Struct? && TypeOf(a) != to
    ensures Fits(a, to) <==> forall j | 0 <= j < |to.children| :: ChildFits(a, to.children[j])
  {
    hide ChildFits;
  }

  /** The column made for a target field fits it. */
  ghost predicate ChildConverts(a: Array, child: Field)
    requires WellFormed(a) && a.Structs?
  {
    var r := SourceColumn(a, child);
    && r.Ok? && TypeOf(r.value) == child.dtype && Len(r.value) == |a.valid|
    && (child.nullable || forall i | 0 <= i < |a.valid| && a.valid[i] :: !IsNull(r.value, i))
  }

  lemma {:induction false} ChildExact(can: CanCast, a: Array, to: DataType, j: nat)
    requires WellFormed(a) && Convertible(can, TypeOf(a), to) && TableLike(to) && a.Structs? && to.Struct? && TypeOf(a) != to
    requires j < |to.children|
    ensures ChildConverts(a, to.children[j]) <==> ChildFits(a, to.children[j])
    decreases (to), 0, 0, 0
  {
    hide Convertible, Convert, Fits, Faithful;
    var kid := to.children[j];
    StructConvertible(can, TypeOf(a), to);
    FoundIsSame(to.children, j);
    assert FieldSupplied(kid, a.fields);
    match Find(a.fields, kid.name) {
      case Some(i) =>
        assert FieldKnown(can, a.fields[i], to.children);
        var c := a.columns[i];
        ConvertExact(can, c, kid.dtype);
        if Convert(c, kid.dtype).Ok? {
          ConvertIsFaithful(can, c, kid.dtype);
          NullsKept(c, Convert(c, kid.dtype).value, kid.dtype);
        }
      case None =>
        TableLikeMaps(kid.dtype);
        NullArrayIsNull(kid.dtype, |a.valid|);
    }
  }

  lemma ChildrenConvert(a: Array, to: DataType)
    requires WellFormed(a) && a.Structs? && to.Struct? && TypeOf(a) != to
    ensures (forall j | 0 <= j < |to.children| :: ChildConverts(a, to.children[j])) <==> Convert(a, to).Ok?
  {
    assert Convert(a, to) == ConvertStruct(a, to);
    hide Convert, WellFormed, IsNull;
    var kids := to.children;
    var rs := seq(|kids|, j requires 0 <= j < |kids| =>
      match Find(a.fields, kids[j].name)
      case Some(i) => Convert(a.columns[i], kids[j].dtype)
      case None => Ok(NullArray(kids[j].dtype, |a.valid|)));
    forall j | 0 <= j < |kids|
      ensures rs[j] == SourceColumn(a, kids[j])
    {
    }
    assert (forall j | 0 <= j < |kids| :: ChildConverts(a, kids[j])) ==> AllOk(rs);
    if AllOk(rs) {
      forall j | 0 <= j < |kids|
        ensures rs[j].Ok? && Values(rs)[j] == rs[j].value && SourceColumn(a, kids[j]) == Ok(Values(rs)[j])
      {
      }
    }
  }

  // ---------------------------------------------------------------- integers as decimals of any scale

  /** The decimal with digits `m` and scale `s` is the integer `n`. */
  predicate StandsFor(m: int, s: int, n: int) {
    if s >= 0 then m == n * Pow10(s) else m * Pow10(-s) == n
  }

  predicate KeepsInteger(signed: bool, w: Width, p: nat, s: int, n: int)
    requires InRange(signed, w, n)
  {
    var r := CastScalar(Int(signed, w), Decimal128(p, s), N(n));
    r.Some? && r.value.N? && StandsFor(r.value.n, s, n)
  }

  /**
   What the digit rule admits is never refused, and keeps an integer exactly
   when the scale is not negative or the digits it drops are zeros.
   */
  lemma DigitsKept(signed: bool, w: Width, p: nat, s: int, n: int)
    requires IsLossless(Int(signed, w), Decimal128(p, s)) && InRange(signed, w, n)
    ensures CastScalar(Int(signed, w), Decimal128(p, s), N(n)).Some?
    ensures KeepsInteger(signed, w, p, s, n) <==> s >= 0 || n % Pow10(-s) == 0
  {
    DigitsSuffice(signed, w, n);
    var d := IntegerDigits(w, signed);
    if s >= 0 {
      ScaledFits(n, d, s, p);
    } else {
      QuotientFits(n, d, -s, p);
      MultipleIsExact(n, Pow10(-s));
    }
  }

  lemma QuotientFits(n: int, d: nat, k: nat, p: nat)
    requires -Pow10(d) < n < Pow10(d) && p + k >= d
    ensures Digits(p, TruncDiv(n, Pow10(k)))
  {
    Pow10Monotone(d, p + k);
    Pow10Add(p, k);
    QuotientBelow(if n >= 0 then n else -n, Pow10(p), Pow10(k));
  }

  lemma QuotientBelow(n: nat, a: int, b: int)
    requires b > 0 && n < a * b
    ensures 0 <= n / b < a
  {
    assert n == (n / b) * b + n % b;
    FactorBelow(n / b, a, b);
  }

  lemma FactorBelow(x: int, a: int, b: int)
    requires b > 0 && x * b < a * b
    ensures x < a
  {
  }

  lemma ProductGrows(x: int, a: int, b: int)
    requires x >= a && b > 0
    ensures x * b >= a * b
  {
    assert x * b - a * b == (x - a) * b;
  }

  lemma MultipleIsExact(n: int, b: int)
    requires b > 0
    ensures TruncDiv(n, b) * b == n <==> n % b == 0
  {
    var a := if n >= 0 then n else -n;
    assert a == (a / b) * b + a % b;
    assert TruncDiv(n, b) * b == if n >= 0 then (a / b) * b else -((a / b) * b);
    if n < 0 {
      NegatedRemainder(a, b);
    }
  }

  lemma NegatedRemainder(a: int, b: int)
    requires b > 0
    ensures -a % b == 0 <==> a % b == 0
  {
    var q, r := a / b, a % b;
    var q', r' := -a / b, -a % b;
    assert a == q * b + r && -a == q' * b + r';
    assert (q + q') * b == -(r + r');
    if r == 0 || r' == 0 {
      SmallMultiple(q + q', b, r + r');
    }
  }

  lemma SmallMultiple(x: int, b: int, r: int)
    requires b > 0 && 0 <= r < b && x * b == -r
    ensures r == 0
  {
    if x <= -1 {
      ProductGrows(-1, x, b);
    } else if x >= 1 {
      ProductGrows(x, 1, b);
    }
  }

  /** Without the table's restriction the allowlist is not lossless: every negative scale drops a digit of some integer of every type. */
  lemma NegativeScaleLosesDigits(signed: bool, w: Width, p: nat, s: int)
    requires IsLossless(Int(signed, w), Decimal128(p, s))
    ensures (forall n | InRange(signed, w, n) :: KeepsInteger(signed, w, p, s, n)) <==> s >= 0
  {
    hide *;
    if s >= 0 {
      forall n | InRange(signed, w, n)
        ensures KeepsInteger(signed, w, p, s, n)
      {
        DigitsKept(signed, w, p, s, n);
      }
    } else {
      OneIsLost(signed, w, -s);
      DigitsKept(signed, w, p, s, 1);
    }
  }

  lemma OneIsLost(signed: bool, w: Width, k: nat)
    requires k > 0
    ensures InRange(signed, w, 1) && 1 % Pow10(k) != 0
  {
    assert Pow10(k) == 10 * Pow10(k - 1) && Pow10(k) >= 10;
  }

  // ---------------------------------------------------------------- whole batches

  const OP_COLUMN := "_gs_op"

  /** The declared columns without the operation column, unless it is asked for. */
  function Written(input: seq<Field>, includeOp: bool): seq<Field> {
    if input == [] then []
    else (if includeOp || input[0].name != OP_COLUMN then [input[0]] else []) + Written(input[1..], includeOp)
  }

  predicate NestsArb(t: DataType) {
    match t
    case Struct(children) => exists j :: 0 <= j < |children| && (children[j].arb || NestsArb(children[j].dtype))
    case List(_, child) => child.arb || NestsArb(child.dtype)
    case Map(entries, _) => entries.arb || NestsArb(entries.dtype)
    case Dictionary(_, value) => NestsArb(value)
    case _ => false
  }

  datatype ColumnSource = Input(name: string) | NullColumn

  /** How decimal_arb columns are written: which table types take them, and the rendered column. */
  datatype Arb = Arb(takes: (Field, DataType) -> bool, render: (Array, Field, DataType) -> Result<Array, CastError>)

  /** A table column is fed by the written column of its name, or is optional. */
  predicate ColumnOk(can: CanCast, arb: Arb, written: seq<Field>, t: Field) {
    match Find(written, t.name)
    case Some(i) =>
      if written[i].arb then arb.takes(written[i], t.dtype)
      else !NestsArb(written[i].dtype) && Convertible(can, written[i].dtype, t.dtype)
    case None => t.nullable
  }

  predicate Accepts(can: CanCast, arb: Arb, written: seq<Field>, target: seq<Field>) {
    && AllKnown(written, target)
    && (forall j | 0 <= j < |target| :: ColumnOk(can, arb, written, target[j]))
  }

  function SourceOf(written: seq<Field>, t: Field): ColumnSource {
    if Find(written, t.name).Some? then Input(t.name) else NullColumn
  }

  predicate SourcesFor(written: seq<Field>, target: seq<Field>, sources: seq<ColumnSource>) {
    |sources| == |target| && forall j | 0 <= j < |target| :: sources[j] == SourceOf(written, target[j])
  }

  predicate AllKnown(written: seq<Field>, target: seq<Field>) {
    forall i | 0 <= i < |written| :: Find(target, written[i].name).Some?
  }

  method UnknownColumns(written: seq<Field>, target: seq<Field>) returns (unknown: seq<Problem>)
    ensures unknown == [] <==> AllKnown(written, target)
  {
    unknown := [];
    for i := 0 to |written|
      invariant unknown == [] <==> forall k | 0 <= k < i :: Find(target, written[k].name).Some?
    {
      if Find(target, written[i].name).None? {
        unknown := unknown + [UnknownField([written[i].name])];
      }
    }
  }

  /** The problems of one table column. */
  method CheckColumn(can: CanCast, arb: Arb, written: seq<Field>, t: Field, before: seq<Problem>) returns (problems: seq<Problem>)
    ensures before <= problems && (problems == before <==> ColumnOk(can, arb, written, t))
  {
    hide Convertible, NestsArb;
    problems := before;
    match Find(written, t.name) {
      case Some(i) =>
        if written[i].arb {
          if !arb.takes(written[i], t.dtype) {
            problems := problems + [Lossy([t.name])];
          }
        } else if NestsArb(written[i].dtype) {
          problems := problems + [Lossy([t.name])];
        } else {
          problems := CheckConversion(can, [t.name], written[i].dtype, t.dtype, problems);
        }
      case None =>
        if !t.nullable {
          problems := problems + [MissingRequired([t.name])];
        }
    }
  }

  /** `BatchProjector::try_new`. */
  method TryNew(can: CanCast, arb: Arb, input: seq<Field>, target: seq<Field>, includeOp: bool)
    returns (r: Result<seq<ColumnSource>, seq<Problem>>)
    ensures r.Ok? <==> Accepts(can, arb, Written(input, includeOp), target)
    ensures r.Ok? ==> SourcesFor(Written(input, includeOp), target, r.value)
  {
    hide Convertible, AllKnown, ColumnOk;
    var written := Written(input, includeOp);
    var unknown := UnknownColumns(written, target);
    if unknown != [] {
      return Err(unknown);
    }
    var problems: seq<Problem>, sources := [], [];
    for j := 0 to |target|
      invariant problems == [] <==> forall k | 0 <= k < j :: ColumnOk(can, arb, written, target[k])
      invariant SourcesFor(written, target[..j], sources)
    {
      var more := CheckColumn(can, arb, written, target[j], problems);
      assert [] <= problems <= more;
      problems := more;
      sources := sources + [SourceOf(written, target[j])];
    }
    assert target[..|target|] == target;
    r := if problems == [] then Ok(sources) else Err(problems);
  }

  datatype Batch = Batch(fields: seq<Field>, columns: seq<Array>, rows: nat)

  predicate BatchOk(b: Batch) {
    ColumnsFit(b.fields, b.columns, b.rows) && forall j | 0 <= j < |b.columns| :: WellFormed(b.columns[j])
  }

  function ConvertColumn(arb: Arb, a: Array, f: Field, to: DataType): Result<Array, CastError>
    requires WellFormed(a)
  {
    if NestsArb(f.dtype) then Err(CastError)
    else if !f.arb then Convert(a, to)
    else match arb.render(a, f, to)
      case Ok(c) => if WellFormed(c) then Convert(c, to) else Err(CastError)
      case Err(e) => Err(e)
  }

  /** The table column for a source; the batch may lack a column the declared schema had. */
  function ProjectColumn(arb: Arb, b: Batch, source: ColumnSource, to: DataType): Result<Array, CastError>
    requires BatchOk(b)
  {
    match source
    case NullColumn => Ok(NullArray(to, b.rows))
    case Input(name) =>
      match Find(b.fields, name)
      case Some(i) => ConvertColumn(arb, b.columns[i], b.fields[i], to)
      case None => Err(CastError)
  }

  /** `project`: all columns convert and form a batch of the table's schema. */
  function Project(arb: Arb, b: Batch, sources: seq<ColumnSource>, target: seq<Field>): Result<Batch, CastError>
    requires BatchOk(b) && |sources| == |target|
  {
    var rs := seq(|target|, j requires 0 <= j < |target| => ProjectColumn(arb, b, sources[j], target[j].dtype));
    if AllOk(rs) && ColumnsFit(target, Values(rs), b.rows) && NullsAllowed(target, Values(rs), seq(b.rows, _ => true))
    then Ok(Batch(target, Values(rs), b.rows)) else Err(CastError)
  }

  /** The same type up to decimal_arb marks on nested fields, which batches may carry and the declared schema not. */
  predicate SameButMarks(d: DataType, e: DataType)
    decreases d
  {
    match (d, e)
    case (Struct(cs), Struct(es)) => |cs| == |es| && forall j | 0 <= j < |cs| :: SameFieldButMarks(cs[j], es[j])
    case (List(k, c), List(k', c')) => k == k' && SameFieldButMarks(c, c')
    case (Map(c, s), Map(c', s')) => s == s' && SameFieldButMarks(c, c')
    case (Dictionary(k, v), Dictionary(k', v')) => k == k' && SameButMarks(v, v')
    case _ => d == e
  }

  predicate SameFieldButMarks(f: Field, g: Field)
    decreases f
  {
    g == Field(f.name, g.dtype, f.nullable, f.meta, g.arb) && SameButMarks(f.dtype, g.dtype)
  }

  /** Without marks nothing is left to differ. */
  lemma {:induction false} UnmarkedIsSame(d: DataType, e: DataType)
    requires SameButMarks(d, e) && !NestsArb(d) && !NestsArb(e)
    ensures d == e
    decreases d
  {
    match d {
      case Struct(cs) =>
        forall j | 0 <= j < |cs|
          ensures cs[j] == e.children[j]
        {
          assert SameFieldButMarks(cs[j], e.children[j]) && !cs[j].arb && !e.children[j].arb;
          UnmarkedIsSame(cs[j].dtype, e.children[j].dtype);
        }
        assert cs == e.children;
      case List(_, c) => UnmarkedIsSame(c.dtype, e.child.dtype);
      case Map(c, _) => UnmarkedIsSame(c.dtype, e.entries.dtype);
      case Dictionary(_, v) => UnmarkedIsSame(v, e.value);
      case _ =>
    }
  }

  /**
   For a projector built from the declared schema `input` and any batch: a
   projected batch has the table's columns and the batch's rows, a column the
   declared schema does not feed is null, and one it feeds holds the values of
   the batch column of its name when that has the declared type up to marks.
   */
  lemma ProjectIsFaithful(can: CanCast, arb: Arb, input: seq<Field>, b: Batch, target: seq<Field>, includeOp: bool, sources: seq<ColumnSource>)
    requires BatchOk(b) && Accepts(can, arb, Written(input, includeOp), target)
    requires forall j | 0 <= j < |target| :: TableLike(target[j].dtype)
    requires SourcesFor(Written(input, includeOp), target, sources)
    ensures var r := Project(arb, b, sources, target);
      r.Ok? ==>
        && r.value.fields == target && r.value.rows == b.rows && |r.value.columns| == |target|
        && forall j | 0 <= j < |target| :: ColumnKept(Written(input, includeOp), b, target[j], r.value.columns[j])
  {
    var written := Written(input, includeOp);
    var r := Project(arb, b, sources, target);
    if r.Ok? {
      forall j | 0 <= j < |target|
        ensures ColumnKept(written, b, target[j], r.value.columns[j])
      {
        var t, c := target[j], r.value.columns[j];
        assert ColumnOk(can, arb, written, t) && Ok(c) == ProjectColumn(arb, b, SourceOf(written, t), t.dtype);
        hide Project, Accepts, SourcesFor;
        ColumnIsKept(can, arb, written, b, t, c);
      }
    }
  }

  lemma ColumnIsKept(can: CanCast, arb: Arb, written: seq<Field>, b: Batch, t: Field, c: Array)
    requires BatchOk(b) && ColumnOk(can, arb, written, t) && TableLike(t.dtype)
    requires ProjectColumn(arb, b, SourceOf(written, t), t.dtype) == Ok(c)
    ensures ColumnKept(written, b, t, c)
  {
    hide Convertible, Convert, TableLike, WellFormed, Faithful, NestsArb, SameButMarks;
    match Find(written, t.name) {
      case Some(i) =>
        var k := Find(b.fields, t.name).value;
        if !written[i].arb && !b.fields[k].arb && SameButMarks(written[i].dtype, b.fields[k].dtype) {
          UnmarkedIsSame(written[i].dtype, b.fields[k].dtype);
          ConvertIsFaithful(can, b.columns[k], t.dtype);
        }
      case None =>
        TableLikeMaps(t.dtype);
        NullArrayIsNull(t.dtype, b.rows);
    }
  }

  ghost predicate ColumnKept(written: seq<Field>, b: Batch, t: Field, c: Array)
    requires BatchOk(b)
  {
    match Find(written, t.name)
    case None => WellFormed(c) && Len(c) == b.rows && forall i | 0 <= i < b.rows :: ValueAt(c, i) == VNull
    case Some(i) =>
      Find(b.fields, t.name).Some?
      && var k := Find(b.fields, t.name).value;
         && !NestsArb(b.fields[k].dtype)
         && (!written[i].arb && !b.fields[k].arb && SameButMarks(written[i].dtype, b.fields[k].dtype) ==>
               Faithful(b.columns[k], c, t.dtype))
  }

  /** A column that is not decimal_arb text has the declared type up to marks, if the batch has it. */
  predicate IsDeclared(written: seq<Field>, b: Batch, t: Field) {
    match (Find(written, t.name), Find(b.fields, t.name))
    case (Some(i), Some(k)) => !written[i].arb && !b.fields[k].arb && SameButMarks(written[i].dtype, b.fields[k].dtype)
    case _ => true
  }

  /** The batch has the column, without nested marks, with values that fit and none missing where one is required. */
  predicate ColumnFits(written: seq<Field>, b: Batch, t: Field)
    requires BatchOk(b)
  {
    match Find(written, t.name)
    case None => true
    case Some(_) =>
      match Find(b.fields, t.name)
      case Some(k) => !NestsArb(b.fields[k].dtype) && Fits(b.columns[k], t.dtype) && Supplies(b.columns[k], t)
      case None => false
  }

  /** A projector projects exactly the batches whose columns fit the table. */
  lemma ProjectExact(can: CanCast, arb: Arb, input: seq<Field>, b: Batch, target: seq<Field>, includeOp: bool, sources: seq<ColumnSource>)
    requires BatchOk(b) && Accepts(can, arb, Written(input, includeOp), target)
    requires forall j | 0 <= j < |target| :: TableLike(target[j].dtype)
    requires forall j | 0 <= j < |target| :: IsDeclared(Written(input, includeOp), b, target[j])
    requires SourcesFor(Written(input, includeOp), target, sources)
    ensures Project(arb, b, sources, target).Ok? <==> forall j | 0 <= j < |target| :: ColumnFits(Written(input, includeOp), b, target[j])
  {
    hide Project, ColumnFits, IsDeclared, TableLike, ColumnOk, ColumnProjects, BatchOk, Written;
    forall j | 0 <= j < |target|
      ensures ColumnProjects(arb, b, sources[j], target[j]) <==> ColumnFits(Written(input, includeOp), b, target[j])
    {
      assert sources[j] == SourceOf(Written(input, includeOp), target[j]);
      ColumnExact(can, arb, Written(input, includeOp), b, target[j]);
    }
    ColumnsProject(arb, b, sources, target);
  }

  ghost predicate ColumnProjects(arb: Arb, b: Batch, source: ColumnSource, t: Field)
    requires BatchOk(b)
  {
    var r := ProjectColumn(arb, b, source, t.dtype);
    r.Ok? && TypeOf(r.value) == t.dtype && Len(r.value) == b.rows && Supplies(r.value, t)
  }

  lemma ColumnsProject(arb: Arb, b: Batch, sources: seq<ColumnSource>, target: seq<Field>)
    requires BatchOk(b) && |sources| == |target|
    ensures Project(arb, b, sources, target).Ok? <==> forall j | 0 <= j < |target| :: ColumnProjects(arb, b, sources[j], target[j])
  {
    hide BatchOk, ProjectColumn, IsNull;
    var rs := seq(|target|, j requires 0 <= j < |target| => ProjectColumn(arb, b, sources[j], target[j].dtype));
    var valid := seq(b.rows, _ => true);
    assert (forall j | 0 <= j < |target| :: ColumnProjects(arb, b, sources[j], target[j])) ==> AllOk(rs);
    if AllOk(rs) {
      forall j | 0 <= j < |target|
        ensures rs[j].Ok? && Values(rs)[j] == rs[j].value && ProjectColumn(arb, b, sources[j], target[j].dtype) == Ok(Values(rs)[j])
      {
      }
      if ColumnsFit(target, Values(rs), b.rows) {
        RequiredHaveNoNulls(target, Values(rs), b.rows);
      }
    }
  }

  lemma RequiredHaveNoNulls(fields: seq<Field>, columns: seq<Array>, n: nat)
    requires ColumnsFit(fields, columns, n)
    ensures NullsAllowed(fields, columns, seq(n, _ => true)) <==> forall j | 0 <= j < |columns| :: Supplies(columns[j], fields[j])
  {
    hide IsNull;
    var valid := seq(n, _ => true);
    if NullsAllowed(fields, columns, valid) {
      forall j, i | 0 <= j < |columns| && !fields[j].nullable && 0 <= i < Len(columns[j])
        ensures !IsNull(columns[j], i)
      {
        assert valid[i];
      }
    }
  }

  lemma ColumnExact(can: CanCast, arb: Arb, written: seq<Field>, b: Batch, t: Field)
    requires BatchOk(b) && ColumnOk(can, arb, written, t) && TableLike(t.dtype) && IsDeclared(written, b, t)
    ensures ColumnProjects(arb, b, SourceOf(written, t), t) <==> ColumnFits(written, b, t)
  {
    hide Convertible, Convert, TableLike, WellFormed, Faithful, NestsArb, SameButMarks, Fits, Supplies;
    match Find(written, t.name) {
      case Some(i) =>
        if Find(b.fields, t.name).Some? {
          var k := Find(b.fields, t.name).value;
          if !NestsArb(b.fields[k].dtype) {
            UnmarkedIsSame(written[i].dtype, b.fields[k].dtype);
            EntryExact(can, b.columns[k], t);
          }
        }
      case None =>
        TableLikeMaps(t.dtype);
        NullArrayIsNull(t.dtype, b.rows);
        assert Supplies(NullArray(t.dtype, b.rows), t) by { NullableSupplies(NullArray(t.dtype, b.rows), t); }
    }
  }

  lemma NullableSupplies(c: Array, field: Field)
    requires field.nullable
    ensures Supplies(c, field)
  {
  }

  // ---------------------------------------------------------------- auto-created tables

  datatype StoreError = NestedDecimalArb | NullType

  /** Maps an input type to one Iceberg can store. */
  function StorableType(t: DataType): Result<DataType, StoreError> {
    match t
    case Int(false, W64) => Ok(Decimal128(20, 0))
    case Decimal256(_, _) => Ok(Text(Utf8))
    case Timestamp(_, tz) => Ok(Timestamp(Microsecond, if tz.Some? then Some(0) else None))
    case Date64 => Ok(Date32)
    case Time32(_) => Ok(Time64(Microsecond))
    case Time64(_) => Ok(Time64(Microsecond))
    case Float16 => Ok(Float32)
    case Dictionary(_, value) => StorableType(value)
    case List(kind, child) =>
      (match StorableChild(child)
       case Ok(c) => Ok(List(kind, c))
       case Err(e) => Err(e))
    case Map(entries, sorted) =>
      (match StorableChild(entries)
       case Ok(c) => Ok(Map(c, sorted))
       case Err(e) => Err(e))
    case Struct(children) =>
      var rs := seq(|children|, j requires 0 <= j < |children| => StorableChild(children[j]));
      if forall j | 0 <= j < |rs| :: rs[j].Ok? then Ok(Struct(seq(|rs|, j requires 0 <= j < |rs| => rs[j].value)))
      else Err(FirstError(rs))
    case Null => Err(NullType)
    case _ => Ok(t)
  }

  function StorableChild(child: Field): Result<Field, StoreError> {
    if child.arb then Err(NestedDecimalArb)
    else match StorableType(child.dtype)
      case Ok(t) => Ok(Field(child.name, t, child.nullable, 0, false))
      case Err(e) => Err(e)
  }

  function FirstError(rs: seq<Result<Field, StoreError>>): StoreError
    requires exists j :: 0 <= j < |rs| && rs[j].Err?
  {
    if rs[0].Err? then rs[0].error
    else
      assert exists j :: 0 <= j < |rs[1..]| && rs[1..][j].Err? by {
        var j :| 0 <= j < |rs| && rs[j].Err?;
        assert rs[1..][j - 1].Err?;
      }
      FirstError(rs[1..])
  }

  /**
   `u` is the Arrow type of the table column created for the storable type
   `t`: small integers widen, text and bytes take one form, lists become
   plain lists, and fields get ids. Element and entry names may change, and
   struct field names are distinct.
   */
  predicate StoredAs(t: DataType, u: DataType) {
    match t
    case Int(s, w) => u == (if w == W64 || (w == W32 && !s) then Int(true, W64) else Int(true, W32)) && (w == W64 ==> s)
    case Text(_) => u == Text(Utf8)
    case Bytes(_) => u == Bytes(LargeBinary)
    case List(_, child) => u.List? && u.kind == Small && StoredAs(child.dtype, u.child.dtype)
    case Map(entries, _) =>
      && u.Map? && entries.dtype.Struct? && u.entries.dtype.Struct?
      && |entries.dtype.children| == |u.entries.dtype.children| == 2
      && forall j | 0 <= j < |entries.dtype.children| :: StoredAs(entries.dtype.children[j].dtype, u.entries.dtype.children[j].dtype)
    case Struct(children) =>
      && u.Struct? && DistinctNames(u.children) && |children| == |u.children|
      && forall j | 0 <= j < |children| ::
           && children[j].name == u.children[j].name && children[j].nullable == u.children[j].nullable
           && StoredAs(children[j].dtype, u.children[j].dtype)
    case Float32 => u == t
    case Float64 => u == t
    case Decimal128(_, s) => u == t
    case FixedBytes(_) => u == t
    case Date32 => u == t
    case Time64(unit) => u == t
    case Timestamp(_, _) => u == t
    case Bool => u == t
    case _ => false
  }

  /** No time of day anywhere, other than one already in microseconds. */
  predicate NoTimeOfDay(t: DataType) {
    match t
    case Time32(_) => false
    case Time64(u) => u == Microsecond
    case Dictionary(_, value) => NoTimeOfDay(value)
    case List(_, child) => NoTimeOfDay(child.dtype)
    case Map(entries, _) => NoTimeOfDay(entries.dtype)
    case Struct(children) => forall j | 0 <= j < |children| :: NoTimeOfDay(children[j].dtype)
    case _ => true
  }

  ghost predicate CastsLossless(can: CanCast) {
    forall from, to | IsLossless(from, to) :: can(from, to)
  }

  /** What storing a struct type does to its fields. */
  lemma StorableKids(t: DataType, j: nat)
    requires t.Struct? && StorableType(t).Ok? && j < |t.children|
    ensures var s := StorableType(t).value;
      && s.Struct? && |s.children| == |t.children| && StorableType(t.children[j].dtype).Ok?
      && s.children[j] == Field(t.children[j].name, StorableType(t.children[j].dtype).value, t.children[j].nullable, 0, false)
  {
    var rs := seq(|t.children|, k requires 0 <= k < |t.children| => StorableChild(t.children[k]));
    assert rs[j] == StorableChild(t.children[j]);
  }

  /** Table types hold only times in microseconds. */
  lemma {:induction false} TableTimes(t: DataType, u: DataType)
    requires MapsOk(t) && StorableType(t).Ok? && StoredAs(StorableType(t).value, u)
    ensures NoTimeOfDay(u)
    decreases t
  {
    hide MapsOk, StoredAs, StorableType, NoTimeOfDay;
    match t {
      case Dictionary(_, value) =>
        StoredWrapped(t, u);
        TableTimes(value, u);
      case List(_, child) =>
        StoredWrapped(t, u);
        TableTimes(child.dtype, u.child.dtype);
        ListTimes(u);
      case Map(entries, _) =>
        StoredMap(t, u, 0);
        StoredMap(t, u, 1);
        TableTimes(entries.dtype.children[0].dtype, u.entries.dtype.children[0].dtype);
        TableTimes(entries.dtype.children[1].dtype, u.entries.dtype.children[1].dtype);
        MapTimes(u);
      case Struct(children) =>
        StoredStruct(t, u);
        forall j | 0 <= j < |u.children|
          ensures NoTimeOfDay(u.children[j].dtype)
        {
          OwnField(t, u, j);
          TableTimes(children[j].dtype, u.children[j].dtype);
        }
        StructTimes(u);
      case _ => LeafTimes(t, u);
    }
  }

  lemma StoredWrapped(t: DataType, u: DataType)
    requires MapsOk(t) && StorableType(t).Ok? && StoredAs(StorableType(t).value, u)
    ensures t.Dictionary? ==> MapsOk(t.value) && StorableType(t.value) == StorableType(t)
    ensures t.List? ==>
      && u.List? && u.kind == Small && MapsOk(t.child.dtype) && StorableType(t.child.dtype).Ok?
      && StoredAs(StorableType(t.child.dtype).value, u.child.dtype)
  {
  }

  lemma ListTimes(t: DataType)
    requires t.List?
    ensures NoTimeOfDay(t) <==> NoTimeOfDay(t.child.dtype)
  {
  }

  lemma LeafTimes(t: DataType, u: DataType)
    requires IsLeaf(t) && StorableType(t).Ok? && StoredAs(StorableType(t).value, u)
    ensures NoTimeOfDay(u)
  {
    hide StorableType, StoredAs;
    if t.Int? {
      OwnIntType(t, u);
    } else {
      LeafIsStored(t, u);
    }
  }

  /** An auto-created table accepts its own input exactly when the input has no time of day that needs rescaling. */
  lemma {:induction false} AutoCreateExact(can: CanCast, t: DataType, u: DataType)
    requires CastsLossless(can) && MapsOk(t) && StorableType(t).Ok? && StoredAs(StorableType(t).value, u)
    ensures Convertible(can, t, u) <==> NoTimeOfDay(t)
    decreases t, 2
  {
    hide MapsOk, StoredAs, StorableType, Convertible, CastsLossless;
    TableTimes(t, u);
    StoredWrapped(t, u);
    match t {
      case Dictionary(_, value) =>
        AutoCreateExact(can, value, u);
        if t != u {
          DictConvertible(can, t, u);
        } else {
          SameConvertible(can, t);
        }
      case List(kind, child) =>
        AutoCreateExact(can, child.dtype, u.child.dtype);
        if t != u {
          ListConvertible(can, t, u);
        } else {
          SameConvertible(can, t);
        }
      case Map(entries, _) => AutoCreateMap(can, t, u);
      case Struct(children) => AutoCreateStruct(can, t, u);
      case _ => AutoCreateLeaf(can, t, u);
    }
  }

  lemma AutoCreateLeaf(can: CanCast, t: DataType, u: DataType)
    requires CastsLossless(can) && IsLeaf(t) && StorableType(t).Ok? && StoredAs(StorableType(t).value, u)
    ensures Convertible(can, t, u) <==> NoTimeOfDay(t)
  {
    hide StoredAs, StorableType, IsLossless, Convertible, NoTimeOfDay;
    OwnTableType(t, u);
    if t == u {
      SameConvertible(can, t);
    } else {
      LeafConvertible(can, t, u);
    }
  }

  lemma OwnIntType(t: DataType, u: DataType)
    requires t.Int? && StorableType(t).Ok? && StoredAs(StorableType(t).value, u)
    ensures (u.Int? || u.Decimal128?) && (t == u || IsLossless(t, u))
  {
    if t == Int(false, W64) {
      assert u == Decimal128(20, 0);
    } else {
      assert u.Int? && u.signed;
    }
  }

  lemma OwnTableType(t: DataType, u: DataType)
    requires IsLeaf(t) && StorableType(t).Ok? && StoredAs(StorableType(t).value, u)
    ensures IsLeaf(u)
    ensures if t == u then NoTimeOfDay(t) else IsLossless(t, u) <==> NoTimeOfDay(t)
  {
    hide StorableType, StoredAs;
    if t.Int? {
      OwnIntType(t, u);
    } else {
      LeafIsStored(t, u);
    }
  }

  /** The table column of a leaf other than an integer. */
  function LeafColumn(t: DataType): DataType {
    match t
    case Timestamp(_, tz) => Timestamp(Microsecond, if tz.Some? then Some(0) else None)
    case Time32(_) => Time64(Microsecond)
    case Time64(_) => Time64(Microsecond)
    case Decimal256(_, _) => Text(Utf8)
    case Text(_) => Text(Utf8)
    case Bytes(_) => Bytes(LargeBinary)
    case Date64 => Date32
    case Float16 => Float32
    case _ => t
  }

  lemma LeafIsStored(t: DataType, u: DataType)
    requires IsLeaf(t) && !t.Int? && StorableType(t).Ok? && StoredAs(StorableType(t).value, u)
    ensures u == LeafColumn(t)
  {
    var s := StorableType(t).value;
    assert s == match t
                case Text(_) => t
                case Bytes(_) => t
                case _ => LeafColumn(t);
    hide StorableType;
  }

  lemma {:induction false} AutoCreateMap(can: CanCast, t: DataType, u: DataType)
    requires CastsLossless(can) && MapsOk(t) && StorableType(t).Ok? && StoredAs(StorableType(t).value, u) && t.Map?
    requires NoTimeOfDay(u)
    ensures Convertible(can, t, u) <==> NoTimeOfDay(t)
    decreases t, 0
  {
    hide NoTimeOfDay, Convertible, CastsLossless, MapsOk, StoredAs, StorableType;
    StoredMap(t, u, 0);
    MapTimes(t);
    var kids, kids' := t.entries.dtype.children, u.entries.dtype.children;
    forall j | 0 <= j < 2
      ensures Convertible(can, kids[j].dtype, kids'[j].dtype) <==> NoTimeOfDay(kids[j].dtype)
    {
      StoredMap(t, u, j);
      AutoCreateExact(can, kids[j].dtype, kids'[j].dtype);
    }
    if t != u {
      MapConvertible(can, t, u);
    } else {
      SameConvertible(can, t);
    }
  }

  lemma StoredStruct(t: DataType, u: DataType)
    requires t.Struct? && StorableType(t).Ok? && StoredAs(StorableType(t).value, u)
    ensures u.Struct? && |u.children| == |t.children|
  {
  }

  lemma StructTimes(t: DataType)
    requires t.Struct?
    ensures NoTimeOfDay(t) <==> forall j | 0 <= j < |t.children| :: NoTimeOfDay(t.children[j].dtype)
  {
  }

  /** What storing a map type does to its key and its value. */
  lemma StoredMap(t: DataType, u: DataType, j: nat)
    requires t.Map? && MapsOk(t) && StorableType(t).Ok? && StoredAs(StorableType(t).value, u) && j < 2
    ensures MapPair(t, u)
    ensures var kid, kid' := t.entries.dtype.children[j].dtype, u.entries.dtype.children[j].dtype;
      MapsOk(kid) && StorableType(kid).Ok? && StoredAs(StorableType(kid).value, kid')
  {
    StorableKids(t.entries.dtype, j);
    StorableKids(t.entries.dtype, 1 - j);
  }

  lemma MapTimes(t: DataType)
    requires t.Map? && t.entries.dtype.Struct? && |t.entries.dtype.children| == 2
    ensures NoTimeOfDay(t) <==> NoTimeOfDay(t.entries.dtype.children[0].dtype) && NoTimeOfDay(t.entries.dtype.children[1].dtype)
  {
    StructTimes(t.entries.dtype);
  }

  lemma {:induction false} AutoCreateStruct(can: CanCast, t: DataType, u: DataType)
    requires CastsLossless(can) && MapsOk(t) && StorableType(t).Ok? && StoredAs(StorableType(t).value, u) && t.Struct?
    requires NoTimeOfDay(u)
    ensures Convertible(can, t, u) <==> NoTimeOfDay(t)
    decreases t, 1
  {
    hide NoTimeOfDay, Convertible, CastsLossless, MapsOk, FieldSupplied, FieldKnown, StoredAs, StorableType;
    StoredStruct(t, u);
    StructTimes(t);
    var kids, kids' := t.children, u.children;
    forall j | 0 <= j < |kids|
      ensures kids'[j].name == kids[j].name && FieldSupplied(kids'[j], kids)
      ensures FieldKnown(can, kids[j], kids') <==> NoTimeOfDay(kids[j].dtype)
    {
      OwnFieldKnown(can, t, u, j);
    }
    if t != u {
      StructConvertible(can, t, u);
    } else {
      SameConvertible(can, t);
    }
  }

  lemma {:induction false} OwnFieldKnown(can: CanCast, t: DataType, u: DataType, j: nat)
    requires CastsLossless(can) && MapsOk(t) && StorableType(t).Ok? && StoredAs(StorableType(t).value, u)
    requires t.Struct? && j < |t.children|
    ensures u.Struct? && |u.children| == |t.children| && u.children[j].name == t.children[j].name
    ensures FieldSupplied(u.children[j], t.children)
    ensures FieldKnown(can, t.children[j], u.children) <==> NoTimeOfDay(t.children[j].dtype)
    decreases t, 0
  {
    hide StoredAs, StorableType, MapsOk, NoTimeOfDay, Convertible, CastsLossless;
    OwnField(t, u, j);
    AutoCreateExact(can, t.children[j].dtype, u.children[j].dtype);
  }

  lemma OwnField(t: DataType, u: DataType, j: nat)
    requires MapsOk(t) && StorableType(t).Ok? && StoredAs(StorableType(t).value, u) && t.Struct? && j < |t.children|
    ensures u.Struct? && |u.children| == |t.children| && u.children[j].name == t.children[j].name
    ensures Find(u.children, t.children[j].name) == Some(j) && Find(t.children, u.children[j].name).Some?
    ensures StorableType(t.children[j].dtype).Ok? && StoredAs(StorableType(t.children[j].dtype).value, u.children[j].dtype)
    ensures MapsOk(t.children[j].dtype)
  {
    StorableKids(t, j);
    StoredField(StorableType(t).value, u, j);
    assert MapsOk(t.children[j].dtype);
    hide StorableType, StoredAs, MapsOk;
    FoundIsSame(u.children, j);
  }

  lemma StoredField(t: DataType, u: DataType, j: nat)
    requires t.Struct? && StoredAs(t, u) && j < |t.children|
    ensures u.Struct? && DistinctNames(u.children) && |u.children| == |t.children|
    ensures u.children[j].name == t.children[j].name && StoredAs(t.children[j].dtype, u.children[j].dtype)
  {
    hide DistinctNames;
  }

  /** The exception is real: a column of seconds of the day makes a table that refuses it. */
  lemma TimeOfDayIsRefused(can: CanCast)
    ensures StorableType(Time32(Second)) == Ok(Time64(Microsecond)) && StoredAs(Time64(Microsecond), Time64(Microsecond))
    ensures !Convertible(can, Time32(Second), Time64(Microsecond))
  {
  }
}
