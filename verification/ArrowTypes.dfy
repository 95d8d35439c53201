/**
 The Arrow types, columnar arrays and values the Iceberg sink works on, with
 the scalar casts its allowlist admits.

 List and map rows are spans of their child array, so an offset buffer is the
 special case of adjacent spans; a float is an opaque value that widening
 keeps; a zone is its offset from UTC in seconds.
 */
module ArrowTypes {
  import opened DecimalTexts
  import opened Integers
  import opened Wrappers

  datatype Width = W8 | W16 | W32 | W64

  datatype TimeUnit = Second | Millisecond | Microsecond | Nanosecond

  datatype TextKind = Utf8 | LargeUtf8 | Utf8View

  datatype BytesKind = Binary | LargeBinary | BinaryView

  datatype ListKind = Small | Large | Fixed(size: nat)

  datatype Field = Field(name: string, dtype: DataType, nullable: bool, meta: int, arb: bool)

  datatype DataType =
    | Int(signed: bool, width: Width)
    | Float16 | Float32 | Float64
    | Decimal128(precision: int, scale: int)
    | Decimal256(precision: int, scale: int)
    | Text(text: TextKind)
    | Bytes(bytes: BytesKind)
    | FixedBytes(size: nat)
    | Date32 | Date64
    | Time32(unit: TimeUnit) | Time64(unit: TimeUnit)
    | Timestamp(unit: TimeUnit, tz: Option<int>)
    | Bool | Null | Other(tag: nat)
    | Dictionary(key: nat, value: DataType)
    | List(kind: ListKind, child: Field)
    | Map(entries: Field, sorted: bool)
    | Struct(children: seq<Field>)

  predicate IsLeaf(t: DataType) {
    !t.Dictionary? && !t.List? && !t.Map? && !t.Struct?
  }

  /** The first field of that name. */
  function Find(fields: seq<Field>, name: string): (r: Option<nat>)
    ensures r.Some? ==> r.value < |fields| && fields[r.value].name == name
    ensures r.Some? ==> forall i | 0 <= i < r.value :: fields[i].name != name
    ensures r.None? ==> forall i | 0 <= i < |fields| :: fields[i].name != name
  {
    if fields == [] then None
    else if fields[0].name == name then Some(0)
    else match Find(fields[1..], name)
      case Some(i) => assert forall j | 0 < j < i + 1 :: fields[j] == fields[1..][j - 1]; Some(i + 1)
      case None => assert forall j | 0 < j < |fields| :: fields[j] == fields[1..][j - 1]; None
  }

  predicate DistinctNames(fields: seq<Field>) {
    forall i, j | 0 <= i < j < |fields| :: fields[i].name != fields[j].name
  }

  // ---------------------------------------------------------------- arrays and their values

  datatype Scalar = N(n: int) | F(id: int) | S(s: string) | B(b: seq<int>)

  type Span = Option<(nat, nat)>

  datatype Array =
    | Leaf(t: DataType, items: seq<Option<Scalar>>)
    | Structs(fields: seq<Field>, columns: seq<Array>, valid: seq<bool>)
    | Lists(kind: ListKind, child: Field, spans: seq<Span>, values: Array)
    | Maps(entries: Field, sorted: bool, spans: seq<Span>, columns: seq<Array>)
    | Dict(key: nat, keys: seq<Option<nat>>, values: Array)

  function TypeOf(a: Array): DataType {
    match a
    case Leaf(t, _) => t
    case Structs(fields, _, _) => Struct(fields)
    case Lists(kind, child, _, _) => List(kind, child)
    case Maps(entries, sorted, _, _) => Map(entries, sorted)
    case Dict(key, _, values) => Dictionary(key, TypeOf(values))
  }

  function Len(a: Array): nat {
    match a
    case Leaf(_, items) => |items|
    case Structs(_, _, valid) => |valid|
    case Lists(_, _, spans, _) => |spans|
    case Maps(_, _, spans, _) => |spans|
    case Dict(_, keys, _) => |keys|
  }

  predicate SpansIn(spans: seq<Span>, n: nat) {
    forall i | 0 <= i < |spans| && spans[i].Some? :: spans[i].value.0 <= spans[i].value.1 <= n
  }

  predicate KeysIn(keys: seq<Option<nat>>, n: nat) {
    forall i | 0 <= i < |keys| && keys[i].Some? :: keys[i].value < n
  }

  /** The columns carry the declared types and the expected number of rows. */
  predicate ColumnsFit(fields: seq<Field>, columns: seq<Array>, n: nat) {
    |columns| == |fields| && forall j | 0 <= j < |columns| :: TypeOf(columns[j]) == fields[j].dtype && Len(columns[j]) == n
  }

  predicate WellFormed(a: Array) {
    match a
    case Leaf(t, items) => IsLeaf(t) && forall i | 0 <= i < |items| && items[i].Some? :: ScalarOk(t, items[i].value)
    case Structs(fields, columns, valid) =>
      ColumnsFit(fields, columns, |valid|) && forall j | 0 <= j < |columns| :: WellFormed(columns[j])
    case Lists(_, child, spans, values) => TypeOf(values) == child.dtype && SpansIn(spans, Len(values)) && WellFormed(values)
    case Maps(entries, _, spans, columns) =>
      && entries.dtype.Struct? && |columns| == 2 && ColumnsFit(entries.dtype.children, columns, Len(columns[0]))
      && SpansIn(spans, Len(columns[0])) && forall j | 0 <= j < |columns| :: WellFormed(columns[j])
    case Dict(_, keys, values) => KeysIn(keys, Len(values)) && WellFormed(values)
  }

  datatype FieldValue = FieldValue(name: string, value: Value)

  datatype Value =
    | VNull
    | VLeaf(t: DataType, x: Scalar)
    | VStruct(fields: seq<FieldValue>)
    | VList(items: seq<Value>)
    | VMap(keys: seq<Value>, vals: seq<Value>)

  /** The logical value of row `i`. */
  ghost function ValueAt(a: Array, i: nat): Value
    requires WellFormed(a) && i < Len(a)
    decreases a, 0
  {
    match a
    case Leaf(t, items) => if items[i].Some? then VLeaf(t, items[i].value) else VNull
    case Structs(fields, columns, valid) =>
      if !valid[i] then VNull
      else VStruct(seq(|fields|, j requires 0 <= j < |fields| => FieldValue(fields[j].name, ValueAt(columns[j], i))))
    case Lists(_, _, spans, values) =>
      if spans[i].None? then VNull
      else VList(ValuesIn(values, spans[i].value.0, spans[i].value.1))
    case Maps(_, _, spans, columns) =>
      if spans[i].None? then VNull
      else
        var (lo, hi) := spans[i].value;
        VMap(ValuesIn(columns[0], lo, hi), ValuesIn(columns[1], lo, hi))
    case Dict(_, keys, values) => if keys[i].None? then VNull else ValueAt(values, keys[i].value)
  }

  ghost function ValuesIn(a: Array, lo: nat, hi: nat): (vs: seq<Value>)
    requires WellFormed(a) && lo <= hi <= Len(a)
    ensures |vs| == hi - lo && forall j | 0 <= j < hi - lo :: vs[j] == ValueAt(a, lo + j)
    decreases a, 1
  {
    seq(hi - lo, j requires 0 <= j < hi - lo => ValueAt(a, lo + j))
  }

  // ---------------------------------------------------------------- gathering rows and null columns

  /** The rows `keys` of `a`; a missing key gives a null. */
  function Gather(a: Array, keys: seq<Option<nat>>): Array
    requires WellFormed(a) && KeysIn(keys, Len(a))
    decreases a
  {
    match a
    case Leaf(t, items) => Leaf(t, seq(|keys|, i requires 0 <= i < |keys| => if keys[i].Some? then items[keys[i].value] else None))
    case Structs(fields, columns, valid) =>
      Structs(fields, seq(|columns|, j requires 0 <= j < |columns| => Gather(columns[j], keys)),
        seq(|keys|, i requires 0 <= i < |keys| => keys[i].Some? && valid[keys[i].value]))
    case Lists(kind, child, spans, values) => Lists(kind, child, GatherSpans(spans, keys), values)
    case Maps(entries, sorted, spans, columns) => Maps(entries, sorted, GatherSpans(spans, keys), columns)
    case Dict(key, inner, values) =>
      Dict(key, seq(|keys|, i requires 0 <= i < |keys| => if keys[i].Some? then inner[keys[i].value] else None), values)
  }

  function GatherSpans(spans: seq<Span>, keys: seq<Option<nat>>): (r: seq<Span>)
    requires KeysIn(keys, |spans|)
    ensures |r| == |keys|
  {
    seq(|keys|, i requires 0 <= i < |keys| => if keys[i].Some? then spans[keys[i].value] else None)
  }

  lemma {:induction false} GatherKeepsValues(a: Array, keys: seq<Option<nat>>)
    requires WellFormed(a) && KeysIn(keys, Len(a))
    ensures var g := Gather(a, keys);
      && TypeOf(g) == TypeOf(a) && Len(g) == |keys| && WellFormed(g)
      && forall i | 0 <= i < |keys| :: ValueAt(g, i) == if keys[i].Some? then ValueAt(a, keys[i].value) else VNull
    decreases a
  {
    match a {
      case Leaf(t, items) =>
      case Structs(fields, columns, valid) => GatherStructs(a, keys);
      case Lists(kind, child, spans, values) => GatherLists(a, keys);
      case Maps(entries, sorted, spans, columns) => GatherMaps(a, keys);
      case Dict(key, inner, values) =>
    }
  }

  ghost predicate IsGathered(a: Array, keys: seq<Option<nat>>)
    requires WellFormed(a) && KeysIn(keys, Len(a))
  {
    var g := Gather(a, keys);
    && TypeOf(g) == TypeOf(a) && Len(g) == |keys| && WellFormed(g)
    && forall i | 0 <= i < |keys| :: ValueAt(g, i) == if keys[i].Some? then ValueAt(a, keys[i].value) else VNull
  }

  lemma GatherLists(a: Array, keys: seq<Option<nat>>)
    requires WellFormed(a) && KeysIn(keys, Len(a)) && a.Lists?
    ensures IsGathered(a, keys)
  {
  }

  lemma GatherMaps(a: Array, keys: seq<Option<nat>>)
    requires WellFormed(a) && KeysIn(keys, Len(a)) && a.Maps?
    ensures IsGathered(a, keys)
  {
  }

  lemma {:induction false} GatherStructs(a: Array, keys: seq<Option<nat>>)
    requires WellFormed(a) && KeysIn(keys, Len(a)) && a.Structs?
    ensures var g := Gather(a, keys);
      && TypeOf(g) == TypeOf(a) && Len(g) == |keys| && WellFormed(g)
      && forall i | 0 <= i < |keys| :: ValueAt(g, i) == if keys[i].Some? then ValueAt(a, keys[i].value) else VNull
    decreases a, 0
  {
    var g := Gather(a, keys);
    forall j | 0 <= j < |a.columns|
      ensures TypeOf(g.columns[j]) == a.fields[j].dtype && Len(g.columns[j]) == |keys| && WellFormed(g.columns[j])
      ensures forall i | 0 <= i < |keys| && keys[i].Some? :: ValueAt(g.columns[j], i) == ValueAt(a.columns[j], keys[i].value)
    {
      GatherKeepsValues(a.columns[j], keys);
    }
    forall i | 0 <= i < |keys| && g.valid[i]
      ensures ValueAt(g, i) == ValueAt(a, keys[i].value)
    {
      assert ValueAt(g, i).fields == ValueAt(a, keys[i].value).fields;
    }
  }

  /** `new_null_array`. */
  function NullArray(t: DataType, n: nat): Array
    decreases t
  {
    match t
    case Struct(children) =>
      Structs(children, seq(|children|, j requires 0 <= j < |children| => NullArray(children[j].dtype, n)), seq(n, _ => false))
    case List(kind, child) => Lists(kind, child, Nulls(n), NullArray(child.dtype, 0))
    case Map(entries, sorted) =>
      Maps(entries, sorted, Nulls(n),
        if entries.dtype.Struct? then
          seq(|entries.dtype.children|, j requires 0 <= j < |entries.dtype.children| => NullArray(entries.dtype.children[j].dtype, 0))
        else [])
    case Dictionary(key, value) => Dict(key, Nulls(n), NullArray(value, 0))
    case _ => Leaf(t, Nulls(n))
  }

  function Nulls<T>(n: nat): (s: seq<Option<T>>)
    ensures |s| == n && forall i | 0 <= i < n :: s[i].None?
  {
    seq(n, _ => None)
  }

  /** Every map type in `t` has a key and a value. */
  predicate MapsOk(t: DataType) {
    match t
    case Struct(children) => forall j | 0 <= j < |children| :: MapsOk(children[j].dtype)
    case List(_, child) => MapsOk(child.dtype)
    case Map(entries, _) =>
      && entries.dtype.Struct? && |entries.dtype.children| == 2
      && forall j | 0 <= j < |entries.dtype.children| :: MapsOk(entries.dtype.children[j].dtype)
    case Dictionary(_, value) => MapsOk(value)
    case _ => true
  }

  /** The null column of type `t` is well formed, has that type and `n` rows, all null. */
  ghost predicate IsNullColumn(t: DataType, n: nat) {
    var a := NullArray(t, n);
    TypeOf(a) == t && Len(a) == n && WellFormed(a) && forall i | 0 <= i < n :: ValueAt(a, i) == VNull
  }

  lemma {:induction false} NullArrayIsNull(t: DataType, n: nat)
    requires MapsOk(t)
    ensures IsNullColumn(t, n)
    decreases t, 1
  {
    hide NullArray, IsNullColumn;
    match t {
      case Struct(children) => NullStructIsNull(t, n);
      case List(_, child) =>
        NullArrayIsNull(child.dtype, 0);
        NullListIsNull(t, n);
      case Map(entries, _) => NullMapIsNull(t, n);
      case Dictionary(_, value) =>
        NullArrayIsNull(value, 0);
        NullDictIsNull(t, n);
      case _ => NullLeafIsNull(t, n);
    }
  }

  lemma NullLeafIsNull(t: DataType, n: nat)
    requires IsLeaf(t)
    ensures IsNullColumn(t, n)
  {
  }

  lemma NullListIsNull(t: DataType, n: nat)
    requires t.List? && IsNullColumn(t.child.dtype, 0)
    ensures IsNullColumn(t, n)
  {
  }

  lemma NullDictIsNull(t: DataType, n: nat)
    requires t.Dictionary? && IsNullColumn(t.value, 0)
    ensures IsNullColumn(t, n)
  {
  }

  lemma {:induction false} NullStructIsNull(t: DataType, n: nat)
    requires MapsOk(t) && t.Struct?
    ensures IsNullColumn(t, n)
    decreases t, 0
  {
    forall j | 0 <= j < |t.children|
      ensures TypeOf(NullArray(t.children[j].dtype, n)) == t.children[j].dtype
      ensures Len(NullArray(t.children[j].dtype, n)) == n && WellFormed(NullArray(t.children[j].dtype, n))
    {
      NullArrayIsNull(t.children[j].dtype, n);
    }
  }

  lemma {:induction false} NullMapIsNull(t: DataType, n: nat)
    requires MapsOk(t) && t.Map?
    ensures IsNullColumn(t, n)
    decreases t, 0
  {
    var kids := t.entries.dtype.children;
    forall j | 0 <= j < |kids|
      ensures TypeOf(NullArray(kids[j].dtype, 0)) == kids[j].dtype
      ensures Len(NullArray(kids[j].dtype, 0)) == 0 && WellFormed(NullArray(kids[j].dtype, 0))
    {
      NullArrayIsNull(kids[j].dtype, 0);
    }
  }

  // ---------------------------------------------------------------- scalars

  function MaxInt(signed: bool, width: Width): int {
    match width
    case W8 => if signed then 0x7F else 0xFF
    case W16 => if signed then 0x7FFF else 0xFFFF
    case W32 => if signed then 0x7FFF_FFFF else 0xFFFF_FFFF
    case W64 => if signed then 0x7FFF_FFFF_FFFF_FFFF else 0xFFFF_FFFF_FFFF_FFFF
  }

  predicate InRange(signed: bool, width: Width, n: int) {
    (if signed then -MaxInt(signed, width) - 1 else 0) <= n <= MaxInt(signed, width)
  }

  predicate Digits(precision: int, n: int) {
    precision >= 0 && -Pow10(precision) < n < Pow10(precision)
  }

  /** The stored form of a value of a leaf type. */
  predicate ScalarOk(t: DataType, x: Scalar) {
    match t
    case Int(signed, width) => x.N? && InRange(signed, width, x.n)
    case Float16 | Float32 | Float64 => x.F?
    case Decimal128(p, _) => x.N? && Digits(p, x.n)
    case Decimal256(p, _) => x.N? && Digits(p, x.n)
    case Text(_) => x.S?
    case Bytes(_) => x.B?
    case FixedBytes(n) => x.B? && |x.b| == n
    case Date32 => x.N? && InRange(true, W32, x.n)
    case Time32(_) => x.N? && InRange(true, W32, x.n)
    case Date64 => x.N? && InRange(true, W64, x.n)
    case Time64(_) => x.N? && InRange(true, W64, x.n)
    case Timestamp(_, _) => x.N? && InRange(true, W64, x.n)
    case _ => true
  }

  function Rank(u: TimeUnit): nat {
    match u
    case Second => 0
    case Millisecond => 1
    case Microsecond => 2
    case Nanosecond => 3
  }

  /** Nanoseconds in one unit. */
  function UnitNanos(u: TimeUnit): int {
    match u
    case Second => 1_000_000_000
    case Millisecond => 1_000_000
    case Microsecond => 1_000
    case Nanosecond => 1
  }

  const MS_PER_DAY := 86_400_000

  /** A strict cast of one value, for the pairs of leaf types the sink uses; `None` fails the batch. */
  function CastScalar(from: DataType, to: DataType, x: Scalar): Option<Scalar>
    requires ScalarOk(from, x)
  {
    match (from, to)
    case (Int(_, _), Int(s, w)) => if InRange(s, w, x.n) then Some(x) else None
    case (Int(_, _), Decimal128(p, s)) =>
      var n := if s >= 0 then x.n * Pow10(s) else TruncDiv(x.n, Pow10(-s));
      if Digits(p, n) then Some(N(n)) else None
    case (Float16, Float32) => Some(x)
    case (Float16, Float64) => Some(x)
    case (Float32, Float64) => Some(x)
    case (Decimal128(_, fs), Decimal128(p, ts)) => if fs == ts && Digits(p, x.n) then Some(x) else None
    case (Decimal256(_, fs), Decimal128(p, ts)) => if fs == ts && Digits(p, x.n) then Some(x) else None
    case (Decimal256(_, s), Text(_)) => Some(S(DecimalText(x.n, s)))
    case (Text(_), Text(_)) => Some(x)
    case (Bytes(_), Bytes(_)) => Some(x)
    case (FixedBytes(_), Bytes(_)) => Some(x)
    case (Date64, Date32) => Some(N(WrapI32(TruncDiv(x.n, MS_PER_DAY))))
    case (Timestamp(f, ftz), Timestamp(t, ttz)) =>
      var n := if Rank(f) <= Rank(t) then x.n * (UnitNanos(f) / UnitNanos(t)) else TruncDiv(x.n, UnitNanos(t) / UnitNanos(f));
      // A naive time is read as local to the target zone.
      var m := if ftz.None? && ttz.Some? then n - ttz.value * (1_000_000_000 / UnitNanos(t)) else n;
      if InRange(true, W64, n) && InRange(true, W64, m) then Some(N(m)) else None
    case _ => None
  }
}
