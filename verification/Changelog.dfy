/**
 The changelog a Postgres CDC source emits: aligning replication cells to the
 output columns, converting events to rows, and what those rows mean to a
 consumer that counts them and to a sink that upserts and deletes by key.
 */
module Changelog {
  import opened Collections
  import opened Wrappers

  type Name = string
  type Cell = string
  type Cells = seq<Option<Cell>>

  /** A table as an event describes it: its name, replicated columns and identity columns. */
  datatype TableSchema = TableSchema(table: string, columns: seq<Name>, identity: seq<Name>)

  datatype OldRow = Full(values: seq<Cell>) | Key(values: seq<Cell>)

  datatype NewRow = FullRow(values: seq<Cell>) | Partial(values: seq<Cell>, missing: seq<nat>)

  datatype Event =
    | Insert(schema: TableSchema, row: seq<Cell>)
    | Update(schema: TableSchema, old_: Option<OldRow>, new_: NewRow)
    | Delete(schema: TableSchema, old_: Option<OldRow>)
    | Truncate(tables: seq<TableSchema>)
    | Other

  datatype Op = CopyOp | InsertOp | UpdateOp | DeleteOp

  datatype CdcRow = CdcRow(op: Op, values: Cells)

  ghost predicate Ascending(s: seq<nat>) {
    forall i, j | 0 <= i < j < |s| :: s[i] < s[j]
  }

  // ---------------------------------------------------------------- alignment

  /** First position of a column name. */
  function IndexOf(columns: seq<Name>, name: Name): (r: Option<nat>)
    ensures r.Some? ==> r.value < |columns| && columns[r.value] == name
    ensures r.None? ==> name !in columns
  {
    if columns == [] then None
    else if columns[0] == name then Some(0)
    else match IndexOf(columns[1..], name) case None => None case Some(i) => Some(i + 1)
  }

  lemma IndexOfAt(columns: seq<Name>, p: nat)
    requires Distinct(columns) && p < |columns|
    ensures IndexOf(columns, columns[p]) == Some(p)
  {
    var r := IndexOf(columns, columns[p]);
    assert columns[p] in columns;
  }

  function CountBelow(missing: seq<nat>, p: nat): (n: nat)
    ensures n <= |missing|
  {
    if missing == [] then 0
    else (if missing[|missing| - 1] < p then 1 else 0) + CountBelow(missing[..|missing| - 1], p)
  }

  /** The cell of column number `p` when the columns numbered in `missing` carry no value. */
  function CellAt(values: seq<Cell>, missing: seq<nat>, p: nat): Option<Cell> {
    if p in missing then None
    else
      var rank := p - CountBelow(missing, p);
      if 0 <= rank < |values| then Some(values[rank]) else None
  }

  /** Reference meaning of alignment: every output column looks its value up by name. */
  function Lookup(columns: seq<Name>, values: seq<Cell>, missing: seq<nat>, name: Name): Option<Cell> {
    match IndexOf(columns, name)
    case None => None
    case Some(p) => CellAt(values, missing, p)
  }

  function AlignedBy(out: seq<Name>, columns: seq<Name>, values: seq<Cell>, missing: seq<nat>): (r: Cells)
    ensures |r| == |out|
  {
    seq(|out|, i requires 0 <= i < |out| => Lookup(columns, values, missing, out[i]))
  }

  lemma {:induction false} CountSorted(missing: seq<nat>, m: nat, p: nat)
    requires Ascending(missing) && m <= |missing|
    requires forall i | 0 <= i < m :: missing[i] < p
    requires forall i | m <= i < |missing| :: missing[i] >= p
    ensures CountBelow(missing, p) == m
  {
    if missing != [] {
      var k := |missing| - 1;
      CountSorted(missing[..k], if m <= k then m else k, p);
    }
  }

  /** Passing a column consumes at most one missing index, so ranks never decrease. */
  lemma {:induction false} RankMonotone(missing: seq<nat>, p: nat, q: nat)
    requires Ascending(missing) && p <= q
    ensures CountBelow(missing, p) <= CountBelow(missing, q) <= CountBelow(missing, p) + (q - p)
    decreases q - p
  {
    if p < q {
      RankMonotone(missing, p + 1, q);
      CountStep(missing, p);
    }
  }

  lemma {:induction false} CountStep(missing: seq<nat>, p: nat)
    requires Ascending(missing)
    ensures CountBelow(missing, p + 1) == CountBelow(missing, p) + if p in missing then 1 else 0
  {
    if missing != [] {
      var k := |missing| - 1;
      CountStep(missing[..k], p);
      assert p in missing <==> p in missing[..k] || missing[k] == p;
      if missing[k] == p {
        assert p !in missing[..k];
      }
    }
  }

  datatype Converter = Converter(table: string, columns: seq<Name>, beforeRow: bool)

  /** Output position of each data column, as collected into a hash map. */
  function ColIdx(columns: seq<Name>): (m: map<Name, nat>)
    ensures forall c | c in m :: m[c] < |columns| && columns[m[c]] == c
    ensures forall c | c in columns :: c in m
  {
    if columns == [] then map[]
    else ColIdx(columns[..|columns| - 1])[columns[|columns| - 1] := |columns| - 1]
  }

  /**
   The merge that walks the columns once, consuming `missing` and the values as
   it goes, computes the lookup by column name.
   */
  method Aligned(c: Converter, schema: TableSchema, values: seq<Cell>, missing: seq<nat>) returns (out: Cells)
    requires Distinct(c.columns) && Distinct(schema.columns) && Ascending(missing)
    ensures out == AlignedBy(c.columns, schema.columns, values, missing)
  {
    var colIdx := ColIdx(c.columns);
    out := Blank(|c.columns|);
    var v, m := 0, 0;
    var idx := 0;
    BlankIsFilled(c.columns, schema.columns, values, missing);
    hide *;
    while idx < |schema.columns|
      invariant 0 <= idx <= |schema.columns| && v <= |values| && v == idx - m && |out| == |c.columns|
      invariant Consumed(missing, m, idx) && Filled(c.columns, schema.columns, values, missing, idx, out)
    {
      ConsumedStep(missing, m, idx);
      if m < |missing| && missing[m] == idx {
        MissingStep(c.columns, schema.columns, values, missing, idx, out);
        m := m + 1;
      } else {
        if v == |values| {
          NothingLeft(c.columns, schema.columns, values, missing, idx, out);
          break;
        }
        out := PutCell(c.columns, schema.columns, values, missing, colIdx, idx, v, out);
        v := v + 1;
      }
      idx := idx + 1;
    }
    FilledAll(c.columns, schema.columns, values, missing, idx, out);
  }

  /** Stores value `v` under the output column of the same name, if there is one. */
  method PutCell(
    names: seq<Name>, columns: seq<Name>, values: seq<Cell>, ghost missing: seq<nat>,
    colIdx: map<Name, nat>, idx: nat, v: nat, before: Cells) returns (out: Cells)
    requires Distinct(names) && Distinct(columns) && colIdx == ColIdx(names) && |before| == |names|
    requires idx < |columns| && idx !in missing && v < |values| && v == idx - CountBelow(missing, idx)
    requires Filled(names, columns, values, missing, idx, before)
    ensures |out| == |names| && Filled(names, columns, values, missing, idx + 1, out)
  {
    hide *;
    out := before;
    var name := columns[idx];
    NamesIndexed(names);
    if name in colIdx {
      out := out[colIdx[name] := Some(values[v])];
    }
    ValueStep(names, columns, values, missing, idx, before, out);
  }

  /** The first `m` of the ascending indices are those below `idx`. */
  ghost predicate Consumed(missing: seq<nat>, m: nat, idx: nat) {
    && m <= |missing|
    && (forall i | 0 <= i < m :: missing[i] < idx)
    && (forall i | m <= i < |missing| :: missing[i] >= idx)
  }

  lemma ConsumedStep(missing: seq<nat>, m: nat, idx: nat)
    requires Ascending(missing) && Consumed(missing, m, idx)
    ensures CountBelow(missing, idx) == m <= |missing|
    ensures idx in missing <==> m < |missing| && missing[m] == idx
    ensures Consumed(missing, if m < |missing| && missing[m] == idx then m + 1 else m, idx + 1)
  {
    CountSorted(missing, m, idx);
    hide *;
    ConsumedNext(missing, m, idx);
    ConsumedHere(missing, m, idx);
  }

  lemma ConsumedNext(missing: seq<nat>, m: nat, idx: nat)
    requires Ascending(missing) && Consumed(missing, m, idx)
    ensures m <= |missing| && Consumed(missing, if m < |missing| && missing[m] == idx then m + 1 else m, idx + 1)
  {
    forall i | m < i < |missing|
      ensures missing[i] >= idx + 1
    {
      assert missing[m] < missing[i];
    }
  }

  lemma ConsumedHere(missing: seq<nat>, m: nat, idx: nat)
    requires Ascending(missing) && Consumed(missing, m, idx)
    ensures idx in missing <==> m < |missing| && missing[m] == idx
  {
    forall i | m < i < |missing|
      ensures missing[i] != idx
    {
      assert missing[m] < missing[i];
    }
  }

  /** Columns before `idx` have been written where they belong and nothing else has. */
  ghost predicate Filled(names: seq<Name>, columns: seq<Name>, values: seq<Cell>, missing: seq<nat>, idx: nat, out: Cells) {
    && |out| == |names|
    && forall i | 0 <= i < |names| ::
         out[i] == match IndexOf(columns, names[i])
                   case None => None
                   case Some(p) => if p < idx then CellAt(values, missing, p) else None
  }

  function Blank(n: nat): (r: Cells)
    ensures |r| == n
  {
    seq(n, _ => None)
  }

  lemma BlankIsFilled(names: seq<Name>, columns: seq<Name>, values: seq<Cell>, missing: seq<nat>)
    ensures Filled(names, columns, values, missing, 0, Blank(|names|)) && Consumed(missing, 0, 0)
  {
  }

  lemma FilledStep(names: seq<Name>, columns: seq<Name>, values: seq<Cell>, missing: seq<nat>, idx: nat, before: Cells, out: Cells)
    requires Distinct(names) && Distinct(columns) && idx < |columns|
    requires Filled(names, columns, values, missing, idx, before)
    requires |out| == |names|
    requires forall i | 0 <= i < |names| ::
      out[i] == if names[i] == columns[idx] then CellAt(values, missing, idx) else before[i]
    ensures Filled(names, columns, values, missing, idx + 1, out)
  {
    IndexOfAt(columns, idx);
    forall i | 0 <= i < |names|
      ensures out[i] == match IndexOf(columns, names[i])
                        case None => None
                        case Some(p) => if p < idx + 1 then CellAt(values, missing, p) else None
    {
      var r := IndexOf(columns, names[i]);
      if r.Some? && r.value == idx {
        assert names[i] == columns[idx];
      }
    }
  }

  lemma MissingStep(names: seq<Name>, columns: seq<Name>, values: seq<Cell>, missing: seq<nat>, idx: nat, out: Cells)
    requires Distinct(names) && Distinct(columns) && idx < |columns| && idx in missing
    requires Filled(names, columns, values, missing, idx, out)
    ensures Filled(names, columns, values, missing, idx + 1, out)
  {
    IndexOfAt(columns, idx);
    FilledStep(names, columns, values, missing, idx, out, out);
  }

  lemma NamesIndexed(names: seq<Name>)
    ensures forall c | c in ColIdx(names) :: ColIdx(names)[c] < |names| && names[ColIdx(names)[c]] == c
    ensures forall c | c in names :: c in ColIdx(names)
  {
  }

  /** Writing through an index of distinct names changes the cells of one name. */
  lemma PutByName<T(!new)>(names: seq<T>, at: map<T, nat>, name: T, before: Cells, cell: Option<Cell>)
    requires Distinct(names) && |before| == |names|
    requires forall c | c in at :: at[c] < |names| && names[at[c]] == c
    requires forall c | c in names :: c in at
    ensures var out := if name in at then before[at[name] := cell] else before;
      forall i | 0 <= i < |names| :: out[i] == if names[i] == name then cell else before[i]
  {
    forall i | 0 <= i < |names| && name in at && i != at[name]
      ensures names[i] != name
    {
      assert names[at[name]] == name;
    }
  }

  lemma ValueStep(names: seq<Name>, columns: seq<Name>, values: seq<Cell>, missing: seq<nat>, idx: nat, before: Cells, out: Cells)
    requires Distinct(names) && Distinct(columns) && idx < |columns| && idx !in missing
    requires Filled(names, columns, values, missing, idx, before)
    requires 0 <= idx - CountBelow(missing, idx) < |values|
    requires out == (if columns[idx] in ColIdx(names)
                     then before[ColIdx(names)[columns[idx]] := Some(values[idx - CountBelow(missing, idx)])] else before)
    ensures Filled(names, columns, values, missing, idx + 1, out)
  {
    assert |before| == |names|;
    assert CellAt(values, missing, idx) == Some(values[idx - CountBelow(missing, idx)]);
    hide *;
    NamesIndexed(names);
    PutByName(names, ColIdx(names), columns[idx], before, CellAt(values, missing, idx));
    FilledStep(names, columns, values, missing, idx, before, out);
  }

  /** Once the values run out, every later column is without a value as well. */
  lemma NothingLeft(names: seq<Name>, columns: seq<Name>, values: seq<Cell>, missing: seq<nat>, idx: nat, out: Cells)
    requires Ascending(missing) && idx - CountBelow(missing, idx) >= |values|
    requires Filled(names, columns, values, missing, idx, out)
    ensures Filled(names, columns, values, missing, |columns|, out)
  {
    forall p: nat | p >= idx
      ensures CellAt(values, missing, p) == None
    {
      RankMonotone(missing, idx, p);
    }
  }

  lemma FilledAll(names: seq<Name>, columns: seq<Name>, values: seq<Cell>, missing: seq<nat>, idx: nat, out: Cells)
    requires Filled(names, columns, values, missing, |columns|, out) || (idx == |columns| && Filled(names, columns, values, missing, idx, out))
    ensures out == AlignedBy(names, columns, values, missing)
  {
    forall i | 0 <= i < |names|
      ensures out[i] == Lookup(columns, values, missing, names[i])
    {
    }
  }

  lemma KeyStep(names: seq<Name>, identity: seq<Name>, values: seq<Cell>, k: nat, before: Cells, out: Cells)
    requires Distinct(names) && Distinct(identity) && k < |identity| && k < |values|
    requires Filled(names, identity, values, [], k, before)
    requires out == if identity[k] in ColIdx(names) then before[ColIdx(names)[identity[k]] := Some(values[k])] else before
    ensures Filled(names, identity, values, [], k + 1, out)
  {
    assert |before| == |names| && CellAt(values, [], k) == Some(values[k]);
    hide *;
    NamesIndexed(names);
    PutByName(names, ColIdx(names), identity[k], before, CellAt(values, [], k));
    FilledStep(names, identity, values, [], k, before, out);
  }

  lemma KeyDone(names: seq<Name>, identity: seq<Name>, values: seq<Cell>, k: nat, out: Cells)
    requires k == |identity| || k == |values|
    requires Filled(names, identity, values, [], k, out)
    ensures out == AlignedBy(names, identity, values, [])
  {
    assert CountBelow([], k) == 0 && Ascending([]);
    hide Filled, AlignedBy;
    if k == |values| {
      NothingLeft(names, identity, values, [], k, out);
    }
    FilledAll(names, identity, values, [], k, out);
  }

  function AlignedOldBy(out: seq<Name>, schema: TableSchema, old_: OldRow): (r: Cells)
    ensures |r| == |out|
  {
    match old_
    case Full(values) => AlignedBy(out, schema.columns, values, [])
    case Key(values) => AlignedBy(out, schema.identity, values, [])
  }

  /** The old image: by column for a full one, by identity column for a key one. */
  method AlignedOld(c: Converter, schema: TableSchema, old_: OldRow) returns (out: Cells)
    requires Distinct(c.columns) && Distinct(schema.columns) && Distinct(schema.identity)
    ensures out == AlignedOldBy(c.columns, schema, old_)
  {
    match old_ {
      case Full(values) => out := Aligned(c, schema, values, []);
      case Key(values) => out := AlignedKey(c, schema.identity, values);
    }
  }

  method AlignedKey(c: Converter, identity: seq<Name>, values: seq<Cell>) returns (out: Cells)
    requires Distinct(c.columns) && Distinct(identity)
    ensures out == AlignedBy(c.columns, identity, values, [])
  {
    var colIdx := ColIdx(c.columns);
    out := Blank(|c.columns|);
    var k := 0;
    BlankIsFilled(c.columns, identity, values, []);
    hide Blank, Filled, AlignedBy, ColIdx, Distinct;
    while k < |identity| && k < |values|
      invariant 0 <= k <= |identity| && k <= |values| && |out| == |c.columns|
      invariant Filled(c.columns, identity, values, [], k, out)
    {
      var name := identity[k];
      ghost var before := out;
      if name in colIdx {
        out := out[colIdx[name] := Some(values[k])];
      }
      KeyStep(c.columns, identity, values, k, before, out);
      k := k + 1;
    }
    KeyDone(c.columns, identity, values, k, out);
  }

  // ---------------------------------------------------------------- events to rows

  function ConvertEvent(c: Converter, e: Event): seq<CdcRow> {
    match e
    case Insert(schema, row) =>
      if schema.table != c.table then [] else [CdcRow(InsertOp, AlignedBy(c.columns, schema.columns, row, []))]
    case Update(schema, old_, new_) =>
      if schema.table != c.table then []
      else
        (if c.beforeRow && old_.Some? && old_.value.Full?
         then [CdcRow(DeleteOp, AlignedOldBy(c.columns, schema, old_.value))] else [])
        + [CdcRow(UpdateOp, AlignedBy(c.columns, schema.columns, new_.values, if new_.Partial? then new_.missing else []))]
    case Delete(schema, old_) =>
      if schema.table != c.table || old_.None? then []
      else [CdcRow(DeleteOp, AlignedOldBy(c.columns, schema, old_.value))]
    case Truncate(_) => []
    case Other => []
  }

  function ConvertAll(c: Converter, events: seq<Event>): seq<CdcRow> {
    if events == [] then []
    else ConvertAll(c, events[..|events| - 1]) + ConvertEvent(c, events[|events| - 1])
  }

  /** What Postgres and etl guarantee of one event: distinct column names and ascending missing indexes. */
  ghost predicate WellFormed(e: Event) {
    match e
    case Insert(schema, _) => Distinct(schema.columns)
    case Update(schema, _, new_) =>
      Distinct(schema.columns) && Distinct(schema.identity) && (new_.Partial? ==> Ascending(new_.missing))
    case Delete(schema, _) => Distinct(schema.columns) && Distinct(schema.identity)
    case _ => true
  }

  method ConvertEvents(c: Converter, events: seq<Event>) returns (rows: seq<CdcRow>)
    requires Distinct(c.columns)
    requires forall e | e in events :: WellFormed(e)
    ensures rows == ConvertAll(c, events)
  {
    hide ConvertEvent, WellFormed;
    rows := [];
    for k := 0 to |events|
      invariant rows == ConvertAll(c, events[..k])
    {
      assert events[k] in events && events[..k + 1][..k] == events[..k];
      rows := PushEvent(c, events[k], rows);
    }
    assert events[..|events|] == events;
  }

  /** Pushes the rows of one event. */
  method PushEvent(c: Converter, e: Event, before: seq<CdcRow>) returns (rows: seq<CdcRow>)
    requires Distinct(c.columns) && WellFormed(e)
    ensures rows == before + ConvertEvent(c, e)
  {
    hide AlignedBy, AlignedOldBy;
    rows := before;
    match e {
      case Insert(schema, row) =>
        if schema.table == c.table {
          var values := Aligned(c, schema, row, []);
          rows := rows + [CdcRow(InsertOp, values)];
        }
      case Update(schema, old_, new_) =>
        if schema.table == c.table {
          if c.beforeRow && old_.Some? && old_.value.Full? {
            var values := AlignedOld(c, schema, old_.value);
            rows := rows + [CdcRow(DeleteOp, values)];
          }
          var values;
          match new_ {
            case FullRow(cells) => values := Aligned(c, schema, cells, []);
            case Partial(cells, missing) => values := Aligned(c, schema, cells, missing);
          }
          rows := rows + [CdcRow(UpdateOp, values)];
        }
      case Delete(schema, old_) =>
        if schema.table == c.table && old_.Some? {
          var values := AlignedOld(c, schema, old_.value);
          rows := rows + [CdcRow(DeleteOp, values)];
        }
      case Truncate(_) =>
      case Other =>
    }
  }

  // ---------------------------------------------------------------- kinds of rows

  /** The table an event that can have rows is about. */
  function TableOf(e: Event): Option<string> {
    match e
    case Insert(schema, _) => Some(schema.table)
    case Update(schema, _, _) => Some(schema.table)
    case Delete(schema, _) => Some(schema.table)
    case _ => None
  }

  /** How many rows of the kind `op` an event must give. */
  function RowsOfKind(c: Converter, e: Event, op: Op): nat {
    if TableOf(e) != Some(c.table) then 0
    else match (e, op)
      case (Insert(_, _), InsertOp) => 1
      case (Update(_, _, _), UpdateOp) => 1
      case (Update(_, old_, _), DeleteOp) => if c.beforeRow && old_.Some? && old_.value.Full? then 1 else 0
      case (Delete(_, old_), DeleteOp) => if old_.Some? then 1 else 0
      case _ => 0
  }

  function AllOfKind(c: Converter, events: seq<Event>, op: Op): nat {
    if events == [] then 0 else AllOfKind(c, events[..|events| - 1], op) + RowsOfKind(c, events[|events| - 1], op)
  }

  function CountKind(rows: seq<CdcRow>, op: Op): nat {
    if rows == [] then 0 else CountKind(rows[..|rows| - 1], op) + if rows[|rows| - 1].op == op then 1 else 0
  }

  lemma {:induction false} KindConcat(a: seq<CdcRow>, b: seq<CdcRow>, op: Op)
    ensures CountKind(a + b, op) == CountKind(a, op) + CountKind(b, op)
  {
    if b == [] {
      assert a + b == a;
    } else {
      var k := |b| - 1;
      KindConcat(a, b[..k], op);
      assert (a + b)[..|a + b| - 1] == a + b[..k];
    }
  }

  lemma KindOfNone(op: Op)
    ensures CountKind([], op) == 0
  {
  }

  lemma KindOfOne(row: CdcRow, op: Op)
    ensures CountKind([row], op) == if row.op == op then 1 else 0
  {
    assert [row][..0] == [];
  }

  lemma KindOfTwo(a: CdcRow, b: CdcRow, op: Op)
    ensures CountKind([a] + [b], op) == (if a.op == op then 1 else 0) + if b.op == op then 1 else 0
  {
    KindConcat([a], [b], op);
    KindOfOne(a, op);
    KindOfOne(b, op);
  }

  lemma UpdateKinds(c: Converter, e: Event, op: Op)
    requires e.Update?
    ensures CountKind(ConvertEvent(c, e), op) == RowsOfKind(c, e, op)
    ensures TableOf(e) == Some(c.table) ==>
      ConvertEvent(c, e) != [] && ConvertEvent(c, e)[|ConvertEvent(c, e)| - 1].op == UpdateOp
  {
    hide AlignedBy, AlignedOldBy, CountKind;
    KindOfNone(op);
    var rows := ConvertEvent(c, e);
    if e.schema.table == c.table {
      var newer := rows[|rows| - 1];
      KindOfOne(newer, op);
      if c.beforeRow && e.old_.Some? && e.old_.value.Full? {
        assert rows == [rows[0]] + [newer];
        KindOfTwo(rows[0], newer, op);
      } else {
        assert rows == [newer];
      }
    }
  }

  lemma EventKinds(c: Converter, e: Event, op: Op)
    ensures CountKind(ConvertEvent(c, e), op) == RowsOfKind(c, e, op)
    ensures e.Update? && TableOf(e) == Some(c.table) ==>
      ConvertEvent(c, e) != [] && ConvertEvent(c, e)[|ConvertEvent(c, e)| - 1].op == UpdateOp
  {
    hide AlignedBy, AlignedOldBy, CountKind;
    KindOfNone(op);
    match e {
      case Insert(schema, row) => KindOfOne(CdcRow(InsertOp, AlignedBy(c.columns, schema.columns, row, [])), op);
      case Update(_, _, _) => UpdateKinds(c, e, op);
      case Delete(schema, old_) =>
        if old_.Some? {
          KindOfOne(CdcRow(DeleteOp, AlignedOldBy(c.columns, schema, old_.value)), op);
        }
      case _ =>
    }
  }

  /**
   Every row is of the kind of its event: a stream gives one insert row per
   insert, one update row per update, preceded by a delete row when the old row
   is retracted, one delete row per delete with an image, and no copy rows.
   */
  lemma {:induction false} StreamKinds(c: Converter, events: seq<Event>, op: Op)
    ensures CountKind(ConvertAll(c, events), op) == AllOfKind(c, events, op)
  {
    if events != [] {
      var n := |events| - 1;
      StreamKinds(c, events[..n], op);
      EventKinds(c, events[n], op);
      KindConcat(ConvertAll(c, events[..n]), ConvertEvent(c, events[n]), op);
    }
  }

  /** A copy gives copy rows only. */
  lemma CopyKinds(c: Converter, schema: TableSchema, rows: seq<seq<Cell>>)
    ensures forall r | r in ConvertCopyRows(c, schema, rows) :: r.op == CopyOp
    ensures |ConvertCopyRows(c, schema, rows)| == if schema.table == c.table then |rows| else 0
  {
    hide AlignedBy;
  }

  // ---------------------------------------------------------------- tables

  /** The content of a row by column name; it does not depend on column order. */
  type Image = map<Name, Cell>

  ghost predicate IsImage(img: Image, columns: seq<Name>, values: seq<Cell>) {
    && Distinct(columns) && |values| == |columns|
    && (forall c :: c in img <==> c in columns)
    && forall p | 0 <= p < |columns| :: img[columns[p]] == values[p]
  }

  ghost function Project(names: seq<Name>, img: Image): (r: Cells)
    ensures |r| == |names|
  {
    seq(|names|, i requires 0 <= i < |names| => if names[i] in img then Some(img[names[i]]) else None)
  }

  /** Aligning a full row depends on its content only. */
  lemma AlignedIsProject(names: seq<Name>, img: Image, columns: seq<Name>, values: seq<Cell>)
    requires IsImage(img, columns, values)
    ensures AlignedBy(names, columns, values, []) == Project(names, img)
  {
    forall i | 0 <= i < |names|
      ensures Lookup(columns, values, [], names[i]) == Project(names, img)[i]
    {
      var r := IndexOf(columns, names[i]);
      assert names[i] in img <==> names[i] in columns;
    }
  }

  /** A table: its physical rows by row number. */
  type Table = map<nat, Image>

  /** An event as the effect of a committed change on the table `table`; full images, no truncation. */
  ghost predicate Changes(t: Table, e: Event, table: string, id: nat, img: Image, t': Table) {
    match e
    case Insert(schema, row) =>
      if schema.table != table then t' == t
      else IsImage(img, schema.columns, row) && id !in t && t' == t[id := img]
    case Update(schema, old_, new_) =>
      if schema.table != table then t' == t
      else
        && old_.Some? && old_.value.Full? && new_.FullRow? && id in t
        && IsImage(t[id], schema.columns, old_.value.values)
        && IsImage(img, schema.columns, new_.values)
        && t' == t[id := img]
    case Delete(schema, old_) =>
      if schema.table != table then t' == t
      else
        && old_.Some? && old_.value.Full? && id in t
        && IsImage(t[id], schema.columns, old_.value.values)
        && t' == t - {id}
    case Truncate(tables) => t' == t && forall s | s in tables :: s.table != table
    case Other => t' == t
  }

  /** A history of the table: the state around each event and the row each event is about. */
  datatype History = History(states: seq<Table>, ids: seq<nat>, images: seq<Image>)

  ghost predicate IsHistory(h: History, events: seq<Event>, table: string) {
    && |h.states| == |events| + 1 && |h.ids| == |h.images| == |events|
    && forall k | 0 <= k < |events| :: Changes(h.states[k], events[k], table, h.ids[k], h.images[k], h.states[k + 1])
  }

  // ---------------------------------------------------------------- counting consumer

  function Sign(r: CdcRow, v: Cells): int {
    if r.values != v then 0 else if r.op == DeleteOp then -1 else 1
  }

  /** Insertions minus retractions of one row value. */
  function Net(rows: seq<CdcRow>, v: Cells): int {
    if rows == [] then 0 else Net(rows[..|rows| - 1], v) + Sign(rows[|rows| - 1], v)
  }

  lemma {:induction false} NetConcat(a: seq<CdcRow>, b: seq<CdcRow>, v: Cells)
    ensures Net(a + b, v) == Net(a, v) + Net(b, v)
  {
    if b == [] {
      assert a + b == a;
    } else {
      var k := |b| - 1;
      NetConcat(a, b[..k], v);
      assert (a + b)[..|a + b| - 1] == a + b[..k];
    }
  }

  ghost function RowsShowing(t: Table, names: seq<Name>, v: Cells): set<nat> {
    set id | id in t && Project(names, t[id]) == v
  }

  /** How many table rows show `v` in the output columns. */
  ghost function Count(t: Table, names: seq<Name>, v: Cells): int {
    |RowsShowing(t, names, v)|
  }

  function One(b: bool): int { if b then 1 else 0 }

  lemma CountPut(t: Table, id: nat, img: Image, names: seq<Name>, v: Cells)
    ensures Count(t[id := img], names, v)
         == Count(t, names, v) + One(Project(names, img) == v) - One(id in t && Project(names, t[id]) == v)
  {
    hide Project;
    var before, after := RowsShowing(t, names, v), RowsShowing(t[id := img], names, v);
    assert forall i :: i in after - {id} <==> i in before - {id};
    assert after - {id} == before - {id};
    CardinalWithout(after, id);
    CardinalWithout(before, id);
  }

  lemma CardinalWithout(s: set<nat>, id: nat)
    ensures |s - {id}| == |s| - One(id in s)
  {
    if id in s {
      assert s == (s - {id}) + {id};
    } else {
      assert s == s - {id};
    }
  }

  lemma CountRemove(t: Table, id: nat, names: seq<Name>, v: Cells)
    requires id in t
    ensures Count(t - {id}, names, v) == Count(t, names, v) - One(Project(names, t[id]) == v)
  {
    assert RowsShowing(t - {id}, names, v) == RowsShowing(t, names, v) - {id};
    CardinalWithout(RowsShowing(t, names, v), id);
  }

  lemma EventNet(c: Converter, e: Event, t: Table, id: nat, img: Image, t': Table, v: Cells)
    requires c.beforeRow && Changes(t, e, c.table, id, img, t')
    ensures Net(ConvertEvent(c, e), v) == Count(t', c.columns, v) - Count(t, c.columns, v)
  {
    match e {
      case Insert(schema, row) =>
        if schema.table == c.table {
          AlignedIsProject(c.columns, img, schema.columns, row);
          CountPut(t, id, img, c.columns, v);
        }
      case Update(schema, old_, new_) =>
        if schema.table == c.table {
          AlignedIsProject(c.columns, t[id], schema.columns, old_.value.values);
          AlignedIsProject(c.columns, img, schema.columns, new_.values);
          CountPut(t, id, img, c.columns, v);
          var a := [CdcRow(DeleteOp, Project(c.columns, t[id]))];
          var b := [CdcRow(UpdateOp, Project(c.columns, img))];
          assert ConvertEvent(c, e) == a + b;
          NetConcat(a, b, v);
        }
      case Delete(schema, old_) =>
        if schema.table == c.table {
          AlignedIsProject(c.columns, t[id], schema.columns, old_.value.values);
          CountRemove(t, id, c.columns, v);
        }
      case Truncate(_) =>
      case Other =>
    }
  }

  /**
   With before-rows on and full images, for every history of the table the
   emitted rows, counted with sign, are exactly the change of its contents.
   */
  lemma {:induction false} ChangelogCountsTheTable(c: Converter, events: seq<Event>, h: History, v: Cells)
    requires c.beforeRow && IsHistory(h, events, c.table)
    ensures Net(ConvertAll(c, events), v) == Count(h.states[|events|], c.columns, v) - Count(h.states[0], c.columns, v)
  {
    if events != [] {
      var k := |events| - 1;
      var h0 := History(h.states[..k + 1], h.ids[..k], h.images[..k]);
      assert IsHistory(h0, events[..k], c.table);
      ChangelogCountsTheTable(c, events[..k], h0, v);
      NetConcat(ConvertAll(c, events[..k]), ConvertEvent(c, events[k]), v);
      EventNet(c, events[k], h.states[k], h.ids[k], h.images[k], h.states[k + 1], v);
    }
  }

  /** The rows of an initial table copy. */
  function ConvertCopyRows(c: Converter, schema: TableSchema, rows: seq<seq<Cell>>): seq<CdcRow> {
    if schema.table != c.table then []
    else seq(|rows|, i requires 0 <= i < |rows| => CdcRow(CopyOp, AlignedBy(c.columns, schema.columns, rows[i], [])))
  }

  /** The copied rows list the table: row `ids[i]` of it has the cells `rows[i]`. */
  ghost predicate Lists(t: Table, schema: TableSchema, rows: seq<seq<Cell>>, ids: seq<nat>) {
    && |ids| == |rows| && Distinct(ids) && (forall id :: id in t <==> id in ids)
    && forall i | 0 <= i < |ids| :: IsImage(t[ids[i]], schema.columns, rows[i])
  }

  lemma {:induction false} CopyCountsTheTable(c: Converter, schema: TableSchema, rows: seq<seq<Cell>>, t: Table, ids: seq<nat>, v: Cells)
    requires schema.table == c.table && Lists(t, schema, rows, ids)
    ensures Net(ConvertCopyRows(c, schema, rows), v) == Count(t, c.columns, v)
  {
    if ids == [] {
      assert RowsShowing(t, c.columns, v) == {};
    } else {
      var k := |ids| - 1;
      var t0 := t - {ids[k]};
      ListsInit(t, schema, rows, ids);
      AlignedIsProject(c.columns, t[ids[k]], schema.columns, rows[k]);
      assert ids[k] in t;
      hide Lists, Count, AlignedBy, Project, IsImage, Distinct;
      CopyCountsTheTable(c, schema, rows[..k], t0, ids[..k], v);
      CountRemove(t, ids[k], c.columns, v);
      var emitted := ConvertCopyRows(c, schema, rows);
      assert emitted[..k] == ConvertCopyRows(c, schema, rows[..k]);
    }
  }

  lemma ListsInit(t: Table, schema: TableSchema, rows: seq<seq<Cell>>, ids: seq<nat>)
    requires Lists(t, schema, rows, ids) && ids != []
    ensures var k := |ids| - 1; Lists(t - {ids[k]}, schema, rows[..k], ids[..k])
  {
    var k := |ids| - 1;
    hide IsImage;
    assert ids == ids[..k] + [ids[k]];
    assert forall i | 0 <= i < k :: ids[..k][i] == ids[i] && rows[..k][i] == rows[i];
  }

  /** Copy then stream: the signed rows emitted so far are the table's contents, whatever happened to it. */
  lemma ChangelogIsTheTable(c: Converter, schema: TableSchema, rows: seq<seq<Cell>>, ids: seq<nat>, events: seq<Event>, h: History, v: Cells)
    requires c.beforeRow && schema.table == c.table && IsHistory(h, events, c.table)
    requires Lists(h.states[0], schema, rows, ids)
    ensures Net(ConvertCopyRows(c, schema, rows) + ConvertAll(c, events), v) == Count(h.states[|events|], c.columns, v)
  {
    CopyCountsTheTable(c, schema, rows, h.states[0], ids, v);
    ChangelogCountsTheTable(c, events, h, v);
    NetConcat(ConvertCopyRows(c, schema, rows), ConvertAll(c, events), v);
  }

  // ---------------------------------------------------------------- keyed sink

  /** The key part of an aligned row. */
  ghost function KeyOf(names: seq<Name>, key: seq<Name>, v: Cells): (k: Cells)
    requires |v| == |names| && forall c | c in key :: c in names
    ensures |k| == |key|
  {
    seq(|key|, j requires 0 <= j < |key| => v[IndexOf(names, key[j]).value])
  }

  type Sink = map<Cells, Cells>

  ghost function SinkApply(names: seq<Name>, key: seq<Name>, s: Sink, r: CdcRow): Sink
    requires |r.values| == |names| && forall c | c in key :: c in names
  {
    var k := KeyOf(names, key, r.values);
    if r.op == DeleteOp then s - {k} else s[k := r.values]
  }

  ghost predicate Shaped(names: seq<Name>, rows: seq<CdcRow>) {
    forall r | r in rows :: |r.values| == |names|
  }

  ghost function SinkAll(names: seq<Name>, key: seq<Name>, s: Sink, rows: seq<CdcRow>): Sink
    requires Shaped(names, rows) && forall c | c in key :: c in names
  {
    if rows == [] then s
    else SinkApply(names, key, SinkAll(names, key, s, rows[..|rows| - 1]), rows[|rows| - 1])
  }

  lemma {:induction false} SinkConcat(names: seq<Name>, key: seq<Name>, s: Sink, a: seq<CdcRow>, b: seq<CdcRow>)
    requires Shaped(names, a) && Shaped(names, b) && forall c | c in key :: c in names
    ensures Shaped(names, a + b)
    ensures SinkAll(names, key, s, a + b) == SinkAll(names, key, SinkAll(names, key, s, a), b)
  {
    if b == [] {
      assert a + b == a;
    } else {
      var k := |b| - 1;
      assert Shaped(names, b[..k]);
      SinkConcat(names, key, s, a, b[..k]);
      assert (a + b)[..|a + b| - 1] == a + b[..k];
    }
  }

  /** Two sinks that agree on one key agree on it after the same rows, and a key that occurs in the rows is fixed by them. */
  lemma {:induction false} LastRowDecides(names: seq<Name>, key: seq<Name>, s: Sink, s': Sink, rows: seq<CdcRow>, k: Cells)
    requires Shaped(names, rows) && forall c | c in key :: c in names
    requires ((k in s <==> k in s') && (k in s ==> s[k] == s'[k])) || exists r :: r in rows && KeyOf(names, key, r.values) == k
    ensures var (t, t') := (SinkAll(names, key, s, rows), SinkAll(names, key, s', rows));
      (k in t <==> k in t') && (k in t ==> t[k] == t'[k])
  {
    if rows != [] {
      var n := |rows| - 1;
      if KeyOf(names, key, rows[n].values) != k {
        if r :| r in rows && KeyOf(names, key, r.values) == k {
          assert r in rows[..n];
        }
        LastRowDecides(names, key, s, s', rows[..n], k);
      }
    }
  }

  lemma {:induction false} UntouchedKey(names: seq<Name>, key: seq<Name>, s: Sink, rows: seq<CdcRow>, k: Cells)
    requires Shaped(names, rows) && forall c | c in key :: c in names
    requires forall r | r in rows :: KeyOf(names, key, r.values) != k
    ensures var t := SinkAll(names, key, s, rows); (k in t <==> k in s) && (k in t ==> t[k] == s[k])
  {
    if rows != [] {
      UntouchedKey(names, key, s, rows[..|rows| - 1], k);
    }
  }

  /** At-least-once is harmless: replaying any suffix of the rows already applied leaves the sink as it is. */
  lemma ReplayIsIdempotent(names: seq<Name>, key: seq<Name>, s: Sink, before: seq<CdcRow>, suffix: seq<CdcRow>)
    requires Shaped(names, before) && Shaped(names, suffix) && forall c | c in key :: c in names
    ensures Shaped(names, before + suffix)
    ensures var t := SinkAll(names, key, s, before + suffix); SinkAll(names, key, t, suffix) == t
  {
    SinkConcat(names, key, s, before, suffix);
    var m := SinkAll(names, key, s, before);
    var t := SinkAll(names, key, m, suffix);
    var t2 := SinkAll(names, key, t, suffix);
    forall k: Cells
      ensures (k in t2 <==> k in t) && (k in t2 ==> t2[k] == t[k])
    {
      if exists r :: r in suffix && KeyOf(names, key, r.values) == k {
        LastRowDecides(names, key, t, m, suffix, k);
      } else {
        UntouchedKey(names, key, t, suffix, k);
      }
    }
    assert t2 == t;
  }

  /** A table with a primary key: rows by key. */
  type Keyed = map<Cells, Image>

  /** Every row carries the key columns and is filed under its key. */
  ghost predicate KeyedBy(c: Converter, key: seq<Name>, t: Keyed) {
    && Distinct(c.columns) && Distinct(key) && (forall n | n in key :: n in c.columns)
    && forall k | k in t :: HasKey(key, t[k]) && k == KeyOf(c.columns, key, Project(c.columns, t[k]))
  }

  ghost predicate HasKey(key: seq<Name>, img: Image) {
    forall n | n in key :: n in img
  }

  /** The sink holds exactly the table's rows, as the output columns show them. */
  ghost predicate InSync(c: Converter, t: Keyed, s: Sink) {
    s == map k | k in t :: Project(c.columns, t[k])
  }

  /** An old image of the row `img`: all its columns, or its identity columns, which need not be the key of the sink. */
  ghost predicate IsOldImage(img: Image, schema: TableSchema, old_: OldRow) {
    match old_
    case Full(values) => IsImage(img, schema.columns, values)
    case Key(values) =>
      && |values| == |schema.identity|
      && forall j | 0 <= j < |values| :: schema.identity[j] in img && img[schema.identity[j]] == values[j]
  }

  /** The old image carries every key column. */
  ghost predicate HoldsKey(key: seq<Name>, schema: TableSchema, old_: OldRow) {
    old_.Key? ==> forall n | n in key :: n in schema.identity
  }

  /** The image of an updated row: all its columns, or all but the unchanged ones numbered in `missing`. */
  ghost predicate IsNewImage(img: Image, columns: seq<Name>, new_: NewRow) {
    match new_
    case FullRow(values) => IsImage(img, columns, values)
    case Partial(values, missing) =>
      && Distinct(columns) && Ascending(missing) && (forall m | m in missing :: m < |columns|)
      && (forall c :: c in img <==> c in columns)
      && forall p | 0 <= p < |columns| && p !in missing :: CellAt(values, missing, p) == Some(img[columns[p]])
  }

  /** An event as the effect of a change on a keyed table: `k` is the old key and `k'` the new one. */
  ghost predicate KeyedChange(c: Converter, key: seq<Name>, t: Keyed, e: Event, k: Cells, k': Cells, img: Image, t': Keyed)
    requires KeyedBy(c, key, t)
  {
    match e
    case Insert(schema, row) =>
      if schema.table != c.table then t' == t
      else
        && IsImage(img, schema.columns, row) && HasKey(key, img) && k' == KeyOf(c.columns, key, Project(c.columns, img))
        && k' !in t && t' == t[k' := img]
    case Update(schema, old_, new_) =>
      if schema.table != c.table then t' == t
      else
        && IsNewImage(img, schema.columns, new_) && HasKey(key, img)
        && k in t && k' == KeyOf(c.columns, key, Project(c.columns, img))
        && (k' == k || k' !in t)
        && (old_.Some? ==> IsOldImage(t[k], schema, old_.value))
        && t' == (t - {k})[k' := img]
    case Delete(schema, old_) =>
      if schema.table != c.table then t' == t
      else k in t && (old_.Some? ==> IsOldImage(t[k], schema, old_.value)) && t' == t - {k}
    case Truncate(tables) => t' == if Truncates(c, tables) then map[] else t
    case Other => t' == t
  }

  ghost predicate Truncates(c: Converter, tables: seq<TableSchema>) {
    exists s :: s in tables && s.table == c.table
  }

  /** An output column that the new image does not carry. */
  ghost predicate Nulls(c: Converter, schema: TableSchema, new_: NewRow) {
    new_.Partial? && exists m :: m in new_.missing && m < |schema.columns| && schema.columns[m] in c.columns
  }

  /**
   What a keyed sink can follow: an update that carries every output column
   and keeps its key or retracts the full old row first, a delete whose old
   image is there and carries every key column, and no truncation of rows.
   */
  ghost predicate CanFollow(c: Converter, key: seq<Name>, t: Keyed, e: Event, k: Cells, k': Cells) {
    match e
    case Update(schema, old_, new_) =>
      schema.table == c.table ==>
        (k == k' || (c.beforeRow && old_.Some? && old_.value.Full?)) && !Nulls(c, schema, new_)
    case Delete(schema, old_) => schema.table == c.table ==> old_.Some? && HoldsKey(key, schema, old_.value)
    case Truncate(tables) => Truncates(c, tables) ==> t == map[]
    case _ => true
  }

  /** A cell of an aligned old image is the row's own, or absent when a key image does not carry its column. */
  lemma OldCellIs(names: seq<Name>, schema: TableSchema, old_: OldRow, img: Image, i: nat)
    requires IsOldImage(img, schema, old_) && i < |names|
    ensures AlignedOldBy(names, schema, old_)[i] ==
      if old_.Key? && names[i] !in schema.identity then None else Project(names, img)[i]
  {
    match old_ {
      case Full(values) => AlignedIsProject(names, img, schema.columns, values);
      case Key(values) =>
        var p := IndexOf(schema.identity, names[i]);
        assert CountBelow([], if p.Some? then p.value else 0) == 0;
    }
  }

  /** An old image that carries the key columns has the key of its row; another one has a key no row has. */
  lemma OldImageKey(c: Converter, key: seq<Name>, t: Keyed, schema: TableSchema, old_: OldRow, k: Cells)
    requires KeyedBy(c, key, t) && k in t && IsOldImage(t[k], schema, old_)
    ensures HoldsKey(key, schema, old_) ==> KeyOf(c.columns, key, AlignedOldBy(c.columns, schema, old_)) == k
    ensures !HoldsKey(key, schema, old_) ==> KeyOf(c.columns, key, AlignedOldBy(c.columns, schema, old_)) !in t
  {
    var at := KeyOf(c.columns, key, AlignedOldBy(c.columns, schema, old_));
    hide Project, AlignedOldBy, IsOldImage, HasKey;
    forall j | 0 <= j < |key|
      ensures at[j] == if old_.Key? && key[j] !in schema.identity then None else k[j]
    {
      OldCellIs(c.columns, schema, old_, t[k], IndexOf(c.columns, key[j]).value);
    }
    if HoldsKey(key, schema, old_) {
      assert at == k;
    } else {
      var n :| n in key && n !in schema.identity;
      var j :| 0 <= j < |key| && key[j] == n;
      assert at[j] == None;
      forall other | other in t
        ensures other != at
      {
        KeysAreWhole(c, key, t, other, j);
      }
    }
  }

  lemma KeysAreWhole(c: Converter, key: seq<Name>, t: Keyed, k: Cells, j: nat)
    requires KeyedBy(c, key, t) && k in t && j < |key|
    ensures |k| == |key| && k[j].Some?
  {
    assert key[j] in t[k];
  }

  lemma RowsShaped(c: Converter, e: Event)
    ensures Shaped(c.columns, ConvertEvent(c, e))
  {
  }

  ghost function SyncedSink(c: Converter, t: Keyed): Sink {
    map k | k in t :: Project(c.columns, t[k])
  }

  /**
   Whatever event a table with a primary key produces, under whatever replica
   identity, it keeps a keyed sink in step with the table exactly when the sink
   can follow it.
   */
  lemma EventKeepsSync(c: Converter, key: seq<Name>, t: Keyed, e: Event, k: Cells, k': Cells, img: Image, t': Keyed, s: Sink)
    requires KeyedBy(c, key, t) && KeyedChange(c, key, t, e, k, k', img, t') && InSync(c, t, s)
    ensures KeyedBy(c, key, t') && Shaped(c.columns, ConvertEvent(c, e))
    ensures InSync(c, t', SinkAll(c.columns, key, s, ConvertEvent(c, e))) <==> CanFollow(c, key, t, e, k, k')
  {
    RowsShaped(c, e);
    StaysKeyed(c, key, t, e, k, k', img, t');
    match e {
      case Insert(schema, row) => InsertKeepsSync(c, key, t, e, k, k', img, t', s);
      case Update(schema, old_, new_) =>
        if schema.table == c.table {
          UpdateKeepsSync(c, key, t, e, k, k', img, t', s);
        }
      case Delete(schema, old_) => DeleteKeepsSync(c, key, t, e, k, k', img, t', s);
      case Truncate(_) => TruncateKeepsSync(c, key, t, e, k, k', img, t', s);
      case Other =>
    }
  }

  lemma StaysKeyed(c: Converter, key: seq<Name>, t: Keyed, e: Event, k: Cells, k': Cells, img: Image, t': Keyed)
    requires KeyedBy(c, key, t) && KeyedChange(c, key, t, e, k, k', img, t')
    ensures KeyedBy(c, key, t')
  {
    hide Project, KeyOf, IsImage, IsNewImage, IsOldImage, HasKey, Truncates;
  }

  lemma InsertKeepsSync(c: Converter, key: seq<Name>, t: Keyed, e: Event, k: Cells, k': Cells, img: Image, t': Keyed, s: Sink)
    requires e.Insert? && Shaped(c.columns, ConvertEvent(c, e))
    requires KeyedBy(c, key, t) && KeyedChange(c, key, t, e, k, k', img, t') && InSync(c, t, s)
    ensures InSync(c, t', SinkAll(c.columns, key, s, ConvertEvent(c, e)))
  {
    if e.schema.table == c.table {
      AlignedIsProject(c.columns, img, e.schema.columns, e.row);
      SinkOne(c.columns, key, s, ConvertEvent(c, e)[0]);
      assert SyncedSink(c, t') == s[k' := Project(c.columns, img)];
    }
  }

  lemma DeleteKeepsSync(c: Converter, key: seq<Name>, t: Keyed, e: Event, k: Cells, k': Cells, img: Image, t': Keyed, s: Sink)
    requires e.Delete? && Shaped(c.columns, ConvertEvent(c, e))
    requires KeyedBy(c, key, t) && KeyedChange(c, key, t, e, k, k', img, t') && InSync(c, t, s)
    ensures InSync(c, t', SinkAll(c.columns, key, s, ConvertEvent(c, e))) <==> CanFollow(c, key, t, e, k, k')
  {
    if e.schema.table == c.table {
      assert SyncedSink(c, t') == s - {k};
      if e.old_.Some? {
        OldImageKey(c, key, t, e.schema, e.old_.value, k);
        SinkOne(c.columns, key, s, ConvertEvent(c, e)[0]);
        assert k in s && k !in t';
        RemoveStranger(s, KeyOf(c.columns, key, AlignedOldBy(c.columns, e.schema, e.old_.value)));
      } else {
        assert k in s && k !in t';
      }
    }
  }

  lemma RemoveStranger(s: Sink, k: Cells)
    ensures k !in s ==> s - {k} == s
  {
  }

  lemma TruncateKeepsSync(c: Converter, key: seq<Name>, t: Keyed, e: Event, k: Cells, k': Cells, img: Image, t': Keyed, s: Sink)
    requires e.Truncate? && Shaped(c.columns, ConvertEvent(c, e))
    requires KeyedBy(c, key, t) && KeyedChange(c, key, t, e, k, k', img, t') && InSync(c, t, s)
    ensures InSync(c, t', SinkAll(c.columns, key, s, ConvertEvent(c, e))) <==> CanFollow(c, key, t, e, k, k')
  {
    hide Truncates, Project;
    assert s.Keys == t.Keys;
    if t == map[] {
      assert s == map[];
    } else {
      HasEntry(t);
    }
  }

  lemma HasEntry<K, V>(m: map<K, V>)
    requires m != map[]
    ensures m.Keys != {}
  {
  }

  lemma SinkOne(names: seq<Name>, key: seq<Name>, s: Sink, r: CdcRow)
    requires |r.values| == |names| && forall c | c in key :: c in names
    ensures SinkAll(names, key, s, [r]) == SinkApply(names, key, s, r)
  {
    assert [r][..0] == [];
  }

  lemma UpdateKeepsSync(c: Converter, key: seq<Name>, t: Keyed, e: Event, k: Cells, k': Cells, img: Image, t': Keyed, s: Sink)
    requires e.Update? && e.schema.table == c.table
    requires KeyedBy(c, key, t) && KeyedChange(c, key, t, e, k, k', img, t') && InSync(c, t, s) && KeyedBy(c, key, t')
    requires Shaped(c.columns, ConvertEvent(c, e))
    ensures InSync(c, t', SinkAll(c.columns, key, s, ConvertEvent(c, e))) <==> CanFollow(c, key, t, e, k, k')
  {
    var values := NewCells(c, e.schema, e.new_);
    UpdateSinks(c, key, t, e, k, k', img, t', s);
    if Nulls(c, e.schema, e.new_) {
      NulledNeverSyncs(c, key, e.schema, e.new_, img, k', t', s);
      NulledNeverSyncs(c, key, e.schema, e.new_, img, k', t', s - {k});
    } else {
      NewCellsAreProject(c, e.schema, e.new_, img);
      SyncAfterUpdate(c, t, k, k', img, t', s);
    }
  }

  function NewCells(c: Converter, schema: TableSchema, new_: NewRow): (r: Cells)
    ensures |r| == |c.columns|
  {
    AlignedBy(c.columns, schema.columns, new_.values, if new_.Partial? then new_.missing else [])
  }

  /** What an update does to the sink: the new cells are put under their own key, after the old key when the full old row is retracted. */
  lemma UpdateSinks(c: Converter, key: seq<Name>, t: Keyed, e: Event, k: Cells, k': Cells, img: Image, t': Keyed, s: Sink)
    requires e.Update? && e.schema.table == c.table
    requires KeyedBy(c, key, t) && KeyedChange(c, key, t, e, k, k', img, t')
    requires Shaped(c.columns, ConvertEvent(c, e))
    ensures var values := NewCells(c, e.schema, e.new_);
      var before := if c.beforeRow && e.old_.Some? && e.old_.value.Full? then s - {k} else s;
      SinkAll(c.columns, key, s, ConvertEvent(c, e)) == before[KeyOf(c.columns, key, values) := values]
  {
    var up := CdcRow(UpdateOp, NewCells(c, e.schema, e.new_));
    if c.beforeRow && e.old_.Some? && e.old_.value.Full? {
      var del := CdcRow(DeleteOp, AlignedOldBy(c.columns, e.schema, e.old_.value));
      OldImageKey(c, key, t, e.schema, e.old_.value, k);
      assert ConvertEvent(c, e) == [del] + [up];
      hide ConvertEvent, Project, AlignedOldBy, KeyedChange, KeyOf, NewCells, KeyedBy;
      assert forall n | n in key :: n in c.columns by { KeyInColumns(c, key, t); }
      SinkConcat(c.columns, key, s, [del], [up]);
      SinkOne(c.columns, key, s, del);
      SinkOne(c.columns, key, s - {k}, up);
    } else {
      assert ConvertEvent(c, e) == [up];
      hide ConvertEvent, Project, KeyedChange, KeyOf, NewCells;
      SinkOne(c.columns, key, s, up);
    }
  }

  lemma KeyInColumns(c: Converter, key: seq<Name>, t: Keyed)
    requires KeyedBy(c, key, t)
    ensures forall n | n in key :: n in c.columns
  {
  }

  /** Each output cell of a new row is the row's own, or absent when its column is missing. */
  lemma NewCellsAre(c: Converter, schema: TableSchema, new_: NewRow, img: Image, i: nat)
    requires IsNewImage(img, schema.columns, new_) && i < |c.columns|
    ensures var p := IndexOf(schema.columns, c.columns[i]);
      NewCells(c, schema, new_)[i] ==
        if new_.Partial? && p.Some? && p.value in new_.missing then None else Project(c.columns, img)[i]
  {
    if new_.FullRow? {
      AlignedIsProject(c.columns, img, schema.columns, new_.values);
    }
  }

  lemma NewCellsAreProject(c: Converter, schema: TableSchema, new_: NewRow, img: Image)
    requires IsNewImage(img, schema.columns, new_) && !Nulls(c, schema, new_)
    ensures NewCells(c, schema, new_) == Project(c.columns, img)
  {
    forall i | 0 <= i < |c.columns|
      ensures NewCells(c, schema, new_)[i] == Project(c.columns, img)[i]
    {
      NewCellsAre(c, schema, new_, img, i);
    }
  }

  /** A new row that lacks an output column is filed under a key no row has, or in place of a row that has the column. */
  lemma NulledNeverSyncs(c: Converter, key: seq<Name>, schema: TableSchema, new_: NewRow, img: Image, k': Cells, t': Keyed, s: Sink)
    requires KeyedBy(c, key, t') && IsNewImage(img, schema.columns, new_) && Nulls(c, schema, new_)
    requires k' in t' && t'[k'] == img
    ensures var values := NewCells(c, schema, new_); !InSync(c, t', s[KeyOf(c.columns, key, values) := values])
  {
    var values := NewCells(c, schema, new_);
    var at := KeyOf(c.columns, key, values);
    var i := NulledCell(c, schema, new_, img);
    assert values != Project(c.columns, img);
    if at != k' {
      NoRowAt(c, key, schema, new_, img, k', t');
    }
    hide *;
    WrongRow(c, t', s, at, values);
  }

  lemma WrongRow(c: Converter, t: Keyed, s: Sink, at: Cells, values: Cells)
    requires at in t ==> Project(c.columns, t[at]) != values
    ensures !InSync(c, t, s[at := values])
  {
    hide Project;
    assert s[at := values][at] == values;
  }

  lemma NoRowAt(c: Converter, key: seq<Name>, schema: TableSchema, new_: NewRow, img: Image, k': Cells, t: Keyed)
    requires KeyedBy(c, key, t) && IsNewImage(img, schema.columns, new_) && k' in t && t[k'] == img
    requires KeyOf(c.columns, key, NewCells(c, schema, new_)) != k'
    ensures KeyOf(c.columns, key, NewCells(c, schema, new_)) !in t
  {
    var at := KeyOf(c.columns, key, NewCells(c, schema, new_));
    hide NewCells, Project, KeyOf, IsNewImage, HasKey;
    KeyWithoutCell(c, key, schema, new_, img, k', at);
    forall k | k in t
      ensures k != at
    {
      assert HasKey(key, t[k]);
    }
  }

  lemma NulledCell(c: Converter, schema: TableSchema, new_: NewRow, img: Image) returns (i: nat)
    requires IsNewImage(img, schema.columns, new_) && Nulls(c, schema, new_)
    ensures i < |c.columns| && NewCells(c, schema, new_)[i] == None && Project(c.columns, img)[i] != None
  {
    var m :| m in new_.missing && m < |schema.columns| && schema.columns[m] in c.columns;
    i :| 0 <= i < |c.columns| && c.columns[i] == schema.columns[m];
    IndexOfAt(schema.columns, m);
    NewCellsAre(c, schema, new_, img, i);
    hide NewCells, CellAt;
    assert c.columns[i] in img;
  }

  lemma KeyWithoutCell(c: Converter, key: seq<Name>, schema: TableSchema, new_: NewRow, img: Image, k': Cells, at: Cells)
    requires IsNewImage(img, schema.columns, new_) && forall n | n in key :: n in c.columns
    requires k' == KeyOf(c.columns, key, Project(c.columns, img)) && at == KeyOf(c.columns, key, NewCells(c, schema, new_)) && at != k'
    ensures forall row: Image | HasKey(key, row) :: at != KeyOf(c.columns, key, Project(c.columns, row))
  {
    var j :| 0 <= j < |key| && at[j] != k'[j];
    var i := IndexOf(c.columns, key[j]).value;
    NewCellsAre(c, schema, new_, img, i);
    assert at[j] == None;
    forall row: Image | HasKey(key, row)
      ensures at != KeyOf(c.columns, key, Project(c.columns, row))
    {
      assert key[j] in row;
      assert KeyOf(c.columns, key, Project(c.columns, row))[j].Some?;
    }
  }

  /** An unchanged stored-out-of-line value is absent from the new image: the key is kept, and the sink loses the value. */
  lemma UnchangedToastIsNulled() returns (c: Converter, t: Keyed, e: Event, k: Cells, img: Image, s: Sink)
    ensures KeyedBy(c, ["id"], t) && KeyedChange(c, ["id"], t, e, k, k, img, t) && InSync(c, t, s) && e.Update?
    ensures Shaped(c.columns, ConvertEvent(c, e)) && !InSync(c, t, SinkAll(c.columns, ["id"], s, ConvertEvent(c, e)))
  {
    c, t, k, img, s := OneRowTable();
    e := Update(TableSchema("t", ["id", "v"], ["id"]), None, Partial(["1"], [1]));
    var missing := [1];
    assert missing[..0] == [] && 1 in missing && 0 !in missing;
    assert CountBelow(missing, 0) == 0;
    assert CellAt(["1"], missing, 0) == Some("1");
    assert ["id", "v"][1] == "v" && "v" in c.columns;
    assert Nulls(c, e.schema, e.new_);
    assert IsNewImage(img, ["id", "v"], e.new_);
    assert (t - {k})[k := img] == t;
    EventKeepsSync(c, ["id"], t, e, k, k, img, t, s);
  }

  /** A delete without an old image leaves its row in the sink. */
  lemma DeleteWithoutImageStays() returns (c: Converter, t: Keyed, e: Event, k: Cells, s: Sink)
    ensures KeyedBy(c, ["id"], t) && KeyedChange(c, ["id"], t, e, k, k, map[], map[]) && InSync(c, t, s) && e.Delete?
    ensures Shaped(c.columns, ConvertEvent(c, e)) && !InSync(c, map[], SinkAll(c.columns, ["id"], s, ConvertEvent(c, e)))
  {
    var img;
    c, t, k, img, s := OneRowTable();
    e := Delete(TableSchema("t", ["id", "v"], ["id"]), None);
    assert t - {k} == map[];
    EventKeepsSync(c, ["id"], t, e, k, k, map[], map[], s);
  }

  /** A replica identity without the key: the delete names no key, and its row stays in the sink. */
  lemma DeleteByOtherIdentityStays() returns (c: Converter, t: Keyed, e: Event, k: Cells, s: Sink)
    ensures KeyedBy(c, ["id"], t) && KeyedChange(c, ["id"], t, e, k, k, map[], map[]) && InSync(c, t, s)
    ensures e.Delete? && WellFormed(e) && e.old_ == Some(Key(["x"]))
    ensures Shaped(c.columns, ConvertEvent(c, e)) && !InSync(c, map[], SinkAll(c.columns, ["id"], s, ConvertEvent(c, e)))
  {
    var img;
    c, t, k, img, s := OneRowTable();
    e := Delete(TableSchema("t", ["id", "v"], ["v"]), Some(Key(["x"])));
    assert t - {k} == map[];
    assert "id" in ["id"] && "id" !in e.schema.identity;
    EventKeepsSync(c, ["id"], t, e, k, k, map[], map[], s);
  }

  lemma OneRowTable() returns (c: Converter, t: Keyed, k: Cells, img: Image, s: Sink)
    ensures c == Converter("t", ["id", "v"], false) && img == map["id" := "1", "v" := "x"] && k == [Some("1")] && t == map[k := img]
    ensures KeyedBy(c, ["id"], t) && InSync(c, t, s)
  {
    c, img, k := Converter("t", ["id", "v"], false), map["id" := "1", "v" := "x"], [Some("1")];
    t := map[k := img];
    s := SyncedSink(c, t);
    assert ["id"][0] == "id" && c.columns[0] == "id" && c.columns[1] == "v";
    assert Project(c.columns, img)[0] == Some("1");
    assert IndexOf(c.columns, "id") == Some(0);
    assert KeyOf(c.columns, ["id"], Project(c.columns, img)) == k;
  }

  /** Replacing the row under its new key keeps the sink in step; without removing the old key only if the key is the same. */
  lemma SyncAfterUpdate(c: Converter, t: Keyed, k: Cells, k': Cells, img: Image, t': Keyed, s: Sink)
    requires InSync(c, t, s) && k in t && (k' == k || k' !in t) && t' == (t - {k})[k' := img]
    ensures InSync(c, t', (s - {k})[k' := Project(c.columns, img)])
    ensures InSync(c, t', s[k' := Project(c.columns, img)]) <==> k == k'
  {
    hide Project;
    var values := Project(c.columns, img);
    assert SyncedSink(c, t') == (s - {k})[k' := values];
    if k != k' {
      assert k in s[k' := values] && k !in t';
    } else {
      assert (s - {k})[k' := values] == s[k' := values];
    }
  }

  datatype KeyedHistory = KeyedHistory(states: seq<Keyed>, keys: seq<(Cells, Cells)>, images: seq<Image>)

  ghost predicate IsKeyedHistory(c: Converter, key: seq<Name>, h: KeyedHistory, events: seq<Event>) {
    && |h.states| == |events| + 1 && |h.keys| == |h.images| == |events|
    && (forall k | 0 <= k <= |events| :: KeyedBy(c, key, h.states[k]))
    && forall k | 0 <= k < |events| ::
         && KeyedChange(c, key, h.states[k], events[k], h.keys[k].0, h.keys[k].1, h.images[k], h.states[k + 1])
         && CanFollow(c, key, h.states[k], events[k], h.keys[k].0, h.keys[k].1)
  }

  /** A keyed sink that starts in step with the table is in step with it after every such history. */
  lemma {:induction false} KeyedSinkEqualsTable(c: Converter, key: seq<Name>, events: seq<Event>, h: KeyedHistory, s: Sink)
    requires IsKeyedHistory(c, key, h, events) && InSync(c, h.states[0], s)
    requires forall n | n in key :: n in c.columns
    ensures Shaped(c.columns, ConvertAll(c, events))
    ensures InSync(c, h.states[|events|], SinkAll(c.columns, key, s, ConvertAll(c, events)))
  {
    if events != [] {
      var n := |events| - 1;
      var h0 := KeyedHistory(h.states[..n + 1], h.keys[..n], h.images[..n]);
      assert IsKeyedHistory(c, key, h0, events[..n]);
      KeyedSinkEqualsTable(c, key, events[..n], h0, s);
      var done := ConvertAll(c, events[..n]);
      var s1 := SinkAll(c.columns, key, s, done);
      EventKeepsSync(c, key, h.states[n], events[n], h.keys[n].0, h.keys[n].1, h.images[n], h.states[n + 1], s1);
      SinkConcat(c.columns, key, s, done, ConvertEvent(c, events[n]));
    }
  }

  // ---------------------------------------------------------------- copy, then stream, into a keyed sink

  /** The copied rows list the keyed table: the row under `ks[i]` has the cells `rows[i]`. */
  ghost predicate ListsKeyed(t: Keyed, schema: TableSchema, rows: seq<seq<Cell>>, ks: seq<Cells>) {
    && |ks| == |rows| && Distinct(ks) && (forall k :: k in t <==> k in ks)
    && forall i | 0 <= i < |ks| :: IsImage(t[ks[i]], schema.columns, rows[i])
  }

  /** The initial copy brings an empty keyed sink in step with the table. */
  lemma {:induction false} CopyBringsSync(c: Converter, key: seq<Name>, schema: TableSchema, rows: seq<seq<Cell>>, t: Keyed, ks: seq<Cells>)
    requires schema.table == c.table && KeyedBy(c, key, t) && ListsKeyed(t, schema, rows, ks)
    ensures Shaped(c.columns, ConvertCopyRows(c, schema, rows))
    ensures InSync(c, t, SinkAll(c.columns, key, map[], ConvertCopyRows(c, schema, rows)))
  {
    if ks == [] {
      assert t == map[];
    } else {
      var n := |ks| - 1;
      KeyedInit(c, key, schema, rows, t, ks);
      CopyBringsSync(c, key, schema, rows[..n], t - {ks[n]}, ks[..n]);
      hide *;
      CopyLast(c, key, schema, rows, t, ks);
      InsertLast(c, t, ks[n], SinkAll(c.columns, key, map[], ConvertCopyRows(c, schema, rows[..n])));
    }
  }

  lemma InsertLast(c: Converter, t: Keyed, k: Cells, s: Sink)
    requires k in t && InSync(c, t - {k}, s)
    ensures InSync(c, t, s[k := Project(c.columns, t[k])])
  {
    hide Project;
  }

  /** The last copied row is put under its own key. */
  lemma CopyLast(c: Converter, key: seq<Name>, schema: TableSchema, rows: seq<seq<Cell>>, t: Keyed, ks: seq<Cells>)
    requires schema.table == c.table && KeyedBy(c, key, t) && ListsKeyed(t, schema, rows, ks) && ks != []
    requires Shaped(c.columns, ConvertCopyRows(c, schema, rows[..|ks| - 1]))
    ensures var n, copied := |ks| - 1, ConvertCopyRows(c, schema, rows);
      && Shaped(c.columns, copied) && ks[n] in t
      && SinkAll(c.columns, key, map[], copied) ==
         SinkAll(c.columns, key, map[], ConvertCopyRows(c, schema, rows[..n]))[ks[n] := Project(c.columns, t[ks[n]])]
  {
    var n := |ks| - 1;
    CopiedRows(c, schema, rows);
    assert ks[n] in t && ks[n] == KeyOf(c.columns, key, Project(c.columns, t[ks[n]]));
    AlignedIsProject(c.columns, t[ks[n]], schema.columns, rows[n]);
    assert Shaped(c.columns, ConvertCopyRows(c, schema, rows)) && forall m | m in key :: m in c.columns;
    hide *;
    SinkPuts(c.columns, key, map[], ConvertCopyRows(c, schema, rows));
  }

  lemma SinkPuts(names: seq<Name>, key: seq<Name>, s: Sink, rows: seq<CdcRow>)
    requires Shaped(names, rows) && (forall c | c in key :: c in names) && rows != [] && rows[|rows| - 1].op != DeleteOp
    ensures var last := rows[|rows| - 1].values;
      && Shaped(names, rows[..|rows| - 1]) && |last| == |names|
      && SinkAll(names, key, s, rows) == SinkAll(names, key, s, rows[..|rows| - 1])[KeyOf(names, key, last) := last]
  {
  }

  lemma KeyedInit(c: Converter, key: seq<Name>, schema: TableSchema, rows: seq<seq<Cell>>, t: Keyed, ks: seq<Cells>)
    requires KeyedBy(c, key, t) && ListsKeyed(t, schema, rows, ks) && ks != []
    ensures var n := |ks| - 1; KeyedBy(c, key, t - {ks[n]}) && ListsKeyed(t - {ks[n]}, schema, rows[..n], ks[..n])
  {
    var n := |ks| - 1;
    hide IsImage, KeyOf, Project, HasKey;
    assert ks == ks[..n] + [ks[n]];
    assert forall i | 0 <= i < n :: ks[..n][i] == ks[i] && rows[..n][i] == rows[i];
  }

  lemma CopiedRows(c: Converter, schema: TableSchema, rows: seq<seq<Cell>>)
    requires schema.table == c.table && rows != []
    ensures var n, copied := |rows| - 1, ConvertCopyRows(c, schema, rows);
      && |copied| == |rows| && copied[..n] == ConvertCopyRows(c, schema, rows[..n])
      && copied[n] == CdcRow(CopyOp, AlignedBy(c.columns, schema.columns, rows[n], []))
  {
    hide AlignedBy;
  }

  /** Copy then stream: a keyed sink that starts empty holds the table's rows after the copy and every history it can follow. */
  lemma KeyedSinkFollowsCopy(
    c: Converter, key: seq<Name>, schema: TableSchema, rows: seq<seq<Cell>>, ks: seq<Cells>, events: seq<Event>, h: KeyedHistory)
    requires schema.table == c.table && IsKeyedHistory(c, key, h, events) && ListsKeyed(h.states[0], schema, rows, ks)
    ensures forall n | n in key :: n in c.columns
    ensures Shaped(c.columns, ConvertCopyRows(c, schema, rows) + ConvertAll(c, events))
    ensures InSync(c, h.states[|events|], SinkAll(c.columns, key, map[], ConvertCopyRows(c, schema, rows) + ConvertAll(c, events)))
  {
    assert KeyedBy(c, key, h.states[0]);
    CopyBringsSync(c, key, schema, rows, h.states[0], ks);
    var copied := ConvertCopyRows(c, schema, rows);
    KeyedSinkEqualsTable(c, key, events, h, SinkAll(c.columns, key, map[], copied));
    SinkConcat(c.columns, key, map[], copied, ConvertAll(c, events));
  }
}
