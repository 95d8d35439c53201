/**
 The pull-based Iceberg table reader: snapshots become units of data files,
 files are read in path order with arbitrary stream chunking, and a resumable
 position tracks the next row.

 Catalog and Parquet reads are environment calls: their contract is all a
 caller may rely on, and any of them may fail.
 */
module IcebergReader {
  import opened Collections
  import opened Wrappers
  import opened IcebergSnapshots

  type Row = int

  datatype Phase = Scan | Incremental

  datatype Position = Position(snapshot: SnapshotId, phase: Phase, filesDone: nat, rowsDone: nat, complete: bool)

  function StartAt(id: SnapshotId, phase: Phase): Position {
    Position(id, phase, 0, 0, false)
  }

  function Completed(id: SnapshotId, phase: Phase): Position {
    Position(id, phase, 0, 0, true)
  }

  datatype File = File(path: int, rows: seq<Row>)

  /** The data files of each unit, in path order; paths are distinct and files never change. */
  type Contents = map<(SnapshotId, Phase), seq<File>>

  ghost predicate ByPath(files: seq<File>) {
    forall i, j | 0 <= i < j < |files| :: files[i].path < files[j].path
  }

  ghost predicate ContentsOk(t: Contents) {
    forall k | k in t :: ByPath(t[k])
  }

  function FilesOf(t: Contents, id: SnapshotId, phase: Phase): seq<File> {
    if (id, phase) in t then t[(id, phase)] else []
  }

  function AllRows(files: seq<File>): seq<Row> {
    if files == [] then [] else files[0].rows + AllRows(files[1..])
  }

  /** The rows of a unit after the first `file` files and `rows` rows of the next one. */
  function Remaining(files: seq<File>, file: nat, rows: nat): seq<Row> {
    if file < |files| && rows <= |files[file].rows|
    then files[file].rows[rows..] + AllRows(files[file + 1..])
    else []
  }

  // ---------------------------------------------------------------- environment

  datatype ReadError = Io | FewerRows | FewerFiles | Ancestry(e: Error) | Build

  /** One item of a file's record batch stream. */
  datatype Pull = Rows(rows: seq<Row>) | Fault

  /** Rows a stream yields before it ends or fails. */
  function Rest(ps: seq<Pull>): seq<Row> {
    if ps == [] || ps[0].Fault? then [] else ps[0].rows + Rest(ps[1..])
  }

  function Fails(ps: seq<Pull>): bool {
    ps != [] && (ps[0].Fault? || Fails(ps[1..]))
  }

  ghost predicate StreamOf(ps: seq<Pull>, rows: seq<Row>) {
    Rest(ps) <= rows && (!Fails(ps) ==> Rest(ps) == rows)
  }

  /**
   Opens a data file; the chunking of the stream and where it fails are the
   environment's choice. A reliable environment fails nowhere.
   */
  method OpenStream(file: File, reliable: bool) returns (r: Result<seq<Pull>, ReadError>)
    ensures r.Ok? ==> StreamOf(r.value, file.rows) && (reliable ==> !Fails(r.value))
    ensures r.Err? ==> !reliable && r.error == Io
  {
    var whole := [Rows(file.rows)];
    assert whole[1..] == [];
    assert Rest(whole) == file.rows + [];
    r := Ok(whole);
  }

  /** Plans a unit; the catalog may list its files in any order. */
  method PlanFiles(t: Contents, id: SnapshotId, phase: Phase, reliable: bool) returns (r: Result<seq<File>, ReadError>)
    ensures r.Ok? ==> multiset(r.value) == multiset(FilesOf(t, id, phase))
    ensures r.Err? ==> !reliable && r.error == Io
  {
    r := Ok(FilesOf(t, id, phase));
  }

  /** Converts the slices to one output batch, or fails. */
  method BuildBatch(slices: seq<seq<Row>>, reliable: bool) returns (r: Result<seq<Row>, ReadError>)
    ensures r.Ok? ==> r.value == Flatten(slices)
    ensures r.Err? ==> !reliable && r.error == Build
  {
    r := Ok(Flatten(slices));
  }

  // ---------------------------------------------------------------- file order

  ghost predicate PathSorted(files: seq<File>) {
    forall i, j | 0 <= i < j < |files| :: files[i].path <= files[j].path
  }

  function InsertByPath(sorted: seq<File>, f: File): (s: seq<File>)
    ensures multiset(s) == multiset(sorted) + multiset{f}
  {
    if sorted == [] || sorted[|sorted| - 1].path <= f.path then sorted + [f]
    else
      var n := |sorted| - 1;
      assert sorted == sorted[..n] + [sorted[n]];
      InsertByPath(sorted[..n], f) + [sorted[n]]
  }

  lemma {:induction false} InsertKeepsPaths(sorted: seq<File>, f: File)
    requires PathSorted(sorted)
    ensures PathSorted(InsertByPath(sorted, f))
  {
    if sorted == [] || sorted[|sorted| - 1].path <= f.path {
      AppendHighest(sorted, f);
    } else {
      var n := |sorted| - 1;
      assert forall i, j | 0 <= i < j < n :: sorted[..n][i].path <= sorted[..n][j].path;
      InsertKeepsPaths(sorted[..n], f);
      InsertBounded(sorted[..n], f, sorted[n].path);
      AppendHighest(InsertByPath(sorted[..n], f), sorted[n]);
    }
  }

  lemma AppendHighest(sorted: seq<File>, f: File)
    requires PathSorted(sorted) && forall i | 0 <= i < |sorted| :: sorted[i].path <= f.path
    ensures PathSorted(sorted + [f])
  {
  }

  lemma {:induction false} InsertBounded(sorted: seq<File>, f: File, bound: int)
    requires f.path <= bound && forall i | 0 <= i < |sorted| :: sorted[i].path <= bound
    ensures forall i | 0 <= i < |InsertByPath(sorted, f)| :: InsertByPath(sorted, f)[i].path <= bound
  {
    if sorted != [] && sorted[|sorted| - 1].path > f.path {
      InsertBounded(sorted[..|sorted| - 1], f, bound);
    }
  }

  function SortByPath(files: seq<File>): (s: seq<File>)
    ensures multiset(s) == multiset(files)
  {
    if files == [] then []
    else
      assert files == files[..|files| - 1] + [files[|files| - 1]];
      InsertByPath(SortByPath(files[..|files| - 1]), files[|files| - 1])
  }

  lemma {:induction false} SortIsByPath(files: seq<File>)
    ensures PathSorted(SortByPath(files))
  {
    if files != [] {
      SortIsByPath(files[..|files| - 1]);
      InsertKeepsPaths(SortByPath(files[..|files| - 1]), files[|files| - 1]);
    }
  }

  /** Distinct paths leave one sorted order, whatever order the catalog listed. */
  lemma {:induction false} SortedOrderIsUnique(a: seq<File>, b: seq<File>)
    requires ByPath(a) && PathSorted(b) && multiset(a) == multiset(b)
    ensures a == b
  {
    assert |multiset(a)| == |a| && |multiset(b)| == |b|;
    if a != [] {
      SameFirst(a, b);
      hide PathSorted, ByPath;
      TailBag(a);
      TailBag(b);
      assert ByPath(a[1..]) by { TailByPath(a); }
      assert PathSorted(b[1..]) by { TailPathSorted(b); }
      SortedOrderIsUnique(a[1..], b[1..]);
      assert a == [a[0]] + a[1..] && b == [b[0]] + b[1..];
    }
  }

  lemma SameFirst(a: seq<File>, b: seq<File>)
    requires ByPath(a) && PathSorted(b) && multiset(a) == multiset(b) && a != [] && b != []
    ensures a[0] == b[0]
  {
    assert a[0] in multiset(b) && b[0] in multiset(a);
    var i :| 0 <= i < |b| && b[i] == a[0];
    var j :| 0 <= j < |a| && a[j] == b[0];
    assert b[0].path <= b[i].path && a[0].path <= a[j].path;
    assert j == 0;
  }

  lemma TailBag(a: seq<File>)
    requires a != []
    ensures multiset(a[1..]) == multiset(a) - multiset{a[0]}
  {
    assert a == [a[0]] + a[1..];
  }

  lemma TailByPath(a: seq<File>)
    requires ByPath(a) && a != []
    ensures ByPath(a[1..])
  {
    assert forall i | 0 <= i < |a| - 1 :: a[1..][i] == a[i + 1];
  }

  lemma TailPathSorted(a: seq<File>)
    requires PathSorted(a) && a != []
    ensures PathSorted(a[1..])
  {
    assert forall i | 0 <= i < |a| - 1 :: a[1..][i] == a[i + 1];
  }

  // ---------------------------------------------------------------- one unit

  class Unit {
    const snapshot: SnapshotId
    const phase: Phase
    const files: seq<File>
    const reliable: bool
    var file: nat
    var rowsInFile: nat
    var skip: nat
    var stream: Option<seq<Pull>>
    var leftover: Option<seq<Row>>

    constructor (p: Position, files: seq<File>, reliable: bool)
      requires p.filesDone <= |files|
      ensures snapshot == p.snapshot && phase == p.phase && this.files == files && this.reliable == reliable
      ensures file == p.filesDone && rowsInFile == p.rowsDone
      ensures Valid()
    {
      snapshot, phase, this.files, this.reliable := p.snapshot, p.phase, files, reliable;
      file, rowsInFile, skip := p.filesDone, p.rowsDone, p.rowsDone;
      stream, leftover := None, None;
    }

    predicate Done()
      reads this
    {
      file >= |files|
    }

    function CurrentPosition(): Position
      reads this
    {
      if Done() then Completed(snapshot, phase) else Position(snapshot, phase, file, rowsInFile, false)
    }

    /** Where the unit stands, whether or not it is done. */
    ghost function Here(): Position
      reads this
    {
      Position(snapshot, phase, file, rowsInFile, false)
    }

    ghost function Pending(): seq<Row>
      reads this
    {
      Remaining(files, file, rowsInFile)
    }

    /** The open stream continues the file after the `pulled` rows taken from it so far. */
    ghost predicate StreamAt(pulled: int)
      reads this
    {
      && file < |files| && stream.Some? && 0 <= pulled <= |files[file].rows|
      && StreamOf(stream.value, files[file].rows[pulled..]) && (reliable ==> !Fails(stream.value))
    }

    /** Leftover and stream together hold exactly the rows after `rowsInFile`, once `skip` more are dropped. */
    ghost predicate Valid()
      reads this
    {
      && file <= |files|
      && (Done() ==> stream.None? && leftover.None?)
      && (stream.None? ==> leftover.None? && skip == rowsInFile)
      && (stream.Some? && leftover.None? ==> skip <= rowsInFile && StreamAt(rowsInFile - skip))
      && (leftover.Some? ==>
            && stream.Some? && skip == 0 && leftover.value != []
            && StreamAt(rowsInFile + |leftover.value|)
            && leftover.value == files[file].rows[rowsInFile..rowsInFile + |leftover.value|])
    }

    /** Why reading the file fails: the environment, or the position lies behind its last row. */
    ghost predicate FailsHere(e: ReadError)
      reads this
    {
      (e == Io && !reliable) || (e == FewerRows && file < |files| && rowsInFile > |files[file].rows|)
    }

    /** One item of the open stream: its rows, or `None` at the end of the file. */
    method PullBatch(ghost pulled: int) returns (r: Result<Option<seq<Row>>, ReadError>)
      requires StreamAt(pulled)
      modifies this`stream
      ensures stream.Some? && |stream.value| <= old(|stream.value|)
      ensures r.Err? ==> !reliable && r.error == Io
      ensures r.Ok? && r.value.None? ==> pulled == |files[file].rows| && StreamAt(pulled)
      ensures r.Ok? && r.value.Some? ==>
        var batch := r.value.value;
        && |stream.value| < old(|stream.value|) && StreamAt(pulled + |batch|)
        && batch == files[file].rows[pulled..pulled + |batch|]
    {
      var ps := stream.value;
      if ps == [] {
        assert files[file].rows[pulled..] == [];
        return Ok(None);
      }
      if ps[0].Fault? {
        return Err(Io);
      }
      PullOne(ps, files[file].rows, pulled);
      stream := Some(ps[1..]);
      r := Ok(Some(ps[0].rows));
    }

    /** Some rows of the open file, starting exactly at `rowsInFile`; `None` only when every row of the file has been passed. */
    method NextFromFile() returns (r: Result<Option<seq<Row>>, ReadError>)
      requires Valid() && !Done() && leftover.None?
      modifies this`stream, this`skip
      ensures r.Err? ==> FailsHere(r.error)
      ensures r.Ok? ==> rowsInFile <= |files[file].rows| && skip == 0
      ensures r.Ok? && r.value.None? ==> rowsInFile == |files[file].rows|
      ensures r.Ok? && r.value.Some? ==>
        var batch := r.value.value;
        && batch != [] && StreamAt(rowsInFile + |batch|)
        && batch == files[file].rows[rowsInFile..rowsInFile + |batch|]
    {
      if stream.None? {
        var answer := OpenStream(files[file], reliable);
        if answer.Err? {
          return Err(answer.error);
        }
        stream := Some(answer.value);
        assert files[file].rows[0..] == files[file].rows;
      }
      assert StreamAt(rowsInFile - skip);
      r := PullAfterSkip();
    }

    /** Drops `skip` rows, possibly over several pulls, and returns what is left of the first batch that is not used up. */
    method PullAfterSkip() returns (r: Result<Option<seq<Row>>, ReadError>)
      requires skip <= rowsInFile && StreamAt(rowsInFile - skip)
      modifies this`stream, this`skip
      ensures r.Err? ==> FailsHere(r.error)
      ensures r.Ok? ==> rowsInFile <= |files[file].rows| && skip == 0
      ensures r.Ok? && r.value.None? ==> rowsInFile == |files[file].rows|
      ensures r.Ok? && r.value.Some? ==>
        var batch := r.value.value;
        && batch != [] && StreamAt(rowsInFile + |batch|)
        && batch == files[file].rows[rowsInFile..rowsInFile + |batch|]
    {
      hide StreamOf;
      while true
        invariant skip <= rowsInFile && StreamAt(rowsInFile - skip)
        decreases |stream.value|
      {
        var pulled := PullBatch(rowsInFile - skip);
        if pulled.Err? {
          return Err(pulled.error);
        }
        if pulled.value.None? {
          if skip > 0 {
            return Err(FewerRows);
          }
          return Ok(None);
        }
        var batch := pulled.value.value;
        if skip > 0 {
          var drop := if |batch| < skip then |batch| else skip;
          DropRows(files[file].rows, rowsInFile - skip, batch, drop);
          skip := skip - drop;
          batch := batch[drop..];
        }
        if |batch| > 0 {
          return Ok(Some(batch));
        }
      }
    }

    /** The leftover or the next batch of the file; `None` steps over the end of the file. */
    method NextPiece() returns (r: Result<Option<seq<Row>>, ReadError>)
      requires Valid() && !Done()
      modifies this
      ensures r.Err? ==> file == old(file) && rowsInFile == old(rowsInFile) && FailsHere(r.error)
      ensures r.Ok? ==> old(rowsInFile) <= |files[old(file)].rows|
      ensures r.Ok? && r.value.None? ==> Valid() && file == old(file) + 1 && rowsInFile == 0 && Pending() == old(Pending())
      ensures r.Ok? && r.value.Some? ==>
        var batch := r.value.value;
        && file == old(file) && rowsInFile == old(rowsInFile) && skip == 0 && leftover.None?
        && batch != [] && StreamAt(rowsInFile + |batch|)
        && batch == files[file].rows[rowsInFile..rowsInFile + |batch|]
    {
      hide StreamOf;
      if leftover.Some? {
        r := Ok(Some(leftover.value));
        leftover := None;
        return;
      }
      r := NextFromFile();
      if r.Ok? && r.value.None? {
        FileEnds(files, file);
        stream := None;
        file := file + 1;
        rowsInFile := 0;
      }
    }

    /** Splits what the unit still holds: the slices and what stays behind concatenate to it, and only a finished unit gives fewer than `max` rows. */
    method ReadUpTo(max: nat) returns (r: Result<seq<seq<Row>>, ReadError>)
      requires Valid()
      modifies this
      ensures r.Ok? ==> Valid()
      ensures r.Ok? ==> Flatten(r.value) + Pending() == old(Pending())
      ensures r.Ok? ==> |Flatten(r.value)| <= max && (|Flatten(r.value)| == max || Done())
      ensures r.Ok? ==> (r.value == [] <==> Flatten(r.value) == [])
      ensures r.Ok? && r.value != [] && !Done() ==> rowsInFile <= |files[file].rows|
      ensures r.Err? ==> old(FailsHere(r.error))
      ensures r.Ok? && max > 0 ==> old(file) <= |files| && (old(file) < |files| ==> old(rowsInFile) <= |files[old(file)].rows|)
    {
      var out := [];
      var rows := 0;
      ghost var todo := Pending();
      FlattenNothing<Row>();
      hide StreamOf, Remaining, Flatten;
      assert Flatten(out) + Pending() == todo;
      while rows < max && !Done()
        invariant Valid() && rows == |Flatten(out)| <= max
        invariant Flatten(out) + Pending() == todo
        invariant out == [] <==> Flatten(out) == []
        invariant rows > 0 && !Done() ==> rowsInFile <= |files[file].rows|
        invariant (rows == 0 && file == old(file) && rowsInFile == old(rowsInFile))
          || (old(file) < |files| && old(rowsInFile) <= |files[old(file)].rows| && (!Done() ==> rowsInFile <= |files[file].rows|))
        decreases |files| - file + max - rows
      {
        var next := NextPiece();
        if next.Err? {
          return Err(next.error);
        }
        if next.value.None? {
          continue;
        }
        var batch := next.value.value;
        var take := if |batch| < max - rows then |batch| else max - rows;
        KeepRest(batch, take);
        FlattenAppend(out, batch[..take]);
        Associate(Flatten(out), batch[..take], Pending());
        out := out + [batch[..take]];
        rows := rows + take;
      }
      r := Ok(out);
    }

    /** The first `take` rows of a piece count as read, the others are left over. */
    method KeepRest(batch: seq<Row>, take: nat)
      requires skip == 0 && leftover.None? && 1 <= take <= |batch| && StreamAt(rowsInFile + |batch|)
      requires batch == files[file].rows[rowsInFile..rowsInFile + |batch|]
      modifies this`leftover, this`rowsInFile
      ensures Valid() && !Done() && rowsInFile <= |files[file].rows|
      ensures old(Pending()) == batch[..take] + Pending()
    {
      hide StreamOf, Remaining;
      TakeRows(files, file, rowsInFile, batch, take);
      if take < |batch| {
        leftover := Some(batch[take..]);
      }
      rowsInFile := rowsInFile + take;
    }
  }

  /** Taking the first `take` rows of a batch moves the position by as many rows. */
  lemma TakeRows(files: seq<File>, file: nat, from: nat, batch: seq<Row>, take: nat)
    requires file < |files| && from + |batch| <= |files[file].rows| && take <= |batch|
    requires batch == files[file].rows[from..from + |batch|]
    ensures Remaining(files, file, from) == batch[..take] + Remaining(files, file, from + take)
    ensures batch[take..] == files[file].rows[from + take..from + |batch|]
  {
    var rows := files[file].rows;
    hide AllRows;
    SplitRows(rows, from, batch, take);
    DropRows(rows, from, batch, take);
    Associate(batch[..take], rows[from + take..], AllRows(files[file + 1..]));
  }

  lemma SplitRows(rows: seq<Row>, from: nat, batch: seq<Row>, take: nat)
    requires from + |batch| <= |rows| && batch == rows[from..from + |batch|] && take <= |batch|
    ensures rows[from..] == batch[..take] + rows[from + take..]
  {
  }

  lemma DropRows(rows: seq<Row>, from: nat, batch: seq<Row>, drop: nat)
    requires from + |batch| <= |rows| && batch == rows[from..from + |batch|] && drop <= |batch|
    ensures batch[drop..] == rows[from + drop..from + |batch|]
  {
  }

  lemma PullOne(ps: seq<Pull>, rows: seq<Row>, pulled: nat)
    requires pulled <= |rows| && StreamOf(ps, rows[pulled..]) && ps != [] && ps[0].Rows?
    ensures pulled + |ps[0].rows| <= |rows| && StreamOf(ps[1..], rows[pulled + |ps[0].rows|..])
    ensures ps[0].rows == rows[pulled..pulled + |ps[0].rows|]
  {
    var batch := ps[0].rows;
    var tail := rows[pulled..];
    assert Rest(ps) == batch + Rest(ps[1..]);
    assert batch <= tail;
    assert batch == tail[..|batch|];
    assert tail[|batch|..] == rows[pulled + |batch|..];
    assert Rest(ps)[|batch|..] == Rest(ps[1..]);
  }

  lemma FileEnds(files: seq<File>, file: nat)
    requires file < |files|
    ensures Remaining(files, file, |files[file].rows|) == Remaining(files, file + 1, 0)
  {
    var rest := files[file + 1..];
    if rest != [] {
      assert rest[0] == files[file + 1] && rest[1..] == files[file + 2..];
      assert files[file + 1].rows[0..] == files[file + 1].rows;
    }
  }

  // ---------------------------------------------------------------- what is owed from a cursor

  function LastOf(cursor: Option<Position>): Option<SnapshotId> {
    if cursor.Some? then Some(cursor.value.snapshot) else None
  }

  /** Rows the appends of `chain` added, oldest first; other operations add none. */
  function AppendedRows(t: Contents, chain: seq<Snapshot>): seq<Row> {
    if chain == [] then [] else AddedBy(t, chain[0]) + AppendedRows(t, chain[1..])
  }

  function AddedBy(t: Contents, s: Snapshot): seq<Row> {
    if s.op == Append then AllRows(FilesOf(t, s.id, Incremental)) else []
  }

  lemma {:induction false} AppendedConcat(t: Contents, a: seq<Snapshot>, b: seq<Snapshot>)
    ensures AppendedRows(t, a + b) == AppendedRows(t, a) + AppendedRows(t, b)
  {
    hide AddedBy;
    if a == [] {
      assert a + b == b;
    } else {
      AppendedConcat(t, a[1..], b);
      assert (a + b)[0] == a[0] && (a + b)[1..] == a[1..] + b;
      Associate(AddedBy(t, a[0]), AppendedRows(t, a[1..]), AppendedRows(t, b));
    }
  }

  function UnitRows(t: Contents, cursor: Option<Position>): seq<Row> {
    if cursor.None? || cursor.value.complete then []
    else Remaining(FilesOf(t, cursor.value.snapshot, cursor.value.phase), cursor.value.filesDone, cursor.value.rowsDone)
  }

  /** The position lies inside its unit's files. */
  predicate InsideUnit(t: Contents, p: Position) {
    var files := FilesOf(t, p.snapshot, p.phase);
    p.filesDone <= |files| && (p.filesDone < |files| ==> p.rowsDone <= |files[p.filesDone].rows|)
  }

  /** The cursor is a point of the table's history. */
  ghost predicate OnAncestry(t: Contents, md: Metadata, cursor: Option<Position>) {
    && WellFormed(md) && ContentsOk(t) && Since(md, LastOf(cursor)).Ok?
    && (cursor.Some? && !cursor.value.complete ==> cursor.value.snapshot in md.snapshots && InsideUnit(t, cursor.value))
  }

  /** The cursor's snapshot is not on the current ancestry, or the cursor lies outside its unit. */
  ghost predicate Stuck(t: Contents, md: Metadata, cursor: Option<Position>)
    requires WellFormed(md)
  {
    Since(md, LastOf(cursor)).Err? || (cursor.Some? && !cursor.value.complete && !InsideUnit(t, cursor.value))
  }

  /** All rows still to be emitted from `cursor`: the rest of its unit, then every later append. */
  ghost function Owed(t: Contents, md: Metadata, cursor: Option<Position>): seq<Row>
    requires OnAncestry(t, md, cursor)
  {
    UnitRows(t, cursor) + AppendedRows(t, Since(md, LastOf(cursor)).value)
  }

  datatype Outcome = Batch(rows: seq<Row>) | CaughtUp | Failed(e: ReadError)

  /** What one `next_batch` does to a resumable cursor, whatever the environment does. */
  ghost predicate ReaderStep(t: Contents, md: Metadata, batchSize: nat, c: Option<Position>, o: Outcome, c': Option<Position>)
    requires OnAncestry(t, md, c)
  {
    && OnAncestry(t, md, c')
    && match o
       case Batch(rows) => 1 <= |rows| <= batchSize && Owed(t, md, c) == rows + Owed(t, md, c')
       case CaughtUp => Owed(t, md, c) == [] && UnitRows(t, c') == [] && Since(md, LastOf(c')) == Ok([])
       case Failed(_) => Owed(t, md, c') == Owed(t, md, c)
  }

  /** What it does to a stuck one: it may give out the rest of the unit, never ends, and stays stuck at the same snapshot. */
  ghost predicate StuckStep(t: Contents, md: Metadata, batchSize: nat, c: Option<Position>, o: Outcome, c': Option<Position>)
    requires WellFormed(md)
  {
    && Stuck(t, md, c') && LastOf(c') == LastOf(c)
    && match o
       case Batch(rows) => 1 <= |rows| <= batchSize && UnitRows(t, c) == rows + UnitRows(t, c')
       case CaughtUp => false
       case Failed(_) => UnitRows(t, c') == UnitRows(t, c)
  }

  ghost predicate NextOk(t: Contents, md: Metadata, batchSize: nat, c: Option<Position>, o: Outcome, c': Option<Position>)
    requires WellFormed(md)
  {
    (OnAncestry(t, md, c) ==> ReaderStep(t, md, batchSize, c, o, c')) && (Stuck(t, md, c) ==> StuckStep(t, md, batchSize, c, o, c'))
  }

  /**
   The cursor has moved along the snapshots that came after it, and under the
   failing policy past appends and replacements only.
   */
  ghost predicate Passes(md: Metadata, policy: Policy, c: Option<Position>, c': Option<Position>)
    requires WellFormed(md)
  {
    Since(md, LastOf(c)).Ok? ==>
      var chain := Since(md, LastOf(c)).value;
      exists n :: 0 <= n <= |chain| && Since(md, LastOf(c')) == Ok(chain[n..]) && MayPass(policy, chain[..n])
  }

  ghost predicate MayPass(policy: Policy, passed: seq<Snapshot>) {
    policy == FailOnNonAppend ==> forall i | 0 <= i < |passed| :: passed[i].op == Append || passed[i].op == Replace
  }

  /** Why a call fails that leaves the cursor at `c`. */
  ghost predicate Justified(t: Contents, md: Metadata, policy: Policy, reliable: bool, c: Option<Position>, e: ReadError)
    requires WellFormed(md)
  {
    match e
    case Io => !reliable
    case Build => !reliable
    case FewerRows => c.Some? && !c.value.complete && !InsideUnit(t, c.value)
    case FewerFiles => c.Some? && !c.value.complete && !InsideUnit(t, c.value)
    case Ancestry(NonAppend(id)) =>
      && policy == FailOnNonAppend && (c.None? || c.value.complete)
      && Since(md, LastOf(c)).Ok? && Since(md, LastOf(c)).value != []
      && var next := Since(md, LastOf(c)).value[0];
         next.id == id && (next.op == Overwrite || next.op == Delete)
    case Ancestry(err) =>
      if c.Some? && !c.value.complete then err == Expired(c.value.snapshot) && c.value.snapshot !in md.snapshots
      else Since(md, LastOf(c)) == Err(err)
  }

  lemma PassesNothing(md: Metadata, policy: Policy, c: Option<Position>, c': Option<Position>)
    requires WellFormed(md) && LastOf(c') == LastOf(c)
    ensures Passes(md, policy, c, c')
  {
    if Since(md, LastOf(c)).Ok? {
      var chain := Since(md, LastOf(c)).value;
      assert chain[0..] == chain && chain[..0] == [];
    }
  }

  /** One snapshot further. */
  lemma PassesOne(md: Metadata, policy: Policy, c: Option<Position>, c': Option<Position>)
    requires WellFormed(md) && Since(md, LastOf(c)).Ok? && Since(md, LastOf(c)).value != []
    requires var s := Since(md, LastOf(c)).value[0];
      LastOf(c') == Some(s.id) && (policy == FailOnNonAppend ==> s.op == Append || s.op == Replace)
    ensures Passes(md, policy, c, c')
  {
    var chain := Since(md, LastOf(c)).value;
    SinceSuffix(md, LastOf(c), chain, 0);
    hide Since, WellFormed;
    assert MayPass(policy, chain[..1]) && Since(md, LastOf(c')) == Ok(chain[1..]);
  }

  lemma PassesBoth(md: Metadata, policy: Policy, c: Option<Position>, m: Option<Position>, c': Option<Position>)
    requires WellFormed(md) && Passes(md, policy, c, m) && Passes(md, policy, m, c')
    ensures Passes(md, policy, c, c')
  {
    hide *;
    if Since(md, LastOf(c)).Ok? {
      var i := PassesHow(md, policy, c, m);
      var j := PassesHow(md, policy, m, c');
      MayPassBoth(policy, Since(md, LastOf(c)).value, i, j);
      PassesTo(md, policy, c, c', i + j);
    } else {
      PassesFromNowhere(md, policy, c, c');
    }
  }

  lemma PassesHow(md: Metadata, policy: Policy, c: Option<Position>, c': Option<Position>) returns (n: nat)
    requires WellFormed(md) && Passes(md, policy, c, c') && Since(md, LastOf(c)).Ok?
    ensures var chain := Since(md, LastOf(c)).value;
      n <= |chain| && Since(md, LastOf(c')) == Ok(chain[n..]) && MayPass(policy, chain[..n])
  {
    hide WellFormed, Since, MayPass;
    var chain := Since(md, LastOf(c)).value;
    n :| 0 <= n <= |chain| && Since(md, LastOf(c')) == Ok(chain[n..]) && MayPass(policy, chain[..n]);
  }

  lemma PassesFromNowhere(md: Metadata, policy: Policy, c: Option<Position>, c': Option<Position>)
    requires WellFormed(md) && Since(md, LastOf(c)).Err?
    ensures Passes(md, policy, c, c')
  {
  }

  lemma MayPassBoth(policy: Policy, chain: seq<Snapshot>, i: nat, j: nat)
    requires i + j <= |chain| && MayPass(policy, chain[..i]) && MayPass(policy, chain[i..][..j])
    ensures chain[i..][j..] == chain[i + j..] && MayPass(policy, chain[..i + j])
  {
    assert chain[..i + j] == chain[..i] + chain[i..][..j];
  }

  lemma PassesTo(md: Metadata, policy: Policy, c: Option<Position>, c': Option<Position>, n: nat)
    requires WellFormed(md) && Since(md, LastOf(c)).Ok? && n <= |Since(md, LastOf(c)).value|
    requires Since(md, LastOf(c')) == Ok(Since(md, LastOf(c)).value[n..]) && MayPass(policy, Since(md, LastOf(c)).value[..n])
    ensures Passes(md, policy, c, c')
  {
    hide WellFormed, Since, MayPass;
  }

  /** In a reliable environment a call from the ancestry fails only for a snapshot that the failing policy does not pass. */
  lemma ReliableFailure(t: Contents, md: Metadata, policy: Policy, c: Option<Position>, e: ReadError)
    requires OnAncestry(t, md, c) && Justified(t, md, policy, true, c, e)
    ensures policy == FailOnNonAppend && e.Ancestry? && e.e.NonAppend?
  {
  }

  /** Caught up, the reader has passed every snapshot there was, so under the failing policy none was an overwrite or a delete. */
  lemma CaughtUpPassedAll(md: Metadata, c: Option<Position>, c': Option<Position>)
    requires WellFormed(md) && Passes(md, FailOnNonAppend, c, c') && Since(md, LastOf(c)).Ok? && Since(md, LastOf(c')) == Ok([])
    ensures forall s | s in Since(md, LastOf(c)).value :: s.op == Append || s.op == Replace
  {
    hide WellFormed, Since;
    var chain := Since(md, LastOf(c)).value;
    var n :| 0 <= n <= |chain| && Since(md, LastOf(c')) == Ok(chain[n..]) && MayPass(FailOnNonAppend, chain[..n]);
    assert |chain[n..]| == 0 && chain[..n] == chain;
  }

  // ---------------------------------------------------------------- the reader

  class TableReader {
    var table: Metadata
    const contents: Contents
    const batchSize: nat
    const policy: Policy
    const reliable: bool
    var cursor: Option<Position>
    var unit: Unit?

    constructor (table: Metadata, contents: Contents, batchSize: nat, policy: Policy, cursor: Option<Position>, reliable: bool)
      requires WellFormed(table) && ContentsOk(contents)
      ensures Valid() && unit == null
      ensures this.table == table && this.contents == contents && this.cursor == cursor
      ensures this.batchSize == batchSize && this.policy == policy && this.reliable == reliable
    {
      this.reliable := reliable;
      this.table, this.contents, this.batchSize, this.policy, this.cursor := table, contents, batchSize, policy, cursor;
      unit := null;
    }

    ghost predicate Valid()
      reads this, unit
    {
      && WellFormed(table) && ContentsOk(contents)
      && (unit != null ==>
            && unit.Valid() && !unit.Done() && cursor == Some(unit.CurrentPosition()) && unit.reliable == reliable
            && unit.files == FilesOf(contents, unit.snapshot, unit.phase))
    }

    /** New metadata changes neither the cursor nor the open unit. */
    method SetTable(table: Metadata)
      requires Valid() && WellFormed(table)
      modifies this`table
      ensures Valid() && this.table == table
    {
      this.table := table;
    }

    method OpenUnit(p: Position) returns (r: Result<Unit, ReadError>)
      requires WellFormed(table) && ContentsOk(contents)
      ensures r.Ok? ==>
        && fresh(r.value) && r.value.Valid() && p.snapshot in table.snapshots
        && r.value.snapshot == p.snapshot && r.value.phase == p.phase
        && r.value.files == FilesOf(contents, p.snapshot, p.phase)
        && r.value.file == p.filesDone <= |r.value.files| && r.value.rowsInFile == p.rowsDone && r.value.reliable == reliable
      ensures r.Err? ==>
        || (r.error == Io && !reliable)
        || (r.error == FewerFiles && p.filesDone > |FilesOf(contents, p.snapshot, p.phase)|)
        || (r.error == Ancestry(Expired(p.snapshot)) && p.snapshot !in table.snapshots)
    {
      if p.snapshot !in table.snapshots {
        return Err(Ancestry(Expired(p.snapshot)));
      }
      var planned := PlanFiles(contents, p.snapshot, p.phase, reliable);
      if planned.Err? {
        return Err(planned.error);
      }
      var files := SortByPath(planned.value);
      SortIsByPath(planned.value);
      SortedOrderIsUnique(FilesOf(contents, p.snapshot, p.phase), files);
      if p.filesDone > |files| {
        return Err(FewerFiles);
      }
      var u := new Unit(p, files, reliable);
      r := Ok(u);
    }

    /** Opens the first append after a completed cursor; skipped snapshots move the cursor. */
    method OpenAfterCursor() returns (r: Result<Unit?, ReadError>)
      requires WellFormed(table) && ContentsOk(contents) && (cursor.None? || cursor.value.complete)
      modifies this`cursor
      ensures cursor.None? || cursor.value.complete
      ensures Since(table, old(LastOf(cursor))).Err? ==> r.Err? && cursor == old(cursor)
      ensures Since(table, old(LastOf(cursor))).Ok? ==>
        && Since(table, LastOf(cursor)).Ok?
        && AppendedRows(contents, Since(table, LastOf(cursor)).value) == AppendedRows(contents, Since(table, old(LastOf(cursor))).value)
        && |Since(table, LastOf(cursor)).value| <= |Since(table, old(LastOf(cursor))).value|
      ensures Passes(table, policy, old(cursor), cursor) && (r.Err? ==> Justified(contents, table, policy, reliable, cursor, r.error))
      ensures r.Ok? && r.value == null ==> Since(table, LastOf(cursor)) == Ok([])
      ensures r.Ok? && r.value != null ==>
        && fresh(r.value) && r.value.Valid() && r.value.files == FilesOf(contents, r.value.snapshot, r.value.phase)
        && r.value.reliable == reliable && Advances(r.value)
    {
      hide Since, WellFormed, ContentsOk, FilesOf, Passes, Justified, AppendedRows, Classify;
      ghost var from := cursor;
      PassesNothing(table, policy, from, cursor);
      var since := SnapshotsSince(table, LastOf(cursor));
      if since.Err? {
        WalkFails(contents, table, policy, reliable, cursor, since.error);
        return Err(Ancestry(since.error));
      }
      var chain := since.value;
      assert chain[0..] == chain;
      for k := 0 to |chain|
        invariant cursor.None? || cursor.value.complete
        invariant Since(table, LastOf(cursor)) == Ok(chain[k..])
        invariant AppendedRows(contents, chain[k..]) == AppendedRows(contents, chain)
        invariant Passes(table, policy, from, cursor)
      {
        var s := chain[k];
        assert chain[k..][0] == s && chain[k..][1..] == chain[k + 1..];
        var action := Classify(s, policy);
        HeadIsClassified(contents, table, policy, reliable, cursor, chain[k..]);
        if action.Err? {
          return Err(Ancestry(action.error));
        }
        if action.value == Read {
          r := OpenAppend(s, chain[k..]);
          return;
        }
        MovesOn(table, policy, from, cursor, chain[k..]);
        cursor := Some(Completed(s.id, Incremental));
      }
      r := Ok(null);
    }

    /** Opens the append `s`, which is next after a completed cursor. */
    method OpenAppend(s: Snapshot, ghost chain: seq<Snapshot>) returns (r: Result<Unit?, ReadError>)
      requires WellFormed(table) && ContentsOk(contents) && (cursor.None? || cursor.value.complete)
      requires Since(table, LastOf(cursor)) == Ok(chain) && chain != [] && chain[0] == s && s.op == Append
      ensures r.Err? ==> Justified(contents, table, policy, reliable, cursor, r.error)
      ensures r.Ok? ==>
        && r.value != null && fresh(r.value) && r.value.Valid() && r.value.files == FilesOf(contents, r.value.snapshot, r.value.phase)
        && r.value.reliable == reliable && Advances(r.value)
    {
      hide Since, WellFormed, ContentsOk, FilesOf, Justified;
      var u := OpenUnit(StartAt(s.id, Incremental));
      if u.Err? {
        OpenFails(contents, table, policy, reliable, cursor, chain, u.error);
        return Err(u.error);
      }
      r := Ok(u.value);
    }

    /** The unit to read next: the cursor's own unfinished one, or the first append after it. */
    method OpenNextUnit() returns (r: Result<Unit?, ReadError>)
      requires WellFormed(table) && ContentsOk(contents)
      modifies this`cursor
      ensures OnAncestry(contents, table, old(cursor)) ==>
        OnAncestry(contents, table, cursor) && Owed(contents, table, cursor) == Owed(contents, table, old(cursor))
      ensures Stuck(contents, table, old(cursor)) ==> cursor == old(cursor) && (r.Ok? ==> r.value != null && Resumes(r.value))
      ensures Passes(table, policy, old(cursor), cursor) && (r.Err? ==> Justified(contents, table, policy, reliable, cursor, r.error))
      ensures r.Ok? && r.value == null ==> UnitRows(contents, cursor) == [] && Since(table, LastOf(cursor)) == Ok([])
      ensures r.Ok? && r.value != null ==>
        && fresh(r.value) && r.value.Valid() && r.value.files == FilesOf(contents, r.value.snapshot, r.value.phase)
        && r.value.reliable == reliable
        && (Resumes(r.value) || Advances(r.value)) && Left() <= old(Left())
    {
      hide Since, WellFormed, ContentsOk, FilesOf, Remaining, AppendedRows, Passes;
      PassesNothing(table, policy, cursor, cursor);
      if cursor.Some? && !cursor.value.complete {
        var u := OpenUnit(cursor.value);
        if u.Err? {
          return Err(u.error);
        }
        return Ok(u.value);
      }
      r := OpenAfterCursor();
    }

    /** `u` is the unfinished unit of the cursor, opened where the cursor stands. */
    ghost predicate Resumes(u: Unit)
      reads this, u
    {
      cursor == Some(u.Here())
    }

    /** `u` is the first snapshot after a completed cursor, an append opened at its start. */
    ghost predicate Advances(u: Unit)
      requires WellFormed(table)
      reads this, u
    {
      && (cursor.None? || cursor.value.complete)
      && u.file == 0 && u.rowsInFile == 0 && u.phase == Incremental
      && Since(table, LastOf(cursor)).Ok? && Since(table, LastOf(cursor)).value != []
      && var s := Since(table, LastOf(cursor)).value[0];
         s.op == Append && s.id == u.snapshot
    }

    /** Snapshots still to be opened, counting the cursor's unfinished unit. */
    ghost function Left(): nat
      requires WellFormed(table)
      reads this
    {
      LeftOf(table, cursor)
    }

    /** Reads once from `u` and moves the cursor past what was read; `None` means the unit ended without a row. */
    method ReadUnit(u: Unit) returns (o: Option<Outcome>)
      requires Valid() && unit == null && batchSize >= 1
      requires u.Valid() && u.files == FilesOf(contents, u.snapshot, u.phase) && u.reliable == reliable && (Resumes(u) || Advances(u))
      modifies this`cursor, this`unit, u
      ensures Valid() && (unit == null || unit == u)
      ensures OnAncestry(contents, table, old(cursor)) ==>
        && OnAncestry(contents, table, cursor)
        && (o.Some? && o.value.Batch? ==> Owed(contents, table, old(cursor)) == o.value.rows + Owed(contents, table, cursor))
        && (o.None? ==> Owed(contents, table, old(cursor)) == Owed(contents, table, cursor))
      ensures Stuck(contents, table, old(cursor)) ==>
        && Stuck(contents, table, cursor) && LastOf(cursor) == old(LastOf(cursor))
        && (o.Some? && o.value.Batch? ==> UnitRows(contents, old(cursor)) == o.value.rows + UnitRows(contents, cursor))
        && (o.None? ==> UnitRows(contents, old(cursor)) == UnitRows(contents, cursor))
      ensures o.Some? ==> !o.value.CaughtUp? && (o.value.Failed? ==> cursor == old(cursor))
      ensures o.Some? && o.value.Batch? ==> 1 <= |o.value.rows| <= batchSize
      ensures o.None? ==> unit == null && Left() < old(Left())
      ensures Passes(table, policy, old(cursor), cursor)
      ensures o.Some? && o.value.Failed? ==> Justified(contents, table, policy, reliable, cursor, o.value.e)
    {
      hide WellFormed, ContentsOk, Since, Remaining, AllRows, AppendedRows, Unit.Valid, OnAncestry, Owed, Stuck, InsideUnit, InUnit;
      ghost var from := cursor;
      ghost var resumes := Resumes(u);
      FromTheStart(u.files);
      PassesNothing(table, policy, from, from);
      ghost var here := u.Here();
      var read := ReadRows(u);
      if read.Err? {
        ReadFails(contents, table, policy, reliable, from, here, resumes, read.error);
        return Some(Failed(read.error));
      }
      var batch := read.value;
      cursor := Some(u.CurrentPosition());
      unit := if u.Done() then null else u;
      CursorMoves(contents, table, from, cursor.value, batch, resumes);
      StuckStays(contents, table, from, cursor.value, resumes);
      LeftShrinks(table, from, cursor.value, resumes);
      if resumes {
        PassesNothing(table, policy, from, cursor);
      } else {
        PassesOne(table, policy, from, cursor);
      }
      o := if batch == [] then None else Some(Batch(batch));
    }

    /** The next rows of a unit: with what the unit still holds they are what it held before. */
    method ReadRows(u: Unit) returns (r: Result<seq<Row>, ReadError>)
      requires u.Valid() && u.files == FilesOf(contents, u.snapshot, u.phase) && batchSize >= 1
      modifies u
      ensures r.Ok? ==> u.Valid() && |r.value| <= batchSize && (r.value == [] ==> u.Done())
      ensures r.Ok? ==> old(u.Pending()) == r.value + UnitRows(contents, Some(u.CurrentPosition()))
      ensures r.Ok? ==> InUnit(contents, u.CurrentPosition()) && InsideUnit(contents, old(u.Here()))
      ensures r.Err? ==> ((r.error == Io || r.error == Build) && !u.reliable) || (r.error == FewerRows && !InsideUnit(contents, old(u.Here())))
    {
      hide Remaining, Unit.Valid, Unit.StreamAt;
      var slices := u.ReadUpTo(batchSize);
      if slices.Err? {
        return Err(slices.error);
      }
      NothingAfterLastFile(u.files, u.file, u.rowsInFile);
      if slices.value == [] {
        return Ok([]);
      }
      r := BuildBatch(slices.value, u.reliable);
    }

    /**
     The first rows owed from a cursor on the ancestry, which moves past
     exactly those; `CaughtUp` only when nothing is owed. A failure owes the
     same rows as before: the cursor has passed no row and no half-read unit is
     kept. A stuck cursor gives at most the rest of its unit and never
     `CaughtUp`.
     */
    method NextBatch() returns (o: Outcome)
      requires Valid() && batchSize >= 1
      modifies this`cursor, this`unit, unit
      ensures Valid() && (unit == null || unit == old(unit) || fresh(unit))
      ensures o.Batch? ==> 1 <= |o.rows| <= batchSize
      ensures NextOk(contents, table, batchSize, old(cursor), o, cursor)
      ensures Passes(table, policy, old(cursor), cursor)
      ensures o.Failed? ==> Justified(contents, table, policy, reliable, cursor, o.e)
    {
      hide WellFormed, Since, Remaining, AppendedRows, Unit.Valid, OnAncestry, Owed, Stuck, UnitRows, Passes, Justified;
      ghost var from := cursor;
      PassesNothing(table, policy, from, cursor);
      while true
        invariant Valid() && (unit == null || unit == old(unit))
        invariant OnAncestry(contents, table, old(cursor)) ==>
          OnAncestry(contents, table, cursor) && Owed(contents, table, cursor) == Owed(contents, table, old(cursor))
        invariant Stuck(contents, table, old(cursor)) ==>
          && Stuck(contents, table, cursor) && LastOf(cursor) == old(LastOf(cursor))
          && UnitRows(contents, cursor) == UnitRows(contents, old(cursor))
        invariant Passes(table, policy, from, cursor)
        decreases Left()
      {
        var u;
        ghost var here := cursor;
        if unit != null {
          u := unit;
          unit := null;
        } else {
          var next := OpenNextUnit();
          PassesBoth(table, policy, from, here, cursor);
          here := cursor;
          if next.Err? {
            return Failed(next.error);
          }
          if next.value == null {
            CaughtUpOwesNothing(contents, table, cursor);
            return CaughtUp;
          }
          u := next.value;
        }
        var read := ReadUnit(u);
        PassesBoth(table, policy, from, here, cursor);
        if read.Some? {
          return read.value;
        }
      }
    }
  }

  /** The walk itself never reports a snapshot's operation. */
  lemma NoOtherError(md: Metadata, last: Option<SnapshotId>, e: Error)
    requires WellFormed(md) && Since(md, last) == Err(e)
    ensures !e.NonAppend?
  {
    if md.current.Some? {
      NoOtherWalkError(md, Get(md, md.current.value), last, e);
    }
  }

  lemma {:induction false} NoOtherWalkError(md: Metadata, s: Snapshot, last: Option<SnapshotId>, e: Error)
    requires WellFormed(md) && s.id in md.snapshots && md.snapshots[s.id] == s && Walk(md, s, last) == Err(e)
    ensures !e.NonAppend?
    decreases s.rank
  {
    if s.parent.Some? && s.parent.value in md.snapshots && Walk(md, Get(md, s.parent.value), last).Err? {
      NoOtherWalkError(md, Get(md, s.parent.value), last, Walk(md, Get(md, s.parent.value), last).error);
    }
  }

  lemma WalkFails(t: Contents, md: Metadata, policy: Policy, reliable: bool, c: Option<Position>, e: Error)
    requires WellFormed(md) && (c.None? || c.value.complete) && Since(md, LastOf(c)) == Err(e)
    ensures Justified(t, md, policy, reliable, c, Ancestry(e))
  {
    NoOtherError(md, LastOf(c), e);
  }

  /** What the policy makes of the next snapshot: an error only where one is due, and a skip only of what may be passed and adds no rows. */
  lemma HeadIsClassified(t: Contents, md: Metadata, policy: Policy, reliable: bool, c: Option<Position>, chain: seq<Snapshot>)
    requires WellFormed(md) && (c.None? || c.value.complete) && Since(md, LastOf(c)) == Ok(chain) && chain != []
    ensures var s := chain[0];
      match Classify(s, policy)
      case Err(e) => Justified(t, md, policy, reliable, c, Ancestry(e))
      case Ok(Read) => s.op == Append
      case Ok(Skip) => s.op != Append && (policy == FailOnNonAppend ==> s.op == Replace)
    ensures chain[0].op != Append ==> AppendedRows(t, chain) == AppendedRows(t, chain[1..])
  {
    hide Since, WellFormed;
    if chain[0].op != Append {
      assert AddedBy(t, chain[0]) + AppendedRows(t, chain[1..]) == AppendedRows(t, chain[1..]);
    }
  }

  lemma MovesOn(md: Metadata, policy: Policy, from: Option<Position>, c: Option<Position>, chain: seq<Snapshot>)
    requires WellFormed(md) && Passes(md, policy, from, c) && Since(md, LastOf(c)) == Ok(chain) && chain != []
    requires policy == FailOnNonAppend ==> chain[0].op == Append || chain[0].op == Replace
    ensures var c' := Some(Completed(chain[0].id, Incremental));
      Passes(md, policy, from, c') && LastOf(c') == Some(chain[0].id) && Since(md, LastOf(c')) == Ok(chain[1..])
  {
    var c' := Some(Completed(chain[0].id, Incremental));
    hide WellFormed, Since, Passes;
    PassesOne(md, policy, c, c');
    PassesBoth(md, policy, from, c, c');
    SinceSuffix(md, LastOf(c), chain, 0);
  }

  lemma OpenFails(t: Contents, md: Metadata, policy: Policy, reliable: bool, c: Option<Position>, chain: seq<Snapshot>, e: ReadError)
    requires WellFormed(md) && (c.None? || c.value.complete) && Since(md, LastOf(c)) == Ok(chain) && chain != []
    requires (e == Io && !reliable) || (e == Ancestry(Expired(chain[0].id)) && chain[0].id !in md.snapshots)
    ensures Justified(t, md, policy, reliable, c, e)
  {
    HeadIsKnown(md, LastOf(c), chain);
  }

  lemma HeadIsKnown(md: Metadata, last: Option<SnapshotId>, chain: seq<Snapshot>)
    requires WellFormed(md) && Since(md, last) == Ok(chain) && chain != []
    ensures chain[0].id in md.snapshots
  {
    SinceIsAncestry(md, last, chain);
  }

  lemma ReadFails(
    t: Contents, md: Metadata, policy: Policy, reliable: bool, c: Option<Position>, here: Position, resumes: bool, e: ReadError)
    requires WellFormed(md) && (resumes ==> c == Some(here)) && !here.complete
    requires !resumes ==> here.filesDone == 0 && here.rowsDone == 0
    requires ((e == Io || e == Build) && !reliable) || (e == FewerRows && !InsideUnit(t, here))
    ensures Justified(t, md, policy, reliable, c, e)
  {
  }

  lemma NothingAfterLastFile(files: seq<File>, file: nat, rows: nat)
    ensures file >= |files| ==> Remaining(files, file, rows) == []
  {
  }

  ghost function LeftOf(md: Metadata, c: Option<Position>): nat
    requires WellFormed(md)
  {
    (if c.Some? && !c.value.complete then 1 else 0)
    + match Since(md, LastOf(c)) case Ok(chain) => |chain| case Err(_) => 0
  }

  /** Completing a unit leaves one snapshot fewer to open. */
  lemma LeftShrinks(md: Metadata, c: Option<Position>, p: Position, resumes: bool)
    requires WellFormed(md)
    requires resumes ==> c.Some? && !c.value.complete && c.value.snapshot == p.snapshot
    requires !resumes ==>
      && (c.None? || c.value.complete)
      && Since(md, LastOf(c)).Ok? && Since(md, LastOf(c)).value != [] && Since(md, LastOf(c)).value[0].id == p.snapshot
    ensures p.complete ==> LeftOf(md, Some(p)) < LeftOf(md, c)
  {
    if !resumes {
      SinceSuffix(md, LastOf(c), Since(md, LastOf(c)).value, 0);
    }
  }

  lemma FromTheStart(files: seq<File>)
    ensures Remaining(files, 0, 0) == AllRows(files)
  {
    if files != [] {
      assert files[0].rows[0..] == files[0].rows;
    }
  }

  /** A completed cursor, or one that is inside its unit. */
  ghost predicate InUnit(t: Contents, p: Position) {
    p.complete || (
      var files := FilesOf(t, p.snapshot, p.phase);
      p.filesDone < |files| && p.rowsDone <= |files[p.filesDone].rows|)
  }

  /** Reading `batch` from the unit a cursor stands in, or from the one after it, takes exactly those rows off what is owed. */
  lemma CursorMoves(t: Contents, md: Metadata, c: Option<Position>, p: Position, batch: seq<Row>, resumes: bool)
    requires WellFormed(md) && InUnit(t, p)
    requires resumes ==>
      && c.Some? && !c.value.complete && c.value.snapshot == p.snapshot && c.value.phase == p.phase
      && UnitRows(t, c) == batch + UnitRows(t, Some(p))
    requires !resumes ==>
      && (c.None? || c.value.complete) && p.phase == Incremental
      && Since(md, LastOf(c)).Ok? && Since(md, LastOf(c)).value != []
      && Since(md, LastOf(c)).value[0].id == p.snapshot && Since(md, LastOf(c)).value[0].op == Append
      && AllRows(FilesOf(t, p.snapshot, Incremental)) == batch + UnitRows(t, Some(p))
    ensures OnAncestry(t, md, c) ==> OnAncestry(t, md, Some(p)) && Owed(t, md, c) == batch + Owed(t, md, Some(p))
  {
    if OnAncestry(t, md, c) {
      hide Remaining, UnitRows, AllRows, Walk;
      var chain := Since(md, LastOf(c)).value;
      if resumes {
        Regroup(batch, UnitRows(t, Some(p)), AppendedRows(t, chain));
      } else {
        SinceSuffix(md, LastOf(c), chain, 0);
        SinceIsAncestry(md, LastOf(c), chain);
        hide Since, WellFormed;
        assert UnitRows(t, c) == [] by { CompletedHasNoRows(t, c); }
        Regroup(batch, UnitRows(t, Some(p)), AppendedRows(t, chain[1..]));
      }
    }
  }

  /** Reading changes neither the snapshot nor its place in the ancestry, and succeeds only inside the unit. */
  lemma StuckStays(t: Contents, md: Metadata, c: Option<Position>, p: Position, resumes: bool)
    requires WellFormed(md)
    requires resumes ==> c.Some? && c.value.snapshot == p.snapshot && InsideUnit(t, c.value)
    requires !resumes ==> (c.None? || c.value.complete) && Since(md, LastOf(c)).Ok?
    ensures Stuck(t, md, c) ==> resumes && Stuck(t, md, Some(p))
  {
  }

  lemma CompletedHasNoRows(t: Contents, c: Option<Position>)
    requires c.None? || c.value.complete
    ensures UnitRows(t, c) == []
  {
  }

  lemma Regroup(a: seq<Row>, b: seq<Row>, c: seq<Row>)
    ensures (a + b) + c == a + (b + c)
  {
  }

  lemma CaughtUpOwesNothing(t: Contents, md: Metadata, c: Option<Position>)
    requires WellFormed(md) && UnitRows(t, c) == [] && Since(md, LastOf(c)) == Ok([])
    ensures OnAncestry(t, md, c) ==> Owed(t, md, c) == []
  {
  }
}
