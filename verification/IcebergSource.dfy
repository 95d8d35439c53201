/**
 The Iceberg source: the rule that makes the reader's cursor visible to
 checkpoints, markers, finalizers, table refreshes and crashes.

 `Source` holds the fields of one running source. `System` adds the state
 backend and a log that counts rows of the table's history: `total` is the
 whole sequence of rows the source has to emit, `at` how many of them lie
 before the cursor, `host` how many the host has delivered downstream.
 */
module IcebergSources {
  import opened Wrappers
  import opened IcebergSnapshots
  import opened IcebergReader

  // ---------------------------------------------------------------- exact resume

  /** A refresh that keeps everything `c` still needs. */
  ghost predicate Keeps(md: Metadata, md': Metadata, c: Option<Position>)
    requires WellFormed(md)
  {
    && WellFormed(md') && Extends(md, md', LastOf(c))
    && (c.Some? && !c.value.complete ==> c.value.snapshot in md'.snapshots)
  }

  ghost function NewRows(t: Contents, md: Metadata, md': Metadata): seq<Row>
    requires WellFormed(md) && WellFormed(md') && Since(md', md.current).Ok?
  {
    AppendedRows(t, Since(md', md.current).value)
  }

  /** A refresh adds the new appends at the end of what is owed, for every cursor it keeps. */
  lemma OwedExtends(t: Contents, md: Metadata, md': Metadata, c: Option<Position>)
    requires OnAncestry(t, md, c) && Keeps(md, md', c)
    ensures OnAncestry(t, md', c) && Owed(t, md', c) == Owed(t, md, c) + NewRows(t, md, md')
  {
    hide Since, Walk, WellFormed, ContentsOk, UnitRows, AppendedRows, FilesOf;
    SinceExtends(md, md', LastOf(c));
    var a, b := Since(md, LastOf(c)).value, Since(md', md.current).value;
    AppendedConcat(t, a, b);
    hide Extends;
    assert Since(md', LastOf(c)) == Ok(a + b);
    Regroup(UnitRows(t, c), AppendedRows(t, a), AppendedRows(t, b));
  }

  /** Reads by readers of any batch size, each started from where the last one stopped, and refreshes in between. */
  datatype Move = Read(batchSize: nat, o: Outcome, c': Option<Position>) | Reload(md': Metadata)

  ghost predicate Moves(t: Contents, md: Metadata, c: Option<Position>, moves: seq<Move>)
    requires OnAncestry(t, md, c)
    decreases |moves|
  {
    moves == [] || match moves[0]
      case Read(n, o, c') => ReaderStep(t, md, n, c, o, c') && Moves(t, md, c', moves[1..])
      case Reload(md') => Keeps(md, md', c) && (OwedExtends(t, md, md', c); Moves(t, md', c, moves[1..]))
  }

  function Emitted(moves: seq<Move>): seq<Row> {
    if moves == [] then []
    else MoveRows(moves[0]) + Emitted(moves[1..])
  }

  function MoveRows(m: Move): seq<Row> {
    if m.Read? && m.o.Batch? then m.o.rows else []
  }

  /** Everything that is or becomes owed over the moves: the start's rows, then each refresh's appends. */
  ghost function Total(t: Contents, md: Metadata, c: Option<Position>, moves: seq<Move>): seq<Row>
    requires OnAncestry(t, md, c) && Moves(t, md, c, moves)
    decreases |moves|
  {
    Owed(t, md, c) + Refreshed(t, md, moves)
  }

  ghost function Refreshed(t: Contents, md: Metadata, moves: seq<Move>): seq<Row>
    decreases |moves|
  {
    if moves == [] then []
    else match moves[0]
      case Read(_, _, _) => Refreshed(t, md, moves[1..])
      case Reload(md') =>
        (if WellFormed(md) && WellFormed(md') && Since(md', md.current).Ok? then NewRows(t, md, md') else [])
        + Refreshed(t, md', moves[1..])
  }

  /**
   Whole runs and exact resume: whatever fails, is re-opened with another batch
   size, or is refreshed, the emitted rows are a prefix of the rows owed at the
   start followed by the appends of each refresh in order; and when the last
   read says caught up, they are all of them.
   */
  lemma {:induction false} RunsEmitThePrefix(t: Contents, md: Metadata, c: Option<Position>, moves: seq<Move>)
    requires OnAncestry(t, md, c) && Moves(t, md, c, moves)
    ensures Emitted(moves) <= Total(t, md, c, moves)
    ensures moves != [] && moves[|moves| - 1].Read? && moves[|moves| - 1].o.CaughtUp? ==> Emitted(moves) == Total(t, md, c, moves)
    decreases |moves|, 1
  {
    hide OnAncestry, Owed, Keeps, Since, WellFormed, NewRows, UnitRows;
    if moves != [] {
      match moves[0] {
        case Read(n, o, c') => AfterRead(t, md, c, moves);
        case Reload(md') => AfterReload(t, md, c, moves);
      }
    }
  }

  lemma {:induction false} AfterRead(t: Contents, md: Metadata, c: Option<Position>, moves: seq<Move>)
    requires OnAncestry(t, md, c) && Moves(t, md, c, moves) && moves != [] && moves[0].Read?
    ensures Emitted(moves) <= Total(t, md, c, moves)
    ensures moves[|moves| - 1].Read? && moves[|moves| - 1].o.CaughtUp? ==> Emitted(moves) == Total(t, md, c, moves)
    decreases |moves|, 0
  {
    hide OnAncestry, Owed, Since, WellFormed, NewRows, UnitRows, Keeps;
    var o, c', tail := moves[0].o, moves[0].c', moves[1..];
    RunsEmitThePrefix(t, md, c', tail);
    var rest := Refreshed(t, md, tail);
    assert Total(t, md, c', tail) == Owed(t, md, c') + rest;
    assert Total(t, md, c, moves) == Owed(t, md, c) + rest;
    if o.Batch? {
      Regroup(o.rows, Owed(t, md, c'), rest);
    } else {
      assert [] + Emitted(tail) == Emitted(tail);
      if o.CaughtUp? {
        NothingOwed(t, md, c');
      }
    }
    assert tail == [] ==> rest == [];
    assert tail != [] ==> tail[|tail| - 1] == moves[|moves| - 1];
  }

  lemma {:induction false} AfterReload(t: Contents, md: Metadata, c: Option<Position>, moves: seq<Move>)
    requires OnAncestry(t, md, c) && Moves(t, md, c, moves) && moves != [] && moves[0].Reload?
    ensures Emitted(moves) <= Total(t, md, c, moves)
    ensures moves[|moves| - 1].Read? && moves[|moves| - 1].o.CaughtUp? ==> Emitted(moves) == Total(t, md, c, moves)
    decreases |moves|, 0
  {
    hide OnAncestry, Owed, Since, WellFormed, NewRows, UnitRows, Keeps;
    var md', tail := moves[0].md', moves[1..];
    ReloadGrows(t, md, md', c);
    OwedExtends(t, md, md', c);
    RunsEmitThePrefix(t, md', c, tail);
    var rest := Refreshed(t, md', tail);
    assert Refreshed(t, md, moves) == NewRows(t, md, md') + rest;
    Regroup(Owed(t, md, c), NewRows(t, md, md'), rest);
    assert [] + Emitted(tail) == Emitted(tail);
    assert tail != [] ==> tail[|tail| - 1] == moves[|moves| - 1];
  }

  lemma ReloadGrows(t: Contents, md: Metadata, md': Metadata, c: Option<Position>)
    requires OnAncestry(t, md, c) && Keeps(md, md', c)
    ensures WellFormed(md) && WellFormed(md') && Since(md', md.current).Ok?
  {
  }

  lemma NothingOwed(t: Contents, md: Metadata, c: Option<Position>)
    requires OnAncestry(t, md, c) && UnitRows(t, c) == [] && Since(md, LastOf(c)) == Ok([])
    ensures Owed(t, md, c) == []
  {
  }

  /** Two readers resumed from one cursor emit the same rows in the same order, whatever their batch sizes and failures. */
  lemma ResumeIsExact(t: Contents, md: Metadata, c: Option<Position>, a: seq<Move>, b: seq<Move>)
    requires OnAncestry(t, md, c) && Moves(t, md, c, a) && Moves(t, md, c, b)
    requires forall m | m in a || m in b :: m.Read?
    requires a != [] && a[|a| - 1].o.CaughtUp? && b != [] && b[|b| - 1].o.CaughtUp?
    ensures Emitted(a) == Emitted(b) == Owed(t, md, c)
  {
    RunsEmitThePrefix(t, md, c, a);
    RunsEmitThePrefix(t, md, c, b);
    NoRefresh(t, md, a);
    NoRefresh(t, md, b);
  }

  lemma {:induction false} NoRefresh(t: Contents, md: Metadata, moves: seq<Move>)
    requires forall m | m in moves :: m.Read?
    ensures Refreshed(t, md, moves) == []
    decreases |moves|
  {
    if moves != [] {
      assert forall m | m in moves[1..] :: m in moves;
      NoRefresh(t, md, moves[1..]);
    }
  }

  // ---------------------------------------------------------------- the running source

  datatype StartPosition = Earliest | Latest

  function InitialPosition(md: Metadata, start: StartPosition): Option<Position> {
    if md.current.None? then None
    else if start == Earliest then Some(StartAt(md.current.value, Scan))
    else Some(Completed(md.current.value, Incremental))
  }

  /** A start position is always resumable: the earliest one owes the whole current scan, the latest one nothing yet. */
  lemma InitialIsOnAncestry(t: Contents, md: Metadata, start: StartPosition)
    requires WellFormed(md) && ContentsOk(t)
    ensures OnAncestry(t, md, InitialPosition(md, start))
    ensures Owed(t, md, InitialPosition(md, start)) ==
      if start == Earliest && md.current.Some? then AllRows(FilesOf(t, md.current.value, Scan)) else []
  {
    if md.current.Some? {
      SinceIsAncestry(md, md.current, []);
      FromTheStart(FilesOf(t, md.current.value, Scan));
    } else {
      SinceIsAncestry(md, None, []);
    }
  }

  /**
   A running source; `busy` while a call of `generate_batch` is in progress and
   `idle` once that call has caught up.
   */
  datatype Source = Source(
    md: Metadata, cursor: Option<Position>, delivered: Option<Position>, epochs: map<nat, Position>, busy: bool, idle: bool)

  datatype CallStep =
    | Begin
    | Refresh(md': Metadata)
    | Next(o: Outcome, c': Option<Position>)
    | End

  ghost predicate CallEnabled(t: Contents, batchSize: nat, s: Source, st: CallStep) {
    match st
    case Begin => !s.busy
    case Refresh(md') => s.busy && WellFormed(md')
    case Next(o, c') => s.busy && (WellFormed(s.md) ==> NextOk(t, s.md, batchSize, s.cursor, o, c'))
    case End => s.busy && s.idle
  }

  function CallApply(s: Source, st: CallStep): Source {
    match st
    case Begin => s.(busy := true, idle := false, delivered := s.cursor)
    case Refresh(md') => s.(md := md')
    case Next(o, c') =>
      if o.CaughtUp? then s.(cursor := c', delivered := c', idle := true)
      else s.(cursor := c', busy := false, idle := false)
    case End => s.(busy := false)
  }

  function MarkEpoch(s: Source, epoch: nat): Source {
    if s.delivered.Some? then s.(epochs := s.epochs[epoch := s.delivered.value]) else s
  }

  function TakeEpoch(s: Source, epoch: nat): (Source, Option<Position>) {
    (s.(epochs := map e | e in s.epochs && e > epoch :: s.epochs[e]),
     if epoch in s.epochs then Some(s.epochs[epoch]) else None)
  }

  ghost predicate Leads(t: Contents, batchSize: nat, s: Source, steps: seq<CallStep>, s': Source)
    decreases |steps|
  {
    if steps == [] then s == s'
    else CallEnabled(t, batchSize, s, steps[0]) && Leads(t, batchSize, CallApply(s, steps[0]), steps[1..], s')
  }

  lemma {:induction false} LeadsThen(t: Contents, batchSize: nat, s: Source, steps: seq<CallStep>, m: Source, st: CallStep)
    requires Leads(t, batchSize, s, steps, m) && CallEnabled(t, batchSize, m, st)
    ensures Leads(t, batchSize, s, steps + [st], CallApply(m, st))
    decreases |steps|
  {
    hide CallEnabled, CallApply;
    if steps == [] {
      assert (steps + [st])[1..] == [];
    } else {
      LeadsThen(t, batchSize, CallApply(s, steps[0]), steps[1..], m, st);
      assert (steps + [st])[0] == steps[0] && (steps + [st])[1..] == steps[1..] + [st];
    }
  }

  datatype Reply = Rows(rows: seq<Row>) | Empty | Failure(e: ReadError)

  /** How a call that replied `r` ended. */
  function LastStep(r: Reply, cursor: Option<Position>): CallStep {
    match r
    case Rows(rows) => Next(Batch(rows), cursor)
    case Failure(e) => Next(Failed(e), cursor)
    case Empty => End
  }

  class IcebergSource {
    const reader: TableReader
    var delivered: Option<Position>
    var epochs: map<nat, Position>

    ghost predicate Valid()
      reads this, reader, reader.unit
    {
      reader.Valid() && reader.batchSize >= 1
    }

    ghost function Model(busy: bool, idle: bool): Source
      reads this, reader
    {
      Source(reader.table, reader.cursor, delivered, epochs, busy, idle)
    }

    constructor (table: Metadata, contents: Contents, batchSize: nat, policy: Policy, cursor: Option<Position>, reliable: bool)
      requires WellFormed(table) && ContentsOk(contents) && batchSize >= 1
      ensures Valid() && Model(false, false) == Source(table, cursor, cursor, map[], false, false)
      ensures fresh(reader) && reader.unit == null
    {
      reader := new TableReader(table, contents, batchSize, policy, cursor, reliable);
      delivered, epochs := cursor, map[];
    }

    /** One refresh, if the catalog answers. */
    method RefreshTable(loaded: Option<Metadata>) returns (ok: bool)
      requires Valid() && (loaded.Some? ==> WellFormed(loaded.value))
      modifies reader`table
      ensures Valid() && WellFormed(reader.table) && ok == loaded.Some?
      ensures reader.table == if loaded.Some? then loaded.value else old(reader.table)
    {
      TableOk(reader);
      hide WellFormed;
      ok := loaded.Some?;
      if ok {
        reader.SetTable(loaded.value);
      }
    }

    /**
     One `generate_batch`: `due` and `dueAgain` say whether the poll interval
     has passed at the start and after catching up, `loaded` and `reloaded` what
     the catalog answers. The steps it takes are those of the source, ending
     idle or with a batch or an error; it refreshes exactly when that is due,
     and is idle only after a due refresh.
     */
    method GenerateBatch(loaded: Option<Metadata>, due: bool, reloaded: Option<Metadata>, dueAgain: bool)
      returns (r: Reply, ghost steps: seq<CallStep>)
      requires Valid() && (loaded.Some? ==> WellFormed(loaded.value)) && (reloaded.Some? ==> WellFormed(reloaded.value))
      modifies this`delivered, reader, reader.unit
      ensures Valid() && epochs == old(epochs)
      ensures Leads(reader.contents, reader.batchSize, old(Model(false, false)), steps, Model(false, r.Empty?))
      ensures r.Rows? ==> 1 <= |r.rows| <= reader.batchSize
      ensures |steps| >= 2 && steps[0] == Begin && steps[|steps| - 1] == LastStep(r, reader.cursor)
      ensures if due then steps[1] == Refresh(if loaded.Some? then loaded.value else old(reader.table)) else steps[1].Next?
      ensures r.Empty? && !due && dueAgain && reloaded.Some? ==> |steps| >= 4 && steps[2] == Refresh(reloaded.value)
      ensures r.Failure? ==>
        WellFormed(reader.table) && Justified(reader.contents, reader.table, reader.policy, reader.reliable, reader.cursor, r.e)
    {
      hide WellFormed, OnAncestry, ReaderStep, TableReader.Valid, Since, Leads, Justified;
      ghost var t, n, s0 := reader.contents, reader.batchSize, Model(false, false);
      steps := [];
      NoSteps(t, n, s0);
      delivered := reader.cursor;
      LeadsThen(t, n, s0, steps, s0, Begin);
      steps := steps + [Begin];

      var refreshed := false;
      if due {
        ghost var s := Model(true, false);
        var ok := RefreshTable(loaded);
        LeadsThen(t, n, s0, steps, s, Refresh(reader.table));
        steps := steps + [Refresh(reader.table)];
        refreshed := true;
      }
      ghost var start := steps;
      var tries := 0;
      ghost var idle := false;
      while true
        invariant Valid() && epochs == old(epochs) && 0 <= tries <= 1 && (tries == 1 ==> refreshed) && (due ==> refreshed)
        invariant reader.unit == null || reader.unit == old(reader.unit) || fresh(reader.unit)
        invariant Leads(t, n, s0, steps, Model(true, idle))
        invariant start <= steps && |start| == (if due then 2 else 1)
        invariant tries == 0 ==> steps == start && refreshed == due
        invariant tries == 1 ==> |steps| == 3 && steps[1].Next? && !due && reloaded.Some? && steps[2] == Refresh(reloaded.value)
        decreases 1 - tries
      {
        ghost var s := Model(true, idle);
        var o := TakeNext(idle);
        LeadsThen(t, n, s0, steps, s, Next(o, reader.cursor));
        steps := steps + [Next(o, reader.cursor)];
        if o.Failed? {
          return Failure(o.e), steps;
        }
        if o.Batch? {
          return Reply.Rows(o.rows), steps;
        }
        idle := true;
        ghost var caught := Model(true, true);
        var again := !refreshed && dueAgain;
        if again {
          again := RefreshTable(reloaded);
        }
        if !again {
          LeadsThen(t, n, s0, steps, caught, End);
          steps := steps + [End];
          return Empty, steps;
        }
        LeadsThen(t, n, s0, steps, caught, Refresh(reader.table));
        steps := steps + [Refresh(reader.table)];
        refreshed := true;
        tries := tries + 1;
      }
    }

    /** Asks the reader once; having caught up, everything before the cursor counts as delivered. */
    method TakeNext(ghost idle: bool) returns (o: Outcome)
      requires Valid()
      modifies this`delivered, reader`cursor, reader`unit, reader.unit
      ensures Valid() && (reader.unit == null || reader.unit == old(reader.unit) || fresh(reader.unit))
      ensures o.Batch? ==> 1 <= |o.rows| <= reader.batchSize
      ensures CallEnabled(reader.contents, reader.batchSize, old(Model(true, idle)), Next(o, reader.cursor))
      ensures Model(o.CaughtUp?, o.CaughtUp?) == CallApply(old(Model(true, idle)), Next(o, reader.cursor))
      ensures o.Failed? ==>
        WellFormed(reader.table) && Justified(reader.contents, reader.table, reader.policy, reader.reliable, reader.cursor, o.e)
    {
      TableOk(reader);
      hide Justified, Passes, WellFormed, OnAncestry, ReaderStep, TableReader.Valid, Since;
      o := reader.NextBatch();
      if o.CaughtUp? {
        delivered := reader.cursor;
      }
    }

    method ProcessMarker(epoch: nat)
      modifies this`epochs
      ensures Model(false, false) == MarkEpoch(old(Model(false, false)), epoch)
    {
      if delivered.Some? {
        epochs := epochs[epoch := delivered.value];
      }
    }

    method ProcessFinalizer(epoch: nat) returns (persist: Option<Position>)
      modifies this`epochs
      ensures (Model(false, false), persist) == TakeEpoch(old(Model(false, false)), epoch)
    {
      persist := if epoch in epochs then Some(epochs[epoch]) else None;
      epochs := map e | e in epochs && e > epoch :: epochs[e];
    }
  }

  lemma NoSteps(t: Contents, n: nat, s: Source)
    ensures Leads(t, n, s, [], s)
  {
  }

  lemma TableOk(r: TableReader)
    requires r.Valid()
    ensures WellFormed(r.table)
  {
  }

  // ---------------------------------------------------------------- checkpoints over whole runs

  /** The check of a persisted position: a completed one is walked to, an incomplete one only looked up. */
  function ValidateResume(md: Metadata, p: Position): Result<(), Error>
    requires WellFormed(md)
  {
    if p.complete then
      match Since(md, Some(p.snapshot))
      case Ok(_) => Ok(())
      case Err(e) => Err(e)
    else if p.snapshot in md.snapshots then Ok(())
    else Err(Expired(p.snapshot))
  }

  // ---------------------------------------------------------------- which positions can be caught up from

  /** Calls on readers of the cursor `c`, re-opened at will, and refreshes. */
  ghost predicate Reads(t: Contents, md: Metadata, c: Option<Position>, moves: seq<Move>)
    requires WellFormed(md)
    decreases |moves|
  {
    moves == [] || match moves[0]
      case Read(n, o, c') => NextOk(t, md, n, c, o, c') && Reads(t, md, c', moves[1..])
      case Reload(md') => WellFormed(md') && Reads(t, md', c, moves[1..])
  }

  /** No refresh loads metadata in which the cursor is not stuck. */
  ghost predicate StaysStuck(t: Contents, c: Option<Position>, moves: seq<Move>)
    decreases |moves|
  {
    moves == [] || match moves[0]
      case Read(n, o, c') => StaysStuck(t, c', moves[1..])
      case Reload(md') => WellFormed(md') && Stuck(t, md', c) && StaysStuck(t, c, moves[1..])
  }

  /**
   From a stuck position no sequence of calls catches up: the batches start the
   rest of its unit, and once that has been given out every call fails.
   */
  lemma {:induction false} StuckNeverCatchesUp(t: Contents, md: Metadata, c: Option<Position>, moves: seq<Move>)
    requires WellFormed(md) && Stuck(t, md, c) && Reads(t, md, c, moves) && StaysStuck(t, c, moves)
    ensures forall i | 0 <= i < |moves| && moves[i].Read? :: !moves[i].o.CaughtUp?
    ensures forall i | 0 <= i < |moves| && moves[i].Read? && Emitted(moves[..i]) == UnitRows(t, c) :: moves[i].o.Failed?
    ensures Emitted(moves) <= UnitRows(t, c)
    decreases |moves|
  {
    hide *;
    if moves == [] {
      assert Emitted(moves) == [] by { EmittedNothing(); }
    } else {
      var md', c' := StuckFirst(t, md, c, moves);
      StuckNeverCatchesUp(t, md', c', moves[1..]);
      forall i | 0 <= i < |moves| && moves[i].Read?
        ensures !moves[i].o.CaughtUp?
        ensures Emitted(moves[..i]) == UnitRows(t, c) ==> moves[i].o.Failed?
      {
        if i > 0 {
          EmittedFirst(moves[..i]);
          assert moves[..i][1..] == moves[1..][..i - 1] && moves[i] == moves[1..][i - 1];
          if Emitted(moves[..i]) == UnitRows(t, c) {
            Cancel(MoveRows(moves[0]), Emitted(moves[1..][..i - 1]), UnitRows(t, c'));
          }
        } else {
          assert moves[..0] == [];
          EmittedNothing();
        }
      }
      EmittedFirst(moves);
    }
  }

  lemma Cancel(a: seq<Row>, x: seq<Row>, y: seq<Row>)
    requires a + x == a + y
    ensures x == y
  {
    assert (a + x)[|a|..] == x && (a + y)[|a|..] == y;
  }

  lemma EmittedNothing()
    ensures Emitted([]) == []
  {
  }

  lemma EmittedFirst(moves: seq<Move>)
    requires moves != []
    ensures Emitted(moves) == MoveRows(moves[0]) + Emitted(moves[1..])
  {
  }

  /** The first move takes its rows off the front of the unit and leaves a stuck cursor. */
  lemma StuckFirst(t: Contents, md: Metadata, c: Option<Position>, moves: seq<Move>) returns (md': Metadata, c': Option<Position>)
    requires WellFormed(md) && Stuck(t, md, c) && Reads(t, md, c, moves) && StaysStuck(t, c, moves) && moves != []
    ensures WellFormed(md') && Stuck(t, md', c') && Reads(t, md', c', moves[1..]) && StaysStuck(t, c', moves[1..])
    ensures UnitRows(t, c) == MoveRows(moves[0]) + UnitRows(t, c')
    ensures moves[0].Read? ==> !moves[0].o.CaughtUp? && (moves[0].o.Failed? || MoveRows(moves[0]) != [])
  {
    hide WellFormed, Stuck, OnAncestry, ReaderStep, UnitRows;
    match moves[0] {
      case Read(n, o, next) => md', c' := md, next;
      case Reload(loaded) => md', c' := loaded, c;
    }
  }

  ghost predicate HasAncestry(md: Metadata, id: SnapshotId) {
    exists chain :: IsAncestry(md, Some(id), chain)
  }

  lemma WalkedExactly(md: Metadata, id: SnapshotId)
    requires WellFormed(md)
    ensures Since(md, Some(id)).Ok? <==> HasAncestry(md, id)
  {
    var r := Since(md, Some(id));
    if r.Ok? {
      SinceIsAncestry(md, Some(id), r.value);
    } else {
      forall chain
        ensures !IsAncestry(md, Some(id), chain)
      {
        SinceIsAncestry(md, Some(id), chain);
      }
    }
  }

  /** Some sequence of calls on the metadata at hand, whatever the catalog and the files answer, reports that it has caught up. */
  ghost predicate CanCatchUp(t: Contents, md: Metadata, p: Position)
    requires WellFormed(md)
  {
    exists moves: seq<Move> ::
      && Reads(t, md, Some(p), moves) && (forall m | m in moves :: m.Read?)
      && moves != [] && moves[|moves| - 1].o.CaughtUp?
  }

  /**
   The check never refuses a position that can be caught up from. An accepted
   one can be exactly when it is completed, or its snapshot is on the current
   ancestry and it lies inside its unit.
   */
  lemma ValidationIsExact(t: Contents, md: Metadata, p: Position)
    requires WellFormed(md) && ContentsOk(t)
    ensures OnAncestry(t, md, Some(p)) ==> ValidateResume(md, p).Ok? && CanCatchUp(t, md, p)
    ensures ValidateResume(md, p).Ok? ==>
      (CanCatchUp(t, md, p) <==> p.complete || (HasAncestry(md, p.snapshot) && InsideUnit(t, p)))
  {
    WalkedExactly(md, p.snapshot);
    assert LastOf(Some(p)) == Some(p.snapshot);
    hide Since, InsideUnit, HasAncestry;
    if OnAncestry(t, md, Some(p)) {
      CatchesUp(t, md, p);
    } else if ValidateResume(md, p).Ok? {
      assert Stuck(t, md, Some(p));
      NeverCatchesUp(t, md, p);
    }
  }

  lemma NeverCatchesUp(t: Contents, md: Metadata, p: Position)
    requires WellFormed(md) && Stuck(t, md, Some(p))
    ensures !CanCatchUp(t, md, p)
  {
    hide WellFormed, Stuck, Reads;
    forall moves: seq<Move> | Reads(t, md, Some(p), moves) && (forall m | m in moves :: m.Read?) && moves != []
      ensures !moves[|moves| - 1].o.CaughtUp?
    {
      NoReloads(t, Some(p), moves);
      StuckNeverCatchesUp(t, md, Some(p), moves);
    }
  }

  lemma {:induction false} NoReloads(t: Contents, c: Option<Position>, moves: seq<Move>)
    requires forall m | m in moves :: m.Read?
    ensures StaysStuck(t, c, moves)
    decreases |moves|
  {
    if moves != [] {
      assert forall m | m in moves[1..] :: m in moves;
      NoReloads(t, moves[0].c', moves[1..]);
    }
  }

  /** Everything owed in one batch, and then the end. */
  lemma CatchesUp(t: Contents, md: Metadata, p: Position)
    requires OnAncestry(t, md, Some(p))
    ensures CanCatchUp(t, md, p)
  {
    var c, rows := Some(p), Owed(t, md, Some(p));
    var end := AtEnd(t, md, p);
    var last := Move.Read(1, CaughtUp, end);
    assert [last][1..] == [];
    hide OnAncestry, Owed, WellFormed, UnitRows, Since;
    assert Reads(t, md, end, [last]) by { NotStuck(t, md, end); }
    NotStuck(t, md, c);
    if rows == [] {
      assert Reads(t, md, c, [last]);
    } else {
      var moves := [Move.Read(|rows|, Batch(rows), end), last];
      assert moves[1..] == [last];
      assert rows + [] == rows;
      assert Reads(t, md, c, moves);
    }
  }

  lemma NotStuck(t: Contents, md: Metadata, c: Option<Position>)
    requires OnAncestry(t, md, c)
    ensures WellFormed(md) && !Stuck(t, md, c)
  {
  }

  lemma AtEnd(t: Contents, md: Metadata, p: Position) returns (end: Option<Position>)
    requires OnAncestry(t, md, Some(p))
    ensures OnAncestry(t, md, end) && UnitRows(t, end) == [] && Since(md, LastOf(end)) == Ok([]) && Owed(t, md, end) == []
  {
    assert md.current.Some?;
    end := Some(Completed(md.current.value, Incremental));
    SinceIsAncestry(md, LastOf(end), []);
  }

  /** Nor does the source: from a cursor off the ancestry no call of `generate_batch` comes back empty, whatever it refreshes to, until a refresh rejoins. */
  lemma {:induction false} OrphanNeverIdles(t: Contents, batchSize: nat, s: Source, steps: seq<CallStep>, s': Source)
    requires WellFormed(s.md) && Since(s.md, LastOf(s.cursor)).Err? && !s.idle && Leads(t, batchSize, s, steps, s')
    requires forall st | st in steps && st.Refresh? && WellFormed(st.md') :: Since(st.md', LastOf(s.cursor)).Err?
    ensures !s'.idle && LastOf(s'.cursor) == LastOf(s.cursor)
    decreases |steps|
  {
    hide WellFormed, Since, OnAncestry, ReaderStep;
    if steps != [] {
      assert forall st | st in steps[1..] :: st in steps;
      OrphanNeverIdles(t, batchSize, CallApply(s, steps[0]), steps[1..], s');
    }
  }

  /** The gap is real: a position on a snapshot beside the current ancestry passes the check, and no reading from it ever catches up. */
  lemma OrphanIsAccepted() returns (t: Contents, md: Metadata, p: Position)
    ensures WellFormed(md) && ContentsOk(t) && ValidateResume(md, p).Ok? && InsideUnit(t, p) && UnitRows(t, Some(p)) == [7, 8]
    ensures !CanCatchUp(t, md, p)
    ensures forall moves: seq<Move> | Reads(t, md, Some(p), moves) && (forall m | m in moves :: m.Read?) :: Emitted(moves) <= [7, 8]
  {
    t, p := map[(9, Scan) := [File(0, [7, 8])]], StartAt(9, Scan);
    md := Metadata(map[1 := Snapshot(1, None, Append, 0), 9 := Snapshot(9, None, Append, 0)], Some(1));
    OrphanIsStuck(t, md, p);
    hide Stuck, WellFormed, Reads, UnitRows;
    NeverCatchesUp(t, md, p);
    forall moves: seq<Move> | Reads(t, md, Some(p), moves) && (forall m | m in moves :: m.Read?)
      ensures Emitted(moves) <= [7, 8]
    {
      NoReloads(t, Some(p), moves);
      StuckNeverCatchesUp(t, md, Some(p), moves);
    }
  }

  lemma OrphanIsStuck(t: Contents, md: Metadata, p: Position)
    requires t == map[(9, Scan) := [File(0, [7, 8])]] && p == StartAt(9, Scan)
    requires md == Metadata(map[1 := Snapshot(1, None, Append, 0), 9 := Snapshot(9, None, Append, 0)], Some(1))
    ensures WellFormed(md) && ContentsOk(t) && Stuck(t, md, Some(p))
    ensures ValidateResume(md, p).Ok? && InsideUnit(t, p) && UnitRows(t, Some(p)) == [7, 8]
  {
    assert Walk(md, Get(md, 1), Some(9)).Err?;
    FromTheStart(t[(9, Scan)]);
    assert t[(9, Scan)][1..] == [];
    assert AllRows(t[(9, Scan)]) == [7, 8];
  }

  /** The same on a running reader: any number of calls gives at most the two rows of the orphan and never the end. */
  method ReadOrphan(batchSize: nat, policy: Policy, reliable: bool, calls: nat) returns (outcomes: seq<Outcome>)
    requires batchSize >= 1
    ensures |outcomes| == calls && forall o | o in outcomes :: !o.CaughtUp?
    ensures Given(outcomes) <= [7, 8]
  {
    var t: Contents := map[(9, Scan) := [File(0, [7, 8])]];
    var md := Metadata(map[1 := Snapshot(1, None, Append, 0), 9 := Snapshot(9, None, Append, 0)], Some(1));
    var p := StartAt(9, Scan);
    OrphanIsStuck(t, md, p);
    hide *;
    var reader := new TableReader(md, t, batchSize, policy, Some(p), reliable);
    outcomes := ReadStuck(reader, calls);
  }

  /** Calls a reader with a stuck cursor over and over. */
  method ReadStuck(reader: TableReader, calls: nat) returns (outcomes: seq<Outcome>)
    requires reader.Valid() && reader.batchSize >= 1
    requires WellFormed(reader.table) && Stuck(reader.contents, reader.table, reader.cursor)
    modifies reader`cursor, reader`unit, reader.unit
    ensures |outcomes| == calls && forall o | o in outcomes :: !o.CaughtUp?
    ensures Given(outcomes) <= UnitRows(reader.contents, old(reader.cursor))
  {
    hide Stuck, WellFormed, OnAncestry, ReaderStep, UnitRows, TableReader.Valid;
    ghost var rows := UnitRows(reader.contents, reader.cursor);
    outcomes := [];
    for k := 0 to calls
      invariant reader.Valid() && (reader.unit == null || reader.unit == old(reader.unit) || fresh(reader.unit))
      invariant reader.table == old(reader.table) && Stuck(reader.contents, reader.table, reader.cursor)
      invariant |outcomes| == k && forall o | o in outcomes :: !o.CaughtUp?
      invariant Given(outcomes) + UnitRows(reader.contents, reader.cursor) == rows
    {
      ghost var from := reader.cursor;
      var o := reader.NextBatch();
      assert StuckStep(reader.contents, reader.table, reader.batchSize, from, o, reader.cursor);
      GivenThen(outcomes, o);
      Regroup(Given(outcomes), OutcomeRows(o), UnitRows(reader.contents, reader.cursor));
      outcomes := outcomes + [o];
    }
  }

  function Given(outcomes: seq<Outcome>): seq<Row> {
    if outcomes == [] then []
    else Given(outcomes[..|outcomes| - 1]) + OutcomeRows(outcomes[|outcomes| - 1])
  }

  function OutcomeRows(o: Outcome): seq<Row> {
    if o.Batch? then o.rows else []
  }

  lemma GivenThen(outcomes: seq<Outcome>, o: Outcome)
    ensures Given(outcomes + [o]) == Given(outcomes) + OutcomeRows(o)
  {
    assert (outcomes + [o])[..|outcomes|] == outcomes;
  }

  /** A checkpointed position covers `n` rows; `host` rows were delivered and the source was `idle` when its marker came. */
  datatype Mark = Mark(n: nat, host: nat, idle: bool)

  /**
   `total` is every row the source has had to emit since its first start;
   `emitted` are the rows returned since the last start, which began after
   `base` rows; `host` counts the rows delivered downstream and `done` those
   before the source's `delivered` position.
   */
  datatype System = System(
    src: Source, backend: Option<Position>,
    total: seq<Row>, base: nat, emitted: seq<Row>, host: nat, done: nat, marks: map<nat, Mark>, saved: Mark)
  {
    function At(): nat { base + |emitted| }
  }

  datatype Step = Call(st: CallStep) | Deliver | Marker(epoch: nat) | Finalizer(epoch: nat, put: bool) | Restart(md': Metadata)

  ghost predicate KeepsAll(s: System, md': Metadata)
    requires WellFormed(s.src.md)
  {
    && Keeps(s.src.md, md', s.src.cursor) && Keeps(s.src.md, md', s.src.delivered)
    && (s.backend.Some? ==> Keeps(s.src.md, md', s.backend))
    && forall e | e in s.src.epochs :: Keeps(s.src.md, md', Some(s.src.epochs[e]))
  }

  /**
   A batch is delivered before the following call, epochs are marked in
   increasing order and finalized late or never; refreshes only extend the
   ancestry; a restart loses everything but the backend.
   */
  ghost predicate Enabled(t: Contents, batchSize: nat, s: System, step: Step) {
    match step
    case Call(st) =>
      && CallEnabled(t, batchSize, s.src, st)
      && (st.Begin? ==> s.host == s.At())
      && (st.Refresh? ==> WellFormed(s.src.md) && KeepsAll(s, st.md'))
    case Deliver => true
    case Marker(e) => forall k | k in s.src.epochs :: k < e
    case Finalizer(_, _) => true
    case Restart(md') =>
      && WellFormed(md') && ContentsOk(t)
      && (s.backend.Some? ==> WellFormed(s.src.md) && Keeps(s.src.md, md', s.backend) && ValidateResume(md', s.backend.value).Ok?)
  }

  ghost function Extended(t: Contents, md: Metadata, md': Metadata, total: seq<Row>): seq<Row> {
    if WellFormed(md) && WellFormed(md') && Since(md', md.current).Ok? then total + NewRows(t, md, md') else total
  }

  ghost function Apply(t: Contents, start: StartPosition, s: System, step: Step): System {
    match step
    case Call(st) =>
      var s1 := s.(src := CallApply(s.src, st));
      (match st
       case Begin => s1.(done := s.At())
       case Refresh(md') => s1.(total := Extended(t, s.src.md, md', s.total))
       case Next(o, _) =>
         if o.Batch? then s1.(emitted := s.emitted + o.rows)
         else if o.CaughtUp? then s1.(done := s.At())
         else s1
       case End => s1)
    case Deliver => s.(host := s.At())
    case Marker(e) =>
      if s.src.delivered.None? then s
      else s.(src := MarkEpoch(s.src, e), marks := s.marks[e := Mark(s.done, s.host, s.src.idle)])
    case Finalizer(e, put) =>
      var (src', p) := TakeEpoch(s.src, e);
      var s1 := s.(src := src', marks := map k | k in s.marks && k > e :: s.marks[k]);
      if p.Some? && put && e in s.marks then s1.(backend := p, saved := s.marks[e]) else s1
    case Restart(md') =>
      if s.backend.Some? then
        System(
          Source(md', s.backend, s.backend, map[], false, false), s.backend,
          Extended(t, s.src.md, md', s.total), s.saved.n, [], s.saved.n, s.saved.n, map[], s.saved)
      else Fresh(t, md', start)
  }

  /** A source started without a persisted position. */
  ghost function Fresh(t: Contents, md: Metadata, start: StartPosition): System {
    var c := InitialPosition(md, start);
    System(
      Source(md, c, c, map[], false, false), None,
      if OnAncestry(t, md, c) then Owed(t, md, c) else [], 0, [], 0, 0, map[], Mark(0, 0, true))
  }

  /** Position `c` lies after exactly the first `n` rows of `total`. */
  ghost predicate Covers(t: Contents, md: Metadata, c: Option<Position>, total: seq<Row>, n: nat) {
    OnAncestry(t, md, c) && n <= |total| && Owed(t, md, c) == total[n..]
  }

  predicate MarkOk(batchSize: nat, m: Mark) {
    m.n <= m.host <= m.n + batchSize && (m.idle ==> m.n == m.host)
  }

  ghost predicate CursorInv(t: Contents, batchSize: nat, s: System) {
    && Covers(t, s.src.md, s.src.cursor, s.total, s.At())
    && Covers(t, s.src.md, s.src.delivered, s.total, s.done)
    && s.base <= s.done <= s.host <= s.At() <= s.done + batchSize
    && (s.src.busy || s.src.idle ==> s.done == s.At())
    && s.emitted == s.total[s.base..s.At()]
  }

  ghost predicate MarksInv(t: Contents, batchSize: nat, s: System) {
    && s.marks.Keys == s.src.epochs.Keys
    && (forall e | e in s.src.epochs ::
          && Covers(t, s.src.md, Some(s.src.epochs[e]), s.total, s.marks[e].n)
          && MarkOk(batchSize, s.marks[e]) && s.saved.n <= s.marks[e].n <= s.done)
    && forall e, e' | e in s.marks && e' in s.marks && e < e' :: s.marks[e].n <= s.marks[e'].n
  }

  ghost predicate SavedInv(t: Contents, batchSize: nat, s: System) {
    && s.saved.n <= s.done
    && (s.backend.Some? ==> Covers(t, s.src.md, s.backend, s.total, s.saved.n) && MarkOk(batchSize, s.saved))
  }

  ghost predicate Inv(t: Contents, batchSize: nat, s: System) {
    CursorInv(t, batchSize, s) && MarksInv(t, batchSize, s) && SavedInv(t, batchSize, s)
  }

  lemma FreshIsGood(t: Contents, batchSize: nat, md: Metadata, start: StartPosition)
    requires WellFormed(md) && ContentsOk(t)
    ensures Inv(t, batchSize, Fresh(t, md, start))
  {
    InitialIsOnAncestry(t, md, start);
    hide OnAncestry, Owed, WellFormed, ContentsOk, InitialPosition;
    var s := Fresh(t, md, start);
    assert s.total[0..] == s.total && s.total[0..0] == [];
  }

  lemma CoversReload(t: Contents, md: Metadata, md': Metadata, c: Option<Position>, total: seq<Row>, n: nat)
    requires Covers(t, md, c, total, n) && Keeps(md, md', c)
    ensures Covers(t, md', c, Extended(t, md, md', total), n) && total <= Extended(t, md, md', total)
  {
    ReloadGrows(t, md, md', c);
    OwedExtends(t, md, md', c);
    hide OnAncestry, Owed, Keeps, Since, WellFormed, NewRows;
    SplitTail(total, NewRows(t, md, md'), n);
  }

  lemma SplitTail(a: seq<Row>, b: seq<Row>, n: nat)
    requires n <= |a|
    ensures (a + b)[n..] == a[n..] + b
  {
  }

  lemma CoversBatch(t: Contents, md: Metadata, batchSize: nat, c: Option<Position>, o: Outcome, c': Option<Position>, total: seq<Row>, n: nat)
    requires Covers(t, md, c, total, n) && ReaderStep(t, md, batchSize, c, o, c')
    ensures o.Batch? ==> Covers(t, md, c', total, n + |o.rows|) && total[n..n + |o.rows|] == o.rows
    ensures !o.Batch? ==> Covers(t, md, c', total, n)
  {
    if o.CaughtUp? {
      NothingOwed(t, md, c');
    }
    hide OnAncestry, Owed, Since;
    if o.Batch? {
      assert total[n..][|o.rows|..] == total[n + |o.rows|..];
      assert total[n..n + |o.rows|] == total[n..][..|o.rows|];
    }
  }

  lemma CallKeepsCursor(t: Contents, batchSize: nat, start: StartPosition, s: System, st: CallStep)
    requires CursorInv(t, batchSize, s) && Enabled(t, batchSize, s, Call(st))
    ensures CursorInv(t, batchSize, Apply(t, start, s, Call(st)))
    ensures s.done <= Apply(t, start, s, Call(st)).done
  {
    hide Covers, CursorInv, Extended, KeepsAll, WellFormed, ReaderStep;
    var s' := Apply(t, start, s, Call(st));
    match st {
      case Begin => BeginKeepsCursor(t, batchSize, s);
      case Refresh(md') => RefreshKeepsCursor(t, batchSize, s, md');
      case Next(o, c') => NextKeepsCursor(t, batchSize, start, s, o, c');
      case End => EndKeepsCursor(t, batchSize, s);
    }
  }

  lemma BeginKeepsCursor(t: Contents, batchSize: nat, s: System)
    requires CursorInv(t, batchSize, s) && s.host == s.At()
    ensures CursorInv(t, batchSize, s.(src := CallApply(s.src, Begin), done := s.At())) && s.done <= s.At()
  {
    hide Covers;
  }

  lemma EndKeepsCursor(t: Contents, batchSize: nat, s: System)
    requires CursorInv(t, batchSize, s) && s.src.busy && s.src.idle
    ensures CursorInv(t, batchSize, s.(src := CallApply(s.src, End)))
  {
    hide Covers;
  }

  lemma RefreshKeepsCursor(t: Contents, batchSize: nat, s: System, md': Metadata)
    requires CursorInv(t, batchSize, s) && WellFormed(s.src.md) && KeepsAll(s, md')
    ensures CursorInv(t, batchSize, s.(src := CallApply(s.src, Refresh(md')), total := Extended(t, s.src.md, md', s.total)))
  {
    hide Covers, Extended, Keeps, WellFormed;
    CoversReload(t, s.src.md, md', s.src.cursor, s.total, s.At());
    CoversReload(t, s.src.md, md', s.src.delivered, s.total, s.done);
    CoversAtMost(t, s.src.md, s.src.cursor, s.total, s.At());
    var total' := Extended(t, s.src.md, md', s.total);
    assert total'[s.base..s.At()] == s.total[s.base..s.At()];
  }

  lemma NextKeepsCursor(t: Contents, batchSize: nat, start: StartPosition, s: System, o: Outcome, c': Option<Position>)
    requires CursorInv(t, batchSize, s) && CallEnabled(t, batchSize, s.src, Next(o, c'))
    ensures var s' := Apply(t, start, s, Call(Next(o, c')));
      CursorInv(t, batchSize, s') && s.done <= s'.done
  {
    hide Covers, ReaderStep;
    CoversAtMost(t, s.src.md, s.src.cursor, s.total, s.At());
    CoversBatch(t, s.src.md, batchSize, s.src.cursor, o, c', s.total, s.At());
    if o.Batch? {
      var s' := Apply(t, start, s, Call(Next(o, c')));
      RowsTaken(t, s.src.md, batchSize, s.src.cursor, o, c');
      CoversAtMost(t, s.src.md, c', s.total, s'.At());
      assert s.total[s.base..s'.At()] == s.total[s.base..s.At()] + s.total[s.At()..s'.At()];
    }
  }

  lemma CoversAtMost(t: Contents, md: Metadata, c: Option<Position>, total: seq<Row>, n: nat)
    requires Covers(t, md, c, total, n)
    ensures n <= |total| && OnAncestry(t, md, c)
  {
  }

  lemma RowsTaken(t: Contents, md: Metadata, batchSize: nat, c: Option<Position>, o: Outcome, c': Option<Position>)
    requires OnAncestry(t, md, c) && ReaderStep(t, md, batchSize, c, o, c') && o.Batch?
    ensures 1 <= |o.rows| <= batchSize
  {
  }

  lemma CallKeeps(t: Contents, batchSize: nat, start: StartPosition, s: System, st: CallStep)
    requires Inv(t, batchSize, s) && Enabled(t, batchSize, s, Call(st))
    ensures Inv(t, batchSize, Apply(t, start, s, Call(st)))
    ensures s.total <= Apply(t, start, s, Call(st)).total
  {
    hide CursorInv, MarksInv, SavedInv, CallEnabled, Extended, WellFormed, KeepsAll, Fresh;
    CallKeepsCursor(t, batchSize, start, s, st);
    if st.Refresh? {
      hide Apply, CallApply;
      RefreshKeeps(t, batchSize, start, s, st.md');
    } else {
      hide Enabled;
      OthersKeep(t, batchSize, s, Apply(t, start, s, Call(st)));
    }
  }

  /** Checkpoints do not change while the table, the epochs and the backend stay. */
  lemma OthersKeep(t: Contents, batchSize: nat, s: System, s': System)
    requires MarksInv(t, batchSize, s) && SavedInv(t, batchSize, s) && s.done <= s'.done
    requires s'.src.md == s.src.md && s'.src.epochs == s.src.epochs && s'.marks == s.marks
    requires s'.backend == s.backend && s'.saved == s.saved && s'.total == s.total
    ensures MarksInv(t, batchSize, s') && SavedInv(t, batchSize, s')
  {
    hide Covers, MarkOk;
  }

  lemma RefreshKeeps(t: Contents, batchSize: nat, start: StartPosition, s: System, md': Metadata)
    requires Inv(t, batchSize, s) && WellFormed(s.src.md) && KeepsAll(s, md')
    ensures var s' := Apply(t, start, s, Call(Refresh(md')));
      MarksInv(t, batchSize, s') && SavedInv(t, batchSize, s') && s.total <= s'.total
  {
    hide Covers, MarkOk, Keeps, WellFormed, Extended;
    var md, total' := s.src.md, Extended(t, s.src.md, md', s.total);
    CursorCovers(t, batchSize, s);
    CoversReload(t, md, md', s.src.cursor, s.total, s.At());
    forall e | e in s.src.epochs
      ensures Covers(t, md', Some(s.src.epochs[e]), total', s.marks[e].n)
    {
      CoversReload(t, md, md', Some(s.src.epochs[e]), s.total, s.marks[e].n);
    }
    if s.backend.Some? {
      CoversReload(t, md, md', s.backend, s.total, s.saved.n);
    }
  }

  lemma CursorCovers(t: Contents, batchSize: nat, s: System)
    requires CursorInv(t, batchSize, s)
    ensures Covers(t, s.src.md, s.src.cursor, s.total, s.At()) && Covers(t, s.src.md, s.src.delivered, s.total, s.done)
  {
  }

  lemma MarkerKeeps(t: Contents, batchSize: nat, start: StartPosition, s: System, e: nat)
    requires Inv(t, batchSize, s) && Enabled(t, batchSize, s, Marker(e))
    ensures Inv(t, batchSize, Apply(t, start, s, Marker(e)))
  {
    var s' := Apply(t, start, s, Marker(e));
    hide CursorInv, MarksInv, SavedInv;
    CursorStays(t, batchSize, s, s');
    SavedStays(t, batchSize, s, s');
    if s.src.delivered.Some? {
      CursorBounds(t, batchSize, s);
      MarkKept(t, batchSize, s, s', e);
    }
  }

  lemma CursorBounds(t: Contents, batchSize: nat, s: System)
    requires CursorInv(t, batchSize, s)
    ensures Covers(t, s.src.md, s.src.delivered, s.total, s.done)
    ensures s.done <= s.host <= s.done + batchSize && (s.src.idle ==> s.done == s.host)
  {
    hide Covers;
  }

  lemma CursorStays(t: Contents, batchSize: nat, s: System, s': System)
    requires CursorInv(t, batchSize, s)
    requires s'.src == s.src.(epochs := s'.src.epochs) && s'.total == s.total && s'.base == s.base
    requires s'.emitted == s.emitted && s'.host == s.host && s'.done == s.done
    ensures CursorInv(t, batchSize, s')
  {
    hide Covers;
  }

  lemma SavedStays(t: Contents, batchSize: nat, s: System, s': System)
    requires SavedInv(t, batchSize, s)
    requires s'.src.md == s.src.md && s'.total == s.total && s'.backend == s.backend && s'.saved == s.saved && s'.done == s.done
    ensures SavedInv(t, batchSize, s') && s.saved.n <= s.done
  {
    hide Covers, MarkOk;
  }

  /** The newest mark is taken at the delivered position, behind every older one. */
  lemma MarkKept(t: Contents, batchSize: nat, s: System, s': System, e: nat)
    requires MarksInv(t, batchSize, s) && s.saved.n <= s.done && s.src.delivered.Some?
    requires forall k | k in s.src.epochs :: k < e
    requires Covers(t, s.src.md, s.src.delivered, s.total, s.done)
    requires s.done <= s.host <= s.done + batchSize && (s.src.idle ==> s.done == s.host)
    requires s' == s.(src := s.src.(epochs := s.src.epochs[e := s.src.delivered.value]), marks := s.marks[e := Mark(s.done, s.host, s.src.idle)])
    ensures MarksInv(t, batchSize, s')
  {
    hide Covers;
    assert s'.marks.Keys == s'.src.epochs.Keys;
    assert MarkOk(batchSize, s'.marks[e]);
    hide MarkOk;
    forall k, k' | k in s'.marks && k' in s'.marks && k < k'
      ensures s'.marks[k].n <= s'.marks[k'].n
    {
      assert k != e && k in s.src.epochs;
    }
  }

  lemma FinalizerKeeps(t: Contents, batchSize: nat, start: StartPosition, s: System, e: nat, put: bool)
    requires Inv(t, batchSize, s)
    ensures Inv(t, batchSize, Apply(t, start, s, Finalizer(e, put)))
    ensures s.saved.n <= Apply(t, start, s, Finalizer(e, put)).saved.n
  {
    var s' := Apply(t, start, s, Finalizer(e, put));
    assert s'.marks == map k | k in s.marks && k > e :: s.marks[k];
    assert s'.src.epochs == map k | k in s.src.epochs && k > e :: s.src.epochs[k];
    assert s.marks.Keys == s.src.epochs.Keys by { hide Covers, MarkOk, CursorInv, SavedInv; }
    hide CursorInv, MarksInv, SavedInv;
    CursorStays(t, batchSize, s, s');
    if s'.saved == s.saved && s'.backend == s.backend {
      SavedStays(t, batchSize, s, s');
    } else {
      MarkSaved(t, batchSize, s, s', e);
    }
    MarksDropped(t, batchSize, s, s', e);
  }

  lemma MarkSaved(t: Contents, batchSize: nat, s: System, s': System, e: nat)
    requires MarksInv(t, batchSize, s) && e in s.src.epochs && e in s.marks
    requires s'.src.md == s.src.md && s'.total == s.total && s'.done == s.done
    requires s'.backend == Some(s.src.epochs[e]) && s'.saved == s.marks[e]
    ensures SavedInv(t, batchSize, s') && s.saved.n <= s'.saved.n
  {
    hide Covers, MarkOk;
  }

  /** What stays was marked after the finalized epoch, so it covers at least as many rows. */
  lemma MarksDropped(t: Contents, batchSize: nat, s: System, s': System, e: nat)
    requires MarksInv(t, batchSize, s)
    requires s'.marks == map k | k in s.marks && k > e :: s.marks[k]
    requires s'.src.epochs == map k | k in s.src.epochs && k > e :: s.src.epochs[k]
    requires s'.src.md == s.src.md && s'.total == s.total && s'.done == s.done
    requires s'.saved == s.saved || (e in s.marks && s'.saved == s.marks[e])
    ensures MarksInv(t, batchSize, s')
  {
    hide Covers, MarkOk;
    assert s'.marks.Keys == s'.src.epochs.Keys;
  }

  lemma RestartKeeps(t: Contents, batchSize: nat, start: StartPosition, s: System, md': Metadata)
    requires Inv(t, batchSize, s) && Enabled(t, batchSize, s, Restart(md'))
    ensures Inv(t, batchSize, Apply(t, start, s, Restart(md')))
    ensures s.backend.Some? ==> s.total <= Apply(t, start, s, Restart(md')).total
  {
    if s.backend.Some? {
      RestartFromBackend(t, batchSize, start, s, md');
    } else {
      FreshIsGood(t, batchSize, md', start);
    }
  }

  lemma RestartFromBackend(t: Contents, batchSize: nat, start: StartPosition, s: System, md': Metadata)
    requires SavedInv(t, batchSize, s) && Enabled(t, batchSize, s, Restart(md')) && s.backend.Some?
    ensures Inv(t, batchSize, Apply(t, start, s, Restart(md'))) && s.total <= Apply(t, start, s, Restart(md')).total
  {
    hide CursorInv, MarksInv, Covers, MarkOk, ValidateResume, WellFormed, Extended, Keeps, Fresh;
    var s' := Apply(t, start, s, Restart(md'));
    CoversReload(t, s.src.md, md', s.backend, s.total, s.saved.n);
    CoversAtMost(t, md', s.backend, s'.total, s.saved.n);
    assert s'.total[s'.base..s'.At()] == [];
    RestartedCursor(t, batchSize, s');
    NoMarks(t, batchSize, s');
  }

  lemma RestartedCursor(t: Contents, batchSize: nat, s: System)
    requires Covers(t, s.src.md, s.src.cursor, s.total, s.base) && s.src.delivered == s.src.cursor
    requires s.emitted == [] && s.base == s.done == s.host && s.total[s.base..s.base] == []
    ensures CursorInv(t, batchSize, s)
  {
    hide OnAncestry, Owed;
  }

  lemma NoMarks(t: Contents, batchSize: nat, s: System)
    requires s.marks == map[] && s.src.epochs == map[]
    ensures MarksInv(t, batchSize, s)
  {
  }

  /** Every step keeps the invariant, and what is persisted never covers fewer rows than before. */
  lemma StepKeeps(t: Contents, batchSize: nat, start: StartPosition, s: System, step: Step)
    requires Inv(t, batchSize, s) && Enabled(t, batchSize, s, step)
    ensures Inv(t, batchSize, Apply(t, start, s, step)) && Advances(s, Apply(t, start, s, step))
  {
    hide Inv, CallApply, Extended, TakeEpoch, MarkEpoch, Fresh;
    match step {
      case Call(st) => CallKeeps(t, batchSize, start, s, st);
      case Deliver => DeliverKeeps(t, batchSize, start, s);
      case Marker(e) => MarkerKeeps(t, batchSize, start, s, e);
      case Finalizer(e, put) => FinalizerKeeps(t, batchSize, start, s, e, put);
      case Restart(md') => RestartKeeps(t, batchSize, start, s, md');
    }
  }

  lemma DeliverKeeps(t: Contents, batchSize: nat, start: StartPosition, s: System)
    requires Inv(t, batchSize, s)
    ensures Inv(t, batchSize, Apply(t, start, s, Deliver))
  {
    hide Covers, MarkOk;
  }

  predicate Advances(s: System, s': System) {
    s.backend.Some? ==> s'.backend.Some? && s.saved.n <= s'.saved.n && s.total <= s'.total
  }

  ghost predicate Run(t: Contents, batchSize: nat, start: StartPosition, s: System, steps: seq<Step>, s': System)
    decreases |steps|
  {
    if steps == [] then s == s'
    else Enabled(t, batchSize, s, steps[0]) && Run(t, batchSize, start, Apply(t, start, s, steps[0]), steps[1..], s')
  }

  /** Persisted positions never move backwards along any run, restarts included. */
  lemma {:induction false} PersistedNeverMovesBack(t: Contents, batchSize: nat, start: StartPosition, s: System, steps: seq<Step>, s': System)
    requires Inv(t, batchSize, s) && Run(t, batchSize, start, s, steps, s')
    ensures Inv(t, batchSize, s') && Advances(s, s')
    decreases |steps|
  {
    hide Inv, Enabled, Apply;
    if steps != [] {
      StepKeeps(t, batchSize, start, s, steps[0]);
      PersistedNeverMovesBack(t, batchSize, start, Apply(t, start, s, steps[0]), steps[1..], s');
    }
  }

  /**
   In every run from a first start, the persisted position stands after `n`
   rows of the table's history, all of which were delivered when its marker
   came; at most one batch of rows delivered by then comes after it, and none
   if the source had caught up.
   */
  lemma PersistedCoversOnlyDelivered(t: Contents, batchSize: nat, start: StartPosition, md: Metadata, steps: seq<Step>, s: System)
    requires WellFormed(md) && ContentsOk(t) && Run(t, batchSize, start, Fresh(t, md, start), steps, s) && s.backend.Some?
    ensures OnAncestry(t, s.src.md, s.backend) && s.saved.n <= |s.total| && Owed(t, s.src.md, s.backend) == s.total[s.saved.n..]
    ensures s.saved.n <= s.saved.host <= s.saved.n + batchSize
    ensures s.saved.idle ==> s.saved.n == s.saved.host
  {
    FreshIsGood(t, batchSize, md, start);
    PersistedNeverMovesBack(t, batchSize, start, Fresh(t, md, start), steps, s);
  }

  /**
   Checkpoints take effect: when the finalizer of a marked epoch comes, with no
   restart and no finalizer of a later epoch before it, and the write succeeds,
   the backend holds the position that was delivered at the marker.
   */
  lemma CheckpointIsPersisted(t: Contents, batchSize: nat, start: StartPosition, s: System, e: nat, steps: seq<Step>, m: System)
    requires Enabled(t, batchSize, s, Marker(e)) && s.src.delivered.Some?
    requires Run(t, batchSize, start, Apply(t, start, s, Marker(e)), steps, m)
    requires forall st | st in steps :: !st.Restart? && (st.Marker? || st.Finalizer? ==> st.epoch != e) && (st.Finalizer? ==> st.epoch < e)
    ensures Apply(t, start, m, Finalizer(e, true)).backend == s.src.delivered
  {
    EpochStays(t, batchSize, start, Apply(t, start, s, Marker(e)), e, steps, m);
    hide Run, Enabled, Extended, CallApply, Fresh;
  }

  lemma {:induction false} EpochStays(t: Contents, batchSize: nat, start: StartPosition, s: System, e: nat, steps: seq<Step>, m: System)
    requires e in s.src.epochs && e in s.marks && Run(t, batchSize, start, s, steps, m)
    requires forall st | st in steps :: !st.Restart? && (st.Marker? || st.Finalizer? ==> st.epoch != e) && (st.Finalizer? ==> st.epoch < e)
    ensures e in m.src.epochs && m.src.epochs[e] == s.src.epochs[e] && e in m.marks
    decreases |steps|
  {
    if steps != [] {
      EpochKept(t, start, s, e, steps[0]);
      hide Enabled, Apply;
      assert forall st | st in steps[1..] :: st in steps;
      EpochStays(t, batchSize, start, Apply(t, start, s, steps[0]), e, steps[1..], m);
    }
  }

  lemma EpochKept(t: Contents, start: StartPosition, s: System, e: nat, st: Step)
    requires e in s.src.epochs && e in s.marks
    requires !st.Restart? && (st.Marker? || st.Finalizer? ==> st.epoch != e) && (st.Finalizer? ==> st.epoch < e)
    ensures var s' := Apply(t, start, s, st); e in s'.src.epochs && s'.src.epochs[e] == s.src.epochs[e] && e in s'.marks
  {
    hide Extended, Fresh;
  }

  /** After a restart the source returns the rows behind the persisted position, from there on and in order. */
  lemma RestartEmitsTheRest(
    t: Contents, batchSize: nat, start: StartPosition, s: System, md': Metadata, calls: seq<Step>, s': System)
    requires Inv(t, batchSize, s) && s.backend.Some? && Enabled(t, batchSize, s, Restart(md'))
    requires Run(t, batchSize, start, Apply(t, start, s, Restart(md')), calls, s')
    requires forall i | 0 <= i < |calls| :: !calls[i].Restart?
    ensures s'.base == s.saved.n && s'.At() <= |s'.total| && s.total <= s'.total
    ensures s'.emitted == s'.total[s.saved.n..s'.At()]
  {
    var s1 := Apply(t, start, s, Restart(md'));
    RestartKeeps(t, batchSize, start, s, md');
    PersistedNeverMovesBack(t, batchSize, start, s1, calls, s');
    BaseStays(t, batchSize, start, s1, calls, s');
  }

  lemma {:induction false} BaseStays(t: Contents, batchSize: nat, start: StartPosition, s: System, steps: seq<Step>, s': System)
    requires Run(t, batchSize, start, s, steps, s')
    requires forall i | 0 <= i < |steps| :: !steps[i].Restart?
    ensures s'.base == s.base
    decreases |steps|
  {
    hide Enabled;
    if steps != [] {
      var s1 := Apply(t, start, s, steps[0]);
      assert s1.base == s.base;
      assert forall i | 0 <= i < |steps[1..]| :: steps[1..][i] == steps[i + 1];
      BaseStays(t, batchSize, start, s1, steps[1..], s');
    }
  }
}
