/**
 The Postgres CDC ack protocol: one etl write is fanned out to several sources,
 buffered in their channels, re-chunked into batches, tied to checkpoint epochs
 and acknowledged upstream when the slowest source is durable.

 A `World` holds every source and every write. `Step`s are the atomic actions
 between which any other action may happen: the single sends of a fan-out, the
 single receives of a batch being drained, the end of the Arrow build, markers,
 finalizers and the single releases a finalizer performs.

 A `Log` records, apart from the code's own counters, the rows a source has
 returned to the host, how many it had returned at each marker, and how many
 are covered by a finalized marker. The main results compare the two.
 */
module AckProtocol {
  import opened Collections
  import opened Wrappers
  import opened AckLedgers

  type WriteId = nat
  type SourceId = nat

  type pos = n: nat | n >= 1 witness 1

  /** Rows per write in the slices that belong to one source. */
  type Sizes = map<WriteId, pos>

  /** Row number `pos` of the slice of write `write` that belongs to one source. */
  datatype Row = Row(write: WriteId, pos: nat)

  /** A slice, or what is left of it, with the handle of the write's shared ack. */
  datatype Unit = Unit(rows: seq<Row>, write: WriteId)

  datatype Phase = Idle | Draining | Building

  /**
   A running source. `rows` and `completed` are the batch being generated;
   `releasing` are the slices a finalizer has taken from the ledger and not yet
   released.
   */
  datatype Source = Source(
    batchSize: nat, channel: seq<Unit>, carry: Option<Unit>,
    phase: Phase, rows: seq<Row>, completed: seq<WriteId>,
    ledger: Ledger<WriteId>, releasing: multiset<WriteId>)

  datatype Log = Log(returned: seq<Row>, marked: map<nat, nat>, durable: nat)

  /** A write: rows per subscriber, subscribers not yet sent to, and the shared ack. */
  datatype Write = Write(slices: map<SourceId, pos>, unsent: seq<SourceId>, ack: Shared)

  datatype World = World(sources: map<SourceId, Source>, logs: map<SourceId, Log>, writes: seq<Write>)

  function Min(a: int, b: int): int { if a < b then a else b }

  function Max(a: int, b: int): int { if a < b then b else a }

  function RowsOf(w: WriteId, n: nat): (r: seq<Row>)
    ensures |r| == n && forall i | 0 <= i < n :: r[i] == Row(w, i)
  {
    seq(n, i requires 0 <= i < n => Row(w, i))
  }

  function LastRow(w: WriteId, n: pos): Row {
    var size: int := n;
    Row(w, size - 1)
  }

  // ---------------------------------------------------------------- generate_batch, step by step

  /** Moves as many rows of `unit` into the batch as fit; keeps the rest as carry or records the unit as complete. */
  function Take(s: Source, unit: Unit): (r: Source)
    requires |s.rows| <= s.batchSize
    ensures r.ledger == s.ledger && r.releasing == s.releasing
  {
    var n := Min(s.batchSize - |s.rows|, |unit.rows|);
    var left := unit.rows[n..];
    s.(rows := s.rows + unit.rows[..n],
       completed := if left == [] then s.completed + [unit.write] else s.completed,
       carry := if left == [] then None else Some(Unit(left, unit.write)))
  }

  function BeginBatch(s: Source): Source
    requires s.phase == Idle && s.rows == []
  {
    var s' := s.(phase := Draining, carry := None);
    if s.carry.None? then s' else Take(s', s.carry.value)
  }

  predicate CanReceive(s: Source) {
    s.phase == Draining && s.carry.None? && |s.rows| < s.batchSize && s.channel != []
  }

  function Receive(s: Source): Source
    requires CanReceive(s)
  {
    Take(s.(channel := s.channel[1..]), s.channel[0])
  }

  function EndDrain(s: Source): Source {
    s.(phase := Building)
  }

  /** The batch is returned: first its rows count as delivered, then the completed units are armed. */
  function CommitOk(s: Source): Source {
    s.(phase := Idle, rows := [], completed := [],
       ledger := UnitsCompleted(RowsDelivered(s.ledger, |s.rows|), s.completed))
  }

  /** The Arrow build failed: the drained rows, the completed units and the carry are dropped unacknowledged. */
  function CommitFail(s: Source): Source {
    s.(phase := Idle, rows := [], completed := [], carry := None)
  }

  function FinalizeSource(s: Source, epoch: nat): Source {
    var (ledger, released) := Finalize(s.ledger, epoch);
    s.(ledger := ledger, releasing := s.releasing + multiset(released))
  }

  // ---------------------------------------------------------------- the whole system

  datatype Step =
    | FanOut(slices: map<SourceId, pos>, order: seq<SourceId>)
    | Send(write: WriteId, open: bool)
    | Begin(source: SourceId)
    | Recv(source: SourceId)
    | Build(source: SourceId)
    | Return(source: SourceId)
    | Fail(source: SourceId)
    | Mark(source: SourceId, epoch: nat)
    | Final(source: SourceId, epoch: nat)
    | Release(source: SourceId, write: WriteId)

  /**
   When a step may happen. Subscribers have distinct ids, only non-empty slices
   are sent, an empty batch cannot fail to build, and the host marks epochs in
   increasing order.
   */
  ghost predicate Enabled(w: World, st: Step) {
    match st
    case FanOut(slices, order) =>
      Distinct(order) && (set s | s in order) == slices.Keys && slices.Keys <= w.sources.Keys
    case Send(id, open) =>
      && id < |w.writes| && w.writes[id].unsent != []
      && w.writes[id].unsent[0] in w.sources && w.writes[id].unsent[0] in w.writes[id].slices
    case Begin(s) => s in w.sources && w.sources[s].phase == Idle && w.sources[s].rows == []
    case Recv(s) => s in w.sources && CanReceive(w.sources[s])
    case Build(s) => s in w.sources && w.sources[s].phase == Draining
    case Return(s) => s in w.sources && s in w.logs && w.sources[s].phase == Building
    case Fail(s) => s in w.sources && w.sources[s].phase == Building && w.sources[s].rows != []
    case Mark(s, e) => s in w.sources && s in w.logs && forall e' | e' in w.logs[s].marked :: e' < e
    case Final(s, e) => s in w.sources && s in w.logs
    case Release(s, id) => s in w.sources && id < |w.writes| && id in w.sources[s].releasing
  }

  ghost function Apply(w: World, st: Step): World
    requires Enabled(w, st)
  {
    match st
    case FanOut(slices, order) =>
      w.(writes := w.writes + [Write(slices, order, NewShared(slices.Keys))])
    case Send(id, open) =>
      var write := w.writes[id];
      var s := write.unsent[0];
      var src := w.sources[s];
      w.(writes := w.writes[id := write.(unsent := write.unsent[1..])],
         sources := if open
           then w.sources[s := src.(channel := src.channel + [Unit(RowsOf(id, write.slices[s]), id)])]
           else w.sources)
    case Begin(s) => w.(sources := w.sources[s := BeginBatch(w.sources[s])])
    case Recv(s) => w.(sources := w.sources[s := Receive(w.sources[s])])
    case Build(s) => w.(sources := w.sources[s := EndDrain(w.sources[s])])
    case Return(s) =>
      w.(sources := w.sources[s := CommitOk(w.sources[s])],
         logs := w.logs[s := LogReturn(w.logs[s], w.sources[s].rows)])
    case Fail(s) => w.(sources := w.sources[s := CommitFail(w.sources[s])])
    case Mark(s, e) =>
      w.(sources := w.sources[s := w.sources[s].(ledger := Marker(w.sources[s].ledger, e))],
         logs := w.logs[s := LogMark(w.logs[s], e)])
    case Final(s, e) =>
      w.(sources := w.sources[s := FinalizeSource(w.sources[s], e)],
         logs := w.logs[s := LogFinal(w.logs[s], e)])
    case Release(s, id) =>
      var src := w.sources[s];
      w.(sources := w.sources[s := src.(releasing := src.releasing - multiset{id})],
         writes := w.writes[id := w.writes[id].(ack := ReleaseSlice(w.writes[id].ack, s))])
  }

  function LogReturn(l: Log, rows: seq<Row>): Log {
    l.(returned := l.returned + rows)
  }

  function LogMark(l: Log, epoch: nat): Log {
    l.(marked := l.marked[epoch := |l.returned|])
  }

  /** A finalized epoch makes the rows returned before its marker durable. */
  function LogFinal(l: Log, epoch: nat): Log {
    if epoch in l.marked then l.(durable := Max(l.durable, l.marked[epoch])) else l
  }

  ghost predicate Init(w: World) {
    && w.writes == [] && w.logs.Keys == w.sources.Keys
    && (forall s | s in w.sources ::
          && w.sources[s] == Source(w.sources[s].batchSize, [], None, Idle, [], [], NewLedger(), multiset{})
          && w.sources[s].batchSize >= 1
          && w.logs[s] == Log([], map[], 0))
  }

  ghost predicate IsRun(trace: seq<World>, steps: seq<Step>) {
    && |trace| == |steps| + 1
    && Init(trace[0])
    && forall i | 0 <= i < |steps| :: Enabled(trace[i], steps[i]) && trace[i + 1] == Apply(trace[i], steps[i])
  }

  // ---------------------------------------------------------------- what one source keeps

  ghost predicate HasAll(rows: seq<Row>, w: WriteId, n: nat) {
    forall i | 0 <= i < n :: Row(w, i) in rows
  }

  ghost predicate RowsKnown(seen: seq<Row>, sizes: Sizes, unsent: set<WriteId>) {
    && Distinct(seen)
    && forall r | r in seen :: r.write in sizes && r.write !in unsent && r.pos < sizes[r.write]
  }

  /** Queued units are whole slices of different writes, none of which has been touched yet. */
  ghost predicate ChannelInv(channel: seq<Unit>, seen: seq<Row>, sizes: Sizes, unsent: set<WriteId>) {
    && (forall i | 0 <= i < |channel| ::
          && channel[i].write in sizes && channel[i].write !in unsent
          && channel[i].rows == RowsOf(channel[i].write, sizes[channel[i].write])
          && (forall r | r in seen :: r.write != channel[i].write))
    && (forall i, j | 0 <= i < j < |channel| :: channel[i].write != channel[j].write)
  }

  /** What is left of a slice: a non-empty suffix; exactly the rest of the slice has been seen. */
  ghost predicate PartInv(u: Unit, channel: seq<Unit>, seen: seq<Row>, sizes: Sizes, unsent: set<WriteId>) {
    && u.write in sizes && u.write !in unsent
    && 1 <= |u.rows| <= sizes[u.write]
    && (forall i | 0 <= i < |u.rows| :: u.rows[i] == Row(u.write, sizes[u.write] - |u.rows| + i))
    && HasAll(seen, u.write, sizes[u.write] - |u.rows|)
    && (forall r | r in seen && r.write == u.write :: r.pos < sizes[u.write] - |u.rows|)
    && (forall i | 0 <= i < |channel| :: channel[i].write != u.write)
  }

  /** A unit is complete exactly when its last row is in the batch, and then its other rows are out too. */
  ghost predicate CompletedInv(rows: seq<Row>, completed: seq<WriteId>, seen: seq<Row>, sizes: Sizes) {
    && (forall w | w in completed :: w in sizes && HasAll(seen, w, sizes[w]) && LastRow(w, sizes[w]) in rows)
    && (forall w | w in sizes && LastRow(w, sizes[w]) in rows :: w in completed)
  }

  /** Where the rows of a source are on their way to being returned. */
  ghost predicate FlowInv(s: Source, returned: seq<Row>, sizes: Sizes, unsent: set<WriteId>) {
    var seen := returned + s.rows;
    && s.batchSize >= 1 && |s.rows| <= s.batchSize
    && (s.phase == Idle ==> s.rows == [] && s.completed == [])
    && RowsKnown(seen, sizes, unsent)
    && ChannelInv(s.channel, seen, sizes, unsent)
    && (s.carry.Some? ==> PartInv(s.carry.value, s.channel, seen, sizes, unsent))
    && CompletedInv(s.rows, s.completed, seen, sizes)
  }

  ghost predicate LedgerInv(l: Ledger<WriteId>, log: Log) {
    && l.Valid() && l.emitted == |log.returned|
    && log.durable <= |log.returned|
    && (forall e | e in l.markers :: e in log.marked && l.markers[e] == log.marked[e])
    && (forall e | e in log.marked :: log.marked[e] <= |log.returned|)
    && (forall e | e in log.marked && e !in l.markers :: log.marked[e] <= log.durable)
    && (forall e, f | e in log.marked && f in log.marked && e < f :: log.marked[e] <= log.marked[f])
  }

  /** `m` is a marker position the log knows. */
  ghost predicate MarkPosition(log: Log, m: nat) {
    m == log.durable || exists e :: e in log.marked && log.marked[e] == m
  }

  /**
   An armed unit lies wholly before its position and, because markers are only
   taken between batches, no marker before that position covers all of it.
   */
  ghost predicate ArmedInv(a: Armed<WriteId>, log: Log, sizes: Sizes) {
    && log.durable < a.at <= |log.returned|
    && a.ack in sizes
    && HasAll(log.returned[..a.at], a.ack, sizes[a.ack])
    && (forall m: nat | MarkPosition(log, m) && m < a.at :: LastRow(a.ack, sizes[a.ack]) !in log.returned[..m])
  }

  ghost predicate IsArmed(pending: seq<Armed<WriteId>>, w: WriteId) {
    exists i :: 0 <= i < |pending| && pending[i].ack == w
  }

  /** What has been let go is durable. */
  ghost predicate FreedInv(releasing: multiset<WriteId>, log: Log, sizes: Sizes, released: set<WriteId>)
    requires log.durable <= |log.returned|
  {
    forall w | w in releasing || w in released :: w in sizes && HasAll(log.returned[..log.durable], w, sizes[w])
  }

  /** A fully returned slice is never forgotten. */
  ghost predicate TrackedInv(pending: seq<Armed<WriteId>>, releasing: multiset<WriteId>, returned: seq<Row>, sizes: Sizes, released: set<WriteId>) {
    forall w | w in sizes && LastRow(w, sizes[w]) in returned :: IsArmed(pending, w) || w in releasing || w in released
  }

  /** How the returned rows of a source are tied to its checkpoints. */
  ghost predicate AckInv(l: Ledger<WriteId>, releasing: multiset<WriteId>, log: Log, sizes: Sizes, released: set<WriteId>) {
    && LedgerInv(l, log)
    && (forall i | 0 <= i < |l.pending| :: ArmedInv(l.pending[i], log, sizes))
    && FreedInv(releasing, log, sizes, released)
    && TrackedInv(l.pending, releasing, log.returned, sizes, released)
  }

  lemma TakeKeeps(s: Source, unit: Unit, returned: seq<Row>, sizes: Sizes, unsent: set<WriteId>)
    requires s.phase != Idle && s.carry.None? && |s.rows| < s.batchSize
    requires FlowInv(s, returned, sizes, unsent)
    requires PartInv(unit, s.channel, returned + s.rows, sizes, unsent)
    ensures FlowInv(Take(s, unit), returned, sizes, unsent)
  {
    var s' := Take(s, unit);
    var seen, seen' := returned + s.rows, returned + s'.rows;
    var n := Min(s.batchSize - |s.rows|, |unit.rows|);
    assert seen' == seen + unit.rows[..n];
    TakeSees(unit, n, s.channel, seen, sizes, unsent);
    if s'.carry.Some? {
      TakeLeaves(unit, n, s.channel, seen, sizes, unsent);
    }
    TakeCompletes(s, unit, n, seen, sizes, unsent);
  }

  lemma TakeSees(unit: Unit, n: nat, channel: seq<Unit>, seen: seq<Row>, sizes: Sizes, unsent: set<WriteId>)
    requires n <= |unit.rows| && PartInv(unit, channel, seen, sizes, unsent)
    requires RowsKnown(seen, sizes, unsent) && ChannelInv(channel, seen, sizes, unsent)
    ensures RowsKnown(seen + unit.rows[..n], sizes, unsent)
    ensures ChannelInv(channel, seen + unit.rows[..n], sizes, unsent)
  {
    var added := unit.rows[..n];
    var k := sizes[unit.write] - |unit.rows|;
    assert forall r | r in added :: r.write == unit.write && k <= r.pos < sizes[unit.write];
    assert forall r | r in seen + added :: r in seen || r in added;
    assert forall i | 0 <= i < n :: added[i] == Row(unit.write, k + i) && added[i] !in seen;
    assert forall i | 0 <= i < |seen| :: seen[i] in seen;
  }

  lemma TakeCovers(unit: Unit, n: nat, channel: seq<Unit>, seen: seq<Row>, sizes: Sizes, unsent: set<WriteId>)
    requires n <= |unit.rows| && PartInv(unit, channel, seen, sizes, unsent)
    ensures HasAll(seen + unit.rows[..n], unit.write, sizes[unit.write] - |unit.rows| + n)
  {
    var k := sizes[unit.write] - |unit.rows|;
    forall i | 0 <= i < k + n
      ensures Row(unit.write, i) in seen + unit.rows[..n]
    {
      if i >= k {
        assert unit.rows[..n][i - k] == Row(unit.write, i);
      }
    }
  }

  lemma TakeLeaves(unit: Unit, n: nat, channel: seq<Unit>, seen: seq<Row>, sizes: Sizes, unsent: set<WriteId>)
    requires n < |unit.rows| && PartInv(unit, channel, seen, sizes, unsent)
    ensures PartInv(Unit(unit.rows[n..], unit.write), channel, seen + unit.rows[..n], sizes, unsent)
  {
    TakeCovers(unit, n, channel, seen, sizes, unsent);
    assert forall r | r in seen + unit.rows[..n] :: r in seen || r in unit.rows[..n];
  }

  lemma TakeCompletes(s: Source, unit: Unit, n: nat, seen: seq<Row>, sizes: Sizes, unsent: set<WriteId>)
    requires |s.rows| < s.batchSize && n == Min(s.batchSize - |s.rows|, |unit.rows|)
    requires PartInv(unit, s.channel, seen, sizes, unsent) && CompletedInv(s.rows, s.completed, seen, sizes)
    ensures CompletedInv(Take(s, unit).rows, Take(s, unit).completed, seen + unit.rows[..n], sizes)
  {
    var added := unit.rows[..n];
    var s' := Take(s, unit);
    assert s'.rows == s.rows + added;
    assert s'.completed == (if n == |unit.rows| then s.completed + [unit.write] else s.completed);
    CompletedAreOut(s.rows, s.completed, unit, n, s.channel, seen, sizes, unsent);
    LastRowsAreCompleted(s.rows, s.completed, unit, n, s.channel, seen, sizes, unsent);
  }

  lemma CompletedAreOut(
    rows: seq<Row>, completed: seq<WriteId>, unit: Unit, n: nat, channel: seq<Unit>, seen: seq<Row>, sizes: Sizes, unsent: set<WriteId>)
    requires n <= |unit.rows| && PartInv(unit, channel, seen, sizes, unsent) && CompletedInv(rows, completed, seen, sizes)
    ensures forall w | w in (if n == |unit.rows| then completed + [unit.write] else completed) ::
      w in sizes && HasAll(seen + unit.rows[..n], w, sizes[w]) && LastRow(w, sizes[w]) in rows + unit.rows[..n]
  {
    var added := unit.rows[..n];
    TakeCovers(unit, n, channel, seen, sizes, unsent);
    if n == |unit.rows| {
      assert added[n - 1] == LastRow(unit.write, sizes[unit.write]);
      assert (rows + added)[|rows| + n - 1] == added[n - 1];
    }
    forall w | w in completed
      ensures HasAll(seen + added, w, sizes[w]) && LastRow(w, sizes[w]) in rows + added
    {
      assert HasAll(seen, w, sizes[w]);
    }
  }

  lemma LastRowsAreCompleted(
    rows: seq<Row>, completed: seq<WriteId>, unit: Unit, n: nat, channel: seq<Unit>, seen: seq<Row>, sizes: Sizes, unsent: set<WriteId>)
    requires n <= |unit.rows| && PartInv(unit, channel, seen, sizes, unsent) && CompletedInv(rows, completed, seen, sizes)
    ensures forall w | w in sizes && LastRow(w, sizes[w]) in rows + unit.rows[..n] ::
      w in (if n == |unit.rows| then completed + [unit.write] else completed)
  {
    hide HasAll;
    var added := unit.rows[..n];
    forall w | w in sizes && LastRow(w, sizes[w]) in added
      ensures w == unit.write && n == |unit.rows|
    {
      var i :| 0 <= i < n && added[i] == LastRow(w, sizes[w]);
      assert unit.rows[i] == Row(unit.write, sizes[unit.write] - |unit.rows| + i);
    }
  }

  lemma BeginKeeps(s: Source, returned: seq<Row>, sizes: Sizes, unsent: set<WriteId>)
    requires s.phase == Idle && FlowInv(s, returned, sizes, unsent)
    ensures FlowInv(BeginBatch(s), returned, sizes, unsent)
  {
    var s' := s.(phase := Draining, carry := None);
    assert FlowInv(s', returned, sizes, unsent);
    if s.carry.Some? {
      hide FlowInv, PartInv, Take;
      TakeKeeps(s', s.carry.value, returned, sizes, unsent);
    }
  }

  lemma ReceiveKeeps(s: Source, returned: seq<Row>, sizes: Sizes, unsent: set<WriteId>)
    requires CanReceive(s) && FlowInv(s, returned, sizes, unsent)
    ensures FlowInv(Receive(s), returned, sizes, unsent)
  {
    var s' := s.(channel := s.channel[1..]);
    var unit := s.channel[0];
    var seen := returned + s.rows;
    assert forall i | 0 <= i < |s'.channel| :: s'.channel[i] == s.channel[i + 1];
    assert ChannelInv(s'.channel, seen, sizes, unsent);
    assert PartInv(unit, s'.channel, seen, sizes, unsent);
    hide ChannelInv, PartInv, CompletedInv, RowsKnown, Take;
    TakeKeeps(s', unit, returned, sizes, unsent);
  }

  lemma SendKeeps(s: Source, id: WriteId, returned: seq<Row>, sizes: Sizes, unsent: set<WriteId>)
    requires FlowInv(s, returned, sizes, unsent)
    requires id in sizes && id in unsent
    ensures FlowInv(s.(channel := s.channel + [Unit(RowsOf(id, sizes[id]), id)]), returned, sizes, unsent - {id})
  {
  }

  lemma FailKeeps(s: Source, returned: seq<Row>, sizes: Sizes, unsent: set<WriteId>)
    requires FlowInv(s, returned, sizes, unsent)
    ensures FlowInv(CommitFail(s), returned, sizes, unsent)
  {
    var seen := returned + s.rows;
    assert returned + CommitFail(s).rows == returned;
    assert forall i | 0 <= i < |returned| :: seen[i] == returned[i];
    assert forall r | r in returned :: r in seen;
  }

  lemma ReturnKeepsFlow(s: Source, returned: seq<Row>, sizes: Sizes, unsent: set<WriteId>)
    requires FlowInv(s, returned, sizes, unsent)
    ensures FlowInv(CommitOk(s), returned + s.rows, sizes, unsent)
  {
    assert (returned + s.rows) + CommitOk(s).rows == returned + s.rows;
    hide RowsKnown, ChannelInv, PartInv;
  }

  lemma LastRowIsNew(returned: seq<Row>, rows: seq<Row>, last: Row)
    requires Distinct(returned + rows) && last in rows
    ensures last !in returned
  {
    var j :| 0 <= j < |rows| && rows[j] == last;
    var seen := returned + rows;
    assert seen[|returned| + j] == last;
    forall i | 0 <= i < |returned|
      ensures returned[i] != last
    {
      assert seen[i] == returned[i];
    }
  }

  lemma PrefixGrows(rows: seq<Row>, p: nat, q: nat, w: WriteId, n: nat)
    requires p <= q <= |rows| && HasAll(rows[..p], w, n)
    ensures HasAll(rows[..q], w, n)
  {
    assert rows[..p] == rows[..q][..p];
  }

  /** Arming after a batch: older units keep their position, new ones end in this batch. */
  lemma ArmedKeeps(a: Armed<WriteId>, log: Log, rows: seq<Row>, sizes: Sizes)
    requires ArmedInv(a, log, sizes)
    ensures ArmedInv(a, LogReturn(log, rows), sizes)
  {
    var log' := LogReturn(log, rows);
    forall p: nat | p <= |log.returned|
      ensures log'.returned[..p] == log.returned[..p]
    {
    }
    forall m: nat | MarkPosition(log', m) && m < a.at
      ensures LastRow(a.ack, sizes[a.ack]) !in log'.returned[..m]
    {
      assert MarkPosition(log, m);
    }
  }

  lemma ArmedNew(w: WriteId, log: Log, rows: seq<Row>, sizes: Sizes)
    requires w in sizes && HasAll(log.returned + rows, w, sizes[w]) && LastRow(w, sizes[w]) in rows
    requires Distinct(log.returned + rows) && log.durable <= |log.returned|
    requires forall e | e in log.marked :: log.marked[e] <= |log.returned|
    ensures ArmedInv(Armed(|log.returned| + |rows|, w), LogReturn(log, rows), sizes)
  {
    var log' := LogReturn(log, rows);
    var last := LastRow(w, sizes[w]);
    LastRowIsNew(log.returned, rows, last);
    assert log'.returned[..|log'.returned|] == log'.returned;
    forall m: nat | MarkPosition(log', m)
      ensures last !in log'.returned[..m]
    {
      assert m <= |log.returned|;
      assert log'.returned[..m] == log.returned[..m];
    }
  }

  lemma ReturnKeepsAck(s: Source, log: Log, sizes: Sizes, unsent: set<WriteId>, released: set<WriteId>)
    requires FlowInv(s, log.returned, sizes, unsent)
    requires AckInv(s.ledger, s.releasing, log, sizes, released)
    ensures AckInv(CommitOk(s).ledger, s.releasing, LogReturn(log, s.rows), sizes, released)
  {
    hide ChannelInv, PartInv, ArmedInv, TrackedInv, RowsKnown, CompletedInv, LedgerInv;
    var l, l', log' := s.ledger, CommitOk(s).ledger, LogReturn(log, s.rows);
    ReturnKeepsLedger(s, log);
    ReturnKeepsArmed(s, log, sizes, unsent);
    assert log'.returned[..log.durable] == log.returned[..log.durable] by { ReturnKeepsDurable(s, log); }
    ReturnKeepsTracked(s, log, sizes, released);
  }

  lemma ReturnKeepsLedger(s: Source, log: Log)
    requires LedgerInv(s.ledger, log)
    ensures LedgerInv(CommitOk(s).ledger, LogReturn(log, s.rows))
  {
  }

  lemma ReturnKeepsDurable(s: Source, log: Log)
    requires LedgerInv(s.ledger, log)
    ensures log.durable <= |log.returned|
    ensures LogReturn(log, s.rows).returned[..log.durable] == log.returned[..log.durable]
  {
  }

  lemma ReturnKeepsArmed(s: Source, log: Log, sizes: Sizes, unsent: set<WriteId>)
    requires LedgerInv(s.ledger, log) && RowsKnown(log.returned + s.rows, sizes, unsent)
    requires CompletedInv(s.rows, s.completed, log.returned + s.rows, sizes)
    requires forall i | 0 <= i < |s.ledger.pending| :: ArmedInv(s.ledger.pending[i], log, sizes)
    ensures forall i | 0 <= i < |CommitOk(s).ledger.pending| :: ArmedInv(CommitOk(s).ledger.pending[i], LogReturn(log, s.rows), sizes)
  {
    hide ArmedInv;
    var l, l', log' := s.ledger, CommitOk(s).ledger, LogReturn(log, s.rows);
    forall i | 0 <= i < |l'.pending|
      ensures ArmedInv(l'.pending[i], log', sizes)
    {
      if i < |l.pending| {
        ArmedKeeps(l.pending[i], log, s.rows, sizes);
      } else {
        var w := s.completed[i - |l.pending|];
        assert w in s.completed;
        ArmedNew(w, log, s.rows, sizes);
      }
    }
  }

  lemma ReturnKeepsTracked(s: Source, log: Log, sizes: Sizes, released: set<WriteId>)
    requires CompletedInv(s.rows, s.completed, log.returned + s.rows, sizes)
    requires TrackedInv(s.ledger.pending, s.releasing, log.returned, sizes, released)
    ensures TrackedInv(CommitOk(s).ledger.pending, s.releasing, log.returned + s.rows, sizes, released)
  {
    var before, after := s.ledger.pending, CommitOk(s).ledger.pending;
    forall w | w in sizes && LastRow(w, sizes[w]) in log.returned + s.rows
      ensures IsArmed(after, w) || w in s.releasing || w in released
    {
      if LastRow(w, sizes[w]) in s.rows {
        var j :| 0 <= j < |s.completed| && s.completed[j] == w;
        assert after[|before| + j].ack == w;
      } else if IsArmed(before, w) {
        var j :| 0 <= j < |before| && before[j].ack == w;
        assert after[j].ack == w;
      }
    }
  }

  lemma MarkKeeps(l: Ledger<WriteId>, e: nat, releasing: multiset<WriteId>, log: Log, sizes: Sizes, released: set<WriteId>)
    requires AckInv(l, releasing, log, sizes, released)
    requires forall e' | e' in log.marked :: e' < e
    ensures AckInv(Marker(l, e), releasing, LogMark(log, e), sizes, released)
  {
    hide FreedInv, TrackedInv, LedgerInv, ArmedInv;
    LedgerBounds(l, log);
    MarkKeepsLedger(l, e, log);
    forall i | 0 <= i < |l.pending|
      ensures ArmedInv(l.pending[i], LogMark(log, e), sizes)
    {
      MarkKeepsArmed(l.pending[i], e, log, sizes);
    }
    MarkKeepsFreed(releasing, log, e, sizes, released);
  }

  lemma MarkKeepsLedger(l: Ledger<WriteId>, e: nat, log: Log)
    requires LedgerInv(l, log) && forall e' | e' in log.marked :: e' < e
    ensures LedgerInv(Marker(l, e), LogMark(log, e))
  {
  }

  /** The new marker lies behind every armed unit, so it is no marker before one. */
  lemma MarkKeepsArmed(a: Armed<WriteId>, e: nat, log: Log, sizes: Sizes)
    requires ArmedInv(a, log, sizes) && e !in log.marked
    ensures ArmedInv(a, LogMark(log, e), sizes)
  {
    hide HasAll;
    var log' := LogMark(log, e);
    forall m: nat | MarkPosition(log', m) && m < a.at
      ensures MarkPosition(log, m)
    {
      if m != log.durable {
        var e' :| e' in log'.marked && log'.marked[e'] == m;
        assert e' in log.marked && log.marked[e'] == m;
      }
    }
  }

  lemma MarkKeepsFreed(releasing: multiset<WriteId>, log: Log, e: nat, sizes: Sizes, released: set<WriteId>)
    requires log.durable <= |log.returned| && FreedInv(releasing, log, sizes, released)
    ensures FreedInv(releasing, LogMark(log, e), sizes, released)
  {
  }

  lemma FinalKeeps(l: Ledger<WriteId>, e: nat, releasing: multiset<WriteId>, log: Log, sizes: Sizes, released: set<WriteId>)
    requires AckInv(l, releasing, log, sizes, released)
    ensures var (l', freed) := Finalize(l, e);
      AckInv(l', releasing + multiset(freed), LogFinal(log, e), sizes, released)
  {
    hide ArmedInv, FreedInv, TrackedInv, HasAll;
    if e in l.markers {
      FinalKeepsMarked(l, e, releasing, log, sizes, released);
    } else {
      // The marker was never taken, or a later finalized epoch already covers it.
      assert LogFinal(log, e) == log;
      assert releasing + multiset([]) == releasing;
    }
  }

  lemma FinalKeepsMarked(l: Ledger<WriteId>, e: nat, releasing: multiset<WriteId>, log: Log, sizes: Sizes, released: set<WriteId>)
    requires AckInv(l, releasing, log, sizes, released) && e in l.markers
    ensures var (l', freed) := Finalize(l, e);
      AckInv(l', releasing + multiset(freed), LogFinal(log, e), sizes, released)
  {
    hide ArmedInv, FreedInv, TrackedInv, Finalize;
    assert l.Valid() && e in log.marked && log.marked[e] == l.markers[e];
    FinalizeSplitsAtMarker(l, e);
    FinalKeepsLedger(l, e, log);
    hide Ledger.Valid, LedgerInv;
    var (l', freed) := Finalize(l, e);
    forall i | 0 <= i < |l'.pending|
      ensures ArmedInv(l'.pending[i], LogFinal(log, e), sizes)
    {
      assert l'.pending[i] == l.pending[|freed| + i] && ArmedInv(l.pending[|freed| + i], log, sizes);
      FinalKeepsArmed(l'.pending[i], e, log, sizes);
    }
    FinalKeepsFreed(l, e, releasing, log, sizes, released);
    FinalKeepsTracked(l, e, releasing, log.returned, sizes, released);
  }

  lemma FinalKeepsLedger(l: Ledger<WriteId>, e: nat, log: Log)
    requires LedgerInv(l, log) && e in l.markers
    ensures LedgerInv(Finalize(l, e).0, LogFinal(log, e))
  {
    FinalizeSplitsAtMarker(l, e);
    var l', log' := Finalize(l, e).0, LogFinal(log, e);
    assert l'.markers == map e' | e' in l.markers && e' > e :: l.markers[e'];
    hide Finalize, Ledger.Valid;
    forall e' | e' in log.marked && e' !in l'.markers
      ensures log.marked[e'] <= log'.durable
    {
      assert e' in l.markers ==> e' <= e && log.marked[e'] <= log.marked[e];
    }
  }

  lemma FinalKeepsArmed(a: Armed<WriteId>, e: nat, log: Log, sizes: Sizes)
    requires ArmedInv(a, log, sizes) && e in log.marked && log.marked[e] < a.at
    ensures ArmedInv(a, LogFinal(log, e), sizes)
  {
    assert forall m: nat | MarkPosition(LogFinal(log, e), m) :: MarkPosition(log, m);
  }

  lemma FinalKeepsFreed(l: Ledger<WriteId>, e: nat, releasing: multiset<WriteId>, log: Log, sizes: Sizes, released: set<WriteId>)
    requires LedgerInv(l, log) && e in l.markers && FreedInv(releasing, log, sizes, released)
    requires forall i | 0 <= i < |l.pending| :: ArmedInv(l.pending[i], log, sizes)
    ensures FreedInv(releasing + multiset(Finalize(l, e).1), LogFinal(log, e), sizes, released)
  {
    FinalizeSplitsAtMarker(l, e);
    var freed, log' := Finalize(l, e).1, LogFinal(log, e);
    forall w | w in releasing + multiset(freed) || w in released
      ensures w in sizes && HasAll(log'.returned[..log'.durable], w, sizes[w])
    {
      if w in freed {
        var i :| 0 <= i < |freed| && freed[i] == w;
        assert ArmedInv(l.pending[i], log, sizes) && l.pending[i].ack == w;
        PrefixGrows(log.returned, l.pending[i].at, log'.durable, w, sizes[w]);
      } else {
        PrefixGrows(log.returned, log.durable, log'.durable, w, sizes[w]);
      }
    }
  }

  lemma FinalKeepsTracked(l: Ledger<WriteId>, e: nat, releasing: multiset<WriteId>, returned: seq<Row>, sizes: Sizes, released: set<WriteId>)
    requires l.Valid() && e in l.markers && TrackedInv(l.pending, releasing, returned, sizes, released)
    ensures TrackedInv(Finalize(l, e).0.pending, releasing + multiset(Finalize(l, e).1), returned, sizes, released)
  {
    hide Finalize, Ledger.Valid, IsArmed, LastRow;
    forall w | w in sizes && LastRow(w, sizes[w]) in returned
      ensures IsArmed(Finalize(l, e).0.pending, w) || w in releasing + multiset(Finalize(l, e).1) || w in released
    {
      if IsArmed(l.pending, w) {
        StaysOrFreed(l, e, w);
      }
    }
  }

  lemma StaysOrFreed(l: Ledger<WriteId>, e: nat, w: WriteId)
    requires l.Valid() && e in l.markers && IsArmed(l.pending, w)
    ensures IsArmed(Finalize(l, e).0.pending, w) || w in Finalize(l, e).1
  {
    hide Finalize, Ledger.Valid;
    FinalizeSplitsAtMarker(l, e);
    var (l', freed) := Finalize(l, e);
    var j :| 0 <= j < |l.pending| && l.pending[j].ack == w;
    if j < |freed| {
      assert freed[j] == w;
    } else {
      assert l'.pending[j - |freed|].ack == w;
    }
  }

  lemma ReleaseKeeps(l: Ledger<WriteId>, id: WriteId, releasing: multiset<WriteId>, log: Log, sizes: Sizes, released: set<WriteId>)
    requires AckInv(l, releasing, log, sizes, released) && id in releasing
    ensures AckInv(l, releasing - multiset{id}, log, sizes, released + {id})
  {
    hide LedgerInv, ArmedInv, HasAll;
    assert log.durable <= |log.returned| by { LedgerBounds(l, log); }
    assert FreedInv(releasing - multiset{id}, log, sizes, released + {id});
  }

  lemma LedgerBounds(l: Ledger<WriteId>, log: Log)
    requires LedgerInv(l, log)
    ensures log.durable <= |log.returned|
  {
  }

  /** A write nobody has seen rows of adds a slice that is not yet sent. */
  lemma NewSliceFlow(s: Source, returned: seq<Row>, sizes: Sizes, unsent: set<WriteId>, id: WriteId, n: pos)
    requires FlowInv(s, returned, sizes, unsent) && id !in sizes
    ensures FlowInv(s, returned, sizes[id := n], unsent + {id})
  {
    var seen := returned + s.rows;
    assert LastRow(id, n) !in seen;
    assert forall r | r in s.rows :: r in seen;
  }

  lemma NewSliceAck(s: Source, log: Log, sizes: Sizes, unsent: set<WriteId>, released: set<WriteId>, id: WriteId, n: pos)
    requires RowsKnown(log.returned + s.rows, sizes, unsent) && id !in sizes
    requires AckInv(s.ledger, s.releasing, log, sizes, released)
    ensures AckInv(s.ledger, s.releasing, log, sizes[id := n], released)
  {
    var sizes' := sizes[id := n];
    assert forall r | r in log.returned :: r in log.returned + s.rows;
    assert FreedInv(s.releasing, log, sizes', released);
    hide FreedInv, LedgerInv, HasAll, MarkPosition;
    forall i | 0 <= i < |s.ledger.pending|
      ensures ArmedInv(s.ledger.pending[i], log, sizes')
    {
      assert ArmedInv(s.ledger.pending[i], log, sizes);
    }
  }

  // ---------------------------------------------------------------- what the system keeps

  ghost function SizesOf(w: World, s: SourceId): Sizes {
    map id | 0 <= id < |w.writes| && s in w.writes[id].slices :: w.writes[id].slices[s]
  }

  ghost function UnsentOf(w: World, s: SourceId): set<WriteId> {
    set id | 0 <= id < |w.writes| && s in w.writes[id].unsent
  }

  ghost function ReleasedOf(w: World, s: SourceId): set<WriteId> {
    set id | 0 <= id < |w.writes| && s in w.writes[id].slices && s !in w.writes[id].ack.pending
  }

  ghost predicate WriteInv(w: World, id: WriteId)
    requires id < |w.writes|
  {
    var write := w.writes[id];
    && Distinct(write.unsent)
    && (forall s | s in write.unsent :: s in write.slices)
    && write.slices.Keys <= w.sources.Keys
    && write.ack.pending <= write.slices.Keys
    && FiresOnce(write.ack)
  }

  ghost predicate SourceInv(s: Source, log: Log, sizes: Sizes, unsent: set<WriteId>, released: set<WriteId>) {
    FlowInv(s, log.returned, sizes, unsent) && AckInv(s.ledger, s.releasing, log, sizes, released)
  }

  ghost predicate Inv(w: World) {
    && w.logs.Keys == w.sources.Keys
    && (forall id | 0 <= id < |w.writes| :: WriteInv(w, id))
    && (forall s | s in w.sources ::
          SourceInv(w.sources[s], w.logs[s], SizesOf(w, s), UnsentOf(w, s), ReleasedOf(w, s)))
  }

  ghost predicate SameSlices(w: World, w': World) {
    |w'.writes| == |w.writes| && forall id | 0 <= id < |w.writes| :: w'.writes[id].slices == w.writes[id].slices
  }

  lemma SizesAgree(w: World, w': World, s: SourceId)
    requires SameSlices(w, w')
    ensures SizesOf(w', s) == SizesOf(w, s)
  {
  }

  lemma UnsentAgree(w: World, w': World, s: SourceId)
    requires |w'.writes| == |w.writes| && SameSlices(w, w')
    requires forall id | 0 <= id < |w.writes| :: s in w'.writes[id].unsent <==> s in w.writes[id].unsent
    ensures UnsentOf(w', s) == UnsentOf(w, s)
  {
  }

  lemma ReleasedAgree(w: World, w': World, s: SourceId)
    requires |w'.writes| == |w.writes| && SameSlices(w, w')
    requires forall id | 0 <= id < |w.writes| :: s in w'.writes[id].ack.pending <==> s in w.writes[id].ack.pending
    ensures ReleasedOf(w', s) == ReleasedOf(w, s)
  {
  }

  /** A step that leaves the writes alone and touches one source only needs that source's invariant. */
  lemma LocalStep(w: World, w': World, s: SourceId)
    requires Inv(w) && s in w.sources
    requires w'.writes == w.writes && w'.sources.Keys == w.sources.Keys && w'.logs.Keys == w.logs.Keys
    requires forall t | t in w.sources && t != s :: w'.sources[t] == w.sources[t] && w'.logs[t] == w.logs[t]
    requires SourceInv(w'.sources[s], w'.logs[s], SizesOf(w, s), UnsentOf(w, s), ReleasedOf(w, s))
    ensures Inv(w')
  {
    hide SourceInv, SizesOf, UnsentOf, ReleasedOf;
    forall t | t in w'.sources
      ensures SourceInv(w'.sources[t], w'.logs[t], SizesOf(w', t), UnsentOf(w', t), ReleasedOf(w', t))
    {
      SizesAgree(w, w', t);
      UnsentAgree(w, w', t);
      ReleasedAgree(w, w', t);
    }
    forall id | 0 <= id < |w'.writes|
      ensures WriteInv(w', id)
    {
      assert WriteInv(w, id);
    }
  }

  lemma FanOutKeeps(w: World, st: Step)
    requires Inv(w) && st.FanOut? && Enabled(w, st)
    ensures Inv(Apply(w, st))
  {
    hide SourceInv, ReleaseAll;
    var w' := Apply(w, st);
    var id := |w.writes|;
    assert forall i | 0 <= i < id :: w'.writes[i] == w.writes[i] && WriteInv(w, i);
    assert WriteInv(w', id);
    forall s | s in w'.sources
      ensures SourceInv(w'.sources[s], w'.logs[s], SizesOf(w', s), UnsentOf(w', s), ReleasedOf(w', s))
    {
      FanOutInSource(w, st, s);
    }
  }

  lemma FanOutInSource(w: World, st: Step, s: SourceId)
    requires st.FanOut? && Enabled(w, st) && s in w.sources && s in w.logs
    requires SourceInv(w.sources[s], w.logs[s], SizesOf(w, s), UnsentOf(w, s), ReleasedOf(w, s))
    ensures var w' := Apply(w, st);
      SourceInv(w.sources[s], w.logs[s], SizesOf(w', s), UnsentOf(w', s), ReleasedOf(w', s))
  {
    hide SourceInv, ReleaseAll;
    var w' := Apply(w, st);
    var id := |w.writes|;
    if s in st.slices {
      assert s in st.order;
      assert SizesOf(w', s) == SizesOf(w, s)[id := st.slices[s]];
      assert UnsentOf(w', s) == UnsentOf(w, s) + {id};
      assert ReleasedOf(w', s) == ReleasedOf(w, s);
      NewSlice(w.sources[s], w.logs[s], SizesOf(w, s), UnsentOf(w, s), ReleasedOf(w, s), id, st.slices[s]);
    } else {
      assert s !in st.order;
      assert SizesOf(w', s) == SizesOf(w, s) && UnsentOf(w', s) == UnsentOf(w, s) && ReleasedOf(w', s) == ReleasedOf(w, s);
    }
  }

  lemma NewSlice(s: Source, log: Log, sizes: Sizes, unsent: set<WriteId>, released: set<WriteId>, id: WriteId, n: pos)
    requires SourceInv(s, log, sizes, unsent, released) && id !in sizes
    ensures SourceInv(s, log, sizes[id := n], unsent + {id}, released)
  {
    hide AckInv, RowsKnown, ChannelInv, PartInv, CompletedInv;
    assert RowsKnown(log.returned + s.rows, sizes, unsent);
    NewSliceFlow(s, log.returned, sizes, unsent, id, n);
    NewSliceAck(s, log, sizes, unsent, released, id, n);
  }

  lemma SendStepKeeps(w: World, st: Step)
    requires Inv(w) && st.Send? && Enabled(w, st)
    ensures Inv(Apply(w, st))
  {
    hide SourceInv, RowsOf;
    var w' := Apply(w, st);
    forall i | 0 <= i < |w'.writes|
      ensures WriteInv(w', i)
    {
      assert WriteInv(w, i);
      assert forall t | t in w'.writes[i].unsent :: t in w.writes[i].unsent;
    }
    hide WriteInv, Apply;
    assert w'.sources.Keys == w.sources.Keys && w'.logs.Keys == w.logs.Keys by { SendKeepsKeys(w, st); }
    forall t | t in w'.sources
      ensures SourceInv(w'.sources[t], w'.logs[t], SizesOf(w', t), UnsentOf(w', t), ReleasedOf(w', t))
    {
      hide SizesOf, UnsentOf, ReleasedOf;
      SendInSource(w, st, t);
    }
  }

  lemma SendKeepsKeys(w: World, st: Step)
    requires st.Send? && Enabled(w, st)
    ensures Apply(w, st).sources.Keys == w.sources.Keys && Apply(w, st).logs.Keys == w.logs.Keys
  {
  }

  lemma SendInSource(w: World, st: Step, t: SourceId)
    requires Inv(w) && st.Send? && Enabled(w, st) && t in w.sources
    ensures var w' := Apply(w, st);
      && t in w'.sources && t in w'.logs
      && SourceInv(w'.sources[t], w'.logs[t], SizesOf(w', t), UnsentOf(w', t), ReleasedOf(w', t))
  {
    hide *;
    var w' := Apply(w, st);
    SourceOf(w, t);
    SendWrites(w, st);
    SendFrame(w, st, t);
    SizesAgree(w, w', t);
    ReleasedAgree(w, w', t);
    if t == w.writes[st.write].unsent[0] {
      UnsentShrinks(w, w', t, st.write);
      SizeOf(w, st.write, t);
      SendToSource(w.sources[t], st.write, st.open, w.logs[t], SizesOf(w, t), UnsentOf(w, t), ReleasedOf(w, t));
    } else {
      UnsentAgree(w, w', t);
    }
  }

  lemma SendWrites(w: World, st: Step)
    requires Inv(w) && st.Send? && Enabled(w, st)
    ensures st.write < |w.writes| && w.writes[st.write].unsent != [] && |Apply(w, st).writes| == |w.writes|
    ensures SameSlices(w, Apply(w, st))
    ensures forall id | 0 <= id < |w.writes| :: Apply(w, st).writes[id].ack == w.writes[id].ack
    ensures forall id, s | 0 <= id < |w.writes| ::
      s in Apply(w, st).writes[id].unsent <==> s in w.writes[id].unsent && (id, s) != (st.write, w.writes[st.write].unsent[0])
  {
    hide SourceInv, RowsOf, FiresOnce;
    assert WriteInv(w, st.write);
  }

  lemma SendFrame(w: World, st: Step, t: SourceId)
    requires st.Send? && Enabled(w, st) && t in w.sources
    ensures Apply(w, st).logs == w.logs && t in Apply(w, st).sources
    ensures t in w.writes[st.write].slices || t != w.writes[st.write].unsent[0]
    ensures Apply(w, st).sources[t] ==
      if st.open && t == w.writes[st.write].unsent[0]
      then w.sources[t].(channel := w.sources[t].channel + [Unit(RowsOf(st.write, w.writes[st.write].slices[t]), st.write)])
      else w.sources[t]
  {
    hide RowsOf;
  }

  lemma UnsentShrinks(w: World, w': World, s: SourceId, sent: WriteId)
    requires |w'.writes| == |w.writes| && sent < |w.writes| && s in w.writes[sent].unsent
    requires forall id | 0 <= id < |w.writes| :: s in w'.writes[id].unsent <==> s in w.writes[id].unsent && id != sent
    ensures UnsentOf(w', s) == UnsentOf(w, s) - {sent} && sent in UnsentOf(w, s)
  {
  }

  lemma SizeOf(w: World, id: WriteId, s: SourceId)
    requires id < |w.writes| && s in w.writes[id].slices
    ensures id in SizesOf(w, s) && SizesOf(w, s)[id] == w.writes[id].slices[s]
  {
  }

  /** Whether or not the channel still takes the unit, the slice is no longer unsent. */
  lemma SendToSource(s: Source, id: WriteId, open: bool, log: Log, sizes: Sizes, unsent: set<WriteId>, released: set<WriteId>)
    requires SourceInv(s, log, sizes, unsent, released) && id in sizes && id in unsent
    ensures SourceInv(
      if open then s.(channel := s.channel + [Unit(RowsOf(id, sizes[id]), id)]) else s,
      log, sizes, unsent - {id}, released)
  {
    hide AckInv, HasAll;
    if open {
      SendKeeps(s, id, log.returned, sizes, unsent);
    }
  }

  lemma ReleaseStepKeeps(w: World, st: Step)
    requires Inv(w) && st.Release? && Enabled(w, st)
    ensures Inv(Apply(w, st))
  {
    hide SourceInv;
    var w' := Apply(w, st);
    forall i | 0 <= i < |w'.writes|
      ensures WriteInv(w', i)
    {
      assert WriteInv(w, i);
    }
    hide WriteInv, Apply;
    assert w'.sources.Keys == w.sources.Keys && w'.logs.Keys == w.logs.Keys by { ReleaseKeepsKeys(w, st); }
    forall t | t in w'.sources
      ensures SourceInv(w'.sources[t], w'.logs[t], SizesOf(w', t), UnsentOf(w', t), ReleasedOf(w', t))
    {
      hide SizesOf, UnsentOf, ReleasedOf;
      ReleaseInWorld(w, st, t);
    }
  }

  lemma ReleaseKeepsKeys(w: World, st: Step)
    requires st.Release? && Enabled(w, st)
    ensures Apply(w, st).sources.Keys == w.sources.Keys && Apply(w, st).logs.Keys == w.logs.Keys
  {
  }

  lemma ReleaseInWorld(w: World, st: Step, t: SourceId)
    requires Inv(w) && st.Release? && Enabled(w, st) && t in w.sources
    ensures var w' := Apply(w, st);
      && t in w'.sources && t in w'.logs
      && SourceInv(w'.sources[t], w'.logs[t], SizesOf(w', t), UnsentOf(w', t), ReleasedOf(w', t))
  {
    hide *;
    ReleaseEnabled(w, st);
    SourceOf(w, t);
    ReleaseFrame(w, st, t);
    ReleaseViews(w, st, t);
    if t == st.source {
      ReleaseInSource(w.sources[t], st.write, w.logs[t], SizesOf(w, t), UnsentOf(w, t), ReleasedOf(w, t));
    }
  }

  lemma ReleaseEnabled(w: World, st: Step)
    requires st.Release? && Enabled(w, st)
    ensures st.source in w.sources && st.write < |w.writes| && st.write in w.sources[st.source].releasing
  {
  }

  lemma SourceOf(w: World, s: SourceId)
    requires Inv(w) && s in w.sources
    ensures s in w.logs && SourceInv(w.sources[s], w.logs[s], SizesOf(w, s), UnsentOf(w, s), ReleasedOf(w, s))
  {
    hide SourceInv, WriteInv, SizesOf, UnsentOf, ReleasedOf;
  }

  /** What a source can see of the writes changes only in the released slice. */
  lemma ReleaseViews(w: World, st: Step, t: SourceId)
    requires Inv(w) && st.Release? && Enabled(w, st)
    ensures var w' := Apply(w, st);
      && SizesOf(w', t) == SizesOf(w, t) && UnsentOf(w', t) == UnsentOf(w, t)
      && ReleasedOf(w', t) == if t == st.source then ReleasedOf(w, t) + {st.write} else ReleasedOf(w, t)
  {
    hide *;
    var w' := Apply(w, st);
    ReleaseWrites(w, st);
    SizesAgree(w, w', t);
    UnsentAgree(w, w', t);
    if t == st.source {
      ReleaseEnabled(w, st);
      SourceOf(w, t);
      ReleasingIsSized(w.sources[t], w.logs[t], SizesOf(w, t), UnsentOf(w, t), ReleasedOf(w, t), st.write);
      ReleasedGrows(w, w', t, st.write);
    } else {
      ReleasedAgree(w, w', t);
    }
  }

  lemma ReleaseFrame(w: World, st: Step, t: SourceId)
    requires st.Release? && Enabled(w, st) && t in w.sources
    ensures Apply(w, st).logs == w.logs && t in Apply(w, st).sources
    ensures Apply(w, st).sources[t] ==
      if t == st.source then w.sources[t].(releasing := w.sources[t].releasing - multiset{st.write}) else w.sources[t]
  {
    hide ReleaseSlice;
  }

  lemma ReleaseWrites(w: World, st: Step)
    requires st.Release? && Enabled(w, st)
    ensures SameSlices(w, Apply(w, st))
    ensures |Apply(w, st).writes| == |w.writes|
    ensures forall id | 0 <= id < |w.writes| :: Apply(w, st).writes[id].unsent == w.writes[id].unsent
    ensures forall id, s | 0 <= id < |w.writes| ::
      s in Apply(w, st).writes[id].ack.pending <==> s in w.writes[id].ack.pending && (id, s) != (st.write, st.source)
  {
  }

  lemma ReleasedGrows(w: World, w': World, s: SourceId, released: WriteId)
    requires |w'.writes| == |w.writes| && SameSlices(w, w') && released in SizesOf(w, s)
    requires forall id | 0 <= id < |w.writes| ::
      s in w'.writes[id].ack.pending <==> s in w.writes[id].ack.pending && id != released
    ensures ReleasedOf(w', s) == ReleasedOf(w, s) + {released}
  {
  }

  lemma ReleasingIsSized(s: Source, log: Log, sizes: Sizes, unsent: set<WriteId>, released: set<WriteId>, id: WriteId)
    requires SourceInv(s, log, sizes, unsent, released) && id in s.releasing
    ensures id in sizes
  {
    hide FlowInv, LedgerInv, ArmedInv, TrackedInv;
  }

  lemma ReleaseInSource(s: Source, id: WriteId, log: Log, sizes: Sizes, unsent: set<WriteId>, released: set<WriteId>)
    requires SourceInv(s, log, sizes, unsent, released) && id in s.releasing
    ensures SourceInv(s.(releasing := s.releasing - multiset{id}), log, sizes, unsent, released + {id})
  {
    FlowIgnoresReleasing(s, s.releasing - multiset{id}, log.returned, sizes, unsent);
    hide FlowInv, AckInv;
    ReleaseKeeps(s.ledger, id, s.releasing, log, sizes, released);
  }

  lemma FlowIgnoresReleasing(s: Source, releasing: multiset<WriteId>, returned: seq<Row>, sizes: Sizes, unsent: set<WriteId>)
    requires FlowInv(s, returned, sizes, unsent)
    ensures FlowInv(s.(releasing := releasing), returned, sizes, unsent)
  {
    hide RowsKnown, ChannelInv, PartInv, CompletedInv;
  }

  lemma FlowIgnoresLedger(s: Source, l: Ledger<WriteId>, returned: seq<Row>, sizes: Sizes, unsent: set<WriteId>)
    requires FlowInv(s, returned, sizes, unsent)
    ensures FlowInv(s.(ledger := l), returned, sizes, unsent)
  {
    hide RowsKnown, ChannelInv, PartInv, CompletedInv;
  }

  lemma BuildKeeps(s: Source, returned: seq<Row>, sizes: Sizes, unsent: set<WriteId>)
    requires FlowInv(s, returned, sizes, unsent)
    ensures FlowInv(EndDrain(s), returned, sizes, unsent)
  {
    hide RowsKnown, ChannelInv, PartInv, CompletedInv;
  }

  lemma SourceStepKeeps(w: World, st: Step)
    requires Inv(w) && !st.FanOut? && !st.Send? && !st.Release? && Enabled(w, st)
    ensures var s, w' := st.source, Apply(w, st);
      s in w'.sources && s in w'.logs && SourceInv(w'.sources[s], w'.logs[s], SizesOf(w, s), UnsentOf(w, s), ReleasedOf(w, s))
  {
    hide FlowInv, AckInv, WriteInv, SizesOf, UnsentOf, ReleasedOf, Take, Finalize;
    var s := st.source;
    var src, log := w.sources[s], w.logs[s];
    var sizes, unsent, released := SizesOf(w, s), UnsentOf(w, s), ReleasedOf(w, s);
    match st {
      case Begin(_) => BeginKeeps(src, log.returned, sizes, unsent);
      case Recv(_) => ReceiveKeeps(src, log.returned, sizes, unsent);
      case Build(_) => BuildKeeps(src, log.returned, sizes, unsent);
      case Return(_) =>
        ReturnKeepsFlow(src, log.returned, sizes, unsent);
        ReturnKeepsAck(src, log, sizes, unsent, released);
      case Fail(_) => FailKeeps(src, log.returned, sizes, unsent);
      case Mark(_, e) =>
        FlowIgnoresLedger(src, Marker(src.ledger, e), log.returned, sizes, unsent);
        MarkKeeps(src.ledger, e, src.releasing, log, sizes, released);
      case Final(_, e) =>
        var (l, freed) := Finalize(src.ledger, e);
        FlowIgnoresLedger(src, l, log.returned, sizes, unsent);
        FlowIgnoresReleasing(src.(ledger := l), src.releasing + multiset(freed), log.returned, sizes, unsent);
        FinalKeeps(src.ledger, e, src.releasing, log, sizes, released);
    }
  }

  lemma StepKeeps(w: World, st: Step)
    requires Inv(w) && Enabled(w, st)
    ensures Inv(Apply(w, st))
  {
    if st.FanOut? {
      FanOutKeeps(w, st);
    } else if st.Send? {
      SendStepKeeps(w, st);
    } else if st.Release? {
      ReleaseStepKeeps(w, st);
    } else {
      hide SourceInv, Apply, Inv;
      SourceStepKeeps(w, st);
      SourceStepFrame(w, st);
      LocalStep(w, Apply(w, st), st.source);
    }
  }

  lemma SourceStepFrame(w: World, st: Step)
    requires !st.FanOut? && !st.Send? && !st.Release? && Enabled(w, st)
    requires w.logs.Keys == w.sources.Keys
    ensures var w' := Apply(w, st);
      && w'.writes == w.writes && w'.sources.Keys == w.sources.Keys && w'.logs.Keys == w.logs.Keys
      && forall t | t in w.sources && t != st.source :: w'.sources[t] == w.sources[t] && w'.logs[t] == w.logs[t]
  {
    hide BeginBatch, Receive, EndDrain, CommitOk, CommitFail, FinalizeSource, LogReturn, LogMark, LogFinal;
  }

  lemma {:induction false} RunKeeps(trace: seq<World>, steps: seq<Step>, k: nat)
    requires IsRun(trace, steps) && k < |trace|
    ensures Inv(trace[k])
  {
    if k == 0 {
      InitHolds(trace[0]);
    } else {
      hide Inv, Init, Enabled, Apply;
      RunKeeps(trace, steps, k - 1);
      StepKeeps(trace[k - 1], steps[k - 1]);
    }
  }

  lemma InitHolds(w: World)
    requires Init(w)
    ensures Inv(w)
  {
    forall s | s in w.sources
      ensures SourceInv(w.sources[s], w.logs[s], SizesOf(w, s), UnsentOf(w, s), ReleasedOf(w, s))
    {
      assert SizesOf(w, s) == map[] && UnsentOf(w, s) == {} && ReleasedOf(w, s) == {};
    }
  }

  // ---------------------------------------------------------------- main results

  /** Every row of write `id` that belongs to `s` was returned before a marker that has been finalized. */
  ghost predicate SliceDurable(w: World, s: SourceId, id: WriteId)
    requires id < |w.writes| && s in w.writes[id].slices && s in w.logs
    requires w.logs[s].durable <= |w.logs[s].returned|
  {
    HasAll(w.logs[s].returned[..w.logs[s].durable], id, w.writes[id].slices[s])
  }

  /**
   Safety and completeness of acknowledgement, in every state of every run: the
   upstream ack is sent at most once; if it was sent, every slice of the write
   is durable; and once every slice is durable and no finalizer is still
   handing its slice back, it has been sent.
   */
  lemma AckExactlyWhenDurable(trace: seq<World>, steps: seq<Step>, k: nat, id: WriteId)
    requires IsRun(trace, steps) && k < |trace| && id < |trace[k].writes|
    ensures var w := trace[k];
      var write := w.writes[id];
      && write.ack.sent <= 1
      && (forall s | s in write.slices :: s in w.logs && s in w.sources && w.logs[s].durable <= |w.logs[s].returned|)
      && (write.ack.sent == 1 ==> forall s | s in write.slices :: SliceDurable(w, s, id))
      && ((forall s | s in write.slices :: SliceDurable(w, s, id) && id !in w.sources[s].releasing) ==> write.ack.sent == 1)
  {
    hide *;
    RunKeeps(trace, steps, k);
    AckFollowsSlices(trace[k], id);
  }

  lemma AckFollowsSlices(w: World, id: WriteId)
    requires Inv(w) && id < |w.writes|
    ensures var write := w.writes[id];
      && write.ack.sent <= 1
      && (forall s | s in write.slices :: s in w.logs && s in w.sources && w.logs[s].durable <= |w.logs[s].returned|)
      && (write.ack.sent == 1 ==> forall s | s in write.slices :: SliceDurable(w, s, id))
      && ((forall s | s in write.slices :: SliceDurable(w, s, id) && id !in w.sources[s].releasing) ==> write.ack.sent == 1)
  {
    hide *;
    var write := w.writes[id];
    AckOf(w, id);
    NothingPending(write.ack.pending, write.slices.Keys);
    forall s | s in write.slices
      ensures s in w.logs && s in w.sources && w.logs[s].durable <= |w.logs[s].returned|
      ensures s !in write.ack.pending ==> SliceDurable(w, s, id)
      ensures SliceDurable(w, s, id) && id !in w.sources[s].releasing ==> s !in write.ack.pending
    {
      SliceOf(w, id, s);
    }
  }

  lemma NothingPending(pending: set<SourceId>, all: set<SourceId>)
    requires pending <= all
    ensures pending == {} <==> forall s | s in all :: s !in pending
  {
    assert (forall s | s in all :: s !in pending) ==> pending * all == {};
    assert pending * all == pending;
  }

  /** A slice counts as handed back exactly when it is durable, up to finalizers still at work. */
  lemma SliceOf(w: World, id: WriteId, s: SourceId)
    requires Inv(w) && id < |w.writes| && s in w.writes[id].slices
    ensures s in w.logs && s in w.sources && w.logs[s].durable <= |w.logs[s].returned|
    ensures s !in w.writes[id].ack.pending ==> SliceDurable(w, s, id)
    ensures SliceDurable(w, s, id) && id !in w.sources[s].releasing ==> s !in w.writes[id].ack.pending
  {
    hide SourceInv;
    assert WriteInv(w, id);
    assert id in SizesOf(w, s);
    ReleasedIffDurable(w.sources[s], w.logs[s], SizesOf(w, s), UnsentOf(w, s), ReleasedOf(w, s), id);
  }

  lemma AckOf(w: World, id: WriteId)
    requires Inv(w) && id < |w.writes|
    ensures w.writes[id].ack.pending <= w.writes[id].slices.Keys
    ensures w.writes[id].ack.sent <= 1 && (w.writes[id].ack.sent == 1 <==> w.writes[id].ack.pending == {})
  {
    hide SourceInv;
    assert WriteInv(w, id);
  }

  lemma ReleasedIffDurable(s: Source, log: Log, sizes: Sizes, unsent: set<WriteId>, released: set<WriteId>, id: WriteId)
    requires SourceInv(s, log, sizes, unsent, released) && id in sizes
    ensures log.durable <= |log.returned|
    ensures id in released ==> HasAll(log.returned[..log.durable], id, sizes[id])
    ensures HasAll(log.returned[..log.durable], id, sizes[id]) ==> id in s.releasing || id in released
  {
    hide FlowInv;
    if HasAll(log.returned[..log.durable], id, sizes[id]) {
      var last := LastRow(id, sizes[id]);
      assert last in log.returned[..log.durable];
      assert last in log.returned;
      assert MarkPosition(log, log.durable);
      assert !IsArmed(s.ledger.pending, id) by {
        forall i | 0 <= i < |s.ledger.pending|
          ensures s.ledger.pending[i].ack != id
        {
          assert ArmedInv(s.ledger.pending[i], log, sizes);
        }
      }
    }
  }

  /** No row is returned to the host twice, in any run and whatever builds fail. */
  lemma RowsReturnedOnce(trace: seq<World>, steps: seq<Step>, k: nat, s: SourceId)
    requires IsRun(trace, steps) && k < |trace| && s in trace[k].sources
    ensures s in trace[k].logs && Distinct(trace[k].logs[s].returned)
  {
    hide *;
    RunKeeps(trace, steps, k);
    ReturnedAreDistinct(trace[k], s);
  }

  lemma ReturnedAreDistinct(w: World, s: SourceId)
    requires Inv(w) && s in w.sources
    ensures s in w.logs && Distinct(w.logs[s].returned)
  {
    hide AckInv, ChannelInv, PartInv, CompletedInv, WriteInv;
    var returned := w.logs[s].returned;
    var seen := returned + w.sources[s].rows;
    assert RowsKnown(seen, SizesOf(w, s), UnsentOf(w, s));
    assert forall i | 0 <= i < |returned| :: seen[i] == returned[i];
  }

  // ---------------------------------------------------------------- order

  function QueueRows(units: seq<Unit>): seq<Row> {
    if units == [] then [] else units[0].rows + QueueRows(units[1..])
  }

  function CarryRows(s: Source): seq<Row> {
    if s.carry.Some? then s.carry.value.rows else []
  }

  /** Everything sent to a source that it has neither returned nor dropped, oldest first. */
  function Buffered(s: Source): seq<Row> {
    s.rows + (CarryRows(s) + QueueRows(s.channel))
  }

  /** The rows a step sends to source `s`. */
  ghost function SentBy(w: World, st: Step, s: SourceId): seq<Row>
    requires Enabled(w, st)
  {
    if st.Send? && st.open && w.writes[st.write].unsent[0] == s then RowsOf(st.write, w.writes[st.write].slices[s]) else []
  }

  /** The rows that leave source `s` in a step, returned or dropped by a failed build. */
  ghost function LeftBy(w: World, st: Step, s: SourceId): seq<Row>
    requires Enabled(w, st)
  {
    if st == Return(s) then w.sources[s].rows
    else if st == Fail(s) then w.sources[s].rows + CarryRows(w.sources[s])
    else []
  }

  /** All rows sent to `s` in the first `k` steps, in the order of the sends. */
  ghost function SentTo(trace: seq<World>, steps: seq<Step>, k: nat, s: SourceId): seq<Row>
    requires IsRun(trace, steps) && k < |trace|
  {
    if k == 0 then [] else SentTo(trace, steps, k - 1, s) + SentBy(trace[k - 1], steps[k - 1], s)
  }

  ghost function LeftFrom(trace: seq<World>, steps: seq<Step>, k: nat, s: SourceId): seq<Row>
    requires IsRun(trace, steps) && k < |trace|
  {
    if k == 0 then [] else LeftFrom(trace, steps, k - 1, s) + LeftBy(trace[k - 1], steps[k - 1], s)
  }

  lemma TakeInOrder(s: Source, unit: Unit)
    requires |s.rows| <= s.batchSize && s.carry.None?
    ensures Buffered(Take(s, unit)) == s.rows + (unit.rows + QueueRows(s.channel))
    ensures Take(s, unit).channel == s.channel && |Take(s, unit).rows| <= s.batchSize
    ensures Take(s, unit).phase == s.phase && Take(s, unit).batchSize == s.batchSize
    ensures Take(s, unit).carry.Some? ==> |Take(s, unit).rows| == s.batchSize
  {
    var n := Min(s.batchSize - |s.rows|, |unit.rows|);
    assert unit.rows == unit.rows[..n] + unit.rows[n..];
    hide QueueRows;
    assert CarryRows(Take(s, unit)) == unit.rows[n..];
  }

  lemma BeginInOrder(s: Source)
    requires s.phase == Idle && s.rows == []
    ensures Buffered(BeginBatch(s)) == Buffered(s)
    ensures BeginBatch(s).phase == Draining && BeginBatch(s).batchSize == s.batchSize
    ensures |BeginBatch(s).rows| <= s.batchSize && (BeginBatch(s).carry.Some? ==> |BeginBatch(s).rows| == s.batchSize)
  {
    hide QueueRows, Take;
    if s.carry.Some? {
      TakeInOrder(s.(phase := Draining, carry := None), s.carry.value);
    }
  }

  lemma ReceiveInOrder(s: Source)
    requires CanReceive(s)
    ensures Buffered(Receive(s)) == Buffered(s)
    ensures Receive(s).phase == s.phase && Receive(s).batchSize == s.batchSize && Receive(s).channel == s.channel[1..]
    ensures |Receive(s).rows| <= s.batchSize && (Receive(s).carry.Some? ==> |Receive(s).rows| == s.batchSize)
  {
    hide Take;
    TakeInOrder(s.(channel := s.channel[1..]), s.channel[0]);
  }

  lemma {:induction false} QueueThen(units: seq<Unit>, u: Unit)
    ensures QueueRows(units + [u]) == QueueRows(units) + u.rows
  {
    if units == [] {
      assert [u][1..] == [];
    } else {
      QueueThen(units[1..], u);
      assert (units + [u])[1..] == units[1..] + [u];
    }
  }

  ghost predicate InOrder(w: World, st: Step, s: SourceId)
    requires Enabled(w, st) && s in w.sources && s in w.logs
  {
    var w' := Apply(w, st);
    && s in w'.sources && s in w'.logs
    && Buffered(w.sources[s]) + SentBy(w, st, s) == LeftBy(w, st, s) + Buffered(w'.sources[s])
    && w'.logs[s].returned == w.logs[s].returned + if st == Return(s) then LeftBy(w, st, s) else []
  }

  /** What a step sends joins the back of what a source holds, and what leaves it is taken off the front. */
  lemma StepInOrder(w: World, st: Step, s: SourceId)
    requires Enabled(w, st) && s in w.sources && s in w.logs
    ensures InOrder(w, st, s)
  {
    hide *;
    if st.Send? {
      SendInOrder(w, st, s);
    } else if st.FanOut? || st.Release? || st.source != s {
      OthersInOrder(w, st, s);
    } else {
      LocalInOrder(w, st, s);
    }
  }

  lemma SendInOrder(w: World, st: Step, s: SourceId)
    requires Enabled(w, st) && st.Send? && s in w.sources && s in w.logs
    ensures InOrder(w, st, s)
  {
    SendFrame(w, st, s);
    hide Apply, QueueRows, RowsOf;
    var src := w.sources[s];
    if st.open && s == w.writes[st.write].unsent[0] {
      var rows := RowsOf(st.write, w.writes[st.write].slices[s]);
      QueueThen(src.channel, Unit(rows, st.write));
      Associate(src.rows, CarryRows(src) + QueueRows(src.channel), rows);
      Associate(CarryRows(src), QueueRows(src.channel), rows);
    }
  }

  lemma OthersInOrder(w: World, st: Step, s: SourceId)
    requires Enabled(w, st) && (st.FanOut? || st.Release? || (!st.Send? && st.source != s)) && s in w.sources && s in w.logs
    ensures InOrder(w, st, s)
  {
    hide BeginBatch, Receive, EndDrain, CommitOk, CommitFail, FinalizeSource, LogReturn, LogMark, LogFinal, NewShared, ReleaseSlice, QueueRows;
  }

  lemma LocalInOrder(w: World, st: Step, s: SourceId)
    requires Enabled(w, st) && !st.Send? && !st.FanOut? && !st.Release? && st.source == s && s in w.sources && s in w.logs
    ensures InOrder(w, st, s)
  {
    hide BeginBatch, Receive, Buffered, QueueRows, UnitsCompleted, Finalize, Distinct;
    var src := w.sources[s];
    match st {
      case Begin(_) => BeginInOrder(src);
      case Recv(_) => ReceiveInOrder(src);
      case Build(_) => SameBuffered(src, EndDrain(src));
      case Return(_) => CommitInOrder(src);
      case Fail(_) => DropInOrder(src);
      case Mark(_, e) => SameBuffered(src, src.(ledger := Marker(src.ledger, e)));
      case Final(_, e) => SameBuffered(src, FinalizeSource(src, e));
    }
  }

  lemma SameBuffered(a: Source, b: Source)
    requires b.rows == a.rows && b.carry == a.carry && b.channel == a.channel
    ensures Buffered(b) == Buffered(a)
  {
  }

  lemma CommitInOrder(s: Source)
    ensures Buffered(s) == s.rows + Buffered(CommitOk(s))
  {
  }

  lemma DropInOrder(s: Source)
    ensures Buffered(s) == (s.rows + CarryRows(s)) + Buffered(CommitFail(s))
  {
  }

  /** Rows leave a source in the order they were sent to it, and what it holds is the rest. */
  lemma {:induction false} LeaveInOrder(trace: seq<World>, steps: seq<Step>, k: nat, s: SourceId)
    requires IsRun(trace, steps) && k < |trace| && s in trace[0].sources
    ensures s in trace[k].sources && s in trace[k].logs
    ensures LeftFrom(trace, steps, k, s) + Buffered(trace[k].sources[s]) == SentTo(trace, steps, k, s)
    ensures Subsequence(trace[k].logs[s].returned, LeftFrom(trace, steps, k, s))
    ensures (forall i | 0 <= i < k :: steps[i] != Fail(s)) ==> trace[k].logs[s].returned == LeftFrom(trace, steps, k, s)
  {
    hide *;
    if k == 0 {
      StartsEmpty(trace, steps, s);
    } else {
      LeaveInOrder(trace, steps, k - 1, s);
      LeftThen(trace, steps, k, s);
      RunStep(trace, steps, k - 1);
      var w, st, w' := trace[k - 1], steps[k - 1], trace[k];
      StepFacts(w, st, s);
      LeaveThen(
        LeftFrom(trace, steps, k - 1, s), Buffered(w.sources[s]), SentTo(trace, steps, k - 1, s),
        LeftBy(w, st, s), Buffered(w'.sources[s]), SentBy(w, st, s));
      if st == Return(s) {
        SubsequenceBoth(w.logs[s].returned, LeftFrom(trace, steps, k - 1, s), LeftBy(w, st, s));
      } else {
        assert w'.logs[s].returned == w.logs[s].returned;
        SubsequenceLonger(w.logs[s].returned, LeftFrom(trace, steps, k - 1, s), LeftBy(w, st, s));
      }
    }
  }

  lemma LeaveThen(left: seq<Row>, held: seq<Row>, sent: seq<Row>, out: seq<Row>, held': seq<Row>, added: seq<Row>)
    requires left + held == sent && held + added == out + held'
    ensures (left + out) + held' == sent + added
  {
    Associate(left, out, held');
    Associate(left, held, added);
  }

  lemma LeftThen(trace: seq<World>, steps: seq<Step>, k: nat, s: SourceId)
    requires IsRun(trace, steps) && 0 < k < |trace|
    ensures |trace| == |steps| + 1 && Enabled(trace[k - 1], steps[k - 1])
    ensures LeftFrom(trace, steps, k, s) == LeftFrom(trace, steps, k - 1, s) + LeftBy(trace[k - 1], steps[k - 1], s)
    ensures SentTo(trace, steps, k, s) == SentTo(trace, steps, k - 1, s) + SentBy(trace[k - 1], steps[k - 1], s)
  {
    hide Init, Enabled, Apply, LeftBy, SentBy;
  }

  lemma StepFacts(w: World, st: Step, s: SourceId)
    requires Enabled(w, st) && s in w.sources && s in w.logs
    ensures var w' := Apply(w, st);
      && s in w'.sources && s in w'.logs
      && Buffered(w.sources[s]) + SentBy(w, st, s) == LeftBy(w, st, s) + Buffered(w'.sources[s])
      && w'.logs[s].returned == w.logs[s].returned + (if st == Return(s) then LeftBy(w, st, s) else [])
      && (st != Return(s) && st != Fail(s) ==> LeftBy(w, st, s) == [])
  {
    StepInOrder(w, st, s);
    hide Enabled, Apply, Buffered, SentBy;
  }

  lemma StartsEmpty(trace: seq<World>, steps: seq<Step>, s: SourceId)
    requires IsRun(trace, steps) && s in trace[0].sources
    ensures s in trace[0].logs && trace[0].logs[s].returned == [] && Buffered(trace[0].sources[s]) == []
    ensures LeftFrom(trace, steps, 0, s) == [] && SentTo(trace, steps, 0, s) == [] && |trace| == |steps| + 1
    ensures Subsequence(trace[0].logs[s].returned, LeftFrom(trace, steps, 0, s))
  {
    hide Enabled, Apply;
  }

  lemma RunStep(trace: seq<World>, steps: seq<Step>, k: nat)
    requires IsRun(trace, steps) && k < |steps|
    ensures Enabled(trace[k], steps[k]) && trace[k + 1] == Apply(trace[k], steps[k])
  {
    hide Init, Enabled, Apply;
  }

  /**
   In every run a source returns rows in the order in which the writes were
   sent to it: what it has returned is a subsequence of what it was sent, and
   as long as no build has failed it is exactly the rows that are no longer
   buffered.
   */
  lemma ReturnedInSendOrder(trace: seq<World>, steps: seq<Step>, k: nat, s: SourceId)
    requires IsRun(trace, steps) && k < |trace| && s in trace[0].sources
    ensures s in trace[k].sources && s in trace[k].logs
    ensures Subsequence(trace[k].logs[s].returned, SentTo(trace, steps, k, s))
    ensures (forall i | 0 <= i < k :: steps[i] != Fail(s)) ==>
      trace[k].logs[s].returned + Buffered(trace[k].sources[s]) == SentTo(trace, steps, k, s)
  {
    LeaveInOrder(trace, steps, k, s);
    hide *;
    SubsequenceLonger(trace[k].logs[s].returned, LeftFrom(trace, steps, k, s), Buffered(trace[k].sources[s]));
  }
}
