/**
 The running Postgres CDC source: `generate_batch` with its carry and its
 failed-build path, the marker and the finalizer, as code that updates its
 fields, and the proof that one call of it is a run of `AckProtocol` steps.
 */
module CdcSources {
  import opened Wrappers
  import opened AckLedgers
  import opened AckProtocol

  datatype Failure = ArrowError

  /** Receives until the batch is full, a unit is left over, or the channel is empty. */
  function Drain(s: Source): Source
    decreases |s.channel|
  {
    if CanReceive(s) then Drain(Receive(s)) else s
  }

  /** What one call returns and leaves behind, given whether the Arrow build succeeds. */
  function GenerateBatch(s: Source, buildOk: bool): (Source, Result<seq<Row>, Failure>)
    requires s.phase == Idle && s.rows == []
  {
    var d := EndDrain(Drain(BeginBatch(s)));
    if d.rows == [] || buildOk then (CommitOk(d), Ok(d.rows)) else (CommitFail(d), Err(ArrowError))
  }

  lemma {:induction false} DrainInOrder(s: Source)
    requires |s.rows| <= s.batchSize && (s.carry.Some? ==> |s.rows| == s.batchSize) && s.phase == Draining
    ensures var d := Drain(s);
      && d.phase == Draining && Buffered(d) == Buffered(s) && d.batchSize == s.batchSize && |d.rows| <= d.batchSize
      && (|d.rows| == d.batchSize || (d.carry.None? && d.channel == []))
    decreases |s.channel|
  {
    hide Buffered, Receive;
    if CanReceive(s) {
      ReceiveInOrder(s);
      DrainInOrder(Receive(s));
    }
  }

  /**
   A call returns the oldest buffered rows, as many as fit or as there are, and
   keeps the others in order. It fails exactly when there are rows and they do
   not build, and then rows are dropped off the front.
   */
  lemma BatchIsFront(s: Source, buildOk: bool)
    requires s.phase == Idle && s.rows == []
    ensures var (s', r) := GenerateBatch(s, buildOk);
      && (r.Err? <==> !buildOk && Min(s.batchSize, |Buffered(s)|) > 0)
      && (r.Ok? ==> r.value + Buffered(s') == Buffered(s) && |r.value| == Min(s.batchSize, |Buffered(s)|))
      && (r.Err? ==> exists n :: 0 < n <= |Buffered(s)| && Buffered(s') == Buffered(s)[n..])
  {
    hide Take, BeginBatch, Drain, QueueRows, UnitsCompleted;
    BeginInOrder(s);
    DrainInOrder(BeginBatch(s));
    var d := EndDrain(Drain(BeginBatch(s)));
    NoQueue();
    SameBuffered(Drain(BeginBatch(s)), d);
    CommitInOrder(d);
    DropInOrder(d);
    assert |d.rows| == Min(s.batchSize, |Buffered(s)|);
    if d.rows != [] && !buildOk {
      var dropped := d.rows + CarryRows(d);
      assert (dropped + Buffered(CommitFail(d)))[|dropped|..] == Buffered(CommitFail(d));
    }
  }

  lemma NoQueue()
    ensures QueueRows([]) == []
  {
  }

  class CdcSource {
    const batchSize: nat
    const sourceId: SourceId
    const ledger: AckLedger<WriteId>
    var channel: seq<Unit>
    var carry: Option<Unit>

    ghost function Model(): Source
      reads this, ledger
    {
      Source(batchSize, channel, carry, Idle, [], [], ledger.Model(), multiset{})
    }

    constructor (batchSize: nat, sourceId: SourceId)
      ensures Model() == Source(batchSize, [], None, Idle, [], [], NewLedger(), multiset{})
      ensures this.sourceId == sourceId && fresh(ledger)
    {
      this.batchSize, this.sourceId := batchSize, sourceId;
      ledger := new AckLedger();
      channel, carry := [], None;
    }

    /** The source while a call of `Generate` is draining into `rows` and `completed`. */
    ghost function Draft(rows: seq<Row>, completed: seq<WriteId>): Source
      reads this, ledger
    {
      Source(batchSize, channel, carry, Draining, rows, completed, ledger.Model(), multiset{})
    }

    /** Moves what fits of `unit` into the batch: the exhausted unit is completed, otherwise the rest is carried. */
    method TakeFrom(unit: Unit, rows: seq<Row>, completed: seq<WriteId>) returns (rows': seq<Row>, completed': seq<WriteId>)
      requires |rows| <= batchSize
      modifies this`carry
      ensures Draft(rows', completed') == Take(old(Draft(rows, completed)), unit) && |rows'| <= batchSize
    {
      var n := Min(batchSize - |rows|, |unit.rows|);
      rows' := rows + unit.rows[..n];
      var rest := unit.rows[n..];
      if rest == [] {
        completed', carry := completed + [unit.write], None;
      } else {
        completed', carry := completed, Some(Unit(rest, unit.write));
      }
    }

    /** Waits for a first unit if there is nothing yet, then takes what the channel still holds. */
    method ReceiveAll(rows: seq<Row>, completed: seq<WriteId>) returns (rows': seq<Row>, completed': seq<WriteId>)
      requires |rows| <= batchSize && batchSize >= 1
      modifies this`carry, this`channel
      ensures Draft(rows', completed') == Drain(old(Draft(rows, completed)))
    {
      rows', completed' := rows, completed;
      hide Take;
      if rows' == [] && carry.None? && channel != [] {
        var unit := channel[0];
        channel := channel[1..];
        rows', completed' := TakeFrom(unit, rows', completed');
      }
      while |rows'| < batchSize && carry.None? && channel != []
        invariant |rows'| <= batchSize
        invariant Drain(Draft(rows', completed')) == Drain(old(Draft(rows, completed)))
        decreases |channel|
      {
        var unit := channel[0];
        channel := channel[1..];
        rows', completed' := TakeFrom(unit, rows', completed');
      }
    }

    method Generate(buildOk: bool) returns (r: Result<seq<Row>, Failure>)
      requires batchSize >= 1
      modifies this, ledger
      ensures (Model(), r) == GenerateBatch(old(Model()), buildOk)
    {
      var rows: seq<Row> := [];
      var completed: seq<WriteId> := [];
      ghost var begun := BeginBatch(Model());

      if carry.Some? {
        var unit := carry.value;
        carry := None;
        rows, completed := TakeFrom(unit, rows, completed);
      }
      assert Draft(rows, completed) == begun;
      rows, completed := ReceiveAll(rows, completed);
      hide Take, CanReceive, Receive, Drain, UnitsCompleted;

      if rows == [] {
        Arm(completed);
        return Ok([]);
      }
      if buildOk {
        ledger.DeliverRows(|rows|);
        Arm(completed);
        return Ok(rows);
      } else {
        carry := None;
        return Err(ArrowError);
      }
    }

    /** Arms every completed unit at the current position. */
    method Arm(completed: seq<WriteId>)
      modifies ledger`pending
      ensures ledger.Model() == UnitsCompleted(old(ledger.Model()), completed)
    {
      ghost var l0 := ledger.Model();
      for i := 0 to |completed|
        invariant ledger.Model() == UnitsCompleted(l0, completed[..i])
      {
        ledger.CompleteUnit(completed[i]);
        assert completed[..i + 1] == completed[..i] + [completed[i]];
      }
      assert completed[..|completed|] == completed;
    }

    method ProcessMarker(epoch: nat)
      modifies ledger
      ensures Model() == old(Model()).(ledger := Marker(old(ledger.Model()), epoch))
    {
      ledger.MarkEpoch(epoch);
    }

    /** Finalizes an epoch and hands every released slice back to its write's shared ack. */
    method ProcessFinalizer(epoch: nat, acks: seq<SharedAck>)
      requires forall i, j | 0 <= i < j < |acks| :: acks[i] != acks[j]
      requires forall i | 0 <= i < |ledger.pending| :: ledger.pending[i].ack < |acks|
      modifies ledger, acks
      ensures Model() == old(Model()).(ledger := Finalize(old(ledger.Model()), epoch).0)
      ensures var released := Finalize(old(ledger.Model()), epoch).1;
        && (forall i | 0 <= i < |acks| && i in released :: acks[i].Model() == ReleaseSlice(old(acks[i].Model()), sourceId))
        && (forall i | 0 <= i < |acks| && i !in released :: acks[i].Model() == old(acks[i].Model()))
    {
      var released := ledger.FinalizeEpoch(epoch);
      assert forall i | 0 <= i < |released| :: released[i] < |acks| by { FinalizeReleasesPending(old(ledger.Model()), epoch); }
      hide Finalize;
      ReleaseEach(released, acks);
    }

    /**
     Releases this source's slice of every listed write. A write that is listed
     twice is released twice, which is the same as once.
     */
    method ReleaseEach(released: seq<WriteId>, acks: seq<SharedAck>)
      requires forall i, j | 0 <= i < j < |acks| :: acks[i] != acks[j]
      requires forall i | 0 <= i < |released| :: released[i] < |acks|
      modifies acks
      ensures forall i | 0 <= i < |acks| ::
        acks[i].Model() == if i in released then ReleaseSlice(old(acks[i].Model()), sourceId) else old(acks[i].Model())
    {
      for k := 0 to |released|
        invariant forall i | 0 <= i < |acks| ::
          acks[i].Model() == if i in released[..k] then ReleaseSlice(old(acks[i].Model()), sourceId) else old(acks[i].Model())
      {
        hide *;
        assert released[..k + 1] == released[..k] + [released[k]];
        ReleaseTwice(old(acks[released[k]].Model()), sourceId);
        acks[released[k]].Release(sourceId);
      }
      assert released[..|released|] == released;
    }
  }

  lemma FinalizeReleasesPending<A>(l: Ledger<A>, epoch: nat)
    ensures var released := Finalize(l, epoch).1;
      |released| <= |l.pending| && forall i | 0 <= i < |released| :: released[i] == l.pending[i].ack
  {
  }

  lemma ReleaseTwice(a: Shared, source: nat)
    ensures ReleaseSlice(ReleaseSlice(a, source), source) == ReleaseSlice(a, source)
  {
    assert a.pending - {source} - {source} == a.pending - {source};
  }

  // ---------------------------------------------------------------- a call is a run of protocol steps

  ghost function StepsOf(s: Source, id: SourceId, buildOk: bool): seq<Step>
    requires s.phase == Idle && s.rows == []
  {
    var d := Drain(BeginBatch(s));
    [Begin(id)] + RecvSteps(BeginBatch(s), id) + [Build(id), if d.rows == [] || buildOk then Return(id) else Fail(id)]
  }

  ghost function RecvSteps(s: Source, id: SourceId): seq<Step>
    decreases |s.channel|
  {
    if CanReceive(s) then [Recv(id)] + RecvSteps(Receive(s), id) else []
  }

  /** `w'` is reached from `w` by these steps, each enabled where it is taken. */
  ghost predicate Leads(w: World, steps: seq<Step>, w': World)
    decreases |steps|
  {
    if steps == [] then w == w'
    else Enabled(w, steps[0]) && Leads(Apply(w, steps[0]), steps[1..], w')
  }

  lemma {:induction false} LeadsConcat(w: World, a: seq<Step>, m: World, b: seq<Step>, w': World)
    requires Leads(w, a, m) && Leads(m, b, w')
    ensures Leads(w, a + b, w')
    decreases |a|
  {
    hide Enabled, Apply;
    if a == [] {
      assert a + b == b;
    } else {
      LeadsConcat(Apply(w, a[0]), a[1..], m, b, w');
      assert (a + b)[0] == a[0] && (a + b)[1..] == a[1..] + b;
    }
  }

  lemma {:induction false} DrainLeads(w: World, id: SourceId)
    requires id in w.sources && w.sources[id].phase == Draining
    ensures Leads(w, RecvSteps(w.sources[id], id), w.(sources := w.sources[id := Drain(w.sources[id])]))
    ensures Drain(w.sources[id]).phase == Draining
    decreases |w.sources[id].channel|
  {
    var s := w.sources[id];
    if CanReceive(s) {
      var w1 := Apply(w, Recv(id));
      DrainLeads(w1, id);
      assert w1.(sources := w1.sources[id := Drain(w1.sources[id])]) == w.(sources := w.sources[id := Drain(s)]);
      assert RecvSteps(s, id)[0] == Recv(id) && RecvSteps(s, id)[1..] == RecvSteps(Receive(s), id);
    } else {
      assert w.(sources := w.sources[id := s]) == w;
    }
  }

  /**
   One `generate_batch` call on source `id` is a run of enabled protocol steps
   that ends in the world where only that source, and the log of what it
   returned, have changed as `GenerateBatch` says.
   */
  lemma GenerateIsProtocolRun(w: World, id: SourceId, buildOk: bool)
    requires id in w.sources && id in w.logs
    requires w.sources[id].phase == Idle && w.sources[id].rows == []
    ensures var (s', r) := GenerateBatch(w.sources[id], buildOk);
      Leads(w, StepsOf(w.sources[id], id, buildOk),
            w.(sources := w.sources[id := s'],
               logs := if r.Ok? then w.logs[id := LogReturn(w.logs[id], r.value)] else w.logs))
  {
    var s := w.sources[id];
    var begun := BeginBatch(s);
    var d := Drain(begun);
    var w1 := w.(sources := w.sources[id := begun]);
    var w2 := w.(sources := w.sources[id := d]);
    var last := if d.rows == [] || buildOk then Return(id) else Fail(id);
    DrainLeads(w1, id);
    assert w1.(sources := w1.sources[id := d]) == w2;
    assert Enabled(w, Begin(id)) && Apply(w, Begin(id)) == w1;
    var (s', r) := GenerateBatch(s, buildOk);
    var w4 := w.(sources := w.sources[id := s'], logs := if r.Ok? then w.logs[id := LogReturn(w.logs[id], r.value)] else w.logs);
    BuildLeads(w, id, buildOk);
    hide Enabled, Apply, Drain, BeginBatch, RecvSteps, GenerateBatch;
    var a, b, c := [Begin(id)], RecvSteps(begun, id), [Build(id), last];
    assert Leads(w, a, w1) by { assert a[1..] == []; }
    LeadsConcat(w, a, w1, b, w2);
    LeadsConcat(w, a + b, w2, c, w4);
  }

  /** The end of a call: the batch is built and returned, or dropped. */
  lemma BuildLeads(w: World, id: SourceId, buildOk: bool)
    requires id in w.sources && id in w.logs
    requires w.sources[id].phase == Idle && w.sources[id].rows == []
    ensures var d := Drain(BeginBatch(w.sources[id]));
      var (s', r) := GenerateBatch(w.sources[id], buildOk);
      Leads(w.(sources := w.sources[id := d]), [Build(id), if d.rows == [] || buildOk then Return(id) else Fail(id)],
            w.(sources := w.sources[id := s'],
               logs := if r.Ok? then w.logs[id := LogReturn(w.logs[id], r.value)] else w.logs))
  {
    var s := w.sources[id];
    var d := Drain(BeginBatch(s));
    var (s', r) := GenerateBatch(s, buildOk);
    var kept := d.rows == [] || buildOk;
    DrainLeads(w.(sources := w.sources[id := BeginBatch(s)]), id);
    assert s' == if kept then CommitOk(EndDrain(d)) else CommitFail(EndDrain(d));
    assert r == if kept then Ok(d.rows) else Err(ArrowError);
    hide Drain, BeginBatch, GenerateBatch;
    CommitLeads(w, id, d, kept);
  }

  lemma CommitLeads(w: World, id: SourceId, d: Source, kept: bool)
    requires id in w.sources && id in w.logs && d.phase == Draining && (d.rows == [] ==> kept)
    ensures Leads(w.(sources := w.sources[id := d]), [Build(id), if kept then Return(id) else Fail(id)],
                  w.(sources := w.sources[id := if kept then CommitOk(EndDrain(d)) else CommitFail(EndDrain(d))],
                     logs := if kept then w.logs[id := LogReturn(w.logs[id], d.rows)] else w.logs))
  {
    hide CommitOk, CommitFail, LogReturn;
    var w2 := w.(sources := w.sources[id := d]);
    var w3 := w.(sources := w.sources[id := EndDrain(d)]);
    var last := if kept then Return(id) else Fail(id);
    assert Enabled(w2, Build(id)) && Apply(w2, Build(id)) == w3 by {
      assert w2.sources[id := EndDrain(d)] == w3.sources;
    }
    var w4 := w.(sources := w.sources[id := if kept then CommitOk(EndDrain(d)) else CommitFail(EndDrain(d))],
                 logs := if kept then w.logs[id := LogReturn(w.logs[id], d.rows)] else w.logs);
    assert Enabled(w3, last) && Apply(w3, last) == w4 by {
      assert w3.sources[id := w4.sources[id]] == w4.sources;
    }
    hide Enabled, Apply;
    assert Leads(w3, [last], w4) by { assert [last][1..] == []; }
    assert [Build(id), last][1..] == [last];
  }
}
