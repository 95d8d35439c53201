/**
 The stateful parts of the S2 source: the prefix scan that discovers streams,
 and the source object whose methods take the steps of `S2Sources`.
 */
module S2Readers {
  import opened Wrappers
  import opened Collections
  import opened S2Sources

  // ---------------------------------------------------------------- the prefix scan

  /** A listed stream; one that is being deleted is still listed. */
  datatype Info = Info(name: Stream, deleted: bool)

  /** One answer of the listing call, taken from what the basin held at that moment. */
  datatype Page = Page(listing: set<Info>, items: seq<Info>, more: bool)

  datatype Scan = Scan(startAfter: Option<Stream>, seen: set<Stream>)

  predicate Past(after: Option<Stream>, x: Stream) {
    after.None? || after.value < x
  }

  /** The items are listed streams past `after`, ascending, and hold all of them up to the last item, or to the end. */
  predicate IsPage(after: Option<Stream>, p: Page) {
    && (forall i | 0 <= i < |p.items| :: p.items[i] in p.listing && Past(after, p.items[i].name))
    && (forall i, j | 0 <= i < j < |p.items| :: p.items[i].name < p.items[j].name)
    && (forall info | info in p.listing && Past(after, info.name) ::
          (!p.more || (p.items != [] && info.name <= p.items[|p.items| - 1].name)) ==> info in p.items)
  }

  function LiveNames(items: seq<Info>): set<Stream> {
    set i | 0 <= i < |items| && !items[i].deleted :: items[i].name
  }

  /** A processed page; the complete set of names comes only with the last page, and a new scan starts after it. */
  function AfterPage(scan: Scan, p: Page): (Scan, Option<set<Stream>>) {
    var seen := scan.seen + LiveNames(p.items);
    if p.more && p.items != [] then (Scan(Some(p.items[|p.items| - 1].name), seen), None)
    else (Scan(None, {}), Some(seen))
  }

  class PrefixScan {
    var startAfter: Option<Stream>
    var seen: set<Stream>

    function Model(): Scan
      reads this
    {
      Scan(startAfter, seen)
    }

    constructor ()
      ensures Model() == Scan(None, {})
    {
      startAfter, seen := None, {};
    }

    method RecordPage(names: set<Stream>, next: Option<Stream>) returns (listed: Option<set<Stream>>)
      modifies this
      ensures next.Some? ==> listed == None && Model() == Scan(next, old(seen) + names)
      ensures next.None? ==> listed == Some(old(seen) + names) && Model() == Scan(None, {})
    {
      seen := seen + names;
      if next.Some? {
        startAfter := next;
        listed := None;
      } else {
        startAfter := None;
        listed := Some(seen);
        seen := {};
      }
    }

    /** One refresh: a failed listing or a failed reader start leaves the scan where it was. */
    method RefreshPage(answer: Option<Page>, started: bool) returns (listed: Result<Option<set<Stream>>, ()>)
      modifies this
      ensures listed.Err? <==> answer.None? || (answer.value.more && answer.value.items == []) || !started
      ensures listed.Err? ==> Model() == old(Model())
      ensures listed.Ok? ==> (Model(), listed.value) == AfterPage(old(Model()), answer.value)
    {
      if answer.None? {
        return Err(());
      }
      var p := answer.value;
      var next := None;
      if p.more {
        if p.items == [] {
          return Err(());
        }
        next := Some(p.items[|p.items| - 1].name);
      }
      if !started {
        return Err(());
      }
      var r := RecordPage(LiveNames(p.items), next);
      listed := Ok(r);
    }
  }

  /** The pages of one scan, from `scan` to the page that completes it with `listed`. */
  predicate Scans(scan: Scan, pages: seq<Page>, listed: set<Stream>)
    decreases |pages|
  {
    && pages != [] && IsPage(scan.startAfter, pages[0]) && !(pages[0].more && pages[0].items == [])
    && var (scan', r) := AfterPage(scan, pages[0]);
       if r.Some? then |pages| == 1 && listed == r.value else Scans(scan', pages[1..], listed)
  }

  predicate LiveThroughout(pages: seq<Page>, x: Stream) {
    forall i | 0 <= i < |pages| :: Info(x, false) in pages[i].listing
  }

  /** A stream that stays listed during the whole scan is in its result, so its reader is not stopped. */
  lemma {:induction false} ScanMissesNothing(scan: Scan, pages: seq<Page>, listed: set<Stream>, x: Stream)
    requires Scans(scan, pages, listed) && LiveThroughout(pages, x)
    requires Past(scan.startAfter, x) || x in scan.seen
    ensures x in listed
    decreases |pages|
  {
    var p := pages[0];
    assert Info(x, false) in p.listing;
    var (scan', r) := AfterPage(scan, p);
    if Past(scan.startAfter, x) && Info(x, false) in p.items {
      var i :| 0 <= i < |p.items| && p.items[i] == Info(x, false);
      assert x in LiveNames(p.items);
    }
    if r.None? {
      assert forall i | 0 <= i < |pages[1..]| :: pages[1..][i] == pages[i + 1];
      ScanMissesNothing(scan', pages[1..], listed, x);
    }
  }

  /** Nothing is in the result that no page listed as live. */
  lemma {:induction false} ScanInventsNothing(scan: Scan, pages: seq<Page>, listed: set<Stream>, x: Stream)
    requires Scans(scan, pages, listed) && x in listed
    ensures x in scan.seen || exists i :: 0 <= i < |pages| && Info(x, false) in pages[i].listing
    decreases |pages|
  {
    var p := pages[0];
    var (scan', r) := AfterPage(scan, p);
    if x in LiveNames(p.items) {
      var i :| 0 <= i < |p.items| && !p.items[i].deleted && p.items[i].name == x;
      assert p.items[i] == Info(x, false);
    } else if r.None? {
      ScanInventsNothing(scan', pages[1..], listed, x);
      if x !in scan.seen {
        var i :| 0 <= i < |pages[1..]| && Info(x, false) in pages[1..][i].listing;
        assert Info(x, false) in pages[i + 1].listing;
      }
    }
  }

  // ---------------------------------------------------------------- the source object

  datatype StartPosition = Earliest | Latest

  /** The steps a call of `generate_batch` is made of, on the source's own fields. */
  function SourceApply(src: Source, step: Step): Source {
    match step
    case Forward(k, qs) => ForwardSource(src, k, qs)
    case Begin => BeginSource(src)
    case Receive => ReceiveSource(src)
    case Take(n) => TakeSource(src, n)
    case _ => src
  }

  predicate SourceEnabled(src: Source, step: Step) {
    match step
    case Forward(k, qs) => k in src.next && qs != []
    case Begin => true
    case Receive => src.channel != []
    case Take(n) => 1 <= n <= |src.carry|
    case _ => false
  }

  predicate Leads(src: Source, steps: seq<Step>, src': Source)
    decreases |steps|
  {
    if steps == [] then src == src'
    else SourceEnabled(src, steps[0]) && Leads(SourceApply(src, steps[0]), steps[1..], src')
  }

  lemma {:induction false} LeadsThen(src: Source, steps: seq<Step>, mid: Source, step: Step)
    requires Leads(src, steps, mid) && SourceEnabled(mid, step)
    ensures Leads(src, steps + [step], SourceApply(mid, step))
    decreases |steps|
  {
    hide SourceApply, SourceEnabled;
    if steps == [] {
      assert (steps + [step])[1..] == [];
    } else {
      LeadsThen(SourceApply(src, steps[0]), steps[1..], mid, step);
      assert (steps + [step])[0] == steps[0] && (steps + [step])[1..] == steps[1..] + [step];
    }
  }

  /** What a call does after it has counted the delivered batch: receive, and at the end take. */
  predicate Tops(steps: seq<Step>) {
    forall i | 0 <= i < |steps| :: steps[i].Receive? || steps[i].Forward? || (steps[i].Take? && i == |steps| - 1)
  }

  /** Read batches that arrive meanwhile hold what their stream holds. */
  predicate Honest(s: System, steps: seq<Step>)
    decreases |steps|
  {
    steps != [] ==> (steps[0].Forward? ==> Enabled(s, steps[0])) && Honest(Apply(s, steps[0]), steps[1..])
  }

  /** The records that arrive during the steps. */
  function Arrived(steps: seq<Step>): seq<Record> {
    if steps == [] then [] else ArrivedBy(steps[0]) + Arrived(steps[1..])
  }

  function ArrivedBy(step: Step): seq<Record> {
    if step.Forward? then Tag(step.k, step.qs) else []
  }

  lemma {:induction false} ArrivedThen(steps: seq<Step>, step: Step)
    ensures Arrived(steps + [step]) == Arrived(steps) + ArrivedBy(step)
  {
    hide ArrivedBy;
    if steps == [] {
      assert [step][1..] == [] && Arrived([]) == [];
      assert steps + [step] == [step] && Arrived([step]) == ArrivedBy(step) + [];
    } else {
      ArrivedThen(steps[1..], step);
      assert (steps + [step])[1..] == steps[1..] + [step];
      hide Arrived;
      Associate(ArrivedBy(steps[0]), Arrived(steps[1..]), ArrivedBy(step));
      assert Arrived(steps + [step]) == ArrivedBy(steps[0]) + (Arrived(steps[1..]) + ArrivedBy(step)) by { ArrivedFirst(steps + [step]); }
      ArrivedFirst(steps);
    }
  }

  lemma ArrivedFirst(steps: seq<Step>)
    requires steps != []
    ensures Arrived(steps) == ArrivedBy(steps[0]) + Arrived(steps[1..])
  {
  }

  lemma {:induction false} TopsIsRun(s: System, steps: seq<Step>, src': Source) returns (s': System)
    requires Leads(s.src, steps, src') && Tops(steps) && Honest(s, steps) && s.out == []
    ensures Run(s, steps, s') && s'.src == src'
    ensures s'.out + Waiting(src') == Waiting(s.src) + Arrived(steps)
    decreases |steps|
  {
    if steps == [] {
      s' := s;
      assert Arrived(steps) == [];
    } else {
      hide *;
      var s1 := Apply(s, steps[0]);
      TopsFirst(s, steps, src');
      if |steps| == 1 {
        s' := s1;
        LastTop(s1, steps[1..], src');
      } else {
        s' := TopsIsRun(s1, steps[1..], src');
      }
      RunFirst(s, steps, s');
      Associate(Waiting(s.src), ArrivedBy(steps[0]), Arrived(steps[1..]));
      ArrivedFirst(steps);
      if |steps| > 1 {
        assert s'.out + Waiting(src') == (Waiting(s.src) + ArrivedBy(steps[0])) + Arrived(steps[1..]);
      }
    }
  }

  lemma TopsFirst(s: System, steps: seq<Step>, src': Source)
    requires Leads(s.src, steps, src') && Tops(steps) && Honest(s, steps) && s.out == [] && steps != []
    ensures var s1 := Apply(s, steps[0]);
      && Enabled(s, steps[0]) && Leads(s1.src, steps[1..], src') && Tops(steps[1..]) && Honest(s1, steps[1..])
      && (|steps| > 1 ==> s1.out == [] && Waiting(s1.src) == Waiting(s.src) + ArrivedBy(steps[0]))
      && s1.out + Waiting(s1.src) == Waiting(s.src) + ArrivedBy(steps[0])
  {
    hide Apply, Enabled, SourceApply, SourceEnabled, Waiting, ArrivedBy;
    TopStep(s, steps[0]);
  }

  lemma LastTop(s: System, rest: seq<Step>, src': Source)
    requires Leads(s.src, rest, src') && rest == []
    ensures s.src == src' && Arrived(rest) == [] && Run(s, rest, s)
  {
  }

  lemma RunFirst(s: System, steps: seq<Step>, s': System)
    requires steps != [] && Enabled(s, steps[0]) && Run(Apply(s, steps[0]), steps[1..], s')
    ensures Run(s, steps, s')
  {
    hide Enabled, Apply;
  }

  lemma TopStep(s: System, step: Step)
    requires SourceEnabled(s.src, step) && (step.Receive? || step.Take? || (step.Forward? && Enabled(s, step))) && s.out == []
    ensures Enabled(s, step) && Apply(s, step).src == SourceApply(s.src, step)
    ensures !step.Take? ==> Apply(s, step).out == []
    ensures Apply(s, step).out + Waiting(Apply(s, step).src) == Waiting(s.src) + ArrivedBy(step)
  {
    hide Chain, PositionsOf, Flatten, Tag;
    match step {
      case Forward(k, qs) => ForwardWaits(s.src, k, qs);
      case Receive => ReceiveWaits(s.src);
      case Take(n) =>
        Associate(s.src.carry[..n], s.src.carry[n..], Flatten(s.src.channel));
        assert s.src.carry[..n] + s.src.carry[n..] == s.src.carry;
      case _ =>
    }
  }

  lemma ForwardWaits(src: Source, k: Stream, qs: seq<nat>)
    requires k in src.next
    ensures Waiting(ForwardSource(src, k, qs)) == Waiting(src) + Tag(k, qs)
  {
    FlattenAppend(src.channel, Tag(k, qs));
    Associate(src.carry, Flatten(src.channel), Tag(k, qs));
  }

  lemma ReceiveWaits(src: Source)
    ensures Waiting(ReceiveSource(src)) == Waiting(src)
  {
    if src.channel != [] {
      FlattenHead(src.channel);
      Associate(src.carry, src.channel[0], Flatten(src.channel[1..]));
    }
  }

  /**
   A call of `generate_batch` is a run of the system, so the theorems about runs
   speak of it, and the batch in flight afterwards is the one it returned.
   */
  lemma CallIsRun(s: System, steps: seq<Step>, src': Source, rows: seq<Record>) returns (s': System)
    requires Leads(s.src, steps, src') && steps != [] && steps[0] == Begin && Tops(steps[1..])
    requires s.delivered && Honest(s, steps)
    requires rows + Waiting(src') == Waiting(s.src) + Arrived(steps)
    ensures Run(s, steps, s') && s'.src == src' && s'.out == rows
  {
    var s1 := Apply(s, Begin);
    BeginStep(s);
    ArrivedFirst(steps);
    assert ArrivedBy(Begin) + Arrived(steps[1..]) == Arrived(steps[1..]);
    hide Apply, Enabled, SourceApply, SourceEnabled, Waiting, Arrived, ArrivedBy, Run;
    s' := TopsIsRun(s1, steps[1..], src');
    RunFirst(s, steps, s');
    SameFront(s'.out, rows, Waiting(src'));
  }

  lemma BeginStep(s: System)
    requires s.delivered
    ensures var s1 := Apply(s, Begin);
      s1.src == SourceApply(s.src, Begin) && s1.out == [] && Enabled(s, Begin) && Waiting(s1.src) == Waiting(s.src)
  {
  }

  lemma SameFront(a: seq<Record>, b: seq<Record>, rest: seq<Record>)
    requires a + rest == b + rest
    ensures a == b
  {
    assert |a| == |b|;
    assert (a + rest)[..|a|] == a && (b + rest)[..|b|] == b;
  }

  /** The late read batch, if it comes while nothing waits. */
  function LateRecords(late: Option<(Stream, seq<nat>)>, waiting: seq<Record>): seq<Record> {
    if late.Some? && waiting == [] then Tag(late.value.0, late.value.1) else []
  }

  lemma CarryWaits(src: Source)
    ensures src.channel == [] ==> Waiting(src) == src.carry
    ensures src.carry != [] ==> Waiting(src) != []
    ensures Waiting(src) + [] == Waiting(src)
  {
    FlattenNothing<Record>();
  }

  lemma TopsOf(steps: seq<Step>)
    requires steps != [] && forall i | 1 <= i < |steps| :: steps[i].Receive? || steps[i].Forward?
    ensures Tops(steps[1..])
  {
  }

  lemma TopsThen(steps: seq<Step>, n: nat)
    requires steps != [] && forall i | 1 <= i < |steps| :: steps[i].Receive? || steps[i].Forward?
    ensures Tops((steps + [Take(n)])[1..])
  {
    assert (steps + [Take(n)])[1..] == steps[1..] + [Take(n)];
  }

  lemma AtLeastCarry(src: Source)
    ensures |Waiting(src)| >= |src.carry|
  {
  }

  class S2Source {
    const batchSize: nat
    const start: StartPosition
    const exact: set<Stream>
    var positions: map<Stream, nat>
    var next: map<Stream, nat>
    var channel: seq<seq<Record>>
    var carry: seq<Record>
    var pending: map<Stream, nat>
    var epochs: map<nat, map<Stream, nat>>

    function Model(): Source
      reads this
    {
      Source(positions, next, channel, carry, pending, epochs)
    }

    constructor (batchSize: nat, start: StartPosition, exact: set<Stream>)
      ensures Model() == Start().src
      ensures this.batchSize == batchSize && this.start == start && this.exact == exact
    {
      this.batchSize, this.start, this.exact := batchSize, start, exact;
      positions, next, channel, carry, pending, epochs := map[], map[], [], [], map[], map[];
    }

    /** Starts a reader unless one is running, from the checkpoint, else from the configured end of the stream. */
    method EnsureStream(k: Stream, stored: Result<Option<nat>, ()>, tail: Result<nat, ()>) returns (ok: bool)
      modifies this`positions, this`next
      ensures k in old(next) ==> ok && Model() == old(Model())
      ensures k !in old(next) ==> (ok <==> stored.Ok? && (stored.value.Some? || start == Earliest || tail.Ok?))
      ensures !ok ==> Model() == old(Model())
      ensures ok && k !in old(next) ==>
        Model() == EnsureSource(old(Model()), k,
          if stored.value.Some? then stored.value.value else if start == Earliest then 0 else tail.value)
    {
      if k in next {
        return true;
      }
      if stored.Err? {
        return false;
      }
      var from := 0;
      if stored.value.Some? {
        from := stored.value.value;
      } else if start == Latest {
        if tail.Err? {
          return false;
        }
        from := tail.value;
      }
      positions := positions[k := from];
      next := next[k := from];
      ok := true;
    }

    /** A reader task pushes one read batch; an empty one is ignored. */
    method ForwardBatch(k: Stream, qs: seq<nat>)
      requires k in next
      modifies this`next, this`channel
      ensures Model() == if qs == [] then old(Model()) else ForwardSource(old(Model()), k, qs)
    {
      if qs == [] {
        return;
      }
      next := next[k := Next(qs[|qs| - 1])];
      channel := channel + [Tag(k, qs)];
    }

    method RecordDelivered(updates: map<Stream, nat>)
      modifies this`positions
      ensures positions == RecordEmitted(old(positions), updates)
    {
      var order := Elements(updates.Keys);
      ghost var before := positions;
      for i := 0 to |order|
        invariant positions.Keys == before.Keys
        invariant forall k | k in before && k !in order[..i] :: positions[k] == before[k]
        invariant forall k | k in before && k in order[..i] :: positions[k] == RecordEmitted(before, updates)[k]
      {
        var k := order[i];
        assert k in updates && order[..i + 1] == order[..i] + [k];
        assert k !in order[..i];
        if k in positions && updates[k] > positions[k] {
          positions := positions[k := updates[k]];
        }
      }
      assert order[..|order|] == order;
      assert forall k | k in before :: positions[k] == RecordEmitted(before, updates)[k];
    }

    /** Tops up the carry; `late` is a read batch that arrives while an empty source waits. */
    method Fill(late: Option<(Stream, seq<nat>)>, ghost src: Source, ghost before: seq<Step>) returns (ghost steps: seq<Step>)
      requires Leads(src, before, Model()) && batchSize >= 1
      requires late.Some? ==> late.value.0 in next && late.value.1 != []
      modifies this`carry, this`channel, this`next
      ensures Leads(src, steps, Model()) && pending == old(pending) && positions == old(positions) && epochs == old(epochs)
      ensures before <= steps && forall i | |before| <= i < |steps| :: steps[i].Receive? || steps[i].Forward?
      ensures |carry| >= batchSize || channel == []
      ensures Waiting(Model()) == old(Waiting(Model())) + LateRecords(late, old(Waiting(Model())))
      ensures Arrived(steps) == Arrived(before) + LateRecords(late, old(Waiting(Model())))
    {
      steps := before;
      hide Leads, Waiting, Arrived;
      while |carry| < batchSize && channel != []
        invariant Leads(src, steps, Model()) && pending == old(pending) && positions == old(positions) && epochs == old(epochs)
        invariant next == old(next)
        invariant before <= steps && forall i | |before| <= i < |steps| :: steps[i].Receive? || steps[i].Forward?
        invariant Waiting(Model()) == old(Waiting(Model())) && Arrived(steps) == Arrived(before)
        decreases |channel|
      {
        ReceiveOne(src, steps);
        steps := steps + [Receive];
      }
      CarryWaits(Model());
      if carry == [] && late.Some? && channel == [] {
        LeadsThen(src, steps, Model(), Forward(late.value.0, late.value.1));
        ForwardWaits(Model(), late.value.0, late.value.1);
        ArrivedThen(steps, Forward(late.value.0, late.value.1));
        ForwardBatch(late.value.0, late.value.1);
        steps := steps + [Forward(late.value.0, late.value.1)];
        ReceiveOne(src, steps);
        steps := steps + [Receive];
      } else {
        assert LateRecords(late, old(Waiting(Model()))) == [];
        assert Arrived(before) + [] == Arrived(before);
      }
    }

    method ReceiveOne(ghost src: Source, ghost steps: seq<Step>)
      requires Leads(src, steps, Model()) && channel != []
      modifies this`carry, this`channel
      ensures Leads(src, steps + [Receive], Model()) && channel == old(channel)[1..]
      ensures Waiting(Model()) == old(Waiting(Model())) && Arrived(steps + [Receive]) == Arrived(steps)
    {
      LeadsThen(src, steps, Model(), Receive);
      ReceiveWaits(Model());
      ArrivedThen(steps, Receive);
      carry := carry + channel[0];
      channel := channel[1..];
    }

    /** The batch returned before counts as delivered. */
    method CountDelivered()
      modifies this`positions, this`pending
      ensures Model() == BeginSource(old(Model()))
      ensures Leads(old(Model()), [Begin], Model()) && Waiting(Model()) == old(Waiting(Model())) && Arrived([Begin]) == []
    {
      LeadsThen(Model(), [], Model(), Begin);
      assert [] + [Begin] == [Begin] && [Begin][1..] == [];
      hide Leads;
      var delivered := pending;
      pending := map[];
      if delivered != map[] {
        RecordDelivered(delivered);
      } else {
        assert positions == RecordEmitted(positions, delivered);
      }
    }

    /**
     One `generate_batch`: counts the batch delivered before, tops up the carry
     and takes the oldest waiting records, as many as fit or as there are. It
     fails exactly when there are records and they do not convert, and then
     none is lost.
     */
    method GenerateBatch(late: Option<(Stream, seq<nat>)>, converts: bool) returns (r: Result<seq<Record>, ()>, ghost steps: seq<Step>)
      requires late.Some? ==> late.value.0 in next && late.value.1 != []
      requires batchSize >= 1
      modifies this`positions, this`pending, this`carry, this`channel, this`next
      ensures Leads(old(Model()), steps, Model()) && epochs == old(epochs)
      ensures steps != [] && steps[0] == Begin && Tops(steps[1..])
      ensures r.Ok? && r.value != [] <==> steps[|steps| - 1].Take?
      ensures r.Ok? && r.value != [] ==> steps[|steps| - 1] == Take(|r.value|) && pending == PositionsOf(r.value)
      ensures var all := old(Waiting(Model())) + LateRecords(late, old(Waiting(Model())));
        && Arrived(steps) == LateRecords(late, old(Waiting(Model())))
        && (if r.Ok? then r.value else []) + Waiting(Model()) == all
        && (r.Ok? ==> |r.value| == if |all| < batchSize then |all| else batchSize)
        && (r.Err? <==> !converts && all != [])
    {
      hide Leads, Waiting, Arrived, LateRecords, Tops, PositionsOf, BeginSource, Flatten, SourceApply, SourceEnabled;
      ghost var src := Model();
      CountDelivered();
      steps := Fill(late, src, [Begin]);
      assert steps[0] == [Begin][0];
      TopsOf(steps);
      ghost var all := Waiting(src) + LateRecords(late, Waiting(src));
      assert Waiting(Model()) == all;
      CarryWaits(Model());
      AtLeastCarry(Model());
      var take := if |carry| < batchSize then |carry| else batchSize;
      if take == 0 {
        assert carry == [] && channel == [] && all == [];
        assert [] + Waiting(Model()) == Waiting(Model());
        return Ok([]), steps;
      }
      if !converts {
        assert [] + Waiting(Model()) == Waiting(Model());
        return Err(()), steps;
      }
      var rows := TakeRows(take, src, steps);
      TopsThen(steps, take);
      steps := steps + [Take(take)];
      r := Ok(rows);
    }

    /** Takes rows off the front of the carry and notes the positions they give. */
    method TakeRows(take: nat, ghost src: Source, ghost steps: seq<Step>) returns (rows: seq<Record>)
      requires 1 <= take <= |carry| && Leads(src, steps, Model())
      modifies this`pending, this`carry
      ensures Leads(src, steps + [Take(take)], Model()) && Arrived(steps + [Take(take)]) == Arrived(steps)
      ensures |rows| == take && pending == PositionsOf(rows)
      ensures rows + Waiting(Model()) == old(Waiting(Model()))
    {
      hide Leads, PositionsOf, Flatten;
      rows := carry[..take];
      LeadsThen(src, steps, Model(), Take(take));
      ArrivedThen(steps, Take(take));
      Associate(rows, carry[take..], Flatten(channel));
      assert rows + carry[take..] == carry;
      pending := BatchPositions(rows);
      carry := carry[take..];
    }

    method ProcessMarker(epoch: nat)
      modifies this`epochs
      ensures Model() == MarkSource(old(Model()), epoch)
    {
      epochs := epochs[epoch := positions];
    }

    method ProcessFinalizer(epoch: nat) returns (writes: map<Stream, nat>)
      modifies this`epochs
      ensures writes == ToPersist(old(Model()), epoch)
      ensures Model() == old(Model()).(epochs := DropEpochs(old(epochs), epoch))
    {
      writes := map[];
      if epoch in epochs {
        writes := map k | k in epochs[epoch] && k in positions :: epochs[epoch][k];
      }
      epochs := map e | e in epochs && e > epoch :: epochs[e];
    }

    /** Stops the readers a completed scan did not list; configured streams are protected. */
    method PruneUnlisted(listed: set<Stream>) returns (removed: set<Stream>)
      modifies this`positions, this`next
      ensures Model() == PruneSource(old(Model()), removed)
      ensures removed == old(next).Keys - listed - exact
    {
      removed := next.Keys - listed - exact;
      next := next - removed;
      positions := positions - removed;
    }
  }
}
