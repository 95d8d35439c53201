/**
 The CloudTrail source as a whole: poller, bounded channel, carry, delivered
 watermark, checkpoint epochs and crashes.

 `Source` holds the fields of one running source; its class form is
 `CloudTrailSource`. `System` adds the poller, the state backend and a log:
 every record queued in this incarnation in order, how many of them the host
 has delivered, every record ever queued in any incarnation, every id ever
 skipped as malformed, and the records delivered before a marker was taken.
 */
module CloudTrailSources {
  import opened Collections
  import opened Wrappers
  import opened CloudTrailPoller

  type Batch = seq<Record>

  datatype Source = Source(
    channel: seq<Batch>, carry: seq<Record>, pending: Option<i64>, delivered: i64, epochs: map<nat, i64>)

  function NewSource(watermark: i64): Source {
    Source([], [], None, watermark, map[])
  }

  /** Moves queued batches to the carry, in order, losing no record; stops at `batchSize` records. */
  function Fill(carry: seq<Record>, channel: seq<Batch>, batchSize: nat): (r: (seq<Record>, seq<Batch>))
    ensures r.0 + Flatten(r.1) == carry + Flatten(channel)
    decreases |channel|
  {
    if |carry| >= batchSize || channel == [] then (carry, channel)
    else
      FlattenHead(channel);
      Fill(carry + channel[0], channel[1..], batchSize)
  }

  function Min(a: int, b: int): int { if a < b then a else b }

  /** The previously returned batch counts as delivered from the next call on. */
  function Settle(s: Source): Source {
    s.(pending := None, delivered := if s.pending.Some? then Max(s.delivered, s.pending.value) else s.delivered)
  }

  datatype ConvertError = Bad

  /** One `generate_batch`; on a conversion error the records stay in the carry. */
  function Generate(s: Source, batchSize: nat, convertOk: bool): (Source, Result<Batch, ConvertError>) {
    var s1 := Settle(s);
    var (carry, channel) := Fill(s1.carry, s1.channel, batchSize);
    var s2 := s1.(carry := carry, channel := channel);
    var take := Min(|carry|, batchSize);
    if take == 0 then (s2, Ok([]))
    else if !convertOk then (s2, Err(Bad))
    else (s2.(carry := carry[take..], pending := MaxTime(carry[..take])), Ok(carry[..take]))
  }

  function MarkEpoch(s: Source, epoch: nat): Source {
    s.(epochs := s.epochs[epoch := s.delivered])
  }

  /** Drops the epoch and every older one; the snapshot, if any, is to be persisted. */
  function TakeEpoch(s: Source, epoch: nat): (Source, Option<i64>) {
    (s.(epochs := map e | e in s.epochs && e > epoch :: s.epochs[e]),
     if epoch in s.epochs then Some(s.epochs[epoch]) else None)
  }

  class CloudTrailSource {
    const batchSize: nat
    var channel: seq<Batch>
    var carry: seq<Record>
    var pending: Option<i64>
    var delivered: i64
    var epochs: map<nat, i64>

    function Model(): Source
      reads this
    {
      Source(channel, carry, pending, delivered, epochs)
    }

    constructor (watermark: i64, batchSize: nat)
      ensures Model() == NewSource(watermark) && this.batchSize == batchSize
    {
      channel, carry, pending, delivered, epochs := [], [], None, watermark, map[];
      this.batchSize := batchSize;
    }

    method FillCarry()
      modifies this`carry, this`channel
      ensures (carry, channel) == Fill(old(carry), old(channel), batchSize)
    {
      while |carry| < batchSize && channel != []
        invariant Fill(carry, channel, batchSize) == Fill(old(carry), old(channel), batchSize)
        decreases |channel|
      {
        carry := carry + channel[0];
        channel := channel[1..];
      }
    }

    method GenerateBatch(convertOk: bool) returns (r: Result<Batch, ConvertError>)
      modifies this
      ensures (Model(), r) == Generate(old(Model()), batchSize, convertOk)
    {
      if pending.Some? {
        delivered := Max(delivered, pending.value);
        pending := None;
      }
      FillCarry();
      var take := Min(|carry|, batchSize);
      if take == 0 {
        return Ok([]);
      }
      if !convertOk {
        return Err(Bad);
      }
      var rows := carry[..take];
      carry := carry[take..];
      pending := MaxTime(rows);
      r := Ok(rows);
    }

    method ProcessMarker(epoch: nat)
      modifies this`epochs
      ensures Model() == MarkEpoch(old(Model()), epoch)
    {
      epochs := epochs[epoch := delivered];
    }

    method ProcessFinalizer(epoch: nat) returns (persist: Option<i64>)
      modifies this`epochs
      ensures (Model(), persist) == TakeEpoch(old(Model()), epoch)
    {
      persist := if epoch in epochs then Some(epochs[epoch]) else None;
      epochs := map e | e in epochs && e > epoch :: epochs[e];
    }
  }

  // ---------------------------------------------------------------- the system

  /** The poller and what it still has to send of the last window; `poll` already holds the next watermark. */
  datatype System = System(
    poll: Poll, sending: seq<Batch>, src: Source, backend: Option<i64>,
    // log of this incarnation
    first: i64, queued: seq<Record>, shown: nat, batch: nat,
    // log of all incarnations
    ever: iset<Record>, bad: iset<Id>, safe: iset<Record>, marks: map<nat, iset<Record>>)

  datatype Step =
    | Poll_(now: i64, pages: seq<Page>)
    | SendChunk
    | Generate_(convertOk: bool)
    | Mark(epoch: nat)
    | Final(epoch: nat, putOk: bool)
    | Crash(now: i64)

  ghost function Split(records: seq<Record>, batchSize: nat): seq<Batch>
    requires batchSize >= 1
    ensures Flatten(Split(records, batchSize)) == records
    decreases |records|
  {
    if |records| <= batchSize then
      (assert [records][..0] == []; if records == [] then [] else [records])
    else
      var rest := Split(records[batchSize..], batchSize);
      FlattenHead([records[..batchSize]] + rest);
      assert ([records[..batchSize]] + rest)[1..] == rest;
      [records[..batchSize]] + rest
  }

  /** What LookupEvents promises about one window. */
  ghost predicate ApiContract(pages: seq<Page>, win: Window, ever: iset<Record>, bad: iset<Id>) {
    // only events inside the window
    && (forall r | Returned(pages, Good(r)) :: win.start <= r.time && (win.end.Some? ==> r.time <= win.end.value))
    // an id names one event, which is well-formed or not
    && (forall r, x | Returned(pages, Good(r)) && x in ever && r.id == x.id :: r == x)
    && (forall r, x | Returned(pages, Good(r)) && Returned(pages, Good(x)) && r.id == x.id :: r == x)
    && (forall e, x | Returned(pages, e) && e.Malformed? && (x in ever || Returned(pages, Good(x))) :: e.id != Some(x.id))
    && (forall r | Returned(pages, Good(r)) :: r.id !in bad)
    // a complete scan returns again what it returned before
    && (forall x | x in ever && win.start <= x.time && (win.end.Some? ==> x.time <= win.end.value) :: Returned(pages, Good(x)))
  }

  ghost predicate Enabled(c: Config, s: System, st: Step) {
    match st
    case Poll_(now, pages) =>
      var win := PlanWindow(s.poll.watermark, s.poll.floor, c.lookback, c.maxWindow, now);
      && s.sending == []
      && (Cycle(c, s.poll, now, pages).1.Some? ==> ApiContract(pages, win, s.ever, s.bad))
    case SendChunk => s.sending != []
    case Generate_(_) => true
    case Mark(e) => forall e' | e' in s.marks :: e' < e
    case Final(_, _) => true
    case Crash(now) => now >= 0
  }

  function Undelivered(s: System): seq<Record> {
    s.src.carry + Flatten(s.src.channel) + Flatten(s.sending)
  }

  ghost function Delivered(s: System): iset<Record>
    requires s.shown <= |s.queued|
  {
    s.safe + iset x | x in s.queued[..s.shown]
  }

  ghost function MalformedIds(pages: seq<Page>): iset<Id> {
    iset id | Returned(pages, Malformed(Some(id), None)) || exists t :: Returned(pages, Malformed(Some(id), Some(t)))
  }

  ghost function Apply(c: Config, s: System, st: Step): System
    requires c.batchSize >= 1 && Enabled(c, s, st) && s.shown <= |s.queued|
  {
    match st
    case Poll_(now, pages) =>
      var (poll, out) := Cycle(c, s.poll, now, pages);
      if out.None? then s.(poll := poll)
      else s.(poll := poll, sending := Split(out.value, c.batchSize),
              queued := s.queued + out.value, ever := s.ever + (iset x | x in out.value),
              bad := s.bad + MalformedIds(pages))
    case SendChunk =>
      s.(sending := s.sending[1..], src := s.src.(channel := s.src.channel + [s.sending[0]]))
    case Generate_(ok) =>
      var (src, r) := Generate(s.src, c.batchSize, ok);
      s.(src := src, shown := s.shown + s.batch, batch := if r.Ok? then |r.value| else 0)
    case Mark(e) =>
      s.(src := MarkEpoch(s.src, e), marks := s.marks[e := Delivered(s)])
    case Final(e, putOk) =>
      var (src, snapshot) := TakeEpoch(s.src, e);
      if snapshot.Some? && putOk && e in s.marks
      then s.(src := src, backend := snapshot, safe := s.safe + s.marks[e])
      else s.(src := src)
    case Crash(now) =>
      // Without a persisted checkpoint the source begins at its start time again and nothing is owed.
      var (watermark, floor) := ResolveStart(s.backend, c.start, now);
      System(Poll(watermark, floor, map[]), [], NewSource(watermark), s.backend,
             watermark, [], 0, 0,
             if s.backend.Some? then s.ever else iset{}, s.bad, if s.backend.Some? then s.safe else iset{}, map[])
  }

  ghost predicate Init(c: Config, s: System) {
    exists now: i64 ::
      now >= 0 &&
      var (watermark, floor) := ResolveStart(None, c.start, now);
      s == System(Poll(watermark, floor, map[]), [], NewSource(watermark), None,
                  watermark, [], 0, 0, iset{}, iset{}, iset{}, map[])
  }

  ghost predicate ValidConfiguration(c: Config) {
    c.batchSize >= 1 && 0 <= c.lookback && (c.lookback < c.maxWindow || c.maxWindow == I64_MAX)
  }

  ghost predicate IsRun(c: Config, trace: seq<System>, steps: seq<Step>) {
    && ValidConfiguration(c) && |trace| == |steps| + 1 && Init(c, trace[0])
    && forall i | 0 <= i < |steps| ::
         && trace[i].shown <= |trace[i].queued|
         && Enabled(c, trace[i], steps[i]) && trace[i + 1] == Apply(c, trace[i], steps[i])
  }

  // ---------------------------------------------------------------- invariant

  /** Where the first window after a restart from the checkpoint `p` starts. */
  function RestartStart(c: Config, p: i64): i64 {
    WindowStart(p, ConfiguredFloor(c.start), c.lookback)
  }

  function NextStart(c: Config, p: Poll): i64 {
    WindowStart(p.watermark, p.floor, c.lookback)
  }

  ghost predicate FlowInv(s: System) {
    && s.shown + s.batch <= |s.queued|
    && s.queued[s.shown + s.batch..] == Undelivered(s)
  }

  /** No record is more than the lookback older than one queued before it, and all lie between the floor and the watermark. */
  ghost predicate QueueInv(c: Config, poll: Poll, first: i64, queued: seq<Record>) {
    && ConfiguredFloor(c.start) <= poll.floor && first <= poll.watermark
    && (forall j | 0 <= j < |queued| :: Max(poll.floor, 0) <= queued[j].time <= poll.watermark)
    && (forall j | 0 <= j < |queued| :: first - c.lookback <= queued[j].time)
    && (forall i, j | 0 <= i < j < |queued| :: queued[i].time - c.lookback <= queued[j].time)
  }

  /** `w` is the starting watermark or the time of one of the records `lo..hi`, and none of those is later. */
  ghost predicate Newest(queued: seq<Record>, lo: nat, hi: nat, w: i64)
    requires lo <= hi <= |queued|
  {
    && (forall i | lo <= i < hi :: queued[i].time <= w)
    && exists i :: lo <= i < hi && queued[i].time == w
  }

  ghost predicate HasTime(queued: seq<Record>, n: nat, t: i64)
    requires n <= |queued|
  {
    exists i :: 0 <= i < n && queued[i].time == t
  }

  /** The delivered watermark is the newest delivered time, the pending one the newest time of the batch in flight. */
  ghost predicate ShownInv(queued: seq<Record>, shown: nat, batch: nat, first: i64, src: Source)
    requires shown + batch <= |queued|
  {
    && first <= src.delivered
    && (src.delivered == first || HasTime(queued, shown, src.delivered))
    && (batch > 0 <==> src.pending.Some?)
    && (src.pending.Some? ==> Newest(queued, shown, shown + batch, src.pending.value))
  }

  /** Every queued record that the next window may return again is remembered. */
  ghost predicate Remembers(seen: map<Id, i64>, queued: seq<Record>, start: i64) {
    forall i | 0 <= i < |queued| && queued[i].time >= start ::
      queued[i].id in seen && seen[queued[i].id] == queued[i].time
  }

  /** Only queued and malformed events are remembered. */
  ghost predicate RemembersOnly(seen: map<Id, i64>, queued: seq<Record>, bad: iset<Id>) {
    forall id | id in seen :: HasId(queued, id) || id in bad
  }

  ghost predicate EverInv(queued: seq<Record>, ever: iset<Record>, bad: iset<Id>) {
    && (forall i | 0 <= i < |queued| :: queued[i] in ever)
    && (forall x | x in ever :: x.id !in bad)
    && (forall x, y | x in ever && y in ever && x.id == y.id :: x == y)
  }

  ghost predicate DedupInv(seen: map<Id, i64>, start: i64, queued: seq<Record>, ever: iset<Record>, bad: iset<Id>) {
    && IdsDistinct(queued) && EverInv(queued, ever, bad)
    && Remembers(seen, queued, start) && RemembersOnly(seen, queued, bad)
  }

  /** From checkpoint `p` a restart still reaches every record outside `done`. */
  ghost predicate Reaches(c: Config, p: i64, ever: iset<Record>, done: iset<Record>) {
    forall x | x in ever && x !in done :: x.time >= RestartStart(c, p)
  }

  ghost predicate EpochsInv(c: Config, src: Source, ever: iset<Record>, marks: map<nat, iset<Record>>) {
    && (forall e | e in src.epochs ::
          e in marks && src.epochs[e] <= src.delivered && Reaches(c, src.epochs[e], ever, marks[e]))
    && (forall e, f | e in src.epochs && f in src.epochs && e < f :: src.epochs[e] <= src.epochs[f])
  }

  ghost predicate BackendInv(c: Config, p: i64, src: Source, ever: iset<Record>, safe: iset<Record>) {
    && p <= src.delivered && Reaches(c, p, ever, safe)
    && forall e | e in src.epochs :: p <= src.epochs[e]
  }

  /** Records of earlier incarnations that are still owed lie ahead of the poller. */
  ghost predicate OwedAhead(start: i64, queued: seq<Record>, ever: iset<Record>, safe: iset<Record>) {
    forall x | x in ever && x !in safe && x !in queued :: x.time >= start
  }

  ghost predicate Inv(c: Config, s: System) {
    && FlowInv(s)
    && QueueInv(c, s.poll, s.first, s.queued)
    && ShownInv(s.queued, s.shown, s.batch, s.first, s.src)
    && DedupInv(s.poll.seen, NextStart(c, s.poll), s.queued, s.ever, s.bad)
    && EpochsInv(c, s.src, s.ever, s.marks)
    && (s.backend.Some? ==> BackendInv(c, s.backend.value, s.src, s.ever, s.safe))
    && OwedAhead(NextStart(c, s.poll), s.queued, s.ever, s.safe)
  }

  // ---------------------------------------------------------------- a poll cycle

  lemma {:induction false} RememberHas(seen: map<Id, i64>, records: seq<Record>)
    requires IdsDistinct(records)
    ensures forall id :: id in Remember(seen, records) <==> id in seen || HasId(records, id)
    ensures forall id | id in seen && !HasId(records, id) :: Remember(seen, records)[id] == seen[id]
    ensures Remembers(Remember(seen, records), records, I64_MIN)
  {
    if records != [] {
      var n := |records| - 1;
      var front := records[..n];
      assert records == front + [records[n]];
      AppendId(front, records[n]);
      RememberHas(seen, front);
      forall i | 0 <= i < |records|
        ensures records[i].id in Remember(seen, records) && Remember(seen, records)[records[i].id] == records[i].time
      {
        if i < n {
          assert front[i] == records[i];
          assert records[i].id != records[n].id;
        }
      }
    }
  }

  ghost predicate SkippedId(skipped: seq<(Id, i64)>, id: Id) {
    exists k :: 0 <= k < |skipped| && skipped[k].0 == id
  }

  lemma {:induction false} RememberSkippedHas(seen: map<Id, i64>, skipped: seq<(Id, i64)>)
    ensures forall id :: id in RememberSkipped(seen, skipped) <==> id in seen || SkippedId(skipped, id)
    ensures forall id | id in seen && !SkippedId(skipped, id) :: RememberSkipped(seen, skipped)[id] == seen[id]
  {
    if skipped != [] {
      var n := |skipped| - 1;
      var front := skipped[..n];
      RememberSkippedHas(seen, front);
      forall id
        ensures SkippedId(skipped, id) <==> SkippedId(front, id) || id == skipped[n].0
      {
        if SkippedId(front, id) {
          var k :| 0 <= k < n && front[k].0 == id;
          assert skipped[k].0 == id;
        }
        if SkippedId(skipped, id) && id != skipped[n].0 {
          var k :| 0 <= k < |skipped| && skipped[k].0 == id;
          assert front[k].0 == id;
        }
      }
    }
  }

  /** The records a successful window adds, related to what the API returned. */
  ghost predicate NewRecords(pages: seq<Page>, queued: seq<Record>, out: seq<Record>) {
    && IdsDistinct(out)
    && (forall i | 0 <= i < |out| :: Returned(pages, Good(out[i])) && !HasId(queued, out[i].id))
    && (forall x | Returned(pages, Good(x)) :: x in queued || x in out)
  }

  lemma SameId(queued: seq<Record>, id: Id) returns (i: nat)
    requires HasId(queued, id)
    ensures i < |queued| && queued[i].id == id
  {
    i :| 0 <= i < |queued| && queued[i].id == id;
  }

  /** A scan collects exactly the returned records that were not queued yet. */
  lemma FetchedIsNew(pages: seq<Page>, win: Window, s: System, f: Fetched)
    requires DedupInv(s.poll.seen, win.start, s.queued, s.ever, s.bad) && ApiContract(pages, win, s.ever, s.bad)
    requires Sound(f, Evict(s.poll.seen, win.start).Keys, ShownBy(pages))
    ensures NewRecords(pages, s.queued, f.records)
  {
    var kept := Evict(s.poll.seen, win.start);
    var shown := ShownBy(pages);
    forall k | 0 <= k < |f.records|
      ensures Returned(pages, Good(f.records[k])) && !HasId(s.queued, f.records[k].id)
    {
      var x := f.records[k];
      assert x in f.records;
      assert Good(x) in shown;
      forall i | 0 <= i < |s.queued|
        ensures s.queued[i].id != x.id
      {
        assert s.queued[i] in s.ever;
        if s.queued[i].time >= win.start {
          assert s.queued[i].id in kept;
        } else {
          assert s.queued[i] != x;
        }
      }
    }
    forall x | Returned(pages, Good(x))
      ensures x in s.queued || x in f.records
    {
      assert Good(x) in shown;
      if x.id in kept {
        var i := SameId(s.queued, x.id);
        assert s.queued[i] == x;
      } else {
        var i := SameId(f.records, x.id);
        assert f.records[i] in f.records;
        assert Good(f.records[i]) in shown;
      }
    }
  }

  /** What is remembered after a successful window. */
  lemma PollRemembers(pages: seq<Page>, win: Window, s: System, f: Fetched)
    requires DedupInv(s.poll.seen, win.start, s.queued, s.ever, s.bad) && ApiContract(pages, win, s.ever, s.bad)
    requires Sound(f, Evict(s.poll.seen, win.start).Keys, ShownBy(pages))
    requires NewRecords(pages, s.queued, f.records)
    ensures var seen := RememberSkipped(Remember(Evict(s.poll.seen, win.start), f.records), f.skipped);
      && Remembers(seen, s.queued, win.start) && Remembers(seen, f.records, I64_MIN)
      && (forall id | id in seen :: HasId(s.queued, id) || HasId(f.records, id) || id in s.bad || id in MalformedIds(pages))
  {
    hide HasId, ApiContract, Sound, Remember, RememberSkipped, NewRecords, EverInv;
    var kept := Evict(s.poll.seen, win.start);
    var mid := Remember(kept, f.records);
    RememberHas(kept, f.records) by { NewAreDistinct(pages, s.queued, f.records); }
    RememberSkippedHas(mid, f.skipped);
    forall id | SkippedId(f.skipped, id)
      ensures id in MalformedIds(pages) && !HasId(s.queued, id) && !HasId(f.records, id)
    {
      SkippedIsMalformed(pages, win, s, f, id);
    }
    OwnIds(f.records);
    OwnIds(s.queued);
    NewIdsAreNew(pages, s.queued, f.records);
  }

  lemma OwnIds(records: seq<Record>)
    ensures forall i | 0 <= i < |records| :: HasId(records, records[i].id)
  {
  }

  lemma NewAreDistinct(pages: seq<Page>, queued: seq<Record>, records: seq<Record>)
    requires NewRecords(pages, queued, records)
    ensures IdsDistinct(records)
  {
  }

  lemma NewIdsAreNew(pages: seq<Page>, queued: seq<Record>, records: seq<Record>)
    requires NewRecords(pages, queued, records)
    ensures forall i | 0 <= i < |queued| :: !HasId(records, queued[i].id)
  {
    forall i, j | 0 <= i < |queued| && 0 <= j < |records|
      ensures records[j].id != queued[i].id
    {
      assert !HasId(queued, records[j].id);
    }
  }

  lemma SkippedIsMalformed(pages: seq<Page>, win: Window, s: System, f: Fetched, id: Id)
    requires EverInv(s.queued, s.ever, s.bad) && ApiContract(pages, win, s.ever, s.bad)
    requires Sound(f, Evict(s.poll.seen, win.start).Keys, ShownBy(pages))
    requires NewRecords(pages, s.queued, f.records) && SkippedId(f.skipped, id)
    ensures id in MalformedIds(pages) && !HasId(s.queued, id) && !HasId(f.records, id)
  {
    hide Returned, Sound, SkippedId, Evict, IdsDistinct, HasId, MalformedIds;
    var e := SkippedWasReturned(pages, Evict(s.poll.seen, win.start).Keys, f, id);
    ReturnedIsMalformed(pages, e, id);
    LacksId(s.queued, id) by {
      assert forall i | 0 <= i < |s.queued| :: s.queued[i] in s.ever;
    }
    LacksId(f.records, id) by {
      assert forall i | 0 <= i < |f.records| :: Returned(pages, Good(f.records[i]));
    }
  }

  lemma SkippedWasReturned(pages: seq<Page>, known: set<Id>, f: Fetched, id: Id) returns (e: ApiEvent)
    requires Sound(f, known, ShownBy(pages)) && SkippedId(f.skipped, id)
    ensures Returned(pages, e) && e.Malformed? && e.id == Some(id)
  {
    hide Returned, IdsDistinct, HasId;
    var k :| 0 <= k < |f.skipped| && f.skipped[k].0 == id;
    assert f.skipped[k] in f.skipped;
    var shown := ShownBy(pages);
    e :| e in shown && e.Malformed? && e.id == Some(f.skipped[k].0);
  }

  lemma ReturnedIsMalformed(pages: seq<Page>, e: ApiEvent, id: Id)
    requires Returned(pages, e) && e.Malformed? && e.id == Some(id)
    ensures id in MalformedIds(pages)
  {
    hide Returned;
    assert e == Malformed(Some(id), None) || e == Malformed(Some(id), Some(e.time.value));
  }

  lemma LacksId(records: seq<Record>, id: Id)
    requires forall i | 0 <= i < |records| :: records[i].id != id
    ensures !HasId(records, id)
  {
  }

  /** Everything the invariant needs to know about one successful cycle. */
  ghost predicate PollFacts(c: Config, s: System, win: Window, pages: seq<Page>, poll: Poll, out: seq<Record>) {
    && Ascending(out) && NewRecords(pages, s.queued, out)
    && poll.floor == s.poll.floor
    && poll.watermark >= s.poll.watermark
    && (forall i | 0 <= i < |out| :: win.start <= out[i].time <= poll.watermark)
    && (win.end.Some? ==> poll.watermark == Max(s.poll.watermark, win.end.value))
    && Remembers(poll.seen, s.queued, win.start) && Remembers(poll.seen, out, I64_MIN)
    && (forall id | id in poll.seen :: HasId(s.queued, id) || HasId(out, id) || id in s.bad || id in MalformedIds(pages))
  }

  lemma PollGivesFacts(c: Config, s: System, now: i64, pages: seq<Page>)
    requires DedupInv(s.poll.seen, NextStart(c, s.poll), s.queued, s.ever, s.bad)
    requires Cycle(c, s.poll, now, pages).1.Some?
    requires ApiContract(pages, PlanWindow(s.poll.watermark, s.poll.floor, c.lookback, c.maxWindow, now), s.ever, s.bad)
    ensures var (poll, out) := Cycle(c, s.poll, now, pages);
      PollFacts(c, s, PlanWindow(s.poll.watermark, s.poll.floor, c.lookback, c.maxWindow, now), pages, poll, out.value)
  {
    var win := PlanWindow(s.poll.watermark, s.poll.floor, c.lookback, c.maxWindow, now);
    var kept := Evict(s.poll.seen, win.start);
    var f := CycleShape(c, s.poll, now, pages);
    ScanPagesSound(pages, kept.Keys, c.policy, win.start);
    hide ScanPages, Evict, Remember, RememberSkipped, Cycle, SortByTime, Sound, PollFacts, ApiContract, DedupInv, MaxTime;
    FactsOfFetched(c, s, win, pages, f);
  }

  lemma FactsOfFetched(c: Config, s: System, win: Window, pages: seq<Page>, f: Fetched)
    requires DedupInv(s.poll.seen, win.start, s.queued, s.ever, s.bad) && ApiContract(pages, win, s.ever, s.bad)
    requires Sound(f, Evict(s.poll.seen, win.start).Keys, ShownBy(pages))
    ensures PollFacts(c, s, win, pages,
      Poll(AdvanceWatermark(s.poll.watermark, MaxTime(f.records), win.end), s.poll.floor,
           RememberSkipped(Remember(Evict(s.poll.seen, win.start), f.records), f.skipped)),
      SortByTime(f.records))
  {
    hide Evict, Remember, RememberSkipped, SortByTime, MaxTime, HasId, Ascending, MalformedIds;
    hide DedupInv, ApiContract, Sound, NewRecords, Remembers;
    FetchedIsNew(pages, win, s, f);
    PollRemembers(pages, win, s, f);
    NewestInWindow(pages, win, s, f);
    SortedFacts(pages, s.queued, f, RememberSkipped(Remember(Evict(s.poll.seen, win.start), f.records), f.skipped), win.start);
  }

  lemma CycleShape(c: Config, p: Poll, now: i64, pages: seq<Page>) returns (f: Fetched)
    requires Cycle(c, p, now, pages).1.Some?
    ensures var win := PlanWindow(p.watermark, p.floor, c.lookback, c.maxWindow, now);
      var kept := Evict(p.seen, win.start);
      && ScanPages(pages, kept.Keys, c.policy, win.start) == Ok(f)
      && Cycle(c, p, now, pages) ==
         (Poll(AdvanceWatermark(p.watermark, MaxTime(f.records), win.end), p.floor,
               RememberSkipped(Remember(kept, f.records), f.skipped)),
          Some(SortByTime(f.records)))
  {
    var win := PlanWindow(p.watermark, p.floor, c.lookback, c.maxWindow, now);
    f := ScanPages(pages, Evict(p.seen, win.start).Keys, c.policy, win.start).value;
  }

  /** Sorting the fetched records changes none of their facts. */
  lemma SortedFacts(pages: seq<Page>, queued: seq<Record>, f: Fetched, seen: map<Id, i64>, start: i64)
    requires NewRecords(pages, queued, f.records) && Remembers(seen, f.records, I64_MIN)
    requires forall i | 0 <= i < |f.records| :: InWindow(f.records[i], start, MaxTime(f.records))
    ensures var out := SortByTime(f.records);
      && Ascending(out) && NewRecords(pages, queued, out) && Remembers(seen, out, I64_MIN)
      && (forall i | 0 <= i < |out| :: InWindow(out[i], start, MaxTime(f.records)))
      && (forall id :: HasId(out, id) <==> HasId(f.records, id))
  {
    SortIsAscending(f.records);
    SortKeepsIds(f.records);
    hide HasId, IdsDistinct, MaxTime, SortByTime, Ascending;
    var out := SortByTime(f.records);
    forall i | 0 <= i < |out|
      ensures out[i].id in seen && seen[out[i].id] == out[i].time
      ensures Returned(pages, Good(out[i])) && !HasId(queued, out[i].id)
      ensures InWindow(out[i], start, MaxTime(f.records))
    {
      assert out[i] in out;
      SortKeepsMembers(f.records, out[i]);
      var j :| 0 <= j < |f.records| && f.records[j] == out[i];
    }
    forall x | Returned(pages, Good(x))
      ensures x in queued || x in out
    {
      SortKeepsMembers(f.records, x);
    }
  }

  predicate InWindow(x: Record, start: i64, newest: Option<i64>) {
    newest.Some? && start <= x.time <= newest.value
  }

  lemma NewestInWindow(pages: seq<Page>, win: Window, s: System, f: Fetched)
    requires ApiContract(pages, win, s.ever, s.bad) && NewRecords(pages, s.queued, f.records)
    ensures forall i | 0 <= i < |f.records| ::
      InWindow(f.records[i], win.start, MaxTime(f.records))
    ensures MaxTime(f.records).Some? && win.end.Some? ==> MaxTime(f.records).value <= win.end.value
  {
    var m := MaxTime(f.records);
    if m.Some? {
      var i :| 0 <= i < |f.records| && f.records[i].time == m.value;
      assert Returned(pages, Good(f.records[i]));
    }
  }

  lemma PollKeepsQueue(c: Config, s: System, win: Window, pages: seq<Page>, poll: Poll, out: seq<Record>)
    requires QueueInv(c, s.poll, s.first, s.queued) && PollFacts(c, s, win, pages, poll, out)
    requires win.start == NextStart(c, s.poll) && c.lookback >= 0
    ensures QueueInv(c, poll, s.first, s.queued + out)
  {
    hide NewRecords, Remembers, HasId;
    var queued := s.queued + out;
    var n := |s.queued|;
    assert forall j | 0 <= j < n :: queued[j] == s.queued[j];
    assert forall j | n <= j < |queued| :: queued[j] == out[j - n];
    forall i, j | 0 <= i < j < |queued|
      ensures queued[i].time - c.lookback <= queued[j].time
    {
      if i < n <= j {
        assert s.queued[i].time <= s.poll.watermark;
      }
    }
  }

  lemma PollKeepsShown(s: System, out: seq<Record>)
    requires s.shown + s.batch <= |s.queued| && ShownInv(s.queued, s.shown, s.batch, s.first, s.src)
    ensures ShownInv(s.queued + out, s.shown, s.batch, s.first, s.src)
  {
    var queued := s.queued + out;
    assert forall j | 0 <= j < |s.queued| :: queued[j] == s.queued[j];
    if s.src.delivered != s.first {
      var i :| 0 <= i < s.shown && s.queued[i].time == s.src.delivered;
      assert queued[i].time == s.src.delivered;
    }
    if s.src.pending.Some? {
      var i :| s.shown <= i < s.shown + s.batch && s.queued[i].time == s.src.pending.value;
      assert queued[i].time == s.src.pending.value;
    }
  }

  lemma PollKeepsIds(s: System, win: Window, pages: seq<Page>, out: seq<Record>)
    requires IdsDistinct(s.queued) && EverInv(s.queued, s.ever, s.bad)
    requires NewRecords(pages, s.queued, out) && ApiContract(pages, win, s.ever, s.bad)
    ensures IdsDistinct(s.queued + out)
    ensures EverInv(s.queued + out, s.ever + (iset x | x in out), s.bad + MalformedIds(pages))
  {
    var n := |s.queued|;
    var queued := s.queued + out;
    forall i, j | 0 <= i < j < |queued|
      ensures queued[i].id != queued[j].id
    {
      if i < n <= j {
        assert HasId(s.queued, s.queued[i].id);
      }
    }
    var ever := s.ever + iset x | x in out;
    forall x | x in ever
      ensures x in s.ever || Returned(pages, Good(x))
    {
      if x in out {
        var i :| 0 <= i < |out| && out[i] == x;
      }
    }
    hide HasId, IdsDistinct, NewRecords;
    assert forall x | x in ever :: x.id !in MalformedIds(pages);
  }

  lemma PollKeepsMemory(c: Config, s: System, win: Window, pages: seq<Page>, poll: Poll, out: seq<Record>)
    requires PollFacts(c, s, win, pages, poll, out) && win.start == NextStart(c, s.poll)
    ensures Remembers(poll.seen, s.queued + out, NextStart(c, poll))
    ensures RemembersOnly(poll.seen, s.queued + out, s.bad + MalformedIds(pages))
  {
    StartFollowsWatermark(s.poll.watermark, poll.watermark, s.poll.floor, c.lookback);
    hide NewRecords, WindowStart, Ascending;
    var n := |s.queued|;
    var queued := s.queued + out;
    forall id | HasId(s.queued, id) || HasId(out, id)
      ensures HasId(queued, id)
    {
      if HasId(s.queued, id) {
        var i := SameId(s.queued, id);
        assert queued[i].id == id;
      } else {
        var i := SameId(out, id);
        assert queued[n + i].id == id;
      }
    }
    hide HasId, MalformedIds;
    forall j | 0 <= j < |queued| && queued[j].time >= NextStart(c, poll)
      ensures queued[j].id in poll.seen && poll.seen[queued[j].id] == queued[j].time
    {
      if j < n {
        assert queued[j] == s.queued[j];
      } else {
        assert queued[j] == out[j - n];
      }
    }
  }

  /** Planning bounds of a window relative to any checkpoint at or before the watermark. */
  lemma ReachesNew(c: Config, p: i64, s: System, poll: Poll, out: seq<Record>, done: iset<Record>)
    requires Reaches(c, p, s.ever, done) && p <= s.poll.watermark && ConfiguredFloor(c.start) <= s.poll.floor
    requires forall i | 0 <= i < |out| :: NextStart(c, s.poll) <= out[i].time
    ensures Reaches(c, p, s.ever + (iset x | x in out), done)
  {
    assert RestartStart(c, p) <= NextStart(c, s.poll);
    hide RestartStart, NextStart;
    forall x | x in s.ever + (iset x | x in out) && x !in done
      ensures x.time >= RestartStart(c, p)
    {
      if x !in s.ever {
        var i :| 0 <= i < |out| && out[i] == x;
      }
    }
  }

  /** A record still owed from an earlier incarnation is either fetched by this window or lies beyond its end. */
  lemma PollKeepsOwed(c: Config, s: System, now: i64, pages: seq<Page>, poll: Poll, out: seq<Record>)
    requires ValidConfiguration(c)
    requires OwedAhead(NextStart(c, s.poll), s.queued, s.ever, s.safe)
    requires var win := PlanWindow(s.poll.watermark, s.poll.floor, c.lookback, c.maxWindow, now);
      ApiContract(pages, win, s.ever, s.bad) && PollFacts(c, s, win, pages, poll, out)
    ensures OwedAhead(NextStart(c, poll), s.queued + out, s.ever + (iset x | x in out), s.safe)
  {
    var win := PlanWindow(s.poll.watermark, s.poll.floor, c.lookback, c.maxWindow, now);
    forall x | x in s.ever + (iset x | x in out) && x !in s.safe && x !in s.queued + out
      ensures x.time >= NextStart(c, poll)
    {
      assert x in s.ever && x !in s.queued && x !in out;
      assert !Returned(pages, Good(x));
      assert win.end.Some? && x.time > win.end.value;
      BeyondTheEnd(c, s.poll, now, poll, x);
    }
  }

  lemma BeyondTheEnd(c: Config, p: Poll, now: i64, poll: Poll, x: Record)
    requires ValidConfiguration(c) && poll.floor == p.floor
    requires var win := PlanWindow(p.watermark, p.floor, c.lookback, c.maxWindow, now);
      win.end.Some? && x.time > win.end.value && poll.watermark == Max(p.watermark, win.end.value)
    ensures x.time >= NextStart(c, poll)
  {
  }

  lemma DeliveredBelowWatermark(c: Config, s: System)
    requires s.shown + s.batch <= |s.queued|
    requires QueueInv(c, s.poll, s.first, s.queued) && ShownInv(s.queued, s.shown, s.batch, s.first, s.src)
    ensures s.src.delivered <= s.poll.watermark && ConfiguredFloor(c.start) <= s.poll.floor
  {
  }

  lemma PollKeepsCheckpoints(c: Config, s: System, out: seq<Record>)
    requires s.src.delivered <= s.poll.watermark && ConfiguredFloor(c.start) <= s.poll.floor
    requires forall i | 0 <= i < |out| :: NextStart(c, s.poll) <= out[i].time
    requires EpochsInv(c, s.src, s.ever, s.marks)
    requires s.backend.Some? ==> BackendInv(c, s.backend.value, s.src, s.ever, s.safe)
    ensures EpochsInv(c, s.src, s.ever + (iset x | x in out), s.marks)
    ensures s.backend.Some? ==> BackendInv(c, s.backend.value, s.src, s.ever + (iset x | x in out), s.safe)
  {
    hide Reaches;
    forall e | e in s.src.epochs
      ensures Reaches(c, s.src.epochs[e], s.ever + (iset x | x in out), s.marks[e])
    {
      ReachesNew(c, s.src.epochs[e], s, s.poll, out, s.marks[e]);
    }
    if s.backend.Some? {
      ReachesNew(c, s.backend.value, s, s.poll, out, s.safe);
    }
  }

  lemma PollKeepsFlow(s: System, out: seq<Record>, chunks: seq<Batch>)
    requires FlowInv(s) && s.sending == [] && Flatten(chunks) == out
    ensures FlowInv(s.(sending := chunks, queued := s.queued + out))
  {
    var s' := s.(sending := chunks, queued := s.queued + out);
    assert s'.queued[s.shown + s.batch..] == s.queued[s.shown + s.batch..] + out;
    assert Undelivered(s) == s.src.carry + Flatten(s.src.channel);
  }

  lemma PollKeeps(c: Config, s: System, now: i64, pages: seq<Page>)
    requires ValidConfiguration(c) && Inv(c, s) && Enabled(c, s, Poll_(now, pages))
    ensures Inv(c, Apply(c, s, Poll_(now, pages)))
  {
    var win := PlanWindow(s.poll.watermark, s.poll.floor, c.lookback, c.maxWindow, now);
    var (poll, o) := Cycle(c, s.poll, now, pages);
    var s' := Apply(c, s, Poll_(now, pages));
    if o.None? {
      assert poll == s.poll.(seen := Evict(s.poll.seen, win.start));
      FailedPollKeeps(c, s, poll);
    } else {
      var out := o.value;
      var chunks := Split(out, c.batchSize);
      PollGivesFacts(c, s, now, pages);
      DeliveredBelowWatermark(c, s);
      hide Cycle, QueueInv, ShownInv, EpochsInv, BackendInv, OwedAhead, ApiContract, FlowInv, EverInv, Remembers, RemembersOnly, IdsDistinct;
      PollKeepsFlow(s, out, chunks);
      PollKeepsQueue(c, s, win, pages, poll, out);
      PollKeepsShown(s, out);
      PollKeepsIds(s, win, pages, out);
      PollKeepsMemory(c, s, win, pages, poll, out);
      PollKeepsCheckpoints(c, s, out);
      PollKeepsOwed(c, s, now, pages, poll, out);
      assert s' == s.(poll := poll, sending := chunks, queued := s.queued + out, ever := s.ever + (iset x | x in out),
                      bad := s.bad + MalformedIds(pages));
      FlowIgnoresPoll(s.(sending := chunks, queued := s.queued + out), s');
    }
  }

  lemma FlowIgnoresPoll(s: System, s': System)
    requires FlowInv(s) && s'.queued == s.queued && s'.src == s.src && s'.sending == s.sending
    requires s'.shown == s.shown && s'.batch == s.batch
    ensures FlowInv(s')
  {
  }

  /** A failed window forgets old ids and remembers nothing new. */
  lemma FailedPollKeeps(c: Config, s: System, poll: Poll)
    requires Inv(c, s) && poll == s.poll.(seen := Evict(s.poll.seen, NextStart(c, s.poll)))
    ensures Inv(c, s.(poll := poll))
  {
    EvictKeeps(s.poll.seen, NextStart(c, s.poll), s.queued, s.ever, s.bad);
    FlowIgnoresPoll(s, s.(poll := poll));
    hide FlowInv, ShownInv, DedupInv, EpochsInv, BackendInv, OwedAhead, Evict, RestartStart;
  }

  lemma EvictKeeps(seen: map<Id, i64>, start: i64, queued: seq<Record>, ever: iset<Record>, bad: iset<Id>)
    requires DedupInv(seen, start, queued, ever, bad)
    ensures DedupInv(Evict(seen, start), start, queued, ever, bad)
  {
    hide EverInv, IdsDistinct, HasId;
  }

  // ---------------------------------------------------------------- the other steps

  lemma SendKeeps(c: Config, s: System)
    requires Inv(c, s) && s.sending != []
    ensures Inv(c, s.(sending := s.sending[1..], src := s.src.(channel := s.src.channel + [s.sending[0]])))
  {
    SendKeepsFlow(s);
    hide FlowInv, QueueInv, DedupInv, OwedAhead, ShownInv, EpochsInv, BackendInv;
    assert s.shown + s.batch <= |s.queued| by { FlowBounds(s); }
    SourceIgnoresChannel(c, s, s.src.channel + [s.sending[0]]);
  }

  lemma FlowBounds(s: System)
    requires FlowInv(s)
    ensures s.shown + s.batch <= |s.queued|
  {
  }

  lemma SendKeepsFlow(s: System)
    requires FlowInv(s) && s.sending != []
    ensures FlowInv(s.(sending := s.sending[1..], src := s.src.(channel := s.src.channel + [s.sending[0]])))
  {
    var s' := s.(sending := s.sending[1..], src := s.src.(channel := s.src.channel + [s.sending[0]]));
    FlattenHead(s.sending);
    FlattenConcat(s.src.channel, [s.sending[0]]);
    FlattenHead([s.sending[0]]);
    hide Flatten;
    assert Undelivered(s') == Undelivered(s);
  }

  lemma SourceIgnoresChannel(c: Config, s: System, channel: seq<Batch>)
    requires s.shown + s.batch <= |s.queued|
    requires ShownInv(s.queued, s.shown, s.batch, s.first, s.src) && EpochsInv(c, s.src, s.ever, s.marks)
    requires s.backend.Some? ==> BackendInv(c, s.backend.value, s.src, s.ever, s.safe)
    ensures var src := s.src.(channel := channel);
      && ShownInv(s.queued, s.shown, s.batch, s.first, src) && EpochsInv(c, src, s.ever, s.marks)
      && (s.backend.Some? ==> BackendInv(c, s.backend.value, src, s.ever, s.safe))
  {
    hide Reaches, Newest;
  }

  lemma GenerateKeepsFlow(c: Config, s: System, ok: bool)
    requires FlowInv(s) && c.batchSize >= 1
    ensures FlowInv(Apply(c, s, Generate_(ok)))
    ensures var (src, r) := Generate(s.src, c.batchSize, ok);
      r.Ok? ==> (
        && s.shown + s.batch + |r.value| <= |s.queued|
        && r.value == s.queued[s.shown + s.batch..s.shown + s.batch + |r.value|])
  {
    hide FlowInv, Generate, Flatten;
    var (src, r) := Generate(s.src, c.batchSize, ok);
    GenerateTakes(s.src, c.batchSize, ok);
    FlowBounds(s);
    FlowAfter(s, src, if r.Ok? then r.value else []);
  }

  lemma FlowAfter(s: System, src: Source, rows: seq<Record>)
    requires FlowInv(s) && rows + (src.carry + Flatten(src.channel)) == s.src.carry + Flatten(s.src.channel)
    ensures FlowInv(s.(src := src, shown := s.shown + s.batch, batch := |rows|))
    ensures s.shown + s.batch + |rows| <= |s.queued| && rows == s.queued[s.shown + s.batch..s.shown + s.batch + |rows|]
  {
    hide Flatten;
    Associate(rows, src.carry + Flatten(src.channel), Flatten(s.sending));
    TakeFront(s.queued, s.shown + s.batch, rows, (src.carry + Flatten(src.channel)) + Flatten(s.sending));
  }

  /** A call takes its batch off the front of what is buffered and leaves the rest in order. */
  lemma GenerateTakes(s: Source, batchSize: nat, ok: bool)
    ensures var (src, r) := Generate(s, batchSize, ok);
      && (if r.Ok? then r.value else []) + (src.carry + Flatten(src.channel)) == s.carry + Flatten(s.channel)
      && (r.Ok? ==> |r.value| == Min(|s.carry + Flatten(s.channel)|, batchSize))
      && (r.Err? <==> !ok && Min(|s.carry + Flatten(s.channel)|, batchSize) > 0)
  {
    FillEnough(s.carry, s.channel, batchSize);
    hide Fill, Flatten, MaxTime;
    var (src, r) := Generate(s, batchSize, ok);
    var filled := Fill(s.carry, s.channel, batchSize).0;
    if r.Ok? && r.value != [] {
      assert filled == r.value + src.carry;
      Associate(r.value, src.carry, Flatten(src.channel));
    }
  }

  lemma {:induction false} FillEnough(carry: seq<Record>, channel: seq<Batch>, batchSize: nat)
    ensures var (filled, rest) := Fill(carry, channel, batchSize);
      Min(|filled|, batchSize) == Min(|carry + Flatten(channel)|, batchSize)
    decreases |channel|
  {
    if |carry| < batchSize && channel != [] {
      FillEnough(carry + channel[0], channel[1..], batchSize);
      FlattenHead(channel);
      Associate(carry, channel[0], Flatten(channel[1..]));
    } else if channel == [] {
      FlattenNothing<Record>();
    }
  }

  lemma TakeFront(queued: seq<Record>, lo: nat, rows: seq<Record>, rest: seq<Record>)
    requires lo <= |queued| && queued[lo..] == rows + rest
    ensures lo + |rows| <= |queued| && queued[lo..lo + |rows|] == rows && queued[lo + |rows|..] == rest
  {
    assert queued[lo + |rows|..] == queued[lo..][|rows|..];
    assert queued[lo..lo + |rows|] == queued[lo..][..|rows|];
  }

  lemma SettleKeepsShown(s: System, n: nat, src: Source)
    requires s.shown + s.batch + n <= |s.queued| && ShownInv(s.queued, s.shown, s.batch, s.first, s.src)
    requires src.delivered == Settle(s.src).delivered && (n > 0 <==> src.pending.Some?)
    requires src.pending.Some? ==> Newest(s.queued, s.shown + s.batch, s.shown + s.batch + n, src.pending.value)
    ensures ShownInv(s.queued, s.shown + s.batch, n, s.first, src)
  {
    hide Newest, Settle, ShownInv, HasTime;
    SettledIsShown(s);
    ShownFrom(s.queued, s.shown + s.batch, n, s.first, src);
  }

  lemma ShownFrom(queued: seq<Record>, shown: nat, batch: nat, first: i64, src: Source)
    requires shown + batch <= |queued| && first <= src.delivered
    requires src.delivered == first || HasTime(queued, shown, src.delivered)
    requires batch > 0 <==> src.pending.Some?
    requires src.pending.Some? ==> Newest(queued, shown, shown + batch, src.pending.value)
    ensures ShownInv(queued, shown, batch, first, src)
  {
    hide Newest;
  }

  lemma SettledIsShown(s: System)
    requires s.shown + s.batch <= |s.queued| && ShownInv(s.queued, s.shown, s.batch, s.first, s.src)
    ensures var d := Settle(s.src).delivered;
      s.first <= d && (d == s.first || HasTime(s.queued, s.shown + s.batch, d))
  {
    var d := Settle(s.src).delivered;
    if d != s.first {
      if s.src.pending.Some? && d == s.src.pending.value {
        var i :| s.shown <= i < s.shown + s.batch && s.queued[i].time == d;
        assert 0 <= i < s.shown + s.batch && s.queued[i].time == d;
      } else {
        var i :| 0 <= i < s.shown && s.queued[i].time == d;
        assert 0 <= i < s.shown + s.batch && s.queued[i].time == d;
      }
    }
  }

  lemma MaxIsNewest(queued: seq<Record>, lo: nat, rows: seq<Record>)
    requires lo + |rows| <= |queued| && rows == queued[lo..lo + |rows|]
    ensures MaxTime(rows).Some? ==> Newest(queued, lo, lo + |rows|, MaxTime(rows).value)
  {
    if MaxTime(rows).Some? {
      var m := MaxTime(rows).value;
      var k :| 0 <= k < |rows| && rows[k].time == m;
      assert queued[lo + k] == rows[k];
      assert forall i | lo <= i < lo + |rows| :: queued[i] == rows[i - lo];
    }
  }

  lemma GenerateKeeps(c: Config, s: System, ok: bool)
    requires ValidConfiguration(c) && Inv(c, s)
    ensures Inv(c, Apply(c, s, Generate_(ok)))
  {
    hide QueueInv, DedupInv, OwedAhead, FlowInv, ShownInv, Reaches, Generate, EpochsInv, BackendInv, Settle, Newest;
    FlowBounds(s);
    GenerateKeepsFlow(c, s, ok);
    var (src, r) := Generate(s.src, c.batchSize, ok);
    GenerateShape(s.src, c.batchSize, ok);
    GenerateKeepsShown(s, if r.Ok? then r.value else [], src);
    LaterDelivered(c, s, src);
  }

  lemma GenerateKeepsShown(s: System, rows: seq<Record>, src: Source)
    requires s.shown + s.batch + |rows| <= |s.queued| && rows == s.queued[s.shown + s.batch..s.shown + s.batch + |rows|]
    requires ShownInv(s.queued, s.shown, s.batch, s.first, s.src)
    requires src.delivered == Settle(s.src).delivered && src.pending == MaxTime(rows)
    ensures ShownInv(s.queued, s.shown + s.batch, |rows|, s.first, src)
  {
    hide Newest, Settle, ShownInv, IsNewestTime, MaxTime;
    MaxIsNewest(s.queued, s.shown + s.batch, rows);
    SettleKeepsShown(s, |rows|, src);
  }

  /** A later delivered watermark leaves what is marked and persisted as it is. */
  lemma LaterDelivered(c: Config, s: System, src: Source)
    requires EpochsInv(c, s.src, s.ever, s.marks)
    requires s.backend.Some? ==> BackendInv(c, s.backend.value, s.src, s.ever, s.safe)
    requires src.epochs == s.src.epochs && src.delivered == Settle(s.src).delivered
    ensures EpochsInv(c, src, s.ever, s.marks)
    ensures s.backend.Some? ==> BackendInv(c, s.backend.value, src, s.ever, s.safe)
  {
    hide Reaches;
    assert src.delivered >= s.src.delivered;
  }

  lemma GenerateShape(s: Source, batchSize: nat, ok: bool)
    ensures var (src, r) := Generate(s, batchSize, ok);
      && src.pending == MaxTime(if r.Ok? then r.value else [])
      && src.delivered == Settle(s).delivered && src.epochs == s.epochs
  {
    hide Fill;
    assert MaxTime([]) == None;
  }

  lemma UndeliveredReached(c: Config, s: System)
    requires s.shown + s.batch <= |s.queued|
    requires QueueInv(c, s.poll, s.first, s.queued) && ShownInv(s.queued, s.shown, s.batch, s.first, s.src)
    ensures forall j | s.shown <= j < |s.queued| :: s.queued[j].time >= RestartStart(c, s.src.delivered)
  {
    forall j | s.shown <= j < |s.queued|
      ensures s.queued[j].time >= RestartStart(c, s.src.delivered)
    {
      if s.src.delivered != s.first {
        var i :| 0 <= i < s.shown && s.queued[i].time == s.src.delivered;
        assert s.queued[i].time - c.lookback <= s.queued[j].time;
      }
    }
  }

  lemma MarkReaches(c: Config, s: System)
    requires ValidConfiguration(c) && Inv(c, s)
    ensures s.shown <= |s.queued| && Reaches(c, s.src.delivered, s.ever, Delivered(s))
  {
    hide DedupInv, EpochsInv, BackendInv;
    DeliveredBelowWatermark(c, s);
    UndeliveredReached(c, s);
    hide QueueInv, ShownInv;
    assert RestartStart(c, s.src.delivered) <= NextStart(c, s.poll);
    OwedReached(s, RestartStart(c, s.src.delivered), NextStart(c, s.poll));
  }

  lemma OwedReached(s: System, from: i64, start: i64)
    requires s.shown <= |s.queued| && from <= start && OwedAhead(start, s.queued, s.ever, s.safe)
    requires forall j | s.shown <= j < |s.queued| :: s.queued[j].time >= from
    ensures forall x | x in s.ever && x !in Delivered(s) :: x.time >= from
  {
    forall j | 0 <= j < s.shown
      ensures s.queued[j] in Delivered(s)
    {
      assert s.queued[..s.shown][j] == s.queued[j];
    }
    forall x | x in s.ever && x !in Delivered(s)
      ensures x.time >= from
    {
      if x in s.queued {
        var j :| 0 <= j < |s.queued| && s.queued[j] == x;
        assert j >= s.shown;
      }
    }
  }

  lemma MarkKeeps(c: Config, s: System, e: nat)
    requires ValidConfiguration(c) && Inv(c, s) && Enabled(c, s, Mark(e))
    ensures Inv(c, Apply(c, s, Mark(e)))
  {
    MarkReaches(c, s);
    MarkKeepsShown(s, e) by { assert s.shown + s.batch <= |s.queued|; }
    assert FlowInv(Apply(c, s, Mark(e))) by { MarkKeepsFlow(c, s, e); }
    hide FlowInv, ShownInv, Reaches, QueueInv, DedupInv, OwedAhead, EpochsInv, BackendInv, Undelivered, MarkEpoch, Delivered, NextStart;
    MarkKeepsEpochs(c, s.src, s.ever, s.marks, e, Delivered(s));
    if s.backend.Some? {
      MarkKeepsBackend(c, s.backend.value, s.src, s.ever, s.safe, e);
    }
  }

  lemma MarkKeepsShown(s: System, e: nat)
    requires s.shown + s.batch <= |s.queued| && ShownInv(s.queued, s.shown, s.batch, s.first, s.src)
    ensures ShownInv(s.queued, s.shown, s.batch, s.first, MarkEpoch(s.src, e))
  {
    hide Newest, HasTime;
  }

  lemma MarkKeepsFlow(c: Config, s: System, e: nat)
    requires c.batchSize >= 1 && Enabled(c, s, Mark(e)) && FlowInv(s)
    ensures FlowInv(Apply(c, s, Mark(e)))
  {
    hide Delivered;
    assert Undelivered(Apply(c, s, Mark(e))) == Undelivered(s);
  }

  lemma MarkKeepsEpochs(c: Config, src: Source, ever: iset<Record>, marks: map<nat, iset<Record>>, e: nat, done: iset<Record>)
    requires EpochsInv(c, src, ever, marks) && Reaches(c, src.delivered, ever, done) && forall e' | e' in marks :: e' < e
    ensures EpochsInv(c, MarkEpoch(src, e), ever, marks[e := done])
  {
    hide Reaches;
  }

  lemma MarkKeepsBackend(c: Config, p: i64, src: Source, ever: iset<Record>, safe: iset<Record>, e: nat)
    requires BackendInv(c, p, src, ever, safe)
    ensures BackendInv(c, p, MarkEpoch(src, e), ever, safe)
  {
    hide Reaches;
  }

  lemma FinalKeeps(c: Config, s: System, e: nat, putOk: bool)
    requires ValidConfiguration(c) && Inv(c, s)
    ensures Inv(c, Apply(c, s, Final(e, putOk)))
  {
    hide QueueInv, DedupInv, Newest;
  }

  lemma CrashKeeps(c: Config, s: System, now: i64)
    requires ValidConfiguration(c) && Inv(c, s) && now >= 0
    ensures Inv(c, Apply(c, s, Crash(now)))
  {
    var s' := Apply(c, s, Crash(now));
    CrashKeepsChannels(c, s, now);
    CrashKeepsOwed(c, s, now);
    hide FlowInv, QueueInv, ShownInv, DedupInv, EpochsInv, BackendInv, OwedAhead;
  }

  lemma CrashKeepsChannels(c: Config, s: System, now: i64)
    requires ValidConfiguration(c) && Inv(c, s) && now >= 0
    ensures var s' := Apply(c, s, Crash(now));
      && FlowInv(s') && QueueInv(c, s'.poll, s'.first, s'.queued) && ShownInv(s'.queued, s'.shown, s'.batch, s'.first, s'.src)
  {
    assert s.shown <= |s.queued|;
    hide Inv;
    var s' := Apply(c, s, Crash(now));
    assert Undelivered(s') == [];
  }

  lemma CrashKeepsOwed(c: Config, s: System, now: i64)
    requires ValidConfiguration(c) && Inv(c, s) && now >= 0
    ensures var s' := Apply(c, s, Crash(now));
      && DedupInv(s'.poll.seen, NextStart(c, s'.poll), s'.queued, s'.ever, s'.bad)
      && EpochsInv(c, s'.src, s'.ever, s'.marks)
      && (s'.backend.Some? ==> BackendInv(c, s'.backend.value, s'.src, s'.ever, s'.safe))
      && OwedAhead(NextStart(c, s'.poll), s'.queued, s'.ever, s'.safe)
  {
    assert s.shown <= |s.queued|;
    hide FlowInv, QueueInv, ShownInv, EpochsInv;
    var s' := Apply(c, s, Crash(now));
    assert EverInv(s'.queued, s'.ever, s'.bad);
    hide EverInv;
    assert EpochsInv(c, s'.src, s'.ever, s'.marks) by { NoEpochs(c, s'.src, s'.ever); }
  }

  lemma NoEpochs(c: Config, src: Source, ever: iset<Record>)
    requires src.epochs == map[]
    ensures EpochsInv(c, src, ever, map[])
  {
  }

  lemma StepKeeps(c: Config, s: System, st: Step)
    requires ValidConfiguration(c) && Inv(c, s) && Enabled(c, s, st)
    ensures s.shown <= |s.queued| && Inv(c, Apply(c, s, st))
  {
    assert s.shown <= |s.queued|;
    match st {
      case Poll_(now, pages) => PollKeeps(c, s, now, pages);
      case SendChunk =>
        SendKeeps(c, s);
        hide Inv;
      case Generate_(ok) => GenerateKeeps(c, s, ok);
      case Mark(e) => MarkKeeps(c, s, e);
      case Final(e, putOk) => FinalKeeps(c, s, e, putOk);
      case Crash(now) => CrashKeeps(c, s, now);
    }
  }

  lemma InitHolds(c: Config, s: System)
    requires ValidConfiguration(c) && Init(c, s)
    ensures Inv(c, s)
  {
    InitFlow(c, s);
    InitQueue(c, s);
    InitDedup(c, s);
    NothingOwed(c, s);
    hide FlowInv, QueueInv, ShownInv, DedupInv, EpochsInv, BackendInv, OwedAhead, NextStart;
  }

  lemma InitFlow(c: Config, s: System)
    requires Init(c, s)
    ensures FlowInv(s) && s.shown == s.batch == 0 && ShownInv(s.queued, 0, 0, s.first, s.src)
  {
    hide ResolveStart;
    assert Undelivered(s) == [];
  }

  lemma InitQueue(c: Config, s: System)
    requires Init(c, s)
    ensures QueueInv(c, s.poll, s.first, s.queued)
  {
  }

  lemma InitDedup(c: Config, s: System)
    requires Init(c, s)
    ensures DedupInv(s.poll.seen, NextStart(c, s.poll), s.queued, s.ever, s.bad)
  {
    hide ResolveStart, NextStart;
    assert s.queued == [] && s.ever == iset{} && s.poll.seen == map[];
  }

  lemma NothingOwed(c: Config, s: System)
    requires Init(c, s)
    ensures s.backend.None? && EpochsInv(c, s.src, s.ever, s.marks)
    ensures OwedAhead(NextStart(c, s.poll), s.queued, s.ever, s.safe)
  {
    hide ResolveStart, NextStart;
    assert s.ever == iset{} && s.marks == map[] && s.src.epochs == map[];
    NoEpochs(c, s.src, s.ever);
  }

  lemma {:induction false} RunKeeps(c: Config, trace: seq<System>, steps: seq<Step>, k: nat)
    requires IsRun(c, trace, steps) && k < |trace|
    ensures Inv(c, trace[k])
  {
    if k == 0 {
      InitHolds(c, trace[0]);
    } else {
      RunKeeps(c, trace, steps, k - 1);
      hide Inv, Enabled, Apply, Init;
      StepKeeps(c, trace[k - 1], steps[k - 1]);
    }
  }

  // ---------------------------------------------------------------- main results

  /**
   Restart safety over every run, crashes included: a restart from the
   persisted watermark plans its first window no later than any record that was
   ever queued and had not been delivered when a persisted marker was taken.
   */
  lemma RestartReachesEverythingOwed(c: Config, trace: seq<System>, steps: seq<Step>, k: nat, now: i64, x: Record)
    requires IsRun(c, trace, steps) && k < |trace| && now >= 0
    requires trace[k].backend.Some? && x in trace[k].ever && x !in trace[k].safe
    ensures var (watermark, floor) := ResolveStart(trace[k].backend, c.start, now);
      PlanWindow(watermark, floor, c.lookback, c.maxWindow, now).start <= x.time
  {
    RunKeeps(c, trace, steps, k);
    hide FlowInv, QueueInv, ShownInv, DedupInv, EpochsInv, OwedAhead, IsRun;
  }

  predicate Succeeds(c: Config, s: System, st: Step) {
    st.Poll_? && Cycle(c, s.poll, st.now, st.pages).1.Some?
  }

  /** The successful polls among the steps `i..j`. */
  function Successes(c: Config, trace: seq<System>, steps: seq<Step>, i: nat, j: nat): nat
    requires i <= j <= |steps| && |trace| == |steps| + 1
    decreases j - i
  {
    if i == j then 0
    else Successes(c, trace, steps, i, j - 1) + if Succeeds(c, trace[j - 1], steps[j - 1]) then 1 else 0
  }

  /**
   Owed records come back. From any state of any run, also right after a
   restart, a record that is owed is queued, or it still lies ahead of a window
   start that every successful poll has moved forward by at least
   `maxWindow - lookback`: after finitely many it is queued.
   */
  lemma {:induction false} OwedComesBack(c: Config, trace: seq<System>, steps: seq<Step>, i: nat, j: nat, x: Record)
    requires IsRun(c, trace, steps) && i <= j < |trace| == |steps| + 1
    requires (forall k | i <= k < j :: !steps[k].Crash?) && x in trace[i].ever && x !in trace[i].safe
    ensures x in trace[j].ever
    ensures x in trace[j].queued || (
      && x !in trace[j].safe
      && NextStart(c, trace[i].poll) + Successes(c, trace, steps, i, j) * (c.maxWindow - c.lookback) <= NextStart(c, trace[j].poll) <= x.time)
    decreases j - i
  {
    hide *;
    RunLength(c, trace, steps);
    RunKeeps(c, trace, steps, j);
    if i == j {
      SuccessesNone(c, trace, steps, i);
      StillAhead(c, trace[j], x);
    } else {
      OwedComesBack(c, trace, steps, i, j - 1, x);
      RunKeeps(c, trace, steps, j - 1);
      MarksKnownInRuns(c, trace, steps, j - 1);
      StepOf(c, trace, steps, j - 1);
      if x in trace[j - 1].queued {
        QueuedStays(c, trace[j - 1], steps[j - 1], x);
      } else {
        OwedStep(c, trace[j - 1], steps[j - 1], x);
        if x !in trace[j].safe {
          StillAhead(c, trace[j], x);
        }
        SuccessesThen(c, trace, steps, i, j);
        OneMoreStep(Successes(c, trace, steps, i, j - 1), c.maxWindow - c.lookback);
      }
    }
  }

  lemma SuccessesNone(c: Config, trace: seq<System>, steps: seq<Step>, i: nat)
    requires i <= |steps| && |trace| == |steps| + 1
    ensures Successes(c, trace, steps, i, i) == 0
  {
  }

  lemma SuccessesThen(c: Config, trace: seq<System>, steps: seq<Step>, i: nat, j: nat)
    requires i < j <= |steps| && |trace| == |steps| + 1
    ensures Successes(c, trace, steps, i, j) ==
      Successes(c, trace, steps, i, j - 1) + if Succeeds(c, trace[j - 1], steps[j - 1]) then 1 else 0
  {
  }

  lemma OneMoreStep(n: nat, step: int)
    ensures (n + 1) * step == n * step + step
  {
  }

  lemma StillAhead(c: Config, s: System, x: Record)
    requires Inv(c, s) && x in s.ever && x !in s.safe
    ensures x in s.queued || NextStart(c, s.poll) <= x.time
  {
    hide FlowInv, QueueInv, ShownInv, DedupInv, EpochsInv, BackendInv, NextStart;
  }

  lemma QueuedStays(c: Config, s: System, st: Step, x: Record)
    requires c.batchSize >= 1 && s.shown <= |s.queued| && Enabled(c, s, st) && !st.Crash?
    requires x in s.queued && x in s.ever
    ensures x in Apply(c, s, st).queued && x in Apply(c, s, st).ever
  {
    hide Enabled, Cycle, Split, Generate, MarkEpoch, TakeEpoch, MalformedIds, Delivered;
  }

  /** What the marks say was delivered had been queued, or was safe before. */
  ghost predicate MarksKnown(s: System) {
    forall e, x | e in s.marks && x in s.marks[e] :: x in s.safe || x in s.queued
  }

  lemma {:induction false} MarksKnownInRuns(c: Config, trace: seq<System>, steps: seq<Step>, k: nat)
    requires IsRun(c, trace, steps) && k < |trace|
    ensures MarksKnown(trace[k])
  {
    hide *;
    if k == 0 {
      MarksAtStart(c, trace, steps);
    } else {
      RunLength(c, trace, steps);
      MarksKnownInRuns(c, trace, steps, k - 1);
      StepOf(c, trace, steps, k - 1);
      MarksStayKnown(c, trace[k - 1], steps[k - 1]);
    }
  }

  lemma MarksAtStart(c: Config, trace: seq<System>, steps: seq<Step>)
    requires IsRun(c, trace, steps)
    ensures trace != [] && MarksKnown(trace[0])
  {
    hide Enabled, Apply, ResolveStart;
  }

  lemma MarksStayKnown(c: Config, s: System, st: Step)
    requires c.batchSize >= 1 && s.shown <= |s.queued| && Enabled(c, s, st) && MarksKnown(s)
    ensures MarksKnown(Apply(c, s, st))
  {
    hide Enabled, Cycle, Split, Generate, MarkEpoch, TakeEpoch, MalformedIds, ResolveStart;
    var s' := Apply(c, s, st);
    forall e, x | e in s'.marks && x in s'.marks[e]
      ensures x in s'.safe || x in s'.queued
    {
      assert x in Delivered(s) ==> x in s.safe || x in s.queued;
    }
  }

  /** One step of an owed record that is not queued yet. */
  lemma OwedStep(c: Config, s: System, st: Step, x: Record)
    requires ValidConfiguration(c) && s.shown <= |s.queued| && Enabled(c, s, st) && !st.Crash?
    requires Inv(c, s) && MarksKnown(s) && x in s.ever && x !in s.safe && x !in s.queued
    ensures var s' := Apply(c, s, st);
      && x in s'.ever
      && (x in s'.queued || (
            && x !in s'.safe
            && NextStart(c, s.poll) + (if Succeeds(c, s, st) then c.maxWindow - c.lookback else 0) <= NextStart(c, s'.poll)))
  {
    StillAhead(c, s, x);
    if Succeeds(c, s, st) {
      OwedPoll(c, s, st.now, st.pages, x);
    } else {
      hide Inv, Enabled, Split, Generate, MarkEpoch, TakeEpoch, MalformedIds, Delivered, ScanPages, Evict, NextStart;
      assert NextStart(c, Apply(c, s, st).poll) == NextStart(c, s.poll) by { SameStart(c, s.poll, Apply(c, s, st).poll); }
    }
  }

  lemma SameStart(c: Config, p: Poll, p': Poll)
    requires p'.watermark == p.watermark && p'.floor == p.floor
    ensures NextStart(c, p') == NextStart(c, p)
  {
  }

  /** A successful poll returns the record if its window reaches it; otherwise the window was capped and the next one starts that much later. */
  lemma OwedPoll(c: Config, s: System, now: i64, pages: seq<Page>, x: Record)
    requires ValidConfiguration(c) && s.shown <= |s.queued| && Enabled(c, s, Poll_(now, pages)) && Cycle(c, s.poll, now, pages).1.Some?
    requires Inv(c, s) && x in s.ever && x !in s.safe && NextStart(c, s.poll) <= x.time
    ensures var s' := Apply(c, s, Poll_(now, pages));
      && x in s'.ever
      && (x in s'.queued || (x !in s'.safe && NextStart(c, s.poll) + c.maxWindow - c.lookback <= NextStart(c, s'.poll)))
  {
    var win := PlanWindow(s.poll.watermark, s.poll.floor, c.lookback, c.maxWindow, now);
    assert win.start == NextStart(c, s.poll);
    assert ApiContract(pages, win, s.ever, s.bad);
    if win.end.None? || x.time <= win.end.value {
      assert Returned(pages, Good(x)) by { ReturnedAgain(pages, win, s, x); }
      assert DedupInv(s.poll.seen, NextStart(c, s.poll), s.queued, s.ever, s.bad);
      PollGivesFacts(c, s, now, pages);
      hide Inv, ApiContract, PlanWindow, Cycle, NextStart, Split, Returned, MalformedIds;
    } else {
      CappedAdvances(c, s.poll, now, pages);
      hide Inv, ApiContract, PlanWindow, Cycle, NextStart, Split, MalformedIds;
    }
  }

  lemma ReturnedAgain(pages: seq<Page>, win: Window, s: System, x: Record)
    requires ApiContract(pages, win, s.ever, s.bad)
    requires x in s.ever && win.start <= x.time && (win.end.Some? ==> x.time <= win.end.value)
    ensures Returned(pages, Good(x))
  {
    hide Returned;
  }

  lemma CappedAdvances(c: Config, p: Poll, now: i64, pages: seq<Page>)
    requires ValidConfiguration(c) && Cycle(c, p, now, pages).1.Some?
    requires PlanWindow(p.watermark, p.floor, c.lookback, c.maxWindow, now).end.Some?
    ensures NextStart(c, p) + c.maxWindow - c.lookback <= NextStart(c, Cycle(c, p, now, pages).0)
  {
    hide ScanPages, Evict, Remember, RememberSkipped, MaxTime, SortByTime;
  }

  /** The delivered watermark is not behind any record that has been delivered. */
  ghost predicate DeliveredCovers(s: System) {
    && s.shown + s.batch <= |s.queued|
    && forall j | 0 <= j < s.shown :: s.queued[j].time <= s.src.delivered
  }

  /** So the watermark a marker records is exactly the newest delivered time, or the starting one. */
  lemma {:induction false} DeliveredIsNewest(c: Config, trace: seq<System>, steps: seq<Step>, k: nat)
    requires IsRun(c, trace, steps) && k < |trace|
    ensures DeliveredCovers(trace[k])
    ensures var s := trace[k]; s.src.delivered == s.first || exists j :: 0 <= j < s.shown && s.queued[j].time == s.src.delivered
  {
    hide *;
    RunLength(c, trace, steps);
    RunKeeps(c, trace, steps, k);
    NewestShown(c, trace[k]);
    if k == 0 {
      CoversAtStart(c, trace, steps);
    } else {
      DeliveredIsNewest(c, trace, steps, k - 1);
      RunKeeps(c, trace, steps, k - 1);
      StepOf(c, trace, steps, k - 1);
      StepCovers(c, trace[k - 1], steps[k - 1]);
    }
  }

  lemma CoversAtStart(c: Config, trace: seq<System>, steps: seq<Step>)
    requires IsRun(c, trace, steps)
    ensures DeliveredCovers(trace[0])
  {
    hide Enabled, Apply, ResolveStart;
  }

  lemma NewestShown(c: Config, s: System)
    requires Inv(c, s)
    ensures s.shown + s.batch <= |s.queued|
    ensures s.src.delivered == s.first || exists j :: 0 <= j < s.shown && s.queued[j].time == s.src.delivered
    ensures s.batch > 0 ==> s.src.pending.Some? && forall j | s.shown <= j < s.shown + s.batch :: s.queued[j].time <= s.src.pending.value
  {
    hide QueueInv, DedupInv, EpochsInv, BackendInv, OwedAhead, NextStart;
  }

  lemma StepCovers(c: Config, s: System, st: Step)
    requires c.batchSize >= 1 && s.shown <= |s.queued| && Enabled(c, s, st) && Inv(c, s) && DeliveredCovers(s)
    requires Apply(c, s, st).shown + Apply(c, s, st).batch <= |Apply(c, s, st).queued|
    ensures DeliveredCovers(Apply(c, s, st))
  {
    hide *;
    if st.Generate_? {
      NewestShown(c, s);
      GenerateCovers(c, s, st.convertOk);
    } else {
      OthersCover(c, s, st);
    }
  }

  lemma GenerateCovers(c: Config, s: System, ok: bool)
    requires s.shown + s.batch <= |s.queued| && c.batchSize >= 1 && DeliveredCovers(s)
    requires s.batch > 0 ==> s.src.pending.Some? && forall j | s.shown <= j < s.shown + s.batch :: s.queued[j].time <= s.src.pending.value
    requires Apply(c, s, Generate_(ok)).shown + Apply(c, s, Generate_(ok)).batch <= |Apply(c, s, Generate_(ok)).queued|
    ensures DeliveredCovers(Apply(c, s, Generate_(ok)))
  {
    GenerateShape(s.src, c.batchSize, ok);
    hide Generate;
    var d := Settle(s.src).delivered;
    assert s.src.delivered <= d && (s.src.pending.Some? ==> s.src.pending.value <= d);
  }

  lemma OthersCover(c: Config, s: System, st: Step)
    requires c.batchSize >= 1 && s.shown <= |s.queued| && Enabled(c, s, st) && DeliveredCovers(s) && !st.Generate_?
    ensures DeliveredCovers(Apply(c, s, st))
  {
    hide Enabled, Cycle, Split, MarkEpoch, TakeEpoch, MalformedIds, Delivered, ResolveStart;
    if st.Mark? || st.Final? {
      SameDelivered(s.src, st.epoch);
    }
  }

  lemma SameDelivered(s: Source, e: nat)
    ensures MarkEpoch(s, e).delivered == s.delivered && TakeEpoch(s, e).0.delivered == s.delivered
  {
  }

  /**
   Checkpoints take effect: when the finalizer of a marked epoch comes, with no
   crash and no finalizer of a later epoch before it, and the write succeeds,
   the backend holds the watermark that was delivered at the marker.
   */
  lemma CheckpointIsPersisted(c: Config, trace: seq<System>, steps: seq<Step>, i: nat, j: nat)
    requires IsRun(c, trace, steps) && i < j < |steps| && steps[i].Mark? && steps[j] == Final(steps[i].epoch, true)
    requires forall k | i < k < j :: !steps[k].Crash? && (steps[k].Final? ==> steps[k].epoch < steps[i].epoch)
    ensures j + 1 < |trace| && trace[j + 1].backend == Some(trace[i].src.delivered)
  {
    hide *;
    RunLength(c, trace, steps);
    EpochStays(c, trace, steps, i, j);
    RunKeeps(c, trace, steps, j);
    StepOf(c, trace, steps, j);
    FinalPersists(c, trace[j], steps[i].epoch);
  }

  lemma {:induction false} EpochStays(c: Config, trace: seq<System>, steps: seq<Step>, i: nat, j: nat)
    requires IsRun(c, trace, steps) && i < j < |trace| == |steps| + 1 && steps[i].Mark?
    requires forall k | i < k < j :: !steps[k].Crash? && (steps[k].Final? ==> steps[k].epoch < steps[i].epoch)
    ensures var e := steps[i].epoch; e in trace[j].src.epochs && trace[j].src.epochs[e] == trace[i].src.delivered && e in trace[j].marks
    decreases j
  {
    hide *;
    StepOf(c, trace, steps, j - 1);
    if j == i + 1 {
      MarkTakes(c, trace[i], steps[i].epoch);
    } else {
      EpochStays(c, trace, steps, i, j - 1);
      EpochKept(c, trace[j - 1], steps[j - 1], steps[i].epoch);
    }
  }

  lemma MarkTakes(c: Config, s: System, e: nat)
    requires c.batchSize >= 1 && s.shown <= |s.queued| && Enabled(c, s, Mark(e))
    ensures var s' := Apply(c, s, Mark(e)); e in s'.src.epochs && s'.src.epochs[e] == s.src.delivered && e in s'.marks
  {
    hide Delivered;
  }

  lemma EpochKept(c: Config, s: System, st: Step, e: nat)
    requires c.batchSize >= 1 && s.shown <= |s.queued| && Enabled(c, s, st)
    requires !st.Crash? && (st.Final? ==> st.epoch < e) && e in s.src.epochs && e in s.marks
    ensures var s' := Apply(c, s, st); e in s'.src.epochs && s'.src.epochs[e] == s.src.epochs[e] && e in s'.marks
  {
    if st.Generate_? {
      GenerateShape(s.src, c.batchSize, st.convertOk);
    }
    hide Cycle, Split, Generate, MalformedIds, Delivered, ApiContract;
  }

  lemma FinalPersists(c: Config, s: System, e: nat)
    requires c.batchSize >= 1 && s.shown <= |s.queued| && Enabled(c, s, Final(e, true)) && e in s.src.epochs && e in s.marks
    ensures Apply(c, s, Final(e, true)).backend == Some(s.src.epochs[e])
  {
  }

  /** Within one incarnation no id is queued twice, whatever is evicted, repeated across pages, or fetched by failed windows. */
  lemma NoIdQueuedTwice(c: Config, trace: seq<System>, steps: seq<Step>, k: nat)
    requires IsRun(c, trace, steps) && k < |trace|
    ensures IdsDistinct(trace[k].queued)
  {
    RunKeeps(c, trace, steps, k);
  }

  /** A successful window leaves nothing behind: whatever it returned is queued, even if failed windows returned it before. */
  lemma NothingReturnedIsLost(c: Config, trace: seq<System>, steps: seq<Step>, k: nat, x: Record)
    requires IsRun(c, trace, steps) && k < |steps| && steps[k].Poll_?
    requires Cycle(c, trace[k].poll, steps[k].now, steps[k].pages).1.Some?
    requires Returned(steps[k].pages, Good(x))
    ensures x in trace[k + 1].queued
  {
    RunKeeps(c, trace, steps, k);
    assert Enabled(c, trace[k], steps[k]) && trace[k + 1] == Apply(c, trace[k], steps[k]);
    PollGivesFacts(c, trace[k], steps[k].now, steps[k].pages);
    hide IsRun, ScanPages, SortByTime, Inv, Split;
  }

  /** Between two restarts the window starts never move backwards, whatever succeeds or fails. */
  lemma {:induction false} StartsNeverRegress(c: Config, trace: seq<System>, steps: seq<Step>, i: nat, j: nat)
    requires IsRun(c, trace, steps) && i <= j < |trace| && forall k | i <= k < j :: !steps[k].Crash?
    ensures NextStart(c, trace[i].poll) <= NextStart(c, trace[j].poll)
    ensures trace[i].poll.floor == trace[j].poll.floor
    decreases j - i
  {
    hide *;
    RunLength(c, trace, steps);
    if i < j {
      StartsNeverRegress(c, trace, steps, i, j - 1);
      StepOf(c, trace, steps, j - 1);
      StepStart(c, trace[j - 1], steps[j - 1]);
    }
  }

  lemma RunLength(c: Config, trace: seq<System>, steps: seq<Step>)
    requires IsRun(c, trace, steps)
    ensures ValidConfiguration(c) && |trace| == |steps| + 1
  {
    hide Init, Enabled, Apply, ValidConfiguration;
  }

  lemma StepOf(c: Config, trace: seq<System>, steps: seq<Step>, k: nat)
    requires IsRun(c, trace, steps) && k < |steps|
    ensures c.batchSize >= 1 && trace[k].shown <= |trace[k].queued| && Enabled(c, trace[k], steps[k])
    ensures trace[k + 1] == Apply(c, trace[k], steps[k])
  {
    hide Init, Enabled, Apply;
  }

  lemma StepStart(c: Config, s: System, step: Step)
    requires c.batchSize >= 1 && s.shown <= |s.queued| && Enabled(c, s, step) && !step.Crash?
    ensures var s' := Apply(c, s, step);
      s'.poll.floor == s.poll.floor && NextStart(c, s.poll) <= NextStart(c, s'.poll)
  {
    hide ApiContract, ScanPages, SortByTime, Split, Generate, MarkEpoch, TakeEpoch, MalformedIds, Delivered, Enabled;
    StartFollowsWatermark(s.poll.watermark, Apply(c, s, step).poll.watermark, s.poll.floor, c.lookback);
  }

  /** The persisted watermark never moves backwards. */
  lemma PersistedNeverRegresses(c: Config, trace: seq<System>, steps: seq<Step>, k: nat)
    requires IsRun(c, trace, steps) && k < |steps| && trace[k].backend.Some?
    ensures trace[k + 1].backend.Some? && trace[k].backend.value <= trace[k + 1].backend.value
  {
    RunLength(c, trace, steps);
    hide *;
    RunKeeps(c, trace, steps, k);
    StepOf(c, trace, steps, k);
    StepPersists(c, trace[k], steps[k]);
  }

  lemma StepPersists(c: Config, s: System, st: Step)
    requires c.batchSize >= 1 && s.shown <= |s.queued| && Enabled(c, s, st) && Inv(c, s) && s.backend.Some?
    ensures Apply(c, s, st).backend.Some? && s.backend.value <= Apply(c, s, st).backend.value
  {
    assert forall e | e in s.src.epochs :: s.backend.value <= s.src.epochs[e] by { BackendBelow(c, s); }
    hide Inv, Enabled, Cycle, Split, Generate, ResolveStart, MalformedIds, Delivered;
  }

  lemma BackendBelow(c: Config, s: System)
    requires Inv(c, s) && s.backend.Some?
    ensures forall e | e in s.src.epochs :: s.backend.value <= s.src.epochs[e]
  {
    hide FlowInv, QueueInv, ShownInv, DedupInv, OwedAhead, EpochsInv, Reaches, NextStart;
  }
}
