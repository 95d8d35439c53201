/**
 The CloudTrail poller: window planning over 64-bit saturating milliseconds,
 dedup with eviction, one poll cycle, and sorting into batches. LookupEvents is
 an environment that answers a window with pages of events or fails.
 */
module CloudTrailPoller {
  import opened Collections
  import opened Wrappers

  const I64_MIN: int := -0x8000_0000_0000_0000
  const I64_MAX: int := 0x7fff_ffff_ffff_ffff
  const U64_MAX: int := 0xffff_ffff_ffff_ffff
  const LOOKUP_RETENTION_MS: int := 90 * 24 * 3600 * 1000

  type i64 = x: int | I64_MIN <= x <= I64_MAX
  type u64 = x: int | 0 <= x <= U64_MAX

  function Max(a: int, b: int): int { if a < b then b else a }

  function Saturate(x: int): i64 {
    if x < I64_MIN then I64_MIN else if x > I64_MAX then I64_MAX else x
  }

  function SecsToMs(secs: u64): i64 {
    Saturate((if secs > I64_MAX then I64_MAX else secs) * 1000)
  }

  datatype StartTime = Now | Earliest | At(t: i64)

  /** The lookback never reaches before a configured start time. */
  function ConfiguredFloor(start: StartTime): i64 {
    if start.At? then start.t else 0
  }

  /** Initial `(watermark, floor)`. */
  function ResolveStart(checkpoint: Option<i64>, start: StartTime, now: i64): (i64, i64)
    requires now >= 0
  {
    match checkpoint
    case Some(watermark) => (watermark, ConfiguredFloor(start))
    case None =>
      match start
      case Now => (now, now)
      case Earliest =>
        var horizon: i64 := Max(now - LOOKUP_RETENTION_MS, 0);
        (horizon, horizon)
      case At(t) => (t, t)
  }

  datatype Window = Window(start: i64, end: Option<i64>)

  function WindowStart(watermark: i64, floor: i64, lookback: i64): i64 {
    Max(Max(Saturate(watermark - lookback), floor), 0)
  }

  function PlanWindow(watermark: i64, floor: i64, lookback: i64, maxWindow: i64, now: i64): Window {
    var start := WindowStart(watermark, floor, lookback);
    var end := Saturate(start + maxWindow);
    Window(start, if end < now then Some(end) else None)
  }

  function AdvanceWatermark(current: i64, maxFetched: Option<i64>, cappedEnd: Option<i64>): i64 {
    var a := if maxFetched.Some? then Max(current, maxFetched.value) else current;
    if cappedEnd.Some? then Max(a, cappedEnd.value) else a
  }

  // ---------------------------------------------------------------- window coverage and progress

  /** The configuration check that makes capped windows move forward. */
  ghost predicate ValidConfig(lookbackSecs: u64, maxWindowSecs: u64) {
    maxWindowSecs > lookbackSecs
  }

  /** Window starts follow the watermark. */
  lemma StartFollowsWatermark(w: i64, w': i64, floor: i64, lookback: i64)
    requires w <= w'
    ensures WindowStart(w, floor, lookback) <= WindowStart(w', floor, lookback)
  {
  }

  /**
   A window reaches back by the lookback, but not before the floor, and forward
   by the window length: what it covers of the time up to now.
   */
  lemma WindowCovers(watermark: i64, floor: i64, lookback: i64, maxWindow: i64, now: i64, t: i64)
    requires 0 <= lookback && 0 <= t <= now
    ensures var win := PlanWindow(watermark, floor, lookback, maxWindow, now);
      && (win.start <= t <==> watermark - lookback <= t && floor <= t)
      && (win.start <= t ==> (win.end.None? || t <= win.end.value <==> t - win.start <= maxWindow))
  {
  }

  /** A capped window is only planned when the milliseconds did not saturate, so it is longer than the lookback. */
  lemma CappedOutgrowsLookback(w: i64, floor: i64, lookbackSecs: u64, maxWindowSecs: u64, now: i64)
    requires ValidConfig(lookbackSecs, maxWindowSecs)
    requires PlanWindow(w, floor, SecsToMs(lookbackSecs), SecsToMs(maxWindowSecs), now).end.Some?
    ensures 0 <= SecsToMs(lookbackSecs) < SecsToMs(maxWindowSecs) < I64_MAX
  {
  }

  /**
   After a fully scanned capped window whose events lie inside it, the next
   window starts no later than its end and no earlier than
   `maxWindow - lookback` after its start.
   */
  lemma CappedWindowsAdvanceWithoutGap(
    w: i64, floor: i64, lookbackSecs: u64, maxWindowSecs: u64, now: i64, maxFetched: Option<i64>)
    requires ValidConfig(lookbackSecs, maxWindowSecs)
    requires var win := PlanWindow(w, floor, SecsToMs(lookbackSecs), SecsToMs(maxWindowSecs), now);
      win.end.Some? && (maxFetched.Some? ==> maxFetched.value <= win.end.value)
    ensures var (lookback, maxWindow) := (SecsToMs(lookbackSecs), SecsToMs(maxWindowSecs));
      var win := PlanWindow(w, floor, lookback, maxWindow, now);
      var w' := AdvanceWatermark(w, maxFetched, win.end);
      var next := WindowStart(w', floor, lookback);
      && w <= w' == win.end.value
      && win.start + (maxWindow - lookback) <= next <= win.end.value
      && win.start < next
  {
    CappedOutgrowsLookback(w, floor, lookbackSecs, maxWindowSecs, now);
  }

  /** One fully scanned capped cycle whose newest event, if any, lies inside its window. */
  ghost predicate CappedCycle(w: i64, w': i64, floor: i64, lookbackSecs: u64, maxWindowSecs: u64, now: i64) {
    var win := PlanWindow(w, floor, SecsToMs(lookbackSecs), SecsToMs(maxWindowSecs), now);
    && win.end.Some?
    && exists m: Option<i64> :: (m.Some? ==> m.value <= win.end.value) && w' == AdvanceWatermark(w, m, win.end)
  }

  /** Watermarks around consecutive capped cycles at one instant `now`. */
  ghost predicate CappedRun(ws: seq<i64>, floor: i64, lookbackSecs: u64, maxWindowSecs: u64, now: i64) {
    && |ws| >= 1
    && forall k | 0 <= k < |ws| - 1 :: CappedCycle(ws[k], ws[k + 1], floor, lookbackSecs, maxWindowSecs, now)
  }

  /**
   For a fixed `now` the backlog ends: every capped cycle moves the window
   start forward by `maxWindow - lookback`, so their number is bounded by the
   distance to `now`.
   */
  lemma {:induction false} BacklogEnds(ws: seq<i64>, floor: i64, lookbackSecs: u64, maxWindowSecs: u64, now: i64)
    requires ValidConfig(lookbackSecs, maxWindowSecs)
    requires CappedRun(ws, floor, lookbackSecs, maxWindowSecs, now)
    ensures var (lookback, maxWindow) := (SecsToMs(lookbackSecs), SecsToMs(maxWindowSecs));
      var start0 := WindowStart(ws[0], floor, lookback);
      var startN := WindowStart(ws[|ws| - 1], floor, lookback);
      var cycles := |ws| - 1;
      && start0 + cycles * (maxWindow - lookback) <= startN
      && (cycles > 0 ==> lookback < maxWindow && startN <= now)
  {
    if |ws| > 1 {
      var k := |ws| - 2;
      assert CappedCycle(ws[k], ws[k + 1], floor, lookbackSecs, maxWindowSecs, now);
      var win := PlanWindow(ws[k], floor, SecsToMs(lookbackSecs), SecsToMs(maxWindowSecs), now);
      var m: Option<i64> :| (m.Some? ==> m.value <= win.end.value) && ws[k + 1] == AdvanceWatermark(ws[k], m, win.end);
      CappedWindowsAdvanceWithoutGap(ws[k], floor, lookbackSecs, maxWindowSecs, now, m);
      BacklogEnds(ws[..|ws| - 1], floor, lookbackSecs, maxWindowSecs, now);
      var step := SecsToMs(maxWindowSecs) - SecsToMs(lookbackSecs);
      assert (k + 1) * step == k * step + step;
      assert win.end.value <= now;
    }
  }

  // ---------------------------------------------------------------- fetching a window

  type Id = string

  datatype Record = Record(id: Id, time: i64)

  /** An event as the API returns it; a malformed one may lack its id or its time. */
  datatype ApiEvent = Good(record: Record) | Malformed(id: Option<Id>, time: Option<i64>)

  /** The answer to one page request. */
  datatype Page = Page(events: seq<ApiEvent>) | RequestFailed

  datatype OnMalformed = Error | Skip

  /** New records, skipped malformed ids, and the ids seen in this window. */
  datatype Fetched = Fetched(records: seq<Record>, skipped: seq<(Id, i64)>, seen: set<Id>)

  datatype FetchError = Failed

  function ScanEvent(f: Fetched, e: ApiEvent, known: set<Id>, policy: OnMalformed, start: i64): Result<Fetched, FetchError> {
    match e
    case Good(r) =>
      if r.id in known || r.id in f.seen then Ok(f)
      else Ok(f.(records := f.records + [r], seen := f.seen + {r.id}))
    case Malformed(id, time) =>
      if policy == Error then Err(Failed)
      else if id.None? then Ok(f)
      else Ok(f.(skipped := f.skipped + [(id.value, if time.Some? then time.value else start)]))
  }

  function ScanEvents(f: Result<Fetched, FetchError>, events: seq<ApiEvent>, known: set<Id>, policy: OnMalformed, start: i64): Result<Fetched, FetchError> {
    if events == [] then f
    else match ScanEvents(f, events[..|events| - 1], known, policy, start)
      case Err(e) => Err(e)
      case Ok(g) => ScanEvent(g, events[|events| - 1], known, policy, start)
  }

  /** All pages of a window; any failed request or, under `Error`, any malformed event fails the whole window. */
  function ScanPages(pages: seq<Page>, known: set<Id>, policy: OnMalformed, start: i64): Result<Fetched, FetchError> {
    if pages == [] then Ok(Fetched([], [], {}))
    else match pages[|pages| - 1]
      case RequestFailed => Err(Failed)
      case Page(events) => ScanEvents(ScanPages(pages[..|pages| - 1], known, policy, start), events, known, policy, start)
  }

  ghost predicate Returned(pages: seq<Page>, e: ApiEvent) {
    exists k :: 0 <= k < |pages| && pages[k].Page? && e in pages[k].events
  }

  ghost function ShownBy(pages: seq<Page>): iset<ApiEvent> {
    iset e | Returned(pages, e)
  }

  ghost function EventsIn(events: seq<ApiEvent>): iset<ApiEvent> {
    iset e | e in events
  }

  method FetchWindow(pages: seq<Page>, known: set<Id>, policy: OnMalformed, start: i64) returns (r: Result<Fetched, FetchError>)
    ensures r == ScanPages(pages, known, policy, start)
  {
    r := Ok(Fetched([], [], {}));
    hide ScanEvents;
    for k := 0 to |pages|
      invariant r.Ok? && ScanPages(pages[..k], known, policy, start) == r
    {
      assert pages[..k + 1][..k] == pages[..k];
      if pages[k].RequestFailed? {
        r := Err(Failed);
      } else {
        r := FetchPage(r.value, pages[k].events, known, policy, start);
      }
      if r.Err? {
        WindowStaysFailed(pages, k + 1, known, policy, start);
        assert ScanPages(pages, known, policy, start).error == Failed == r.error;
        return;
      }
    }
    assert pages[..|pages|] == pages;
  }

  /** The events of one page, added to what the window has so far. */
  method FetchPage(sofar: Fetched, events: seq<ApiEvent>, known: set<Id>, policy: OnMalformed, start: i64) returns (r: Result<Fetched, FetchError>)
    ensures r == ScanEvents(Ok(sofar), events, known, policy, start)
  {
    var f := sofar;
    for i := 0 to |events|
      invariant ScanEvents(Ok(sofar), events[..i], known, policy, start) == Ok(f)
    {
      assert events[..i + 1][..i] == events[..i];
      match events[i] {
        case Good(record) =>
          if record.id in known || record.id in f.seen {
          } else {
            f := f.(records := f.records + [record], seen := f.seen + {record.id});
          }
        case Malformed(id, time) =>
          if policy == Error {
            ScanStaysFailed(Ok(sofar), events, i + 1, known, policy, start);
            assert ScanEvents(Ok(sofar), events, known, policy, start).error == Failed;
            return Err(Failed);
          }
          if id.Some? {
            f := f.(skipped := f.skipped + [(id.value, if time.Some? then time.value else start)]);
          }
      }
    }
    assert events[..|events|] == events;
    r := Ok(f);
  }

  lemma {:induction false} ScanStaysFailed(f: Result<Fetched, FetchError>, events: seq<ApiEvent>, i: nat, known: set<Id>, policy: OnMalformed, start: i64)
    requires i <= |events| && ScanEvents(f, events[..i], known, policy, start).Err?
    ensures ScanEvents(f, events, known, policy, start).Err?
    decreases |events|
  {
    if i == |events| {
      assert events[..i] == events;
    } else {
      var n := |events| - 1;
      assert events[..n][..i] == events[..i];
      ScanStaysFailed(f, events[..n], i, known, policy, start);
    }
  }

  lemma {:induction false} WindowStaysFailed(pages: seq<Page>, k: nat, known: set<Id>, policy: OnMalformed, start: i64)
    requires k <= |pages| && ScanPages(pages[..k], known, policy, start).Err?
    ensures ScanPages(pages, known, policy, start).Err?
    decreases |pages|
  {
    if k == |pages| {
      assert pages[..k] == pages;
    } else {
      var n := |pages| - 1;
      assert pages[..n][..k] == pages[..k];
      WindowStaysFailed(pages[..n], k, known, policy, start);
      if pages[n].Page? {
        ScanStaysFailed(ScanPages(pages[..n], known, policy, start), pages[n].events, 0, known, policy, start);
      }
    }
  }

  ghost predicate IdsDistinct(records: seq<Record>) {
    forall i, j | 0 <= i < j < |records| :: records[i].id != records[j].id
  }

  ghost predicate HasId(records: seq<Record>, id: Id) {
    exists i :: 0 <= i < |records| && records[i].id == id
  }

  lemma AppendId(records: seq<Record>, r: Record)
    ensures forall id :: HasId(records + [r], id) <==> HasId(records, id) || id == r.id
    ensures IdsDistinct(records) && !HasId(records, r.id) <==> IdsDistinct(records + [r])
  {
    var all := records + [r];
    var n := |records|;
    assert all[n] == r;
    forall id
      ensures HasId(all, id) <==> HasId(records, id) || id == r.id
    {
      if HasId(records, id) {
        var i :| 0 <= i < n && records[i].id == id;
        assert all[i].id == id;
      }
      if HasId(all, id) && id != r.id {
        var i :| 0 <= i < |all| && all[i].id == id;
        assert records[i].id == id;
      }
    }
    if IdsDistinct(all) {
      assert forall i | 0 <= i < n :: records[i] == all[i] && records[i].id != all[n].id;
    }
    if IdsDistinct(records) && !HasId(records, r.id) {
      forall i, j | 0 <= i < j < |all|
        ensures all[i].id != all[j].id
      {
        assert HasId(records, records[i].id);
      }
    }
  }

  /** What a scan has collected so far, given the events it has been shown. */
  ghost predicate Sound(f: Fetched, known: set<Id>, shown: iset<ApiEvent>) {
    && IdsDistinct(f.records)
    && (forall id :: id in f.seen <==> HasId(f.records, id))
    && (forall r | r in f.records :: r.id !in known && Good(r) in shown)
    && (forall e | e in shown && e.Good? :: e.record.id in known || e.record.id in f.seen)
    && (forall s | s in f.skipped :: exists e :: e in shown && e.Malformed? && e.id == Some(s.0))
  }

  lemma ScanEventSound(f: Fetched, e: ApiEvent, known: set<Id>, policy: OnMalformed, start: i64, shown: iset<ApiEvent>)
    requires Sound(f, known, shown) && ScanEvent(f, e, known, policy, start).Ok?
    ensures Sound(ScanEvent(f, e, known, policy, start).value, known, shown + iset{e})
  {
    var g := ScanEvent(f, e, known, policy, start).value;
    var shown' := shown + iset{e};
    if e.Good? && g.records != f.records {
      AppendId(f.records, e.record);
    }
    forall s | s in g.skipped
      ensures exists x :: x in shown' && x.Malformed? && x.id == Some(s.0)
    {
      if s in f.skipped {
        var x :| x in shown && x.Malformed? && x.id == Some(s.0);
        assert x in shown';
      } else {
        assert e in shown';
      }
    }
  }

  lemma {:induction false} ScanEventsSound(f: Fetched, events: seq<ApiEvent>, known: set<Id>, policy: OnMalformed, start: i64, shown: iset<ApiEvent>)
    requires Sound(f, known, shown) && ScanEvents(Ok(f), events, known, policy, start).Ok?
    ensures Sound(ScanEvents(Ok(f), events, known, policy, start).value, known, shown + EventsIn(events))
  {
    if events == [] {
      assert shown + EventsIn(events) == shown;
    } else {
      var n := |events| - 1;
      ScanEventsSound(f, events[..n], known, policy, start, shown);
      var mid := shown + EventsIn(events[..n]);
      var g := ScanEvents(Ok(f), events[..n], known, policy, start).value;
      ScanEventSound(g, events[n], known, policy, start, mid);
      assert events == events[..n] + [events[n]];
      assert mid + iset{events[n]} == shown + EventsIn(events);
    }
  }

  lemma {:induction false} ScanPagesSound(pages: seq<Page>, known: set<Id>, policy: OnMalformed, start: i64)
    requires ScanPages(pages, known, policy, start).Ok?
    ensures Sound(ScanPages(pages, known, policy, start).value, known, ShownBy(pages))
  {
    if pages != [] {
      var n := |pages| - 1;
      var events := pages[n].events;
      var before := ScanPages(pages[..n], known, policy, start);
      if before.Err? {
        ScanStaysFailed(before, events, 0, known, policy, start);
        assert false;
      }
      ScanPagesSound(pages[..n], known, policy, start);
      var shown := ShownBy(pages[..n]);
      ScanEventsSound(before.value, events, known, policy, start, shown);
      ShownThen(pages);
    }
  }

  /** Under the failing policy a malformed event fails the window that shows it; under the skipping one it never does. */
  predicate Tolerates(policy: OnMalformed, e: ApiEvent) {
    e.Good? || policy == Skip
  }

  lemma {:induction false} EventsSucceed(f: Fetched, events: seq<ApiEvent>, known: set<Id>, policy: OnMalformed, start: i64)
    ensures ScanEvents(Ok(f), events, known, policy, start).Ok? <==> forall e | e in events :: Tolerates(policy, e)
  {
    if events != [] {
      var n := |events| - 1;
      EventsSucceed(f, events[..n], known, policy, start);
      assert forall e :: e in events <==> e in events[..n] || e == events[n] by { assert events == events[..n] + [events[n]]; }
      var before := ScanEvents(Ok(f), events[..n], known, policy, start);
      assert before.Ok? ==> (ScanEvent(before.value, events[n], known, policy, start).Ok? <==> Tolerates(policy, events[n]));
    }
  }

  lemma {:induction false} PagesSucceed(pages: seq<Page>, known: set<Id>, policy: OnMalformed, start: i64)
    ensures ScanPages(pages, known, policy, start).Ok? <==>
      forall k | 0 <= k < |pages| :: pages[k].Page? && forall e | e in pages[k].events :: Tolerates(policy, e)
  {
    if pages != [] {
      var n := |pages| - 1;
      PagesSucceed(pages[..n], known, policy, start);
      assert forall k | 0 <= k < n :: pages[..n][k] == pages[k];
      if pages[n].Page? {
        var before := ScanPages(pages[..n], known, policy, start);
        if before.Ok? {
          EventsSucceed(before.value, pages[n].events, known, policy, start);
        } else {
          ScanStaysFailed(before, pages[n].events, 0, known, policy, start);
        }
      }
    }
  }

  /**
   A window succeeds exactly when every page request did and either malformed
   events are to be skipped or none was shown.
   */
  lemma ScanSucceeds(pages: seq<Page>, known: set<Id>, policy: OnMalformed, start: i64)
    ensures ScanPages(pages, known, policy, start).Ok? <==>
      (forall k | 0 <= k < |pages| :: pages[k].Page?) && (policy == Skip || forall e | Returned(pages, e) :: e.Good?)
  {
    PagesSucceed(pages, known, policy, start);
    hide ScanPages;
    if forall k | 0 <= k < |pages| :: pages[k].Page? {
      if policy != Skip && forall e | Returned(pages, e) :: e.Good? {
        forall k, e | 0 <= k < |pages| && e in pages[k].events
          ensures Tolerates(policy, e)
        {
          assert Returned(pages, e);
        }
      }
    }
  }

  /** The entry under which a malformed event is remembered: its id, with its time or else the start of the window. */
  predicate IsSkip(e: ApiEvent, entry: (Id, i64), start: i64) {
    e.Malformed? && e.id == Some(entry.0) && entry.1 == if e.time.Some? then e.time.value else start
  }

  ghost predicate SkipsOf(f: Fetched, start: i64, shown: iset<ApiEvent>) {
    forall s :: s in f.skipped <==> exists e :: e in shown && IsSkip(e, s, start)
  }

  lemma {:induction false} EventsSkip(
    f: Fetched, events: seq<ApiEvent>, known: set<Id>, policy: OnMalformed, start: i64, shown: iset<ApiEvent>)
    requires SkipsOf(f, start, shown) && ScanEvents(Ok(f), events, known, policy, start).Ok?
    ensures SkipsOf(ScanEvents(Ok(f), events, known, policy, start).value, start, shown + EventsIn(events))
  {
    if events == [] {
      assert shown + EventsIn(events) == shown;
    } else {
      var n := |events| - 1;
      var mid := shown + EventsIn(events[..n]);
      EventsSkip(f, events[..n], known, policy, start, shown);
      EventSkips(ScanEvents(Ok(f), events[..n], known, policy, start).value, events[n], known, policy, start, mid);
      assert events == events[..n] + [events[n]];
      assert mid + iset{events[n]} == shown + EventsIn(events);
    }
  }

  lemma EventSkips(f: Fetched, e: ApiEvent, known: set<Id>, policy: OnMalformed, start: i64, shown: iset<ApiEvent>)
    requires SkipsOf(f, start, shown) && ScanEvent(f, e, known, policy, start).Ok?
    ensures SkipsOf(ScanEvent(f, e, known, policy, start).value, start, shown + iset{e})
  {
    var g, all := ScanEvent(f, e, known, policy, start).value, shown + iset{e};
    forall s
      ensures s in g.skipped <==> exists x :: x in all && IsSkip(x, s, start)
    {
      assert s in g.skipped <==> s in f.skipped || IsSkip(e, s, start);
      if x :| x in all && IsSkip(x, s, start) {
        assert x in shown || x == e;
      }
      if x :| x in shown && IsSkip(x, s, start) {
        assert x in all;
      }
      assert IsSkip(e, s, start) ==> e in all;
    }
  }

  /** A successful window remembers exactly the malformed events that have an id, so none under the failing policy. */
  lemma {:induction false} ScanSkipsMalformed(pages: seq<Page>, known: set<Id>, policy: OnMalformed, start: i64)
    requires ScanPages(pages, known, policy, start).Ok?
    ensures SkipsOf(ScanPages(pages, known, policy, start).value, start, ShownBy(pages))
    ensures policy == Error ==> ScanPages(pages, known, policy, start).value.skipped == []
  {
    if pages != [] {
      var n := |pages| - 1;
      var before := ScanPages(pages[..n], known, policy, start);
      PagesSucceed(pages, known, policy, start);
      PagesSucceed(pages[..n], known, policy, start);
      assert forall k | 0 <= k < n :: pages[..n][k] == pages[k];
      ScanSkipsMalformed(pages[..n], known, policy, start);
      EventsSkip(before.value, pages[n].events, known, policy, start, ShownBy(pages[..n]));
      ShownThen(pages);
    }
    NoneSkipped(pages, known, policy, start);
  }

  lemma ShownThen(pages: seq<Page>)
    requires pages != [] && pages[|pages| - 1].Page?
    ensures ShownBy(pages) == ShownBy(pages[..|pages| - 1]) + EventsIn(pages[|pages| - 1].events)
  {
    var n := |pages| - 1;
    forall e
      ensures Returned(pages, e) <==> Returned(pages[..n], e) || e in pages[n].events
    {
      if Returned(pages, e) {
        var k :| 0 <= k < |pages| && pages[k].Page? && e in pages[k].events;
        assert k < n ==> pages[..n][k] == pages[k];
      }
      if Returned(pages[..n], e) {
        var k :| 0 <= k < n && pages[..n][k].Page? && e in pages[..n][k].events;
        assert pages[k] == pages[..n][k];
      }
    }
  }

  lemma NoneSkipped(pages: seq<Page>, known: set<Id>, policy: OnMalformed, start: i64)
    requires ScanPages(pages, known, policy, start).Ok?
    requires SkipsOf(ScanPages(pages, known, policy, start).value, start, ShownBy(pages))
    ensures policy == Error ==> ScanPages(pages, known, policy, start).value.skipped == []
  {
    ScanSucceeds(pages, known, policy, start);
    hide ScanPages;
    var skipped := ScanPages(pages, known, policy, start).value.skipped;
    if skipped != [] {
      SomeElement(skipped);
    }
    if policy == Error {
      forall s
        ensures s !in skipped
      {
        assert forall e | e in ShownBy(pages) :: !IsSkip(e, s, start);
      }
    }
  }

  // ---------------------------------------------------------------- sorting into batches

  ghost predicate Ascending(records: seq<Record>) {
    forall i, j | 0 <= i < j < |records| :: records[i].time <= records[j].time
  }

  /** Stable insertion behind every record that is not later. */
  function InsertByTime(sorted: seq<Record>, r: Record): (s: seq<Record>)
    ensures multiset(s) == multiset(sorted) + multiset{r}
    ensures |s| == |sorted| + 1
  {
    if sorted == [] || sorted[|sorted| - 1].time <= r.time then sorted + [r]
    else
      var n := |sorted| - 1;
      assert sorted == sorted[..n] + [sorted[n]];
      InsertByTime(sorted[..n], r) + [sorted[n]]
  }

  lemma {:induction false} InsertKeepsOrder(sorted: seq<Record>, r: Record)
    requires Ascending(sorted)
    ensures Ascending(InsertByTime(sorted, r))
  {
    if sorted == [] || sorted[|sorted| - 1].time <= r.time {
      AppendLatest(sorted, r);
    } else {
      var n := |sorted| - 1;
      assert forall i, j | 0 <= i < j < n :: sorted[..n][i].time <= sorted[..n][j].time;
      InsertKeepsOrder(sorted[..n], r);
      InsertNoLater(sorted[..n], r, sorted[n].time);
      AppendLatest(InsertByTime(sorted[..n], r), sorted[n]);
    }
  }

  lemma AppendLatest(sorted: seq<Record>, r: Record)
    requires Ascending(sorted) && forall i | 0 <= i < |sorted| :: sorted[i].time <= r.time
    ensures Ascending(sorted + [r])
  {
  }

  lemma {:induction false} InsertNoLater(sorted: seq<Record>, r: Record, bound: i64)
    requires r.time <= bound && forall i | 0 <= i < |sorted| :: sorted[i].time <= bound
    ensures forall i | 0 <= i < |InsertByTime(sorted, r)| :: InsertByTime(sorted, r)[i].time <= bound
  {
    if sorted != [] && sorted[|sorted| - 1].time > r.time {
      InsertNoLater(sorted[..|sorted| - 1], r, bound);
    }
  }

  function SortByTime(records: seq<Record>): (s: seq<Record>)
    ensures multiset(s) == multiset(records)
    ensures |s| == |records|
  {
    if records == [] then []
    else
      assert records == records[..|records| - 1] + [records[|records| - 1]];
      InsertByTime(SortByTime(records[..|records| - 1]), records[|records| - 1])
  }

  lemma {:induction false} SortIsAscending(records: seq<Record>)
    ensures Ascending(SortByTime(records))
  {
    if records != [] {
      SortIsAscending(records[..|records| - 1]);
      InsertKeepsOrder(SortByTime(records[..|records| - 1]), records[|records| - 1]);
    }
  }

  lemma SortKeepsMembers(records: seq<Record>, x: Record)
    ensures x in SortByTime(records) <==> x in records
  {
    assert x in multiset(SortByTime(records)) <==> x in multiset(records);
  }

  lemma {:induction false} InsertKeepsIds(sorted: seq<Record>, r: Record)
    ensures forall id :: HasId(InsertByTime(sorted, r), id) <==> HasId(sorted, id) || id == r.id
    ensures IdsDistinct(InsertByTime(sorted, r)) <==> IdsDistinct(sorted) && !HasId(sorted, r.id)
  {
    if sorted == [] || sorted[|sorted| - 1].time <= r.time {
      AppendId(sorted, r);
    } else {
      var n := |sorted| - 1;
      hide HasId, IdsDistinct;
      InsertKeepsIds(sorted[..n], r);
      AppendId(InsertByTime(sorted[..n], r), sorted[n]);
      AppendId(sorted[..n], sorted[n]);
      assert sorted == sorted[..n] + [sorted[n]];
    }
  }

  /** Sorting neither loses, adds nor duplicates ids. */
  lemma {:induction false} SortKeepsIds(records: seq<Record>)
    ensures forall id :: HasId(SortByTime(records), id) <==> HasId(records, id)
    ensures IdsDistinct(SortByTime(records)) <==> IdsDistinct(records)
  {
    if records != [] {
      var n := |records| - 1;
      hide HasId, IdsDistinct;
      SortKeepsIds(records[..n]);
      InsertKeepsIds(SortByTime(records[..n]), records[n]);
      AppendId(records[..n], records[n]);
      assert records == records[..n] + [records[n]];
    }
  }

  /** The chunks are the sorted records, cut into non-empty pieces of at most `batchSize`. */
  method SortIntoBatches(records: seq<Record>, batchSize: nat) returns (batches: seq<seq<Record>>)
    requires batchSize >= 1
    ensures Flatten(batches) == SortByTime(records)
    ensures forall i | 0 <= i < |batches| :: 1 <= |batches[i]| <= batchSize
    ensures forall i | 0 <= i < |batches| - 1 :: |batches[i]| == batchSize
  {
    var rest := SortByTime(records);
    batches := [];
    hide SortByTime, Flatten;
    FlattenNothing<Record>();
    while |rest| > batchSize
      invariant Flatten(batches) + rest == SortByTime(records)
      invariant forall i | 0 <= i < |batches| :: |batches[i]| == batchSize
      invariant batches != [] ==> rest != []
    {
      var head := rest[..batchSize];
      FlattenAppend(batches, head);
      batches := batches + [head];
      rest := rest[batchSize..];
    }
    if rest != [] {
      FlattenAppend(batches, rest);
      batches := batches + [rest];
    }
  }

  // ---------------------------------------------------------------- one poll cycle

  /** Event ids already queued or skipped, each with the time that decides when it may be forgotten. */
  class DedupedEventIds {
    var seen: map<Id, i64>

    constructor ()
      ensures seen == map[]
    {
      seen := map[];
    }

    method Insert(id: Id, time: i64)
      modifies this
      ensures seen == old(seen)[id := time]
    {
      seen := seen[id := time];
    }

    method EvictBefore(cutoff: i64)
      modifies this
      ensures seen == Evict(old(seen), cutoff)
    {
      seen := map id | id in seen && seen[id] >= cutoff :: seen[id];
    }
  }

  function Evict(seen: map<Id, i64>, cutoff: i64): map<Id, i64> {
    map id | id in seen && seen[id] >= cutoff :: seen[id]
  }

  function Remember(seen: map<Id, i64>, records: seq<Record>): map<Id, i64> {
    if records == [] then seen
    else Remember(seen, records[..|records| - 1])[records[|records| - 1].id := records[|records| - 1].time]
  }

  function RememberSkipped(seen: map<Id, i64>, skipped: seq<(Id, i64)>): map<Id, i64> {
    if skipped == [] then seen
    else RememberSkipped(seen, skipped[..|skipped| - 1])[skipped[|skipped| - 1].0 := skipped[|skipped| - 1].1]
  }

  predicate IsNewestTime(records: seq<Record>, m: i64) {
    && (exists i :: 0 <= i < |records| && records[i].time == m)
    && (forall i | 0 <= i < |records| :: records[i].time <= m)
  }

  function MaxTime(records: seq<Record>): (m: Option<i64>)
    ensures m.None? <==> records == []
    ensures m.Some? ==> IsNewestTime(records, m.value)
  {
    if records == [] then None
    else
      var n := |records| - 1;
      var before := MaxTime(records[..n]);
      if before.Some? && before.value >= records[n].time
      then
        var i :| 0 <= i < n && records[..n][i].time == before.value;
        assert records[i].time == before.value;
        before
      else Some(records[n].time)
  }

  datatype Config = Config(
    lookback: i64, maxWindow: i64, batchSize: nat, start: StartTime, policy: OnMalformed)

  /** The poller between cycles. */
  datatype Poll = Poll(watermark: i64, floor: i64, seen: map<Id, i64>)

  /** One successful or failed cycle: the new poller and, on success, the sorted records to send. */
  function Cycle(c: Config, p: Poll, now: i64, pages: seq<Page>): (Poll, Option<seq<Record>>) {
    var win := PlanWindow(p.watermark, p.floor, c.lookback, c.maxWindow, now);
    var kept := Evict(p.seen, win.start);
    match ScanPages(pages, kept.Keys, c.policy, win.start)
    case Err(_) => (p.(seen := kept), None)
    case Ok(f) =>
      (Poll(AdvanceWatermark(p.watermark, MaxTime(f.records), win.end), p.floor,
            RememberSkipped(Remember(kept, f.records), f.skipped)),
       Some(SortByTime(f.records)))
  }

  /**
   A cycle succeeds exactly when its scan does. The watermark then is the newest
   of the old one, the end of a capped window and the records fetched; a failed
   cycle leaves it.
   */
  lemma CycleAdvances(c: Config, p: Poll, now: i64, pages: seq<Page>)
    ensures var (q, out) := Cycle(c, p, now, pages);
      var end := PlanWindow(p.watermark, p.floor, c.lookback, c.maxWindow, now).end;
      && (out.Some? <==> (forall k | 0 <= k < |pages| :: pages[k].Page?) && (c.policy == Skip || forall e | Returned(pages, e) :: e.Good?))
      && q.floor == p.floor
      && (out.None? ==> q.watermark == p.watermark)
      && (out.Some? ==>
            && p.watermark <= q.watermark && (end.Some? ==> end.value <= q.watermark)
            && (forall r | r in out.value :: r.time <= q.watermark)
            && (q.watermark == p.watermark || end == Some(q.watermark) || exists r :: r in out.value && r.time == q.watermark))
  {
    var win := PlanWindow(p.watermark, p.floor, c.lookback, c.maxWindow, now);
    var known := Evict(p.seen, win.start).Keys;
    ScanSucceeds(pages, known, c.policy, win.start);
    hide ScanPages, Evict, Remember, RememberSkipped, PlanWindow;
    var scan := ScanPages(pages, known, c.policy, win.start);
    if scan.Ok? {
      SameRecords(SortByTime(scan.value.records), scan.value.records);
    }
  }

  lemma SameRecords(a: seq<Record>, b: seq<Record>)
    requires multiset(a) == multiset(b)
    ensures forall r :: r in a <==> r in b
  {
    assert forall r :: r in a <==> r in multiset(a);
    assert forall r :: r in b <==> r in multiset(b);
  }

  /** Memory stays bounded by the window: a cycle keeps an older id only if its time lies at or after the window start. */
  lemma CycleForgets(c: Config, p: Poll, now: i64, pages: seq<Page>, id: Id)
    requires id in Cycle(c, p, now, pages).0.seen
    ensures var (q, out) := Cycle(c, p, now, pages);
      var start := PlanWindow(p.watermark, p.floor, c.lookback, c.maxWindow, now).start;
      || (id in p.seen && p.seen[id] >= start)
      || (out.Some? && exists e :: Returned(pages, e) && (if e.Good? then e.record.id == id else e.id == Some(id)))
  {
    var win := PlanWindow(p.watermark, p.floor, c.lookback, c.maxWindow, now);
    var kept := Evict(p.seen, win.start);
    var scan := ScanPages(pages, kept.Keys, c.policy, win.start);
    if scan.Ok? && id !in kept {
      ScanPagesSound(pages, kept.Keys, c.policy, win.start);
      hide ScanPages, PlanWindow, SortByTime;
      SkippedOrNot(Remember(kept, scan.value.records), scan.value.skipped, id);
      if id in Remember(kept, scan.value.records) {
        var r := RememberedRecord(kept, scan.value.records, id);
        assert Returned(pages, Good(r));
      }
    }
  }

  lemma {:induction false} RememberedRecord(seen: map<Id, i64>, records: seq<Record>, id: Id) returns (r: Record)
    requires id in Remember(seen, records) && id !in seen
    ensures r in records && r.id == id
  {
    var n := |records| - 1;
    if records[n].id == id {
      r := records[n];
    } else {
      r := RememberedRecord(seen, records[..n], id);
    }
  }

  lemma {:induction false} SkippedOrNot(seen: map<Id, i64>, skipped: seq<(Id, i64)>, id: Id)
    requires id in RememberSkipped(seen, skipped)
    ensures id in seen || exists s :: s in skipped && s.0 == id
  {
    if skipped != [] {
      var n := |skipped| - 1;
      if skipped[n].0 != id {
        SkippedOrNot(seen, skipped[..n], id);
        if s :| s in skipped[..n] && s.0 == id {
          assert s in skipped;
        }
      } else {
        assert skipped[n] in skipped;
      }
    }
  }

  /** The background task; a call of `RunCycle` is one turn of its loop. */
  class Poller {
    const config: Config
    const floor: i64
    var watermark: i64
    const deduped: DedupedEventIds

    function Model(): Poll
      reads this, deduped
    {
      Poll(watermark, floor, deduped.seen)
    }

    constructor (config: Config, watermark: i64, floor: i64)
      ensures Model() == Poll(watermark, floor, map[]) && this.config == config && fresh(deduped)
    {
      this.config, this.watermark, this.floor := config, watermark, floor;
      deduped := new DedupedEventIds();
    }

    /** Commits a fully fetched window to the dedup set. */
    method RememberAll(f: Fetched)
      modifies deduped
      ensures deduped.seen == RememberSkipped(Remember(old(deduped.seen), f.records), f.skipped)
    {
      ghost var kept := deduped.seen;
      for i := 0 to |f.records|
        invariant deduped.seen == Remember(kept, f.records[..i])
      {
        assert f.records[..i + 1][..i] == f.records[..i];
        deduped.Insert(f.records[i].id, f.records[i].time);
      }
      assert f.records[..|f.records|] == f.records;
      ghost var remembered := deduped.seen;
      for i := 0 to |f.skipped|
        invariant deduped.seen == RememberSkipped(remembered, f.skipped[..i])
      {
        assert f.skipped[..i + 1][..i] == f.skipped[..i];
        deduped.Insert(f.skipped[i].0, f.skipped[i].1);
      }
      assert f.skipped[..|f.skipped|] == f.skipped;
    }

    /** Failed windows change nothing but the eviction; successful ones hand out every new record in time order. */
    method RunCycle(now: i64, pages: seq<Page>) returns (sent: Option<seq<seq<Record>>>)
      requires config.batchSize >= 1
      modifies this, deduped
      ensures var (p, out) := Cycle(config, old(Model()), now, pages);
        Model() == p && (sent.None? <==> out.None?) && (sent.Some? ==> Flatten(sent.value) == out.value)
    {
      var window := PlanWindow(watermark, floor, config.lookback, config.maxWindow, now);
      deduped.EvictBefore(window.start);
      var r := FetchWindow(pages, deduped.seen.Keys, config.policy, window.start);
      if r.Err? {
        return None;
      }
      RememberAll(r.value);
      var batches := SortIntoBatches(r.value.records, config.batchSize);
      watermark := AdvanceWatermark(watermark, MaxTime(r.value.records), window.end);
      sent := Some(batches);
    }
  }
}
