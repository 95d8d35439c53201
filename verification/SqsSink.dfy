/**
 The SQS sink: packing row texts into JSON-array bodies, cutting requests by
 count and size, and sending them with retries of partial failures. A text
 stands for its bytes, so its length is its size.
 */
module SqsSink {
  import opened Collections
  import opened Wrappers
  import opened Packing

  // ---------------------------------------------------------------- array bodies

  /** The rows separated by commas. */
  function Join(rows: seq<string>): string {
    if rows == [] then ""
    else Join(rows[..|rows| - 1]) + (if |rows| > 1 then "," else "") + rows[|rows| - 1]
  }

  function Body(rows: seq<string>): string {
    "[" + Join(rows) + "]"
  }

  predicate FitsIn(maxBytes: nat, rows: seq<string>) {
    |Body(rows)| <= maxBytes
  }

  lemma JoinNext(rows: seq<string>, i: nat)
    requires i < |rows|
    ensures Join(rows[..i + 1]) == Join(rows[..i]) + (if i > 0 then "," else "") + rows[i]
  {
    assert rows[..i + 1][..i] == rows[..i];
  }

  lemma {:induction false} PrefixIsShorter(rows: seq<string>, k: nat)
    requires k <= |rows|
    ensures |Join(rows[..k])| <= |Join(rows)|
  {
    if k == |rows| {
      assert rows[..k] == rows;
    } else {
      var n := |rows| - 1;
      PrefixIsShorter(rows[..n], k);
      assert rows[..n][..k] == rows[..k];
    }
  }

  lemma {:induction false} DropFirstIsShorter(rows: seq<string>)
    requires rows != []
    ensures |Join(rows[1..])| <= |Join(rows)|
  {
    var n := |rows| - 1;
    if n > 0 {
      DropFirstIsShorter(rows[..n]);
      assert rows[1..][..n - 1] == rows[..n][1..];
      assert rows[1..][n - 1] == rows[n];
    }
  }

  lemma {:induction false} SuffixIsShorter(rows: seq<string>, k: nat)
    requires k <= |rows|
    ensures |Join(rows[k..])| <= |Join(rows)|
  {
    if k == 0 {
      assert rows[0..] == rows;
    } else {
      SuffixIsShorter(rows, k - 1);
      DropFirstIsShorter(rows[k - 1..]);
      assert rows[k - 1..][1..] == rows[k..];
    }
  }

  lemma PartsFit(maxBytes: nat)
    ensures Hereditary(rows => FitsIn(maxBytes, rows))
  {
    var fits := rows => FitsIn(maxBytes, rows);
    forall s: seq<string>, lo, hi | 0 <= lo <= hi <= |s| && fits(s)
      ensures fits(s[lo..hi])
    {
      PrefixIsShorter(s, hi);
      SuffixIsShorter(s[..hi], lo);
      assert s[..hi][lo..] == s[lo..hi];
    }
  }

  datatype SinkError = RowTooLarge | BodyTooLarge | SendFailed | SenderFault | UnknownId | RetriesExhausted

  /** The bodies of `chunks`. */
  predicate Bodies(chunks: seq<seq<string>>, bodies: seq<string>) {
    |bodies| == |chunks| && forall i | 0 <= i < |bodies| :: bodies[i] == Body(chunks[i])
  }

  /**
   Packs rows into array bodies: all rows in order, every body within the
   limit and as full as it can be; it fails exactly when one row with its
   brackets is too large.
   */
  method PackArrayBodies(rows: seq<string>, maxBytes: nat) returns (r: Result<seq<string>, SinkError>, ghost chunks: seq<seq<string>>)
    ensures r.Ok? <==> forall i | 0 <= i < |rows| :: |rows[i]| + 2 <= maxBytes
    ensures r.Ok? ==> Bodies(chunks, r.value) && Flatten(chunks) == rows && Greedy(s => FitsIn(maxBytes, s), chunks)
  {
    hide Packed, Body, Greedy, Bodies;
    var bodies := [];
    chunks := [];
    var start := 0;
    NothingPacked(maxBytes, rows);
    while start < |rows|
      invariant 0 <= start <= |rows| && Packed(maxBytes, rows, start, chunks, bodies)
      decreases |rows| - start
    {
      var end, content := NextEnd(rows, start, maxBytes);
      BodySize(rows[start..end]);
      if 2 + content > maxBytes {
        assert rows[start..end] == [rows[start]];
        SingleRow(rows[start]);
        return Err(RowTooLarge), chunks;
      }
      var body := RenderBody(rows, start, end);
      PackOne(maxBytes, rows, start, chunks, bodies, end);
      bodies := bodies + [body];
      chunks := chunks + [rows[start..end]];
      start := end;
    }
    AllPacked(maxBytes, rows, chunks, bodies);
    r := Ok(bodies);
  }

  lemma BodySize(rows: seq<string>)
    ensures |Body(rows)| == 2 + |Join(rows)|
  {
  }

  /** The rows before `start` are packed. */
  predicate Packed(maxBytes: nat, rows: seq<string>, start: nat, chunks: seq<seq<string>>, bodies: seq<string>) {
    && start <= |rows| && (forall i | 0 <= i < start :: |rows[i]| + 2 <= maxBytes)
    && Bodies(chunks, bodies) && Flatten(chunks) == rows[..start] && Chunked(maxBytes, chunks, rows, start)
  }

  lemma NothingPacked(maxBytes: nat, rows: seq<string>)
    ensures Packed(maxBytes, rows, 0, [], [])
  {
  }

  lemma AllPacked(maxBytes: nat, rows: seq<string>, chunks: seq<seq<string>>, bodies: seq<string>)
    requires Packed(maxBytes, rows, |rows|, chunks, bodies)
    ensures forall i | 0 <= i < |rows| :: |rows[i]| + 2 <= maxBytes
    ensures Bodies(chunks, bodies) && Flatten(chunks) == rows && Greedy(s => FitsIn(maxBytes, s), chunks)
  {
    hide Bodies, Greedy;
    assert rows[..|rows|] == rows;
  }

  lemma PackOne(maxBytes: nat, rows: seq<string>, start: nat, chunks: seq<seq<string>>, bodies: seq<string>, end: nat)
    requires Packed(maxBytes, rows, start, chunks, bodies) && start < end <= |rows| && FitsIn(maxBytes, rows[start..end])
    requires end < |rows| ==> !FitsIn(maxBytes, rows[start..end] + [rows[end]])
    ensures Packed(maxBytes, rows, end, chunks + [rows[start..end]], bodies + [Body(rows[start..end])])
  {
    hide Body, Chunked, FitsIn;
    var chunk := rows[start..end];
    RowsFit(chunk, maxBytes);
    forall i | 0 <= i < end
      ensures |rows[i]| + 2 <= maxBytes
    {
      if i >= start {
        assert rows[i] == chunk[i - start];
      }
    }
    AppendChunk(maxBytes, chunks, rows, start, end);
    FlattenAppend(chunks, chunk);
    assert rows[..end] == rows[..start] + chunk;
  }

  /** The chunks before `start` fit, and none could have taken the row after it. */
  predicate Chunked(maxBytes: nat, chunks: seq<seq<string>>, rows: seq<string>, start: nat)
    requires start <= |rows|
  {
    && Greedy(s => FitsIn(maxBytes, s), chunks)
    && (chunks != [] && start < |rows| ==> !FitsIn(maxBytes, chunks[|chunks| - 1] + [rows[start]]))
  }

  lemma AppendChunk(maxBytes: nat, chunks: seq<seq<string>>, rows: seq<string>, start: nat, end: nat)
    requires start < end <= |rows| && Chunked(maxBytes, chunks, rows, start) && FitsIn(maxBytes, rows[start..end])
    requires end < |rows| ==> !FitsIn(maxBytes, rows[start..end] + [rows[end]])
    ensures Chunked(maxBytes, chunks + [rows[start..end]], rows, end)
  {
    hide FitsIn;
    assert rows[start..end][0] == rows[start];
  }

  lemma SingleRow(row: string)
    ensures |Body([row])| == |row| + 2
  {
    assert [row][..0] == [];
    assert Join([row]) == Join([row][..0]) + "" + row;
  }

  lemma RowsFit(rows: seq<string>, maxBytes: nat)
    requires FitsIn(maxBytes, rows)
    ensures forall i | 0 <= i < |rows| :: |rows[i]| + 2 <= maxBytes
  {
    forall i | 0 <= i < |rows|
      ensures |rows[i]| + 2 <= maxBytes
    {
      PrefixIsShorter(rows, i + 1);
      JoinNext(rows, i);
    }
  }

  /** The inner loop: rows are added while the body stays within the limit, at least one. */
  method NextEnd(rows: seq<string>, start: nat, maxBytes: nat) returns (end: nat, content: nat)
    requires start < |rows|
    ensures start < end <= |rows| && content == |Join(rows[start..end])|
    ensures FitsIn(maxBytes, rows[start..end]) || end == start + 1
    ensures FitsIn(maxBytes, rows[start..end]) && end < |rows| ==> !FitsIn(maxBytes, rows[start..end] + [rows[end]])
  {
    hide Join, FitsIn;
    content := 0;
    end := start;
    NoRows();
    assert rows[start..start] == [];
    while end < |rows|
      invariant start <= end <= |rows| && content == |Join(rows[start..end])|
      invariant end <= start + 1 || FitsIn(maxBytes, rows[start..end])
    {
      var cost := |rows[end]| + if end > start then 1 else 0;
      OneMoreRow(rows, start, end, maxBytes);
      if end > start && 2 + content + cost > maxBytes {
        break;
      }
      content := content + cost;
      end := end + 1;
    }
  }

  lemma NoRows()
    ensures Join([]) == ""
  {
  }

  /** What one more row adds to a body. */
  lemma OneMoreRow(rows: seq<string>, start: nat, end: nat, maxBytes: nat)
    requires start <= end < |rows|
    ensures rows[start..end + 1] == rows[start..end] + [rows[end]]
    ensures |Join(rows[start..end + 1])| == |Join(rows[start..end])| + |rows[end]| + if end > start then 1 else 0
    ensures FitsIn(maxBytes, rows[start..end + 1]) <==> 2 + |Join(rows[start..end + 1])| <= maxBytes
  {
    JoinNext(rows[start..], end - start);
    assert rows[start..][..end - start] == rows[start..end] && rows[start..][..end - start + 1] == rows[start..end + 1];
  }

  method RenderBody(rows: seq<string>, start: nat, end: nat) returns (body: string)
    requires start <= end <= |rows|
    ensures body == Body(rows[start..end])
  {
    body := "[";
    for i := start to end
      invariant body == "[" + Join(rows[start..i])
    {
      JoinNext(rows[start..], i - start);
      assert rows[start..][..i - start] == rows[start..i] && rows[start..][..i - start + 1] == rows[start..i + 1];
      if i > start {
        body := body + ",";
      }
      body := body + rows[i];
    }
    body := body + "]";
  }

  /** The packing uses as few bodies as any that keeps the order and the limit. */
  lemma PackingIsMinimal(maxBytes: nat, chunks: seq<seq<string>>, others: seq<seq<string>>)
    requires Greedy(s => FitsIn(maxBytes, s), chunks) && Flatten(others) == Flatten(chunks)
    requires forall i | 0 <= i < |others| :: FitsIn(maxBytes, others[i])
    ensures |chunks| <= |others|
  {
    PartsFit(maxBytes);
    GreedyIsMinimal(s => FitsIn(maxBytes, s), chunks, others);
  }

  // ---------------------------------------------------------------- requests

  const MAX_BATCH := 10

  const MAX_RETRIES := 5

  datatype Entry = Entry(index: nat, body: string)

  function Bytes(entries: seq<Entry>): nat {
    if entries == [] then 0 else Bytes(entries[..|entries| - 1]) + |entries[|entries| - 1].body|
  }

  lemma BytesNext(entries: seq<Entry>, i: nat)
    requires i < |entries|
    ensures Bytes(entries[..i + 1]) == Bytes(entries[..i]) + |entries[i].body|
  {
    assert entries[..i + 1][..i] == entries[..i];
  }

  predicate BodiesFit(bodies: seq<string>, maxBytes: nat) {
    forall i | 0 <= i < |bodies| :: |bodies[i]| <= maxBytes
  }

  method EnsureBodiesFit(bodies: seq<string>, maxBytes: nat) returns (ok: bool)
    ensures ok <==> BodiesFit(bodies, maxBytes)
  {
    for i := 0 to |bodies|
      invariant forall k | 0 <= k < i :: |bodies[k]| <= maxBytes
    {
      if |bodies[i]| > maxBytes {
        return false;
      }
    }
    ok := true;
  }

  /** As many leading entries as one request may carry: no more by count, and by size only the first can exceed. */
  method NextChunkLen(entries: seq<Entry>, maxCount: nat, maxBytes: nat) returns (n: nat)
    ensures n >= 1
    ensures entries != [] && maxCount >= 1 ==>
      && n <= |entries| && n <= maxCount
      && (|entries[0].body| <= maxBytes ==> Bytes(entries[..n]) <= maxBytes)
      && (n < |entries| && n < maxCount ==> Bytes(entries[..n + 1]) > maxBytes)
  {
    var total, count := 0, 0;
    var limit := if |entries| < maxCount then |entries| else maxCount;
    assert entries[..0] == [];
    while count < limit
      invariant 0 <= count <= limit && total == Bytes(entries[..count])
      invariant count > 0 && |entries[0].body| <= maxBytes ==> total <= maxBytes
    {
      BytesNext(entries, count);
      if count > 0 && total + |entries[count].body| > maxBytes {
        break;
      }
      total := total + |entries[count].body|;
      count := count + 1;
    }
    n := if count > 1 then count else 1;
  }

  /** Entry `id` of the request was not accepted; the service echoes the id as text. */
  datatype Failure = Failure(id: Option<nat>, senderFault: bool)

  predicate Known(request: seq<Entry>, failed: seq<Failure>) {
    forall k | 0 <= k < |failed| :: failed[k].id.Some? && failed[k].id.value < |request|
  }

  predicate DistinctIds(failed: seq<Failure>) {
    forall j, k | 0 <= j < k < |failed| :: failed[j].id != failed[k].id
  }

  /** The failed entries, in the order reported. */
  function Selected(request: seq<Entry>, failed: seq<Failure>): seq<Entry>
    requires Known(request, failed)
  {
    seq(|failed|, k requires 0 <= k < |failed| => request[failed[k].id.value])
  }

  predicate Reported(failed: seq<Failure>, i: nat) {
    exists k :: 0 <= k < |failed| && failed[k].id == Some(i)
  }

  /** Those of the first `n` entries that were not reported as failed. */
  function Others(request: seq<Entry>, failed: seq<Failure>, n: nat): multiset<Entry>
    requires n <= |request|
  {
    if n == 0 then multiset{}
    else Others(request, failed, n - 1) + if Reported(failed, n - 1) then multiset{} else multiset{request[n - 1]}
  }

  function OtherBytes(request: seq<Entry>, failed: seq<Failure>, n: nat): nat
    requires n <= |request|
  {
    if n == 0 then 0
    else OtherBytes(request, failed, n - 1) + if Reported(failed, n - 1) then 0 else |request[n - 1].body|
  }

  function Kept(request: seq<Entry>, failed: seq<Failure>, i: nat): multiset<Entry>
    requires i < |request|
  {
    if Reported(failed, i) then multiset{} else multiset{request[i]}
  }

  /** Entry `i`, if it is among the first `n`. */
  function Within(request: seq<Entry>, i: nat, n: nat): multiset<Entry>
    requires i < |request|
  {
    if i < n then multiset{request[i]} else multiset{}
  }

  lemma {:induction false} OneMoreFailure(request: seq<Entry>, failed: seq<Failure>, f: Failure, n: nat)
    requires n <= |request| && f.id.Some? && f.id.value < |request| && !Reported(failed, f.id.value)
    ensures Others(request, failed, n) == Others(request, failed + [f], n) + Within(request, f.id.value, n)
  {
    if n > 0 {
      OneMoreFailure(request, failed, f, n - 1);
      hide Others, Reported, Within;
      OthersNext(request, failed, n);
      OthersNext(request, failed + [f], n);
      KeptNow(request, failed, f, n);
      var now, x := Others(request, failed + [f], n - 1), Within(request, f.id.value, n - 1);
      var kept, kept' := Kept(request, failed, n - 1), Kept(request, failed + [f], n - 1);
      hide Kept;
      Exchange(now, x, kept, kept', Within(request, f.id.value, n));
    }
  }

  lemma OthersNext(request: seq<Entry>, failed: seq<Failure>, n: nat)
    requires 0 < n <= |request|
    ensures Others(request, failed, n) == Others(request, failed, n - 1) + Kept(request, failed, n - 1)
  {
  }

  lemma KeptNow(request: seq<Entry>, failed: seq<Failure>, f: Failure, n: nat)
    requires 0 < n <= |request| && f.id.Some? && f.id.value < |request| && !Reported(failed, f.id.value)
    ensures Within(request, f.id.value, n - 1) + Kept(request, failed, n - 1)
      == Kept(request, failed + [f], n - 1) + Within(request, f.id.value, n)
  {
    hide Reported;
    ReportedNow(failed, f, n - 1);
  }

  lemma Exchange(now: multiset<Entry>, x: multiset<Entry>, kept: multiset<Entry>, kept': multiset<Entry>, x': multiset<Entry>)
    requires x + kept == kept' + x'
    ensures (now + x) + kept == (now + kept') + x'
  {
    assert (now + x) + kept == now + (x + kept);
    assert (now + kept') + x' == now + (kept' + x');
  }

  lemma {:induction false} OneMoreFailureBytes(request: seq<Entry>, failed: seq<Failure>, f: Failure, n: nat)
    requires n <= |request| && f.id.Some? && f.id.value < |request| && !Reported(failed, f.id.value)
    ensures OtherBytes(request, failed, n) ==
      OtherBytes(request, failed + [f], n) + (if f.id.value < n then |request[f.id.value].body| else 0)
  {
    hide Reported;
    if n > 0 {
      OneMoreFailureBytes(request, failed, f, n - 1);
      ReportedNow(failed, f, n - 1);
    }
  }

  lemma ReportedNow(failed: seq<Failure>, f: Failure, i: nat)
    ensures Reported(failed + [f], i) <==> Reported(failed, i) || f.id == Some(i)
  {
    var more := failed + [f];
    assert more[|failed|] == f;
    assert forall k | 0 <= k < |failed| :: more[k] == failed[k];
  }

  lemma BytesAppend(entries: seq<Entry>, e: Entry)
    ensures Bytes(entries + [e]) == Bytes(entries) + |e.body|
  {
    assert (entries + [e])[..|entries|] == entries;
  }

  /** The failed and the other entries are together exactly the request. */
  lemma {:induction false} FailuresPartition(request: seq<Entry>, failed: seq<Failure>)
    requires Known(request, failed) && DistinctIds(failed)
    ensures multiset(Selected(request, failed)) + Others(request, failed, |request|) == multiset(request)
    ensures Bytes(Selected(request, failed)) + OtherBytes(request, failed, |request|) == Bytes(request)
    decreases |failed|
  {
    if failed == [] {
      NothingFailed(request);
      assert Selected(request, failed) == [];
    } else {
      var n := |failed| - 1;
      var front, f := failed[..n], failed[n];
      assert forall k | 0 <= k < n :: front[k] == failed[k];
      FailuresPartition(request, front);
      assert failed == front + [f];
      PartitionStep(request, front, f);
    }
  }

  lemma PartitionStep(request: seq<Entry>, front: seq<Failure>, f: Failure)
    requires Known(request, front + [f]) && DistinctIds(front + [f]) && Known(request, front)
    requires multiset(Selected(request, front)) + Others(request, front, |request|) == multiset(request)
    requires Bytes(Selected(request, front)) + OtherBytes(request, front, |request|) == Bytes(request)
    ensures multiset(Selected(request, front + [f])) + Others(request, front + [f], |request|) == multiset(request)
    ensures Bytes(Selected(request, front + [f])) + OtherBytes(request, front + [f], |request|) == Bytes(request)
  {
    LastIsNew(request, front, f);
    SelectedThen(request, front, f);
    hide *;
    var e, some := request[f.id.value], Selected(request, front);
    BytesAppend(some, e);
    OneMoreFailure(request, front, f, |request|);
    WithinAll(request, f.id.value);
    OneMoreFailureBytes(request, front, f, |request|);
    MoveOver(some, e, Others(request, front + [f], |request|));
  }

  lemma LastIsNew(request: seq<Entry>, front: seq<Failure>, f: Failure)
    requires Known(request, front + [f]) && DistinctIds(front + [f])
    ensures f.id.Some? && f.id.value < |request| && !Reported(front, f.id.value)
  {
    var all := front + [f];
    assert all[|front|] == f && forall k | 0 <= k < |front| :: all[k] == front[k];
  }

  lemma SelectedThen(request: seq<Entry>, front: seq<Failure>, f: Failure)
    requires Known(request, front + [f]) && Known(request, front) && f.id.Some? && f.id.value < |request|
    ensures Selected(request, front + [f]) == Selected(request, front) + [request[f.id.value]]
  {
  }

  lemma WithinAll(request: seq<Entry>, i: nat)
    requires i < |request|
    ensures Within(request, i, |request|) == multiset{request[i]}
  {
  }

  lemma MoveOver(some: seq<Entry>, e: Entry, rest: multiset<Entry>)
    ensures multiset(some + [e]) + rest == multiset(some) + (rest + multiset{e})
  {
  }

  lemma {:induction false} NoneFailed(request: seq<Entry>, n: nat)
    requires n <= |request|
    ensures Others(request, [], n) == multiset(request[..n])
  {
    if n > 0 {
      NoneFailed(request, n - 1);
      assert !Reported([], n - 1);
      hide Others;
      assert request[..n] == request[..n - 1] + [request[n - 1]];
    }
  }

  lemma {:induction false} NoneFailedBytes(request: seq<Entry>, n: nat)
    requires n <= |request|
    ensures OtherBytes(request, [], n) == Bytes(request[..n])
  {
    if n > 0 {
      NoneFailedBytes(request, n - 1);
      BytesNext(request, n - 1);
    }
  }

  lemma NothingFailed(request: seq<Entry>)
    ensures Known(request, []) && Others(request, [], |request|) == multiset(request)
    ensures OtherBytes(request, [], |request|) == Bytes(request) && Bytes([]) == 0
  {
    NoneFailed(request, |request|);
    NoneFailedBytes(request, |request|);
    assert request[..|request|] == request;
  }

  /** The answer to one request: the entries it did not accept, or that the request failed as a whole. */
  type Answer = Option<seq<Failure>>

  /** Answer number `i` of a service that accepts everything once its script is over. */
  function AnswerAt(script: seq<Answer>, i: nat): Answer {
    if i < |script| then script[i] else Some([])
  }

  /** The answer leaves some of `size` entries to be sent again. */
  predicate Partial(size: nat, a: Answer) {
    && a.Some? && a.value != []
    && forall k | 0 <= k < |a.value| :: !a.value[k].senderFault && a.value[k].id.Some? && a.value[k].id.value < size
  }

  /** How many entries attempt `i` sends when all before it were answered in part. */
  function SizeAt(size: nat, script: seq<Answer>, i: nat): nat {
    if i == 0 then size else if AnswerAt(script, i - 1).Some? then |AnswerAt(script, i - 1).value| else 0
  }

  /** After `n` partial answers the next one accepts the rest. */
  ghost predicate Recovers(size: nat, script: seq<Answer>, n: nat) {
    AnswerAt(script, n) == Some([]) && AllPartial(size, script, n)
  }

  /**
   The queue service. It takes requests of at most ten entries within the size
   limit, its answers follow a script, and one reports each entry it did not
   accept once; a request that fails as a whole says nothing about its entries.
   */
  class Queue {
    const maxBytes: nat
    var script: seq<Answer>
    ghost var accepted: multiset<Entry>

    constructor (maxBytes: nat, script: seq<Answer>)
      requires Fair(script)
      ensures this.maxBytes == maxBytes && this.script == script && accepted == multiset{}
    {
      this.maxBytes, this.script := maxBytes, script;
      accepted := multiset{};
    }

    method SendBatch(request: seq<Entry>) returns (failed: Answer)
      requires 1 <= |request| <= 10 && Bytes(request) <= maxBytes && Fair(script)
      modifies this
      ensures failed == AnswerAt(old(script), 0) && script == if old(script) == [] then [] else old(script)[1..]
      ensures Fair(script) && (failed.Some? ==> DistinctIds(failed.value))
      ensures failed.Some? && Known(request, failed.value) ==> accepted == old(accepted) + Others(request, failed.value, |request|)
    {
      failed := if script == [] then Some([]) else script[0];
      script := if script == [] then [] else script[1..];
      if failed.Some? && Known(request, failed.value) {
        accepted := accepted + Others(request, failed.value, |request|);
      }
    }
  }

  predicate Fair(script: seq<Answer>) {
    forall i | 0 <= i < |script| && script[i].Some? :: DistinctIds(script[i].value)
  }

  /** Looks at the reported failures: the entries to retry, or why sending stops. */
  method ToRetry(request: seq<Entry>, failed: seq<Failure>) returns (r: Result<seq<Entry>, SinkError>)
    ensures r.Ok? <==> Known(request, failed) && forall k | 0 <= k < |failed| :: !failed[k].senderFault
    ensures r.Ok? ==> r.value == Selected(request, failed)
    ensures r.Err? ==> r.error == if exists k :: 0 <= k < |failed| && failed[k].senderFault then SenderFault else UnknownId
  {
    for k := 0 to |failed|
      invariant forall i | 0 <= i < k :: !failed[i].senderFault
    {
      if failed[k].senderFault {
        return Err(SenderFault);
      }
    }
    var retry, unknown := [], 0;
    for k := 0 to |failed|
      invariant unknown == 0 <==> forall i | 0 <= i < k :: failed[i].id.Some? && failed[i].id.value < |request|
      invariant unknown == 0 ==> |retry| == k && forall i | 0 <= i < k :: retry[i] == request[failed[i].id.value]
    {
      var id := failed[k].id;
      if id.Some? && id.value < |request| {
        retry := retry + [request[id.value]];
      } else {
        unknown := unknown + 1;
      }
    }
    if unknown != 0 {
      return Err(UnknownId);
    }
    r := Ok(retry);
  }

  /**
   Sends a chunk, retrying what failed; on success every entry has been accepted
   exactly once more. It succeeds exactly when at most `MAX_RETRIES` partial
   answers come before one that accepts the rest.
   */
  method SendChunkWithRetry(q: Queue, chunk: seq<Entry>) returns (r: Result<(nat, seq<Entry>), SinkError>)
    requires 1 <= |chunk| <= MAX_BATCH && Bytes(chunk) <= q.maxBytes && Fair(q.script)
    modifies q
    ensures r.Ok? ==> r.value == (|chunk|, []) && q.accepted == old(q.accepted) + multiset(chunk)
    ensures r.Ok? <==> exists n :: 0 <= n <= MAX_RETRIES && Recovers(|chunk|, old(q.script), n)
    ensures r.Err? ==> r.error != BodyTooLarge && r.error != RowTooLarge
    ensures Fair(q.script) && forall i | 0 <= i < |q.script| :: q.script[i] in old(q.script)
  {
    hide Bytes, Recovers, Partial, AllPartial, Fair, AnswerAt, SizeAt;
    ghost var script := q.script;
    NothingYet(|chunk|, script);
    var toRetry := chunk;
    var attempt := 0;
    while true
      invariant 0 <= attempt <= MAX_RETRIES && Fair(q.script)
      invariant 1 <= |toRetry| <= |chunk| && Bytes(toRetry) <= q.maxBytes
      invariant q.accepted + multiset(toRetry) == old(q.accepted) + multiset(chunk)
      invariant q.script == Rest(script, attempt) && |toRetry| == SizeAt(|chunk|, script, attempt) && AllPartial(|chunk|, script, attempt)
      decreases MAX_RETRIES - attempt
    {
      RestOf(script, attempt);
      RestIn(script, attempt + 1);
      RecoversOnlyHere(|chunk|, script, attempt);
      var next := SendOnce(q, toRetry);
      if next.Err? {
        return Err(next.error);
      }
      if next.value == [] {
        assert Recovers(|chunk|, script, attempt);
        return Ok((|chunk|, []));
      }
      if attempt == MAX_RETRIES {
        return Err(RetriesExhausted);
      }
      OnceMorePartial(|chunk|, script, attempt);
      toRetry := next.value;
      attempt := attempt + 1;
    }
  }

  /** Sends a request once; the entries left to send again, if the answer allows it. */
  method SendOnce(q: Queue, request: seq<Entry>) returns (r: Result<seq<Entry>, SinkError>)
    requires 1 <= |request| <= MAX_BATCH && Bytes(request) <= q.maxBytes && Fair(q.script)
    modifies q
    ensures q.script == Rest(old(q.script), 1) && Fair(q.script)
    ensures var a := AnswerAt(old(q.script), 0);
      && (r.Ok? <==> a == Some([]) || Partial(|request|, a))
      && (r.Ok? ==> a.Some? && |r.value| == |a.value| <= |request| && Bytes(r.value) <= q.maxBytes)
    ensures r.Ok? ==> q.accepted + multiset(r.value) == old(q.accepted) + multiset(request)
    ensures r.Err? ==> r.error != BodyTooLarge && r.error != RowTooLarge
  {
    hide Others, Bytes, Known, DistinctIds, Partial;
    var response := q.SendBatch(request);
    if response.None? {
      NoAnswer(|request|);
      return Err(SendFailed);
    }
    var failed := response.value;
    if failed == [] {
      NothingFailed(request);
      return Ok([]);
    }
    var next := ToRetry(request, failed);
    PartialIs(request, failed);
    if next.Err? {
      return Err(next.error);
    }
    FailuresPartition(request, failed);
    Fewer(next.value, Others(request, failed, |request|), request);
    Regroup(old(q.accepted), q.accepted, next.value, Others(request, failed, |request|), request);
    r := next;
  }

  /** What is left of a script after `n` answers. */
  function Rest(script: seq<Answer>, n: nat): seq<Answer> {
    if n <= |script| then script[n..] else []
  }

  lemma RestOf(script: seq<Answer>, n: nat)
    ensures AnswerAt(Rest(script, n), 0) == AnswerAt(script, n) && Rest(Rest(script, n), 1) == Rest(script, n + 1)
  {
  }

  lemma RestIn(script: seq<Answer>, n: nat)
    ensures forall i | 0 <= i < |Rest(script, n)| :: Rest(script, n)[i] in script
  {
  }

  /** The first `n` answers each leave some entries to be sent again. */
  ghost predicate AllPartial(size: nat, script: seq<Answer>, n: nat) {
    forall i | 0 <= i < n :: Partial(SizeAt(size, script, i), AnswerAt(script, i))
  }

  lemma NothingYet(size: nat, script: seq<Answer>)
    ensures AllPartial(size, script, 0) && SizeAt(size, script, 0) == size && Rest(script, 0) == script
  {
  }

  lemma NoAnswer(size: nat)
    ensures !Partial(size, None)
  {
  }

  lemma OnceMorePartial(size: nat, script: seq<Answer>, n: nat)
    requires AllPartial(size, script, n) && Partial(SizeAt(size, script, n), AnswerAt(script, n))
    ensures AllPartial(size, script, n + 1) && AnswerAt(script, n).Some?
    ensures SizeAt(size, script, n + 1) == |AnswerAt(script, n).value|
  {
  }

  lemma PartialIs(request: seq<Entry>, failed: seq<Failure>)
    requires failed != []
    ensures Partial(|request|, Some(failed)) <==> Known(request, failed) && forall k | 0 <= k < |failed| :: !failed[k].senderFault
  {
  }

  /** After partial answers only, the next answer decides, unless it is partial too. */
  lemma RecoversOnlyHere(size: nat, script: seq<Answer>, n: nat)
    requires AllPartial(size, script, n)
    ensures AnswerAt(script, n) == Some([]) <==> Recovers(size, script, n)
    ensures forall m | 0 <= m < n :: !Recovers(size, script, m)
    ensures !Partial(SizeAt(size, script, n), AnswerAt(script, n)) ==> forall m | n < m :: !Recovers(size, script, m)
    ensures AnswerAt(script, n) == Some([]) ==> !Partial(SizeAt(size, script, n), AnswerAt(script, n))
  {
    assert forall i | 0 <= i < n :: AnswerAt(script, i) != Some([]);
  }

  /** A chunk survives five answers that leave entries over, and not a sixth. */
  lemma FivePartialAnswers(chunk: seq<Entry>, partial: Answer, script: seq<Answer>)
    requires |script| >= 5 && (forall i | 0 <= i < 5 :: script[i] == partial)
    requires chunk != [] && Partial(|chunk|, partial) && Partial(|partial.value|, partial)
    ensures AnswerAt(script, 5) == Some([]) ==> exists n :: 0 <= n <= MAX_RETRIES && Recovers(|chunk|, script, n)
    ensures AnswerAt(script, 5) == partial ==> forall n | 0 <= n <= MAX_RETRIES :: !Recovers(|chunk|, script, n)
  {
    assert forall i | 0 <= i < 5 :: AnswerAt(script, i) == partial && SizeAt(|chunk|, script, i) == if i == 0 then |chunk| else |partial.value|;
    RecoversOnlyHere(|chunk|, script, 5);
  }

  lemma Fewer(some: seq<Entry>, rest: multiset<Entry>, all: seq<Entry>)
    requires multiset(some) + rest == multiset(all)
    ensures |some| <= |all|
  {
    assert |multiset(some)| + |rest| == |multiset(all)|;
  }

  lemma Regroup(before: multiset<Entry>, after: multiset<Entry>, some: seq<Entry>, rest: multiset<Entry>, all: seq<Entry>)
    requires after == before + rest && multiset(some) + rest == multiset(all)
    ensures after + multiset(some) == before + multiset(all)
  {
  }

  function Enumerated(bodies: seq<string>): seq<Entry> {
    seq(|bodies|, i requires 0 <= i < |bodies| => Entry(i, bodies[i]))
  }

  /**
   Sends all bodies; on success each has been accepted exactly once and the count
   is the number of bodies. A body that is too large is the only reason to fail
   while the service accepts everything.
   */
  method SendMessages(q: Queue, bodies: seq<string>) returns (r: Result<nat, SinkError>)
    requires Fair(q.script)
    modifies q
    ensures BodiesFit(bodies, q.maxBytes) && (forall a | a in old(q.script) :: a == Some([])) ==> r.Ok?
    ensures r == Err(BodyTooLarge) <==> !BodiesFit(bodies, q.maxBytes)
    ensures r.Ok? ==> r.value == |bodies| && q.accepted == old(q.accepted) + multiset(Enumerated(bodies))
    ensures !BodiesFit(bodies, q.maxBytes) ==> r.Err? && q.accepted == old(q.accepted)
  {
    hide Bytes, Recovers;
    var fit := EnsureBodiesFit(bodies, q.maxBytes);
    if !fit {
      return Err(BodyTooLarge);
    }
    var totalSent := 0;
    var toSend := Enumerated(bodies);
    while toSend != []
      invariant totalSent + |toSend| == |bodies|
      invariant forall i | 0 <= i < |toSend| :: |toSend[i].body| <= q.maxBytes
      invariant q.accepted + multiset(toSend) == old(q.accepted) + multiset(Enumerated(bodies))
      invariant Fair(q.script) && forall i | 0 <= i < |q.script| :: q.script[i] in old(q.script)
      decreases |toSend|
    {
      var n := NextChunkLen(toSend, MAX_BATCH, q.maxBytes);
      var chunk, rest := toSend[..n], toSend[n..];
      assert multiset(toSend) == multiset(chunk) + multiset(rest) by { assert toSend == chunk + rest; }
      NothingYet(|chunk|, q.script);
      RecoversOnlyHere(|chunk|, q.script, 0);
      var sent := SendChunkWithRetry(q, chunk);
      if sent.Err? {
        return Err(sent.error);
      }
      totalSent := totalSent + sent.value.0;
      toSend := rest + sent.value.1;
      assert toSend == rest;
    }
    r := Ok(totalSent);
  }
}
