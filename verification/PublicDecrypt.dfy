/**
 Public decryption of Zama handles: requests are cut by encrypted bits, and a
 refused request is asked again handle by handle. The service is a
 nondeterministic environment: it refuses a request exactly when it contains a
 handle it refuses, and may fail in other ways at any time.
 */
module PublicDecrypt {
  import opened Collections
  import opened Wrappers
  import opened Packing

  /** A 32-byte handle: byte 30 holds the encrypted type. */
  datatype Handle = Handle(prefix: seq<int>, fheType: int, version: int)

  const MAX_REQUEST_BITS := 2048

  function EncryptionBits(h: Handle): nat {
    match h.fheType
    case 0 => 2
    case 2 => 8
    case 3 => 16
    case 4 => 32
    case 5 => 64
    case 6 => 128
    case 7 => 160
    case _ => 256
  }

  function TwoTo(k: nat): nat {
    if k == 0 then 1 else 2 * TwoTo(k - 1)
  }

  /** Integer types of 8 to 128 bits double from one to the next; nothing costs more than an unknown type, and every handle fits a request of its own. */
  lemma BitWidths(h: Handle)
    ensures 2 <= h.fheType <= 6 ==> EncryptionBits(h) == TwoTo(h.fheType + 1)
    ensures 1 < EncryptionBits(h) <= 256 <= MAX_REQUEST_BITS
    ensures h.fheType == 1 || h.fheType > 7 || h.fheType < 0 <==> EncryptionBits(h) == 256
    ensures h.fheType == 7 <==> EncryptionBits(h) == 160
    ensures h.fheType == 0 <==> EncryptionBits(h) == 2
  {
    assert TwoTo(3) == 8 && TwoTo(4) == 16 && TwoTo(5) == 32 && TwoTo(6) == 64 && TwoTo(7) == 128;
  }

  function Bits(hs: seq<Handle>): nat {
    if hs == [] then 0 else Bits(hs[..|hs| - 1]) + EncryptionBits(hs[|hs| - 1])
  }

  predicate Fits(hs: seq<Handle>) {
    Bits(hs) <= MAX_REQUEST_BITS
  }

  lemma {:induction false} BitsConcat(a: seq<Handle>, b: seq<Handle>)
    ensures Bits(a + b) == Bits(a) + Bits(b)
  {
    if b == [] {
      assert a + b == a;
    } else {
      var n := |b| - 1;
      BitsConcat(a, b[..n]);
      assert (a + b)[..|a + b| - 1] == a + b[..n];
    }
  }

  lemma PartsFit()
    ensures Hereditary(Fits)
  {
    forall s: seq<Handle>, lo, hi | 0 <= lo <= hi <= |s| && Fits(s)
      ensures Fits(s[lo..hi])
    {
      assert s == s[..lo] + s[lo..] && s[lo..] == s[lo..hi] + s[hi..];
      BitsConcat(s[..lo], s[lo..]);
      BitsConcat(s[lo..hi], s[hi..]);
    }
  }

  // ---------------------------------------------------------------- chunks

  /** Splits the handles in order; a chunk is closed when the next handle would exceed the budget. */
  method ChunkByBits(handles: seq<Handle>) returns (chunks: seq<seq<Handle>>)
    ensures Flatten(chunks) == handles && Greedy(Fits, chunks)
  {
    hide Fits;
    chunks := [];
    var bits := 0;
    for i := 0 to |handles|
      invariant Flatten(chunks) == handles[..i] && Greedy(Fits, chunks)
      invariant chunks != [] ==> bits == Bits(chunks[|chunks| - 1])
    {
      var handle := handles[i];
      var cost := EncryptionBits(handle);
      assert handles[..i + 1] == handles[..i] + [handle];
      BitsOfOne(handle);
      if chunks != [] && bits + cost <= MAX_REQUEST_BITS {
        var n := |chunks| - 1;
        Extend(chunks, handle);
        BitsConcat(chunks[n], [handle]);
        chunks := chunks[..n] + [chunks[n] + [handle]];
      } else {
        if chunks != [] {
          BitsConcat(chunks[|chunks| - 1], [handle]);
        }
        Open(chunks, handle);
        chunks := chunks + [[handle]];
        bits := 0;
      }
      bits := bits + cost;
    }
    assert handles[..|handles|] == handles;
  }

  lemma BitsOfOne(h: Handle)
    ensures Bits([h]) == EncryptionBits(h) && Fits([h])
  {
    assert [h][..0] == [];
    assert Bits([h]) == Bits([h][..0]) + EncryptionBits(h);
  }

  lemma Extend(chunks: seq<seq<Handle>>, h: Handle)
    requires chunks != [] && Greedy(Fits, chunks) && Bits(chunks[|chunks| - 1]) + EncryptionBits(h) <= MAX_REQUEST_BITS
    ensures var n := |chunks| - 1;
      var more := chunks[..n] + [chunks[n] + [h]];
      Greedy(Fits, more) && Flatten(more) == Flatten(chunks) + [h]
  {
    var n := |chunks| - 1;
    var more := chunks[..n] + [chunks[n] + [h]];
    BitsOfOne(h);
    BitsConcat(chunks[n], [h]);
    assert Fits(more[n]);
    forall i | 0 <= i < |more| - 1
      ensures !Fits(more[i] + [more[i + 1][0]])
    {
      assert more[i] == chunks[i] && more[i + 1][0] == chunks[i + 1][0];
    }
    FlattenAppend(chunks[..n], chunks[n] + [h]);
  }

  lemma Open(chunks: seq<seq<Handle>>, h: Handle)
    requires Greedy(Fits, chunks)
    requires chunks != [] ==> Bits(chunks[|chunks| - 1]) + EncryptionBits(h) > MAX_REQUEST_BITS
    ensures Greedy(Fits, chunks + [[h]]) && Flatten(chunks + [[h]]) == Flatten(chunks) + [h]
  {
    BitsOfOne(h);
    if chunks != [] {
      BitsConcat(chunks[|chunks| - 1], [h]);
      assert !Fits(chunks[|chunks| - 1] + [h]);
    }
    hide Fits, Bits, Greedy;
    GreedyOpen(Fits, chunks, h);
    FlattenAppend(chunks, [h]);
  }

  /** No split of the handles in order into requests within the budget has fewer requests. */
  lemma ChunksAreMinimal(chunks: seq<seq<Handle>>, others: seq<seq<Handle>>)
    requires Greedy(Fits, chunks) && Flatten(others) == Flatten(chunks) && forall i | 0 <= i < |others| :: Fits(others[i])
    ensures |chunks| <= |others|
  {
    PartsFit();
    GreedyIsMinimal(Fits, chunks, others);
  }

  // ---------------------------------------------------------------- the service

  datatype ErrorKind = InvalidInput | Sdk | Transport

  datatype ClientError = ClientError(kind: ErrorKind, retryable: bool, code: string, text: string)

  /** Errors that refuse the handle itself, as opposed to ones a replay may clear. */
  predicate IsRefusal(e: ClientError) {
    e.kind == InvalidInput || (e.kind == Sdk && !e.retryable && (e.code == "NOT_ENTITLED" || e.code == "NO_CIPHERTEXT"))
  }

  /** A refusal is final: nothing that could be cleared by asking again counts as one. */
  lemma RefusalsAreFinal(e: ClientError)
    ensures e.kind == Transport || (e.kind == Sdk && e.retryable) ==> !IsRefusal(e)
    ensures e.kind == InvalidInput ==> IsRefusal(e)
    ensures e.kind == Sdk && !e.retryable ==> (IsRefusal(e) <==> e.code in {"NOT_ENTITLED", "NO_CIPHERTEXT"})
  {
  }

  datatype ClearValue = Shown(text: string) | Undefined

  function Render(v: ClearValue): Result<string, string> {
    match v
    case Shown(text) => Ok(text)
    case Undefined => Err("relayer returned an undefined value")
  }

  function Answer(values: map<Handle, ClearValue>, h: Handle): Result<string, string> {
    if h in values then Render(values[h]) else Err("relayer returned no result for handle")
  }

  /** The service's knowledge: a refusal for some handles, a value for some others. */
  datatype World = World(refusals: map<Handle, ClientError>, values: map<Handle, ClearValue>)

  predicate WorldOk(w: World) {
    forall h | h in w.refusals :: IsRefusal(w.refusals[h])
  }

  predicate Refuses(w: World, hs: seq<Handle>) {
    exists i :: 0 <= i < |hs| && hs[i] in w.refusals
  }

  /** What asking for the handle on its own gives. */
  function Alone(w: World, h: Handle): Result<string, string> {
    if h in w.refusals then Err(w.refusals[h].text) else Answer(w.values, h)
  }

  function Restrict(values: map<Handle, ClearValue>, hs: seq<Handle>): map<Handle, ClearValue> {
    map h | h in hs && h in values :: values[h]
  }

  /** The request fails for a reason that is not a refusal. */
  predicate Fault(disturbed: Option<ClientError>) {
    disturbed.Some? && !IsRefusal(disturbed.value)
  }

  /** One request; `disturbed` lets it fail for a reason that is not a refusal. */
  method Decrypt(w: World, hs: seq<Handle>, disturbed: Option<ClientError>) returns (r: Result<map<Handle, ClearValue>, ClientError>)
    requires WorldOk(w) && hs != [] && Bits(hs) <= MAX_REQUEST_BITS
    ensures Fault(disturbed) ==> r == Err(disturbed.value)
    ensures !Fault(disturbed) ==> (r.Err? <==> Refuses(w, hs)) && (r.Err? ==> IsRefusal(r.error))
    ensures r.Ok? ==> r.value == Restrict(w.values, hs)
    ensures r.Err? && IsRefusal(r.error) && |hs| == 1 ==> hs[0] in w.refusals && r.error == w.refusals[hs[0]]
  {
    if Fault(disturbed) {
      return Err(disturbed.value);
    }
    for i := 0 to |hs|
      invariant forall k | 0 <= k < i :: hs[k] !in w.refusals
    {
      if hs[i] in w.refusals {
        return Err(w.refusals[hs[i]]);
      }
    }
    r := Ok(Restrict(w.values, hs));
  }

  /** The answers are those of asking each handle alone. */
  ghost predicate AnswersFor(w: World, hs: seq<Handle>, answers: map<Handle, Result<string, string>>) {
    && (forall h | h in hs :: h in answers)
    && (forall h | h in answers :: h in hs && answers[h] == Alone(w, h))
  }

  /** One chunk: in one request if nothing is refused, else one by one so that each error stays with its handle. */
  method DecryptChunk(w: World, hs: seq<Handle>, disturbed: nat -> Option<ClientError>)
    returns (r: Result<map<Handle, Result<string, string>>, ClientError>)
    requires WorldOk(w) && hs != [] && Bits(hs) <= MAX_REQUEST_BITS
    ensures r.Ok? ==> AnswersFor(w, hs, r.value)
    ensures r.Err? <==> Fault(disturbed(0)) || (|hs| > 1 && Refuses(w, hs) && exists k :: 1 <= k <= |hs| && Fault(disturbed(k)))
    ensures r.Err? ==> !IsRefusal(r.error) && exists k :: disturbed(k) == Some(r.error)
  {
    var whole := Decrypt(w, hs, disturbed(0));
    if whole.Ok? {
      assert forall h | h in hs :: h !in w.refusals;
      return Ok(map h | h in hs :: Answer(whole.value, h));
    }
    if !IsRefusal(whole.error) {
      return Err(whole.error);
    }
    if |hs| == 1 {
      return Ok(map[hs[0] := Err(whole.error.text)]);
    }
    r := DecryptSingly(w, hs, disturbed);
  }

  method DecryptSingly(w: World, hs: seq<Handle>, disturbed: nat -> Option<ClientError>)
    returns (r: Result<map<Handle, Result<string, string>>, ClientError>)
    requires WorldOk(w)
    ensures r.Ok? ==> AnswersFor(w, hs, r.value)
    ensures r.Err? <==> exists k :: 1 <= k <= |hs| && Fault(disturbed(k))
    ensures r.Err? ==> !IsRefusal(r.error) && exists k :: disturbed(k) == Some(r.error)
  {
    hide AnswersFor, Fault, IsRefusal, Refuses, Bits;
    var answers: map<Handle, Result<string, string>> := map[];
    NoAnswers(w);
    assert hs[..0] == [];
    for i := 0 to |hs|
      invariant AnswersFor(w, hs[..i], answers)
      invariant forall k | 1 <= k <= i :: !Fault(disturbed(k))
    {
      BitsOfOne(hs[i]);
      FitsAlone(hs[i]);
      var one := Decrypt(w, [hs[i]], disturbed(i + 1));
      FaultIs(disturbed(i + 1));
      if one.Err? && !IsRefusal(one.error) {
        return Err(one.error);
      }
      AloneIs(w, hs[i], one);
      var a := if one.Ok? then Answer(one.value, hs[i]) else Err(one.error.text);
      OneMoreAnswer(w, hs[..i], hs[i], answers, a);
      assert hs[..i + 1] == hs[..i] + [hs[i]];
      answers := answers[hs[i] := a];
    }
    assert hs[..|hs|] == hs;
    r := Ok(answers);
  }

  lemma FitsAlone(h: Handle)
    requires Bits([h]) == EncryptionBits(h)
    ensures Bits([h]) <= MAX_REQUEST_BITS
  {
  }

  lemma FaultIs(disturbed: Option<ClientError>)
    ensures Fault(disturbed) ==> disturbed.Some? && !IsRefusal(disturbed.value)
  {
  }

  lemma NoAnswers(w: World)
    ensures AnswersFor(w, [], map[])
  {
  }

  lemma OneMoreAnswer(w: World, hs: seq<Handle>, h: Handle, answers: map<Handle, Result<string, string>>, a: Result<string, string>)
    requires AnswersFor(w, hs, answers) && a == Alone(w, h)
    ensures AnswersFor(w, hs + [h], answers[h := a])
  {
    hide Alone;
  }

  lemma AloneIs(w: World, h: Handle, one: Result<map<Handle, ClearValue>, ClientError>)
    requires one.Err? <==> Refuses(w, [h])
    requires one.Ok? ==> one.value == Restrict(w.values, [h])
    requires one.Err? ==> h in w.refusals && one.error == w.refusals[h]
    ensures (if one.Ok? then Answer(one.value, h) else Err(one.error.text)) == Alone(w, h)
  {
    assert [h][0] == h;
  }

  lemma NotRefusal(e: ClientError)
    ensures !IsRefusal(e) ==> Fault(Some(e))
  {
  }

  lemma JoinAnswers(
    w: World, hs: seq<Handle>, more: seq<Handle>, answers: map<Handle, Result<string, string>>, others: map<Handle, Result<string, string>>)
    requires AnswersFor(w, hs, answers) && AnswersFor(w, more, others)
    ensures AnswersFor(w, hs + more, answers + others)
  {
    hide Alone;
  }

  /**
   Every handle, one request per chunk. A success answers each handle as
   asking it alone would, and a refusal never fails the whole: only a fault of
   the client does, and then with its error.
   */
  method DecryptAll(w: World, handles: seq<Handle>, disturbed: (nat, nat) -> Option<ClientError>)
    returns (r: Result<map<Handle, Result<string, string>>, ClientError>)
    requires WorldOk(w)
    ensures r.Ok? ==> AnswersFor(w, handles, r.value)
    ensures (forall i, k :: !Fault(disturbed(i, k))) ==> r.Ok?
    ensures r.Err? ==> !IsRefusal(r.error) && exists i, k :: disturbed(i, k) == Some(r.error)
  {
    var chunks := ChunkByBits(handles);
    var answers: map<Handle, Result<string, string>> := map[];
    NoAnswers(w);
    FlattenNothing<Handle>();
    hide AnswersFor, Fault, IsRefusal, Flatten, Refuses;
    assert chunks[..0] == [];
    for i := 0 to |chunks|
      invariant AnswersFor(w, Flatten(chunks[..i]), answers)
    {
      assert Fits(chunks[i]);
      var more := DecryptChunk(w, chunks[i], (k: nat) => disturbed(i, k));
      if more.Err? {
        var k :| disturbed(i, k) == Some(more.error);
        NotRefusal(more.error);
        return Err(more.error);
      }
      JoinAnswers(w, Flatten(chunks[..i]), chunks[i], answers, more.value);
      FlattenAppend(chunks[..i], chunks[i]);
      assert chunks[..i + 1] == chunks[..i] + [chunks[i]];
      answers := answers + more.value;
    }
    assert chunks[..|chunks|] == chunks;
    r := Ok(answers);
  }
}
