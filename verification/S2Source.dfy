/**
 The S2 source: one reader per stream feeds a shared channel, batches are cut
 from a carry buffer, and the next sequence number of every stream is
 checkpointed.

 `Source` holds the fields of a running source and `System` adds the
 checkpoint store and a log: `lives[k]` records the data of the current
 incarnation of stream `k`, where its first reader started, which of its
 records the host has delivered, over all restarts, and how many records of an
 earlier reader are still buffered in front of its own.
 */
module S2Sources {
  import opened Collections

  /** Stream names, in listing order. */
  type Stream = int

  datatype Record = Record(stream: Stream, seqNum: nat)

  const MAX_SEQ: nat := 0xFFFF_FFFF_FFFF_FFFF

  /** `seq_num.saturating_add(1)` on 64 bits. */
  function Next(q: nat): nat {
    if q >= MAX_SEQ then MAX_SEQ else q + 1
  }

  // ---------------------------------------------------------------- sequences of one stream

  /** The sequence numbers of stream `k`, in order. */
  function Seqs(rs: seq<Record>, k: Stream): seq<nat> {
    if rs == [] then []
    else (if rs[0].stream == k then [rs[0].seqNum] else []) + Seqs(rs[1..], k)
  }

  lemma {:induction false} SeqsConcat(a: seq<Record>, b: seq<Record>, k: Stream)
    ensures Seqs(a + b, k) == Seqs(a, k) + Seqs(b, k)
  {
    if a == [] {
      assert a + b == b;
    } else {
      SeqsConcat(a[1..], b, k);
      assert (a + b)[0] == a[0] && (a + b)[1..] == a[1..] + b;
      Associate(if a[0].stream == k then [a[0].seqNum] else [], Seqs(a[1..], k), Seqs(b, k));
    }
  }

  function StreamsOf(rs: seq<Record>): set<Stream> {
    set i | 0 <= i < |rs| :: rs[i].stream
  }

  lemma {:induction false} SeqsOfStreams(rs: seq<Record>, k: Stream)
    ensures k in StreamsOf(rs) <==> Seqs(rs, k) != []
  {
    if rs != [] {
      SeqsOfStreams(rs[1..], k);
      var tail := rs[1..];
      assert rs == [rs[0]] + tail;
      if k in StreamsOf(tail) {
        var i :| 0 <= i < |tail| && tail[i].stream == k;
        assert rs[i + 1].stream == k;
      }
      if k in StreamsOf(rs) && rs[0].stream != k {
        var i :| 0 <= i < |rs| && rs[i].stream == k;
        assert tail[i - 1].stream == k;
      }
    }
  }

  function Tag(k: Stream, qs: seq<nat>): seq<Record> {
    if qs == [] then [] else [Record(k, qs[0])] + Tag(k, qs[1..])
  }

  lemma {:induction false} SeqsOfTag(k: Stream, qs: seq<nat>, j: Stream)
    ensures Seqs(Tag(k, qs), j) == if j == k then qs else []
  {
    if qs != [] {
      SeqsOfTag(k, qs[1..], j);
      assert Tag(k, qs)[1..] == Tag(k, qs[1..]);
    }
  }

  /** Where a reader stands after the sequence numbers `qs`, having started at `lo`. */
  function EndOf(lo: nat, qs: seq<nat>): nat {
    if qs == [] then lo else Next(qs[|qs| - 1])
  }

  /** `qs` are exactly the records of `d` from `lo` up to `hi`, ascending. */
  predicate Chain(d: set<nat>, lo: nat, qs: seq<nat>, hi: nat)
    decreases |qs|
  {
    if qs == [] then lo == hi
    else lo <= qs[0] <= MAX_SEQ && (forall q | q in d :: q < lo || qs[0] <= q) && Chain(d, Next(qs[0]), qs[1..], hi)
  }

  lemma {:induction false} ChainJoin(d: set<nat>, lo: nat, a: seq<nat>, mid: nat, b: seq<nat>, hi: nat)
    requires Chain(d, lo, a, mid) && Chain(d, mid, b, hi)
    ensures Chain(d, lo, a + b, hi)
    decreases |a|
  {
    if a == [] {
      assert a + b == b;
    } else {
      ChainJoin(d, Next(a[0]), a[1..], mid, b, hi);
      assert (a + b)[1..] == a[1..] + b;
    }
  }

  /** Cutting a chain: the first part ends where the second begins, and holds every record in between. */
  lemma {:induction false} ChainSplit(d: set<nat>, lo: nat, a: seq<nat>, b: seq<nat>, hi: nat)
    requires Chain(d, lo, a + b, hi) && lo <= MAX_SEQ
    ensures lo <= EndOf(lo, a) <= MAX_SEQ && Chain(d, lo, a, EndOf(lo, a)) && Chain(d, EndOf(lo, a), b, hi)
    ensures forall q | q in d && lo <= q < EndOf(lo, a) :: q in a
    decreases |a|
  {
    if a == [] {
      assert a + b == b;
    } else {
      assert (a + b)[0] == a[0] && (a + b)[1..] == a[1..] + b;
      ChainSplit(d, Next(a[0]), a[1..], b, hi);
      assert EndOf(Next(a[0]), a[1..]) == EndOf(lo, a);
    }
  }

  // ---------------------------------------------------------------- positions of a batch

  /** One past the last sequence number of every stream in the batch. */
  function PositionsOf(rows: seq<Record>): map<Stream, nat> {
    map k | k in StreamsOf(rows) :: EndOf(0, Seqs(rows, k))
  }

  /** The reverse scan of `generate_batch`: the first record seen of a stream is its last one. */
  method BatchPositions(rows: seq<Record>) returns (positions: map<Stream, nat>)
    ensures positions == PositionsOf(rows)
  {
    positions := map[];
    var i := |rows|;
    assert rows[|rows|..] == [];
    while i > 0
      invariant 0 <= i <= |rows|
      invariant positions == PositionsOf(rows[i..])
    {
      i := i - 1;
      var row := rows[i];
      ghost var tail := rows[i + 1..];
      assert rows[i..] == [row] + tail;
      AddFirst(row, tail);
      if row.stream !in positions {
        positions := positions[row.stream := Next(row.seqNum)];
      }
    }
    assert rows[0..] == rows;
  }

  lemma AddFirst(row: Record, tail: seq<Record>)
    ensures PositionsOf([row] + tail) ==
      if row.stream in PositionsOf(tail) then PositionsOf(tail) else PositionsOf(tail)[row.stream := Next(row.seqNum)]
  {
    var rows := [row] + tail;
    assert rows[0] == row && rows[1..] == tail;
    forall k
      ensures k in StreamsOf(rows) <==> k == row.stream || k in StreamsOf(tail)
      ensures k in StreamsOf(tail) ==> EndOf(0, Seqs(rows, k)) == EndOf(0, Seqs(tail, k))
      ensures k == row.stream && k !in StreamsOf(tail) ==> EndOf(0, Seqs(rows, k)) == Next(row.seqNum)
    {
      SeqsOfStreams(rows, k);
      SeqsOfStreams(tail, k);
    }
  }

  /** A position becomes the greater of its old value and its update; updates of other streams are dropped. */
  function RecordEmitted(positions: map<Stream, nat>, updates: map<Stream, nat>): map<Stream, nat> {
    map k | k in positions :: if k in updates && updates[k] > positions[k] then updates[k] else positions[k]
  }

  // ---------------------------------------------------------------- the system

  datatype Source = Source(
    positions: map<Stream, nat>, next: map<Stream, nat>,
    channel: seq<seq<Record>>, carry: seq<Record>, pending: map<Stream, nat>, epochs: map<nat, map<Stream, nat>>)

  datatype Life = Life(data: set<nat>, floor: nat, sent: set<nat>, stale: nat)

  /**
   `out` is the batch returned last and not yet counted in the positions,
   `delivered` whether the host has delivered it. `sentAt` and `saved` keep
   what had been delivered when a marker, and the marker of a persisted
   position, was taken.
   */
  datatype System = System(
    src: Source, kv: map<Stream, nat>, out: seq<Record>, delivered: bool,
    lives: map<Stream, Life>, sentAt: map<nat, map<Stream, set<nat>>>, saved: map<Stream, set<nat>>)

  function Start(): System {
    System(Source(map[], map[], [], [], map[], map[]), map[], [], true, map[], map[], map[])
  }

  datatype Step =
    | Ensure(k: Stream, data: set<nat>, fallback: nat)
    | Forward(k: Stream, qs: seq<nat>)
    | Begin
    | Receive
    | Take(n: nat)
    | Deliver
    | Marker(epoch: nat)
    | Finalizer(epoch: nat, puts: set<Stream>)
    | Prune(ks: set<Stream>, cleared: set<Stream>)
    | Crash

  /** Records received or in the channel that no batch has taken yet. */
  function Waiting(src: Source): seq<Record> {
    src.carry + Flatten(src.channel)
  }

  function Buffered(s: System): seq<Record> {
    s.out + Waiting(s.src)
  }

  /**
   No position left by an earlier reader of `k` lies past `start`: neither the
   pending one, nor one a waiting record will give, nor one in a snapshot.
   */
  predicate Harmless(src: Source, k: Stream, start: nat) {
    && (k in src.pending ==> src.pending[k] <= start)
    && (forall q | q in Seqs(Waiting(src), k) :: Next(q) <= start)
    && (forall e | e in src.epochs && k in src.epochs[e] :: src.epochs[e][k] <= start)
  }

  predicate Enabled(s: System, step: Step) {
    match step
    case Ensure(k, _, fallback) => k !in s.src.positions && fallback <= MAX_SEQ && Harmless(s.src, k, StartOf(s.kv, k, fallback))
    case Forward(k, qs) =>
      && k in s.src.positions && k in s.src.next && k in s.lives && qs != []
      && Chain(s.lives[k].data, s.src.next[k], qs, EndOf(s.src.next[k], qs))
    case Begin => s.delivered
    case Receive => s.src.channel != []
    case Take(n) => s.out == [] && 1 <= n <= |s.src.carry|
    case Deliver => true
    case Marker(e) => forall e' | e' in s.src.epochs :: e' < e
    case Finalizer(_, _) => true
    case Prune(ks, cleared) => cleared <= ks
    case Crash => true
  }

  function StartOf(kv: map<Stream, nat>, k: Stream, fallback: nat): nat {
    if k in kv then kv[k] else fallback
  }

  function EnsureSource(src: Source, k: Stream, start: nat): Source {
    src.(positions := src.positions[k := start], next := src.next[k := start])
  }

  function PruneSource(src: Source, ks: set<Stream>): Source {
    src.(positions := src.positions - ks, next := src.next - ks)
  }

  function ForwardSource(src: Source, k: Stream, qs: seq<nat>): Source {
    if k in src.next then src.(next := src.next[k := EndOf(src.next[k], qs)], channel := src.channel + [Tag(k, qs)]) else src
  }

  function BeginSource(src: Source): Source {
    src.(positions := RecordEmitted(src.positions, src.pending), pending := map[])
  }

  function ReceiveSource(src: Source): Source {
    if src.channel == [] then src else src.(carry := src.carry + src.channel[0], channel := src.channel[1..])
  }

  function TakeSource(src: Source, n: nat): Source {
    if n > |src.carry| then src else src.(carry := src.carry[n..], pending := PositionsOf(src.carry[..n]))
  }

  function MarkSource(src: Source, e: nat): Source {
    src.(epochs := src.epochs[e := src.positions])
  }

  function DropEpochs<T>(epochs: map<nat, T>, e: nat): map<nat, T> {
    map e' | e' in epochs && e' > e :: epochs[e']
  }

  /** The positions a finalizer writes: streams pruned since the marker are skipped. */
  function ToPersist(src: Source, e: nat): map<Stream, nat> {
    if e in src.epochs then map k | k in src.epochs[e] && k in src.positions :: src.epochs[e][k] else map[]
  }

  /** What follows the first `stale` of `qs`. */
  function Fresh(qs: seq<nat>, stale: nat): seq<nat> {
    if stale <= |qs| then qs[stale..] else []
  }

  /** The host has now delivered the records `rs`; those of an earlier reader do not count. */
  function Sent(lives: map<Stream, Life>, rs: seq<Record>): map<Stream, Life> {
    map k | k in lives :: lives[k].(sent := lives[k].sent + set q | q in Fresh(Seqs(rs, k), lives[k].stale))
  }

  /** The records `rs` have left the front of the buffers. */
  function Passed(lives: map<Stream, Life>, rs: seq<Record>): map<Stream, Life> {
    map k | k in lives ::
      lives[k].(stale := if |Seqs(rs, k)| <= lives[k].stale then lives[k].stale - |Seqs(rs, k)| else 0)
  }

  /** What had been delivered of stream `k` when the marker of `e` was taken. */
  function SentAt(s: System, e: nat, k: Stream): set<nat> {
    if e in s.sentAt && k in s.sentAt[e] then s.sentAt[e][k] else {}
  }

  /** The life of a stream whose reader starts now. */
  function Begun(s: System, k: Stream, d: set<nat>, start: nat): Life {
    var stale := |Seqs(Buffered(s), k)|;
    if k in s.lives then s.lives[k].(stale := stale) else Life(d, start, {}, stale)
  }

  function Apply(s: System, step: Step): System {
    match step
    case Ensure(k, d, fallback) =>
      var start := StartOf(s.kv, k, fallback);
      s.(src := EnsureSource(s.src, k, start),
         lives := s.lives[k := Begun(s, k, d, start)],
         saved := if k in s.lives then s.saved else s.saved[k := {}])
    case Forward(k, qs) => s.(src := ForwardSource(s.src, k, qs))
    case Begin => s.(src := BeginSource(s.src), out := [], delivered := true, lives := Passed(s.lives, s.out))
    case Receive => s.(src := ReceiveSource(s.src))
    case Take(n) =>
      s.(src := TakeSource(s.src, n), out := if n > |s.src.carry| then s.out else s.src.carry[..n], delivered := false)
    case Deliver => s.(delivered := true, lives := Sent(s.lives, s.out))
    case Marker(e) => s.(src := MarkSource(s.src, e), sentAt := s.sentAt[e := map k | k in s.lives :: s.lives[k].sent])
    case Finalizer(e, puts) =>
      var written := map k | k in ToPersist(s.src, e) && k in puts :: ToPersist(s.src, e)[k];
      s.(src := s.src.(epochs := DropEpochs(s.src.epochs, e)),
         kv := s.kv + written,
         saved := s.saved + map k | k in written :: SentAt(s, e, k),
         sentAt := DropEpochs(s.sentAt, e))
    case Prune(ks, cleared) =>
      s.(src := PruneSource(s.src, ks), kv := s.kv - cleared, lives := s.lives - ks,
         sentAt := map e | e in s.sentAt :: s.sentAt[e] - ks)
    case Crash =>
      s.(src := Start().src, out := [], delivered := true, sentAt := map[],
         lives := map k | k in s.lives && k in s.kv :: s.lives[k].(stale := 0))
  }

  // ---------------------------------------------------------------- the invariant

  /** Every record of the stream from `floor` up to `n` is in `sent`. */
  predicate Sound(l: Life, n: nat, sent: set<nat>) {
    forall q | q in l.data && l.floor <= q < n :: q in sent
  }

  /**
   A running stream: what is behind its position has been delivered, and
   exactly the rest up to the reader is buffered. The stale records in front,
   from the last one of the returned batch on (`out` of them are in it), give
   no position past its own.
   */
  predicate StreamOk(l: Life, position: nat, out: nat, buffered: seq<nat>, next: nat) {
    && position <= MAX_SEQ && Sound(l, position, l.sent)
    && l.stale <= |buffered| && Chain(l.data, position, buffered[l.stale..], next)
    && forall i | 0 <= i < l.stale && out <= i + 1 :: Next(buffered[i]) <= position
  }

  predicate RunningOk(s: System, k: Stream)
    requires k in s.src.positions && k in s.src.next && k in s.lives
  {
    StreamOk(s.lives[k], s.src.positions[k], |Seqs(s.out, k)|, Seqs(Buffered(s), k), s.src.next[k])
  }

  predicate StreamsInv(s: System) {
    && s.src.positions.Keys == s.src.next.Keys && s.src.positions.Keys <= s.lives.Keys
    && forall k | k in s.src.positions :: RunningOk(s, k)
  }

  predicate OutInv(s: System) {
    && s.src.pending == PositionsOf(s.out)
    && (s.delivered ==> forall k | k in s.src.positions && k in s.lives :: OutSent(s, k))
  }

  predicate OutSent(s: System, k: Stream)
    requires k in s.lives
  {
    forall q | q in Fresh(Seqs(s.out, k), s.lives[k].stale) :: q in s.lives[k].sent
  }

  predicate KvInv(s: System) {
    && (forall k | k in s.kv :: s.kv[k] <= MAX_SEQ)
    && (forall k | k in s.lives && k !in s.src.positions :: k in s.kv)
    && (forall k | k in s.src.positions && k in s.kv :: s.kv[k] <= s.src.positions[k])
    && (forall k | k in s.lives && k in s.kv ::
          k in s.saved && s.saved[k] <= s.lives[k].sent && Sound(s.lives[k], s.kv[k], s.saved[k]))
  }

  predicate SnapshotOk(s: System, e: nat, k: Stream)
    requires e in s.src.epochs && k in s.src.epochs[e]
  {
    && s.src.epochs[e][k] <= MAX_SEQ && (k in s.kv ==> s.kv[k] <= s.src.epochs[e][k])
    && (k in s.lives ==>
          && k in s.src.positions && s.src.epochs[e][k] <= s.src.positions[k]
          && Sound(s.lives[k], s.src.epochs[e][k], SentAt(s, e, k)))
  }

  predicate EpochsInv(s: System) {
    && (forall e, k | e in s.src.epochs && k in s.src.epochs[e] :: SnapshotOk(s, e, k))
    && Ordered(s.src.epochs)
  }

  /** Later snapshots of a stream are never behind earlier ones. */
  predicate Ordered(epochs: map<nat, map<Stream, nat>>) {
    forall e, e', k | e in epochs && e' in epochs && e < e' && k in epochs[e] && k in epochs[e'] :: epochs[e][k] <= epochs[e'][k]
  }

  /** The log of a marker speaks of current lives and of what they have delivered. */
  predicate LogInv(s: System) {
    forall e, k | e in s.sentAt && k in s.sentAt[e] :: k in s.lives && s.sentAt[e][k] <= s.lives[k].sent
  }

  predicate Inv(s: System) {
    StreamsInv(s) && OutInv(s) && KvInv(s) && EpochsInv(s) && LogInv(s)
  }

  // ---------------------------------------------------------------- steps that move records

  lemma ForwardKeeps(s: System, k: Stream, qs: seq<nat>)
    requires Inv(s) && Enabled(s, Forward(k, qs))
    ensures Inv(Apply(s, Forward(k, qs)))
  {
    hide StreamOk, KvInv, EpochsInv, LogInv, PositionsOf, OutSent, Seqs;
    var s' := Apply(s, Forward(k, qs));
    ForwardBuffered(s, k, qs);
    forall j | j in s'.src.positions
      ensures RunningOk(s', j)
    {
      assert RunningOk(s, j);
      SeqsConcat(Buffered(s), Tag(k, qs), j);
      SeqsOfTag(k, qs, j);
      if j == k {
        ForwardOne(s.lives[k], s.src.positions[k], |Seqs(s.out, k)|, Seqs(Buffered(s), k), s.src.next[k], qs);
      } else {
        assert Seqs(Buffered(s), j) + [] == Seqs(Buffered(s), j);
      }
    }
    assert OutInv(s') by {
      forall j | s'.delivered && j in s'.src.positions && j in s'.lives
        ensures OutSent(s', j)
      {
        SameOut(s, s', j);
      }
    }
    Unmoved(s, s');
  }

  lemma SameOut(s: System, s': System, k: Stream)
    requires s'.out == s.out && k in s.lives && s'.lives == s.lives && OutSent(s, k)
    ensures OutSent(s', k)
  {
    hide Seqs, Fresh;
  }

  lemma ForwardBuffered(s: System, k: Stream, qs: seq<nat>)
    requires k in s.src.next
    ensures Buffered(Apply(s, Forward(k, qs))) == Buffered(s) + Tag(k, qs)
  {
    hide Flatten, Tag;
    FlattenAppend(s.src.channel, Tag(k, qs));
    Associate(s.src.carry, Flatten(s.src.channel), Tag(k, qs));
    Associate(s.out, Waiting(s.src), Tag(k, qs));
  }

  lemma ForwardOne(l: Life, position: nat, out: nat, b: seq<nat>, next: nat, qs: seq<nat>)
    requires StreamOk(l, position, out, b, next) && Chain(l.data, next, qs, EndOf(next, qs))
    ensures StreamOk(l, position, out, b + qs, EndOf(next, qs))
  {
    ChainJoin(l.data, position, b[l.stale..], next, qs, EndOf(next, qs));
    assert (b + qs)[l.stale..] == b[l.stale..] + qs;
  }

  /** Checkpoints are untouched while positions, snapshots and deliveries stay. */
  lemma Unmoved(s: System, s': System)
    requires KvInv(s) && EpochsInv(s) && LogInv(s)
    requires s'.src.positions == s.src.positions && s'.src.epochs == s.src.epochs && s'.kv == s.kv
    requires s'.lives == s.lives && s'.sentAt == s.sentAt && s'.saved == s.saved
    ensures KvInv(s') && EpochsInv(s') && LogInv(s')
  {
    PositionsGrow(s, s');
  }

  /** Nor are they touched while positions only grow and deliveries only add up. */
  lemma PositionsGrow(s: System, s': System)
    requires KvInv(s) && EpochsInv(s) && LogInv(s)
    requires s'.src.positions.Keys == s.src.positions.Keys && s'.src.epochs == s.src.epochs && s'.kv == s.kv
    requires forall k | k in s.src.positions :: s.src.positions[k] <= s'.src.positions[k]
    requires s'.sentAt == s.sentAt && s'.saved == s.saved && s'.lives.Keys == s.lives.Keys
    requires forall k | k in s.lives :: Grown(s.lives[k], s'.lives[k])
    ensures KvInv(s') && EpochsInv(s') && LogInv(s')
  {
    hide KvInv, EpochsInv, LogInv;
    GrownKv(s, s');
    GrownEpochs(s, s');
    GrownLog(s, s');
  }

  lemma GrownKv(s: System, s': System)
    requires KvInv(s) && s'.src.positions.Keys == s.src.positions.Keys && s'.kv == s.kv && s'.saved == s.saved
    requires forall k | k in s.src.positions :: s.src.positions[k] <= s'.src.positions[k]
    requires s'.lives.Keys == s.lives.Keys && forall k | k in s.lives :: Grown(s.lives[k], s'.lives[k])
    ensures KvInv(s')
  {
    forall k | k in s.lives && k in s.kv
      ensures s'.saved[k] <= s'.lives[k].sent && Sound(s'.lives[k], s'.kv[k], s'.saved[k])
    {
      assert Grown(s.lives[k], s'.lives[k]);
    }
  }

  lemma GrownEpochs(s: System, s': System)
    requires EpochsInv(s) && s'.src.positions.Keys == s.src.positions.Keys && s'.src.epochs == s.src.epochs && s'.kv == s.kv
    requires forall k | k in s.src.positions :: s.src.positions[k] <= s'.src.positions[k]
    requires s'.sentAt == s.sentAt && s'.lives.Keys == s.lives.Keys
    requires forall k | k in s.lives :: Grown(s.lives[k], s'.lives[k])
    ensures EpochsInv(s')
  {
    hide Ordered;
    forall e, k | e in s'.src.epochs && k in s'.src.epochs[e]
      ensures SnapshotOk(s', e, k)
    {
      assert SnapshotOk(s, e, k);
      if k in s.lives {
        assert Grown(s.lives[k], s'.lives[k]);
      }
    }
  }

  lemma GrownLog(s: System, s': System)
    requires LogInv(s) && s'.sentAt == s.sentAt
    requires s'.lives.Keys == s.lives.Keys && forall k | k in s.lives :: Grown(s.lives[k], s'.lives[k])
    ensures LogInv(s')
  {
    forall e, k | e in s'.sentAt && k in s'.sentAt[e]
      ensures k in s'.lives && s'.sentAt[e][k] <= s'.lives[k].sent
    {
      assert Grown(s.lives[k], s'.lives[k]);
    }
  }

  /** The same incarnation, with at least the deliveries. */
  predicate Grown(l: Life, l': Life) {
    l'.data == l.data && l'.floor == l.floor && l.sent <= l'.sent
  }

  lemma ReceiveKeeps(s: System)
    requires Inv(s) && Enabled(s, Receive)
    ensures Inv(Apply(s, Receive))
  {
    hide StreamOk, KvInv, EpochsInv, LogInv, PositionsOf, OutSent, Seqs;
    var s' := Apply(s, Receive);
    ReceiveBuffered(s);
    forall j | j in s'.src.positions
      ensures RunningOk(s', j) && (s.delivered ==> OutSent(s', j))
    {
      assert RunningOk(s, j);
      if s.delivered {
        SameOut(s, s', j);
      }
    }
    Unmoved(s, s');
  }

  lemma ReceiveBuffered(s: System)
    ensures Waiting(ReceiveSource(s.src)) == Waiting(s.src)
    ensures Buffered(Apply(s, Receive)) == Buffered(s)
  {
    hide Flatten;
    if s.src.channel != [] {
      FlattenHead(s.src.channel);
      Associate(s.src.carry, s.src.channel[0], Flatten(s.src.channel[1..]));
    }
  }

  lemma TakeKeeps(s: System, n: nat)
    requires Inv(s) && Enabled(s, Take(n))
    ensures Inv(Apply(s, Take(n)))
  {
    hide KvInv, EpochsInv, LogInv, PositionsOf, OutSent, Seqs, Chain, Sound;
    var s' := Apply(s, Take(n));
    TakeBuffered(s, n);
    NoSeqs();
    forall j | j in s'.src.positions
      ensures RunningOk(s', j)
    {
      assert RunningOk(s, j);
    }
    Unmoved(s, s');
  }

  lemma NoSeqs()
    ensures forall k {:trigger Seqs([], k)} :: Seqs([], k) == []
  {
  }

  lemma TakeBuffered(s: System, n: nat)
    requires s.out == [] && n <= |s.src.carry|
    ensures Buffered(Apply(s, Take(n))) == Buffered(s)
  {
    hide Flatten;
    var c := s.src.carry;
    assert c == c[..n] + c[n..];
    Associate(c[..n], c[n..], Flatten(s.src.channel));
    assert [] + Waiting(s.src) == Waiting(s.src);
  }

  /** The delivered batch becomes visible: each position moves past exactly its records. */
  lemma BeginKeeps(s: System)
    requires Inv(s) && Enabled(s, Begin)
    ensures Inv(Apply(s, Begin))
  {
    var s' := Apply(s, Begin);
    hide KvInv, EpochsInv, LogInv, Flatten, Chain, Sound, PositionsOf, StreamOk, Seqs, Fresh;
    var rest := Waiting(s.src);
    assert Buffered(s') == rest;
    NoSeqs();
    forall k | k in s'.src.positions
      ensures s.src.positions[k] <= s'.src.positions[k]
      ensures RunningOk(s', k) && OutSent(s', k)
    {
      assert RunningOk(s, k) && OutSent(s, k);
      SeqsConcat(s.out, rest, k);
      PositionOfStream(s.out, k);
      BeginOne(s.lives[k], s.src.positions[k], Seqs(s.out, k), Seqs(rest, k), s.src.next[k]);
      NothingFresh(s'.lives[k].stale);
    }
    assert s'.src.pending == PositionsOf(s'.out) by {
      hide *;
      NoPositions();
    }
    assert KvInv(s') && EpochsInv(s') && LogInv(s') by { PositionsGrow(s, s'); }
  }

  lemma NothingFresh(stale: nat)
    ensures Fresh([], stale) == []
  {
  }

  lemma NoPositions()
    ensures PositionsOf([]) == map[]
  {
  }

  lemma PositionOfStream(rs: seq<Record>, k: Stream)
    ensures k in PositionsOf(rs) <==> Seqs(rs, k) != []
    ensures k in PositionsOf(rs) ==> PositionsOf(rs)[k] == EndOf(0, Seqs(rs, k))
  {
    SeqsOfStreams(rs, k);
  }

  lemma BeginOne(l: Life, position: nat, a: seq<nat>, b: seq<nat>, next: nat)
    requires StreamOk(l, position, |a|, a + b, next) && forall q | q in Fresh(a, l.stale) :: q in l.sent
    ensures var p := if a != [] && EndOf(0, a) > position then EndOf(0, a) else position;
      StreamOk(l.(stale := if |a| <= l.stale then l.stale - |a| else 0), p, 0, b, next)
  {
    if |a| <= l.stale {
      assert (a + b)[l.stale..] == b[l.stale - |a|..];
      assert forall i | 0 <= i < |b| :: (a + b)[i + |a|] == b[i];
      if a != [] {
        assert (a + b)[|a| - 1] == a[|a| - 1];
      }
    } else {
      var own := a[l.stale..];
      assert (a + b)[l.stale..] == own + b;
      ChainSplit(l.data, position, own, b, next);
      assert EndOf(position, own) == EndOf(0, a);
      assert b[0..] == b;
    }
  }

  lemma DeliverKeeps(s: System)
    requires Inv(s)
    ensures Inv(Apply(s, Deliver))
  {
    hide Seqs, Flatten, Chain, PositionsOf, KvInv, EpochsInv, LogInv, Fresh;
    var s' := Apply(s, Deliver);
    assert Buffered(s') == Buffered(s);
    forall k | k in s'.src.positions
      ensures RunningOk(s', k) && OutSent(s', k)
    {
      assert RunningOk(s, k);
    }
    PositionsGrow(s, s');
  }

  // ---------------------------------------------------------------- steps on checkpoints and streams

  /** Records do not move while buffers, positions and lives stay. */
  lemma SameStreams(s: System, s': System)
    requires StreamsInv(s) && OutInv(s) && s'.out == s.out && s'.delivered == s.delivered && s'.lives == s.lives
    requires s'.src == s.src.(epochs := s'.src.epochs)
    ensures StreamsInv(s') && OutInv(s')
  {
    hide StreamOk, Seqs, PositionsOf, OutSent;
    assert Buffered(s') == Buffered(s);
    forall k | k in s'.src.positions
      ensures RunningOk(s', k) && (s.delivered ==> OutSent(s', k))
    {
      assert RunningOk(s, k);
      if s.delivered {
        SameOut(s, s', k);
      }
    }
  }

  lemma MarkerKeeps(s: System, e: nat)
    requires Inv(s) && Enabled(s, Marker(e))
    ensures Inv(Apply(s, Marker(e)))
  {
    var s' := Apply(s, Marker(e));
    SameStreams(s, s');
    SameKv(s, s');
    MarkedLog(s, e);
    MarkedOrder(s, e);
    hide KvInv, OutInv, StreamsInv, LogInv, Ordered, SnapshotOk, Apply;
    forall e', k | e' in s'.src.epochs && k in s'.src.epochs[e']
      ensures SnapshotOk(s', e', k)
    {
      MarkedOk(s, e, e', k);
    }
  }

  lemma MarkedLog(s: System, e: nat)
    requires LogInv(s)
    ensures LogInv(Apply(s, Marker(e)))
  {
  }

  lemma MarkedOrder(s: System, e: nat)
    requires StreamsInv(s) && EpochsInv(s) && Enabled(s, Marker(e))
    ensures Ordered(Apply(s, Marker(e)).src.epochs)
  {
    RunningHasLife(s);
    hide StreamsInv, Sound;
    forall e', k | e' in s.src.epochs && k in s.src.epochs[e'] && k in s.src.positions
      ensures s.src.epochs[e'][k] <= s.src.positions[k]
    {
      assert SnapshotOk(s, e', k);
    }
  }

  lemma SameKv(s: System, s': System)
    requires KvInv(s) && s'.kv == s.kv && s'.lives == s.lives && s'.src.positions == s.src.positions && s'.saved == s.saved
    ensures KvInv(s')
  {
    hide Sound;
  }

  lemma MarkedOk(s: System, e: nat, e': nat, k: Stream)
    requires Inv(s) && Enabled(s, Marker(e))
    requires e' in Apply(s, Marker(e)).src.epochs && k in Apply(s, Marker(e)).src.epochs[e']
    ensures SnapshotOk(Apply(s, Marker(e)), e', k)
  {
    hide KvInv, OutInv, StreamsInv, Sound, Ordered, LogInv;
    if e' == e {
      MarkedNow(s, e, k);
    } else {
      assert SnapshotOk(s, e', k);
    }
  }

  lemma MarkedNow(s: System, e: nat, k: Stream)
    requires StreamsInv(s) && KvInv(s) && k in s.src.positions
    ensures SnapshotOk(Apply(s, Marker(e)), e, k)
  {
    hide Seqs, Chain, Sound;
    var s' := Apply(s, Marker(e));
    assert RunningOk(s, k);
    assert SentAt(s', e, k) == s.lives[k].sent;
  }

  lemma FinalizerKeeps(s: System, e: nat, puts: set<Stream>)
    requires Inv(s)
    ensures Inv(Apply(s, Finalizer(e, puts)))
    ensures forall k | k in s.kv :: k in Apply(s, Finalizer(e, puts)).kv && s.kv[k] <= Apply(s, Finalizer(e, puts)).kv[k]
  {
    var s' := Apply(s, Finalizer(e, puts));
    SameStreams(s, s');
    RunningHasLife(s);
    FinalizedLog(s, e, puts);
    hide StreamsInv, OutInv, Sound, Ordered, SnapshotOk, LogInv, Apply;
    forall k | k in s'.kv
      ensures Written(s, s', e, k)
    {
      WrittenOk(s, e, puts, k);
    }
    FinalizedKv(s, e, puts);
    assert Ordered(s'.src.epochs) && s'.src.epochs == DropEpochs(s.src.epochs, e) by { OrderedDrop(s, e, puts); }
    forall e', k | e' in s'.src.epochs && k in s'.src.epochs[e']
      ensures SnapshotOk(s', e', k)
    {
      hide KvInv;
      FinalizedOk(s, e, puts, e', k);
    }
  }

  lemma FinalizedLog(s: System, e: nat, puts: set<Stream>)
    requires LogInv(s)
    ensures LogInv(Apply(s, Finalizer(e, puts)))
  {
  }

  lemma FinalizedKv(s: System, e: nat, puts: set<Stream>)
    requires KvInv(s)
    requires var s' := Apply(s, Finalizer(e, puts)); forall k | k in s'.kv :: Written(s, s', e, k)
    ensures var s' := Apply(s, Finalizer(e, puts));
      KvInv(s') && forall k | k in s.kv :: k in s'.kv && s.kv[k] <= s'.kv[k]
  {
    var s' := Apply(s, Finalizer(e, puts));
    assert s'.src.positions == s.src.positions && s'.lives == s.lives && s.kv.Keys <= s'.kv.Keys by { hide Sound, ToPersist, Written; }
    hide Sound, Apply;
  }

  lemma OrderedDrop(s: System, e: nat, puts: set<Stream>)
    requires Ordered(s.src.epochs)
    ensures Apply(s, Finalizer(e, puts)).src.epochs == DropEpochs(s.src.epochs, e) && Ordered(DropEpochs(s.src.epochs, e))
  {
  }

  lemma FinalizedOk(s: System, e: nat, puts: set<Stream>, e': nat, k: Stream)
    requires KvInv(s) && EpochsInv(s) && LogInv(s) && s.src.positions.Keys <= s.lives.Keys
    requires e' in DropEpochs(s.src.epochs, e) && k in s.src.epochs[e']
    ensures e' in Apply(s, Finalizer(e, puts)).src.epochs && k in Apply(s, Finalizer(e, puts)).src.epochs[e']
    ensures SnapshotOk(Apply(s, Finalizer(e, puts)), e', k)
  {
    hide Sound, LogInv;
    var s' := Apply(s, Finalizer(e, puts));
    assert SnapshotOk(s, e', k);
    assert e' > e && s'.src.epochs[e'] == s.src.epochs[e'] && SentAt(s', e', k) == SentAt(s, e', k);
    if k in s'.kv {
      WrittenOk(s, e, puts, k);
    }
  }

  lemma RunningHasLife(s: System)
    requires StreamsInv(s)
    ensures s.src.positions.Keys <= s.lives.Keys
  {
  }

  /** What a finalizer leaves for stream `k`: the old value, or a greater one from the snapshot. */
  predicate Written(s: System, s': System, e: nat, k: Stream)
    requires k in s'.kv
  {
    && (k in s.kv ==> s.kv[k] <= s'.kv[k])
    && ((k in s.kv && s'.kv[k] == s.kv[k]) || (e in s.src.epochs && k in s.src.epochs[e] && s'.kv[k] == s.src.epochs[e][k]))
    && (k in s'.lives ==> k in s'.saved && s'.saved[k] <= s'.lives[k].sent && Sound(s'.lives[k], s'.kv[k], s'.saved[k]))
    && (k in s'.src.positions ==> s'.kv[k] <= s'.src.positions[k])
    && s'.kv[k] <= MAX_SEQ
  }

  lemma WrittenOk(s: System, e: nat, puts: set<Stream>, k: Stream)
    requires KvInv(s) && EpochsInv(s) && LogInv(s) && s.src.positions.Keys <= s.lives.Keys
    requires k in Apply(s, Finalizer(e, puts)).kv
    ensures Written(s, Apply(s, Finalizer(e, puts)), e, k)
  {
    hide Sound, Apply, Ordered, ToPersist, SentAt;
    FinalizedMaps(s, e, puts, k);
    if k in ToPersist(s.src, e) && k in puts {
      PersistedFrom(s.src, e, k);
      assert SnapshotOk(s, e, k);
      SentBefore(s, e, k);
    }
  }

  lemma FinalizedMaps(s: System, e: nat, puts: set<Stream>, k: Stream)
    requires k in Apply(s, Finalizer(e, puts)).kv
    ensures var s' := Apply(s, Finalizer(e, puts));
      && s'.src.positions == s.src.positions && s'.lives == s.lives
      && (if k in ToPersist(s.src, e) && k in puts
          then s'.kv[k] == ToPersist(s.src, e)[k] && k in s'.saved && s'.saved[k] == SentAt(s, e, k)
          else k in s.kv && s'.kv[k] == s.kv[k] && (k in s.saved ==> k in s'.saved && s'.saved[k] == s.saved[k]))
  {
    hide ToPersist, SentAt, DropEpochs;
  }

  lemma PersistedFrom(src: Source, e: nat, k: Stream)
    requires k in ToPersist(src, e)
    ensures e in src.epochs && k in src.epochs[e] && k in src.positions && ToPersist(src, e)[k] == src.epochs[e][k]
  {
  }

  lemma SentBefore(s: System, e: nat, k: Stream)
    requires LogInv(s) && k in s.lives
    ensures SentAt(s, e, k) <= s.lives[k].sent
  {
  }

  lemma EnsureKeeps(s: System, k: Stream, d: set<nat>, fallback: nat)
    requires Inv(s) && Enabled(s, Ensure(k, d, fallback))
    ensures Inv(Apply(s, Ensure(k, d, fallback)))
  {
    var s' := Apply(s, Ensure(k, d, fallback));
    EnsuredStream(s, k, d, fallback);
    EnsuredOthers(s, k, d, fallback);
    EnsuredKv(s, k, d, fallback);
    EnsuredSnapshots(s, k, d, fallback);
    EnsuredLog(s, k, d, fallback);
    hide RunningOk, OutSent, KvInv, EpochsInv, LogInv, Begun, Harmless, PositionsOf;
  }

  lemma EnsuredLog(s: System, k: Stream, d: set<nat>, fallback: nat)
    requires LogInv(s)
    ensures LogInv(Apply(s, Ensure(k, d, fallback)))
  {
    hide Seqs, Buffered;
  }

  /** A new reader starts with stale records only, none of which gives a position past its start. */
  lemma EnsuredStream(s: System, k: Stream, d: set<nat>, fallback: nat)
    requires KvInv(s) && OutInv(s) && Enabled(s, Ensure(k, d, fallback))
    ensures var s' := Apply(s, Ensure(k, d, fallback)); RunningOk(s', k) && OutSent(s', k)
  {
    var s' := Apply(s, Ensure(k, d, fallback));
    var l, start := s'.lives[k], StartOf(s.kv, k, fallback);
    var a, b, c := Seqs(s.out, k), Seqs(Waiting(s.src), k), Seqs(Buffered(s), k);
    assert c == a + b by { SeqsConcat(s.out, Waiting(s.src), k); }
    assert Buffered(s') == Buffered(s) && s'.out == s.out;
    hide Seqs, PositionsOf;
    PositionOfStream(s.out, k);
    assert Sound(l, start, l.sent);
    StaleAreBehind(a, b, start);
    assert c[l.stale..] == [];
    assert Fresh(a, l.stale) == [];
  }

  lemma StaleAreBehind(a: seq<nat>, b: seq<nat>, start: nat)
    requires a != [] ==> Next(a[|a| - 1]) <= start
    requires forall q | q in b :: Next(q) <= start
    ensures forall i | 0 <= i < |a + b| && |a| <= i + 1 :: Next((a + b)[i]) <= start
  {
    forall i | 0 <= i < |a + b| && |a| <= i + 1
      ensures Next((a + b)[i]) <= start
    {
      if i < |a| {
        assert (a + b)[i] == a[|a| - 1];
      } else {
        assert (a + b)[i] == b[i - |a|] && b[i - |a|] in b;
      }
    }
  }

  lemma EnsuredOthers(s: System, k: Stream, d: set<nat>, fallback: nat)
    requires StreamsInv(s) && OutInv(s) && Enabled(s, Ensure(k, d, fallback))
    requires var s' := Apply(s, Ensure(k, d, fallback)); RunningOk(s', k) && OutSent(s', k)
    ensures var s' := Apply(s, Ensure(k, d, fallback)); StreamsInv(s') && OutInv(s')
  {
    hide Seqs, PositionsOf, StreamOk, OutSent, Harmless;
    var s' := Apply(s, Ensure(k, d, fallback));
    assert Buffered(s') == Buffered(s);
    forall j | j in s'.src.positions
      ensures RunningOk(s', j) && (s'.delivered ==> OutSent(s', j))
    {
      if j != k {
        assert RunningOk(s, j) && s'.lives[j] == s.lives[j];
        if s.delivered {
          SameFresh(s, s', j);
        }
      }
    }
  }

  lemma SameFresh(s: System, s': System, k: Stream)
    requires s'.out == s.out && k in s.lives && k in s'.lives && s'.lives[k] == s.lives[k] && OutSent(s, k)
    ensures OutSent(s', k)
  {
    hide Seqs, Fresh;
  }

  lemma EnsuredKv(s: System, k: Stream, d: set<nat>, fallback: nat)
    requires KvInv(s) && Enabled(s, Ensure(k, d, fallback))
    ensures KvInv(Apply(s, Ensure(k, d, fallback)))
  {
    hide Seqs, Buffered, Harmless;
  }

  lemma EnsuredSnapshots(s: System, k: Stream, d: set<nat>, fallback: nat)
    requires EpochsInv(s) && LogInv(s) && Enabled(s, Ensure(k, d, fallback))
    ensures EpochsInv(Apply(s, Ensure(k, d, fallback)))
  {
    hide Seqs, Buffered;
    var s' := Apply(s, Ensure(k, d, fallback));
    forall e, j | e in s'.src.epochs && j in s'.src.epochs[e]
      ensures SnapshotOk(s', e, j)
    {
      assert SnapshotOk(s, e, j);
      assert SentAt(s', e, j) == SentAt(s, e, j);
    }
  }

  lemma PruneKeeps(s: System, ks: set<Stream>, cleared: set<Stream>)
    requires Inv(s) && cleared <= ks
    ensures Inv(Apply(s, Prune(ks, cleared)))
  {
    PrunedStreams(s, ks, cleared);
    RunningHasLife(s);
    hide StreamsInv, OutInv, KvInv, EpochsInv, LogInv, Apply;
    PrunedKv(s, ks, cleared);
    PrunedLog(s, ks, cleared);
    PrunedEpochs(s, ks, cleared);
  }

  lemma PrunedKv(s: System, ks: set<Stream>, cleared: set<Stream>)
    requires KvInv(s) && cleared <= ks
    ensures KvInv(Apply(s, Prune(ks, cleared)))
  {
    hide Sound;
  }

  lemma PrunedLog(s: System, ks: set<Stream>, cleared: set<Stream>)
    requires LogInv(s)
    ensures LogInv(Apply(s, Prune(ks, cleared)))
  {
  }

  lemma PrunedEpochs(s: System, ks: set<Stream>, cleared: set<Stream>)
    requires EpochsInv(s)
    ensures EpochsInv(Apply(s, Prune(ks, cleared)))
  {
    hide Sound, Ordered;
    var s' := Apply(s, Prune(ks, cleared));
    forall e, j | e in s'.src.epochs && j in s'.src.epochs[e]
      ensures SnapshotOk(s', e, j)
    {
      assert SnapshotOk(s, e, j);
      if j !in ks {
        assert SentAt(s', e, j) == SentAt(s, e, j);
      }
    }
  }

  lemma PrunedStreams(s: System, ks: set<Stream>, cleared: set<Stream>)
    requires StreamsInv(s) && OutInv(s)
    ensures StreamsInv(Apply(s, Prune(ks, cleared))) && OutInv(Apply(s, Prune(ks, cleared)))
  {
    hide Seqs, PositionsOf, StreamOk, OutSent;
    var s' := Apply(s, Prune(ks, cleared));
    assert Buffered(s') == Buffered(s);
    forall k | k in s'.src.positions
      ensures RunningOk(s', k) && (s.delivered ==> OutSent(s', k))
    {
      assert RunningOk(s, k) && s'.lives[k] == s.lives[k];
      if s.delivered {
        SameFresh(s, s', k);
      }
    }
  }

  lemma CrashKeeps(s: System)
    requires Inv(s)
    ensures Inv(Apply(s, Crash))
  {
    hide StreamsInv, OutInv, EpochsInv, LogInv, Sound;
    var s' := Apply(s, Crash);
    NoPositions();
    forall k | k in s'.lives && k in s'.kv
      ensures Sound(s'.lives[k], s'.kv[k], s'.saved[k])
    {
      assert Sound(s.lives[k], s.kv[k], s.saved[k]);
      SameSound(s.lives[k], 0, s.kv[k], s.saved[k]);
    }
    assert KvInv(s');
    hide KvInv;
    NothingRuns(s');
  }

  lemma SameSound(l: Life, stale: nat, n: nat, sent: set<nat>)
    ensures Sound(l, n, sent) <==> Sound(l.(stale := stale), n, sent)
  {
  }

  lemma NothingRuns(s: System)
    requires s.src == Start().src && s.out == [] && s.sentAt == map[]
    ensures StreamsInv(s) && OutInv(s) && EpochsInv(s) && LogInv(s)
  {
    NoPositions();
  }

  lemma StepKeeps(s: System, step: Step)
    requires Inv(s) && Enabled(s, step)
    ensures Inv(Apply(s, step))
  {
    hide Inv, Enabled, Apply;
    match step {
      case Ensure(k, d, fallback) => EnsureKeeps(s, k, d, fallback);
      case Forward(k, qs) => ForwardKeeps(s, k, qs);
      case Begin => BeginKeeps(s);
      case Receive => ReceiveKeeps(s);
      case Take(n) => TakeKeeps(s, n);
      case Deliver => DeliverKeeps(s);
      case Marker(e) => MarkerKeeps(s, e);
      case Finalizer(e, puts) => FinalizerKeeps(s, e, puts);
      case Prune(ks, cleared) => assert cleared <= ks by { PruneOk(s, ks, cleared); } PruneKeeps(s, ks, cleared);
      case Crash => CrashKeeps(s);
    }
  }

  lemma PruneOk(s: System, ks: set<Stream>, cleared: set<Stream>)
    requires Enabled(s, Prune(ks, cleared))
    ensures cleared <= ks
  {
  }

  predicate Run(s: System, steps: seq<Step>, s': System)
    decreases |steps|
  {
    if steps == [] then s == s' else Enabled(s, steps[0]) && Run(Apply(s, steps[0]), steps[1..], s')
  }

  lemma {:induction false} RunKeeps(s: System, steps: seq<Step>, s': System)
    requires Inv(s) && Run(s, steps, s')
    ensures Inv(s')
    decreases |steps|
  {
    hide Inv, Enabled, Apply;
    if steps != [] {
      StepKeeps(s, steps[0]);
      RunKeeps(Apply(s, steps[0]), steps[1..], s');
    }
  }

  lemma StartIsGood()
    ensures Inv(Start())
  {
    NothingRuns(Start());
  }

  lemma ReachedIsGood(steps: seq<Step>, s: System)
    requires Run(Start(), steps, s)
    ensures Inv(s)
  {
    hide Inv, Run;
    StartIsGood();
    RunKeeps(Start(), steps, s);
  }

  // ---------------------------------------------------------------- theorems

  /**
   A persisted position n for a stream means that every record of it from the
   reader's first start up to n had been delivered when the position's marker
   was taken, over any number of restarts.
   */
  lemma PersistedMeansDelivered(steps: seq<Step>, s: System, k: Stream)
    requires Run(Start(), steps, s) && k in s.kv && k in s.lives
    ensures k in s.saved && s.saved[k] <= s.lives[k].sent
    ensures forall q | q in s.lives[k].data && s.lives[k].floor <= q < s.kv[k] :: q in s.saved[k]
    ensures k in s.src.positions ==> s.kv[k] <= s.src.positions[k]
  {
    hide Run, StreamsInv, OutInv, EpochsInv, LogInv;
    ReachedIsGood(steps, s);
  }

  /** The reader has not skipped `q`: it is delivered, or buffered behind the stale records. */
  predicate Held(s: System, k: Stream, q: nat)
    requires k in s.lives
  {
    q in s.lives[k].sent || q in Fresh(Seqs(Buffered(s), k), s.lives[k].stale)
  }

  /** No record is ever skipped: each one the reader has passed is delivered or still buffered. */
  lemma NothingIsSkipped(steps: seq<Step>, s: System, k: Stream, q: nat)
    requires Run(Start(), steps, s) && k in s.src.positions
    ensures k in s.lives && k in s.src.next
    ensures q in s.lives[k].data && s.lives[k].floor <= q < s.src.next[k] ==>
      Held(s, k, q) && (q in s.lives[k].sent || Record(k, q) in Buffered(s))
  {
    hide Run, OutInv, EpochsInv, LogInv, KvInv;
    ReachedIsGood(steps, s);
    assert RunningOk(s, k);
    var l, b := s.lives[k], Seqs(Buffered(s), k);
    if q in l.data && s.src.positions[k] <= q < s.src.next[k] {
      var own := b[l.stale..];
      assert own + [] == own;
      ChainSplit(l.data, s.src.positions[k], own, [], s.src.next[k]);
      assert q in own && q in b;
      RecordOfSeq(Buffered(s), k, q);
    }
  }

  lemma {:induction false} RecordOfSeq(rs: seq<Record>, k: Stream, q: nat)
    requires q in Seqs(rs, k)
    ensures Record(k, q) in rs
  {
    if rs[0] != Record(k, q) {
      RecordOfSeq(rs[1..], k, q);
    }
  }

  /**
   After a crash anywhere, the reader restarts no later than an undelivered
   record exactly when the stream has a checkpoint or the configured start is
   not past the record: with a start at the tail and no checkpoint yet, what
   was written meanwhile is passed over.
   */
  lemma RestartReReadsUndelivered(steps: seq<Step>, s: System, k: Stream, d: set<nat>, fallback: nat, q: nat)
    requires Run(Start(), steps, s) && k in s.lives && fallback <= MAX_SEQ
    requires q in s.lives[k].data && s.lives[k].floor <= q && q !in s.lives[k].sent
    ensures Enabled(Apply(s, Crash), Ensure(k, d, fallback))
    ensures Apply(Apply(s, Crash), Ensure(k, d, fallback)).src.next[k] <= q <==> k in s.kv || fallback <= q
  {
    hide Run, Seqs;
    var s1 := Apply(s, Crash);
    assert Waiting(s1.src) == [];
    NoSeqs();
    assert s1.kv == s.kv;
    if k in s.kv {
      PersistedMeansDelivered(steps, s, k);
    }
  }

  /**
   Checkpoints take effect: when the finalizer of a marked epoch comes, with no
   crash and no finalizer of a later epoch before it, every stream that still
   has a reader and whose write succeeds has the position it had at the marker.
   */
  lemma CheckpointIsPersisted(s: System, e: nat, steps: seq<Step>, m: System, puts: set<Stream>, k: Stream)
    requires Enabled(s, Marker(e)) && Run(Apply(s, Marker(e)), steps, m)
    requires forall st | st in steps :: !st.Crash? && (st.Marker? || st.Finalizer? ==> st.epoch != e) && (st.Finalizer? ==> st.epoch < e)
    requires k in s.src.positions && k in m.src.positions && k in puts
    ensures k in Apply(m, Finalizer(e, puts)).kv && Apply(m, Finalizer(e, puts)).kv[k] == s.src.positions[k]
  {
    EpochStays(Apply(s, Marker(e)), e, steps, m);
    hide Run, Enabled, SentAt;
  }

  lemma {:induction false} EpochStays(s: System, e: nat, steps: seq<Step>, m: System)
    requires e in s.src.epochs && Run(s, steps, m)
    requires forall st | st in steps :: !st.Crash? && (st.Marker? || st.Finalizer? ==> st.epoch != e) && (st.Finalizer? ==> st.epoch < e)
    ensures e in m.src.epochs && m.src.epochs[e] == s.src.epochs[e]
    decreases |steps|
  {
    if steps != [] {
      EpochKept(s, e, steps[0]);
      hide Enabled, Apply;
      assert forall st | st in steps[1..] :: st in steps;
      EpochStays(Apply(s, steps[0]), e, steps[1..], m);
    }
  }

  lemma EpochKept(s: System, e: nat, st: Step)
    requires e in s.src.epochs
    requires !st.Crash? && (st.Marker? || st.Finalizer? ==> st.epoch != e) && (st.Finalizer? ==> st.epoch < e)
    ensures e in Apply(s, st).src.epochs && Apply(s, st).src.epochs[e] == s.src.epochs[e]
  {
    hide Begun, Sent, Passed, SentAt, PositionsOf, RecordEmitted, Tag, ToPersist;
  }

  /** Positions and persisted positions of a stream never go back, until the stream is pruned or the source crashes. */
  lemma PositionsNeverRegress(steps: seq<Step>, s: System, step: Step, k: Stream)
    requires Run(Start(), steps, s) && Enabled(s, step) && !(step.Prune? && k in step.ks)
    ensures k in s.kv ==> k in Apply(s, step).kv && s.kv[k] <= Apply(s, step).kv[k]
    ensures k in s.src.positions && !step.Crash? ==>
      k in Apply(s, step).src.positions && s.src.positions[k] <= Apply(s, step).src.positions[k]
  {
    hide Run, Inv, Apply, Enabled;
    ReachedIsGood(steps, s);
    if step.Finalizer? {
      FinalizerKeeps(s, step.epoch, step.puts);
    } else if k in s.kv {
      KvStays(s, step, k);
    }
    if k in s.src.positions && !step.Crash? {
      PositionStays(s, step, k);
    }
  }

  lemma KvStays(s: System, step: Step, k: Stream)
    requires k in s.kv && Enabled(s, step) && !step.Finalizer? && !(step.Prune? && k in step.ks)
    ensures k in Apply(s, step).kv && s.kv[k] == Apply(s, step).kv[k]
  {
    hide Begun, Passed, Sent, EnsureSource, PruneSource, ForwardSource, BeginSource, ReceiveSource, TakeSource, MarkSource, Harmless, Chain;
  }

  lemma PositionStays(s: System, step: Step, k: Stream)
    requires k in s.src.positions && Enabled(s, step) && !step.Crash? && !(step.Prune? && k in step.ks)
    ensures k in Apply(s, step).src.positions && s.src.positions[k] <= Apply(s, step).src.positions[k]
  {
    hide Begun, Passed, Sent, PositionsOf, Tag, ToPersist, DropEpochs, SentAt, Harmless, Chain;
  }

  // ---------------------------------------------------------------- when a re-created stream is safe

  /** The position and the persisted position of stream `k` cover only records that were delivered. */
  predicate StreamSound(s: System, k: Stream) {
    k in s.lives ==>
      && (k in s.src.positions ==> Sound(s.lives[k], s.src.positions[k], s.lives[k].sent))
      && (k in s.kv ==> Sound(s.lives[k], s.kv[k], s.lives[k].sent))
  }

  /** Whatever the re-created stream holds and whatever happens next, no position of it passes an undelivered record. */
  ghost predicate SafeToStart(s: System, k: Stream, fallback: nat) {
    forall d, more, t | Run(Apply(s, Ensure(k, d, fallback)), more, t) :: StreamSound(t, k)
  }

  /**
   The position update and the finalizer only ask whether the stream has a
   reader, so positions left by an earlier reader of a pruned and re-created
   stream act on the new one. In every reachable state, starting the stream is
   safe for all data and all continuations exactly when no such position lies
   past the start.
   */
  lemma RecreationExact(steps: seq<Step>, s: System, k: Stream, fallback: nat)
    requires Run(Start(), steps, s) && k !in s.src.positions && k !in s.lives && fallback <= MAX_SEQ
    ensures SafeToStart(s, k, fallback) <==> Harmless(s.src, k, StartOf(s.kv, k, fallback))
  {
    ReachedIsGood(steps, s);
    hide Run, Inv, Harmless, StreamSound, Apply;
    if Harmless(s.src, k, StartOf(s.kv, k, fallback)) {
      forall d, more, t | Run(Apply(s, Ensure(k, d, fallback)), more, t)
        ensures StreamSound(t, k)
      {
        EnsureKeeps(s, k, d, fallback);
        RunKeeps(Apply(s, Ensure(k, d, fallback)), more, t);
        GoodIsSound(t, k);
      }
    } else {
      var more, t := LeftoverSkips(s, k, fallback);
    }
  }

  lemma GoodIsSound(s: System, k: Stream)
    requires Inv(s)
    ensures StreamSound(s, k)
  {
    hide OutInv, EpochsInv, LogInv, Chain, Seqs;
    if k in s.src.positions {
      assert RunningOk(s, k);
    }
  }

  /** A stream whose only record is at its start, undelivered, with nothing but stale records buffered. */
  predicate OnlyStale(s: System, k: Stream, start: nat) {
    && k in s.src.positions && k in s.lives
    && s.lives[k].data == {start} && s.lives[k].floor == start && s.lives[k].sent == {}
    && |Seqs(Buffered(s), k)| <= s.lives[k].stale
  }

  /** The stream stays so while stale records are taken, delivered and counted. */
  lemma StaleStays(s: System, step: Step, k: Stream, start: nat)
    requires OnlyStale(s, k, start) && Enabled(s, step) && (step.Deliver? || step.Begin? || step.Receive? || step.Take?)
    ensures OnlyStale(Apply(s, step), k, start)
    ensures s.src.positions[k] <= Apply(s, step).src.positions[k]
  {
    hide Seqs, PositionsOf, Flatten;
    SeqsConcat(s.out, Waiting(s.src), k);
    match step {
      case Deliver => assert Buffered(Apply(s, step)) == Buffered(s);
      case Begin => NoSeqs(); assert Buffered(Apply(s, step)) == Waiting(s.src);
      case Receive => ReceiveBuffered(s);
      case Take(n) => TakeBuffered(s, n);
    }
  }

  lemma PastStartIsUnsound(s: System, k: Stream, start: nat)
    requires OnlyStale(s, k, start) && s.src.positions[k] > start
    ensures !StreamSound(s, k)
  {
    assert start in s.lives[k].data;
  }

  /** Otherwise a leftover position comes to stand for a record that was never delivered. */
  lemma LeftoverSkips(s: System, k: Stream, fallback: nat) returns (more: seq<Step>, t: System)
    requires k !in s.src.positions && k !in s.lives && !Harmless(s.src, k, StartOf(s.kv, k, fallback))
    ensures Run(Apply(s, Ensure(k, {StartOf(s.kv, k, fallback)}, fallback)), more, t) && !StreamSound(t, k)
  {
    var start := StartOf(s.kv, k, fallback);
    var s1 := Apply(s, Ensure(k, {start}, fallback));
    assert OnlyStale(s1, k, start) && s1.src == EnsureSource(s.src, k, start) by { hide Harmless, Seqs; }
    if e :| e in s.src.epochs && k in s.src.epochs[e] && s.src.epochs[e][k] > start {
      more, t := SnapshotSkips(s1, k, start, e);
    } else {
      more, t := StaleCounted(s1, [], s1, k, start);
      if !(k in s.src.pending && s.src.pending[k] > start) {
        var q :| q in Seqs(Waiting(s.src), k) && Next(q) > start;
        more, t := WaitingSkips(s1, more, t, k, start, q);
      }
    }
  }

  lemma SnapshotSkips(s: System, k: Stream, start: nat, e: nat) returns (more: seq<Step>, t: System)
    requires OnlyStale(s, k, start) && e in s.src.epochs && k in s.src.epochs[e] && s.src.epochs[e][k] > start
    ensures Run(s, more, t) && !StreamSound(t, k)
  {
    hide Seqs;
    t := Apply(s, Finalizer(e, {k}));
    RunThen(s, [], s, Finalizer(e, {k}));
    more := [] + [Finalizer(e, {k})];
    assert t.kv[k] == s.src.epochs[e][k] && start in t.lives[k].data;
  }

  /** The batch returned last is delivered and counted. */
  lemma StaleCounted(s0: System, steps: seq<Step>, s: System, k: Stream, start: nat) returns (more: seq<Step>, t: System)
    requires Run(s0, steps, s) && OnlyStale(s, k, start)
    ensures Run(s0, more, t) && OnlyStale(t, k, start) && t.out == [] && Waiting(t.src) == Waiting(s.src)
    ensures k in s.src.pending && s.src.pending[k] > start ==> !StreamSound(t, k)
  {
    hide Run, Seqs, Sent, Passed;
    var s1 := Apply(s, Deliver);
    t := Apply(s1, Begin);
    StaleStays(s, Deliver, k, start);
    StaleStays(s1, Begin, k, start);
    RunThen(s0, steps, s, Deliver);
    RunThen(s0, steps + [Deliver], s1, Begin);
    more := steps + [Deliver] + [Begin];
    if k in s.src.pending && s.src.pending[k] > start {
      PastStartIsUnsound(t, k, start);
    }
  }

  /** A waiting record is received, taken as the last of a batch, delivered and counted. */
  lemma WaitingSkips(s0: System, steps: seq<Step>, s: System, k: Stream, start: nat, q: nat) returns (more: seq<Step>, t: System)
    requires Run(s0, steps, s) && OnlyStale(s, k, start) && s.out == []
    requires q in Seqs(Waiting(s.src), k) && Next(q) > start
    ensures Run(s0, more, t) && !StreamSound(t, k)
  {
    hide Run, OnlyStale, Waiting, StreamSound, Sent, Passed;
    more, t := AllReceived(s0, steps, s, k, start);
    RecordOfSeq(t.src.carry, k, q);
    var i :| 0 <= i < |t.src.carry| && t.src.carry[i] == Record(k, q);
    StaleStays(t, Take(i + 1), k, start);
    RunThen(s0, more, t, Take(i + 1));
    var u := Apply(t, Take(i + 1));
    assert u.src.pending == PositionsOf(u.out) && u.out == t.src.carry[..i + 1];
    LastDecides(u.out, k, q);
    hide Apply, PositionsOf, Seqs;
    more, t := StaleCounted(s0, more + [Take(i + 1)], u, k, start);
  }

  lemma LastDecides(rs: seq<Record>, k: Stream, q: nat)
    requires rs != [] && rs[|rs| - 1] == Record(k, q)
    ensures k in PositionsOf(rs) && PositionsOf(rs)[k] == Next(q)
  {
    var n := |rs| - 1;
    assert rs == rs[..n] + [rs[n]] && [rs[n]][1..] == [];
    SeqsConcat(rs[..n], [rs[n]], k);
    assert Seqs([rs[n]], k) == [q] + Seqs([], k) == [q];
    PositionOfStream(rs, k);
  }

  lemma {:induction false} AllReceived(s0: System, steps: seq<Step>, s: System, k: Stream, start: nat) returns (more: seq<Step>, t: System)
    requires Run(s0, steps, s) && OnlyStale(s, k, start) && s.out == []
    ensures Run(s0, more, t) && OnlyStale(t, k, start) && t.out == [] && t.src.carry == Waiting(s.src)
    decreases |s.src.channel|
  {
    hide Run, OnlyStale, Seqs;
    if s.src.channel == [] {
      more, t := steps, s;
      assert s.src.carry + [] == s.src.carry;
    } else {
      StaleStays(s, Receive, k, start);
      RunThen(s0, steps, s, Receive);
      ReceiveBuffered(s);
      more, t := AllReceived(s0, steps + [Receive], Apply(s, Receive), k, start);
    }
  }

  // ---------------------------------------------------------------- a checkpoint that outlives its stream

  /** Every record from `from` on that the reader has passed is delivered or buffered. */
  ghost predicate Covered(s: System, k: Stream, from: nat) {
    k in s.lives && k in s.src.next ==> forall q | q in s.lives[k].data && from <= q < s.src.next[k] :: Held(s, k, q)
  }

  predicate NeverPruned(steps: seq<Step>, k: Stream) {
    forall i | 0 <= i < |steps| && steps[i].Prune? :: k !in steps[i].ks
  }

  /**
   When the removal of a pruned stream's checkpoint fails, a re-created stream
   starts from the old position. In every continuation its records from the
   configured start on are covered exactly when it has none between the two.
   */
  lemma KeptCheckpointExact(steps: seq<Step>, s: System, k: Stream, d: set<nat>, fallback: nat)
    requires Run(Start(), steps, s) && k !in s.lives && k in s.kv && Enabled(s, Ensure(k, d, fallback))
    ensures (forall more, t | Run(Apply(s, Ensure(k, d, fallback)), more, t) && NeverPruned(more, k) :: Covered(t, k, fallback))
      <==> (forall q | q in d && fallback <= q :: s.kv[k] <= q)
  {
    var s1 := Apply(s, Ensure(k, d, fallback));
    assert s1.lives[k].data == d && s1.lives[k].floor == s.kv[k] && s1.kv == s.kv && s1.lives[k].sent == {}
      && s1.src.next[k] == s.kv[k] by { hide Seqs, Harmless, Run; }
    assert Fresh(Seqs(Buffered(s1), k), s1.lives[k].stale) == [] by { hide Seqs, Harmless, Run; }
    RunThen(Start(), steps, s, Ensure(k, d, fallback));
    if forall q | q in d && fallback <= q :: s.kv[k] <= q {
      forall more, t | Run(s1, more, t) && NeverPruned(more, k)
        ensures Covered(t, k, fallback)
      {
        hide Apply, Enabled, Held;
        LifeStays(s1, more, t, k);
        RunsJoin(Start(), steps + [Ensure(k, d, fallback)], s1, more, t);
        if k in t.lives && k in t.src.next {
          RunsHaveNext(steps + [Ensure(k, d, fallback)] + more, t, k);
          forall q | q in t.lives[k].data && fallback <= q < t.src.next[k]
            ensures Held(t, k, q)
          {
            NothingIsSkipped(steps + [Ensure(k, d, fallback)] + more, t, k, q);
          }
        }
      }
    } else {
      var q :| q in d && fallback <= q && q < s.kv[k];
      assert !Held(s1, k, q);
      assert Run(s1, [], s1) && NeverPruned([], k) && !Covered(s1, k, fallback);
    }
  }

  /**
   The kept checkpoint is harmless whatever the re-created stream holds exactly
   when it does not lie past the configured start.
   */
  lemma KeptCheckpointIsSafe(steps: seq<Step>, s: System, k: Stream, fallback: nat)
    requires Run(Start(), steps, s) && k !in s.lives && k in s.kv && Enabled(s, Ensure(k, {}, fallback))
    ensures (forall d, more, t | Run(Apply(s, Ensure(k, d, fallback)), more, t) && NeverPruned(more, k) :: Covered(t, k, fallback))
      <==> s.kv[k] <= fallback
  {
    hide *;
    if s.kv[k] <= fallback {
      forall d, more, t | Run(Apply(s, Ensure(k, d, fallback)), more, t) && NeverPruned(more, k)
        ensures Covered(t, k, fallback)
      {
        EnsureIgnoresData(s, k, d, fallback);
        KeptCheckpointExact(steps, s, k, d, fallback);
      }
    } else {
      EnsureIgnoresData(s, k, {fallback}, fallback);
      KeptCheckpointExact(steps, s, k, {fallback}, fallback);
    }
  }

  lemma EnsureIgnoresData(s: System, k: Stream, d: set<nat>, fallback: nat)
    requires Enabled(s, Ensure(k, {}, fallback))
    ensures Enabled(s, Ensure(k, d, fallback))
  {
    hide Harmless;
  }

  lemma RunsHaveNext(steps: seq<Step>, s: System, k: Stream)
    requires Run(Start(), steps, s) && k in s.src.next
    ensures k in s.src.positions
  {
    hide Run;
    ReachedIsGood(steps, s);
  }

  lemma {:induction false} RunsJoin(s0: System, a: seq<Step>, s: System, b: seq<Step>, t: System)
    requires Run(s0, a, s) && Run(s, b, t)
    ensures Run(s0, a + b, t)
    decreases |a|
  {
    hide Enabled, Apply;
    if a == [] {
      assert a + b == b;
    } else {
      RunsJoin(Apply(s0, a[0]), a[1..], s, b, t);
      assert (a + b)[0] == a[0] && (a + b)[1..] == a[1..] + b;
    }
  }

  /** Without pruning, a stream with a checkpoint stays the same incarnation. */
  lemma {:induction false} LifeStays(s: System, more: seq<Step>, t: System, k: Stream)
    requires Run(s, more, t) && NeverPruned(more, k) && k in s.lives && k in s.kv
    ensures k in t.lives && k in t.kv && t.lives[k].data == s.lives[k].data && t.lives[k].floor == s.lives[k].floor
    decreases |more|
  {
    if more != [] {
      var step := more[0];
      assert Enabled(s, step) && (step.Prune? ==> k !in step.ks && step.cleared <= step.ks);
      hide Enabled, Apply;
      LifeStep(s, step, k);
      assert NeverPruned(more[1..], k) by {
        assert forall i | 0 <= i < |more[1..]| :: more[1..][i] == more[i + 1];
      }
      LifeStays(Apply(s, more[0]), more[1..], t, k);
    }
  }

  lemma LifeStep(s: System, step: Step, k: Stream)
    requires k in s.lives && k in s.kv && (step.Prune? ==> k !in step.ks && step.cleared <= step.ks)
    ensures var t := Apply(s, step);
      k in t.lives && k in t.kv && t.lives[k].data == s.lives[k].data && t.lives[k].floor == s.lives[k].floor
  {
    hide Seqs, Flatten, PositionsOf, Fresh, BeginSource, ReceiveSource, TakeSource, ForwardSource, ToPersist;
    match step {
      case Ensure(_, _, _) =>
      case Begin =>
      case Deliver =>
      case Finalizer(_, _) =>
      case Prune(_, _) =>
      case Crash =>
      case _ =>
    }
  }

  // ---------------------------------------------------------------- such leftovers do arise

  /** Stream 7 is read and marked, then pruned before the finalizer comes: a snapshot is left and nothing else. */
  lemma StaleSnapshotLosesRecords() returns (steps: seq<Step>, s: System)
    ensures Run(Start(), steps, s) && s.src == Start().src.(epochs := map[1 := map[7 := 6]]) && s.out == [] && s.kv == map[]
    ensures !SafeToStart(s, 7, 0)
  {
    hide Run, SafeToStart;
    steps, s := OneRecordMarked();
    RunThen(Start(), steps, s, Prune({7}, {7}));
    steps, s := steps + [Prune({7}, {7})], Apply(s, Prune({7}, {7}));
    assert s.src == Source(map[], map[], [], [], map[], map[1 := map[7 := 6]]) && s.lives == map[] && s.kv == map[];
    RecreationExact(steps, s, 7, 0);
    assert s.src.epochs[1][7] == 6;
  }

  lemma OneRecordMarked() returns (steps: seq<Step>, s: System)
    ensures Run(Start(), steps, s) && s.src == Source(map[7 := 6], map[7 := 6], [], [], map[], map[1 := map[7 := 6]])
    ensures s.kv == map[] && s.out == [] && s.lives == map[7 := Life({5}, 0, {5}, 0)]
  {
    hide Run;
    steps, s := OneRecordDelivered();
    RunThen(Start(), steps, s, Begin);
    steps, s := steps + [Begin], Apply(s, Begin);
    assert s.src.positions == map[7 := 6] && s.lives == map[7 := Life({5}, 0, {5}, 0)];
    RunThen(Start(), steps, s, Marker(1));
    steps, s := steps + [Marker(1)], Apply(s, Marker(1));
  }

  /** It is pruned while its last batch is not counted yet: a pending position is left. */
  lemma StalePendingLosesRecords() returns (steps: seq<Step>, s: System)
    ensures Run(Start(), steps, s) && s.src == Start().src.(pending := map[7 := 6]) && s.kv == map[]
    ensures !SafeToStart(s, 7, 0)
  {
    hide Run, SafeToStart;
    steps, s := OneRecordDelivered();
    RunThen(Start(), steps, s, Prune({7}, {7}));
    steps, s := steps + [Prune({7}, {7})], Apply(s, Prune({7}, {7}));
    assert s.src == Source(map[], map[], [], [], map[7 := 6], map[]) && s.lives == map[] && s.kv == map[];
    RecreationExact(steps, s, 7, 0);
  }

  /** It is pruned while a record of it waits in the channel. */
  lemma StaleRecordLosesRecords() returns (steps: seq<Step>, s: System)
    ensures Run(Start(), steps, s) && s.src == Start().src.(channel := [[Record(7, 5)]]) && s.out == [] && s.kv == map[]
    ensures !SafeToStart(s, 7, 0)
  {
    hide Run, SafeToStart;
    steps, s := OneRecordForwarded();
    RunThen(Start(), steps, s, Prune({7}, {7}));
    steps, s := steps + [Prune({7}, {7})], Apply(s, Prune({7}, {7}));
    assert s.src == Source(map[], map[], [[Record(7, 5)]], [], map[], map[]) && s.lives == map[] && s.kv == map[];
    RecreationExact(steps, s, 7, 0);
    FlattenAppend([], [Record(7, 5)]);
    assert [] + [[Record(7, 5)]] == [[Record(7, 5)]];
    assert Waiting(s.src) == [Record(7, 5)];
    OneRecord();
  }

  /** Its position is persisted and it is pruned, but the removal of the checkpoint fails: record 0 of the next incarnation is skipped. */
  lemma KeptCheckpointSkipsRecords() returns (steps: seq<Step>, s: System)
    ensures Run(Start(), steps, s) && s.kv == map[7 := 6] && 7 !in s.lives && Enabled(s, Ensure(7, {0}, 0))
    ensures !Covered(Apply(s, Ensure(7, {0}, 0)), 7, 0)
  {
    hide Run;
    steps, s := OneRecordPersisted();
    RunThen(Start(), steps, s, Prune({7}, {}));
    steps, s := steps + [Prune({7}, {})], Apply(s, Prune({7}, {}));
    assert s.src == Source(map[], map[], [], [], map[], map[]) && s.lives == map[] && s.kv == map[7 := 6];
    assert Buffered(s) == [];
    hide Flatten, PositionsOf;
    var s1 := Apply(s, Ensure(7, {0}, 0));
    assert s1.lives[7] == Life({0}, 6, {}, 0) && Buffered(s1) == [];
    assert !Held(s1, 7, 0);
  }

  lemma OneRecordPersisted() returns (steps: seq<Step>, s: System)
    ensures Run(Start(), steps, s) && s.src == Source(map[7 := 6], map[7 := 6], [], [], map[], map[])
    ensures s.kv == map[7 := 6] && s.out == [] && s.lives.Keys == {7}
  {
    hide Run;
    steps, s := OneRecordMarked();
    RunThen(Start(), steps, s, Finalizer(1, {7}));
    FinalizedOne(s);
    steps, s := steps + [Finalizer(1, {7})], Apply(s, Finalizer(1, {7}));
  }

  lemma FinalizedOne(s: System)
    requires s.src.epochs == map[1 := map[7 := 6]] && s.src == Source(map[7 := 6], map[7 := 6], [], [], map[], s.src.epochs)
    requires s.kv == map[] && s.out == [] && s.lives.Keys == {7}
    ensures var s' := Apply(s, Finalizer(1, {7}));
      s'.src == s.src.(epochs := map[]) && s'.kv == map[7 := 6] && s'.out == [] && s'.lives.Keys == {7}
  {
    assert ToPersist(s.src, 1) == map[7 := 6];
    assert DropEpochs(s.src.epochs, 1) == map[];
    hide ToPersist, DropEpochs, SentAt;
  }

  lemma OneRecord()
    ensures Seqs([Record(7, 5)], 7) == [5] && StreamsOf([Record(7, 5)]) == {7} && PositionsOf([Record(7, 5)]) == map[7 := 6]
  {
    var rs := [Record(7, 5)];
    assert rs[1..] == [] && rs[0].stream == 7;
    assert Seqs(rs, 7) == [5];
  }

  lemma OneRecordDelivered() returns (steps: seq<Step>, s: System)
    ensures Run(Start(), steps, s) && s.src == Source(map[7 := 0], map[7 := 6], [], [], map[7 := 6], map[])
    ensures s.kv == map[] && s.out == [Record(7, 5)] && s.delivered && s.lives == map[7 := Life({5}, 0, {5}, 0)]
  {
    hide Run;
    steps, s := OneRecordTaken();
    RunThen(Start(), steps, s, Deliver);
    steps, s := steps + [Deliver], Apply(s, Deliver);
    OneRecord();
    assert Fresh([5], 0) == [5];
    assert s.lives[7].sent == {5};
  }

  lemma OneRecordTaken() returns (steps: seq<Step>, s: System)
    ensures Run(Start(), steps, s) && s.src == Source(map[7 := 0], map[7 := 6], [], [], map[7 := 6], map[])
    ensures s.kv == map[] && s.out == [Record(7, 5)] && s.lives == map[7 := Life({5}, 0, {}, 0)]
  {
    hide Run;
    steps, s := OneRecordForwarded();
    RunThen(Start(), steps, s, Receive);
    steps, s := steps + [Receive], Apply(s, Receive);
    assert s.src == Source(map[7 := 0], map[7 := 6], [], [Record(7, 5)], map[], map[]);
    RunThen(Start(), steps, s, Take(1));
    OneRecord();
    assert [Record(7, 5)][..1] == [Record(7, 5)] && [Record(7, 5)][1..] == [];
    hide PositionsOf;
    steps, s := steps + [Take(1)], Apply(s, Take(1));
  }

  lemma OneRecordForwarded() returns (steps: seq<Step>, s: System)
    ensures Run(Start(), steps, s) && s.src == Source(map[7 := 0], map[7 := 6], [[Record(7, 5)]], [], map[], map[])
    ensures s.kv == map[] && s.out == [] && s.lives == map[7 := Life({5}, 0, {}, 0)]
  {
    var s0 := Start();
    assert Buffered(s0) == [] && Waiting(s0.src) == [];
    RunThen(s0, [], s0, Ensure(7, {5}, 0));
    steps, s := [] + [Ensure(7, {5}, 0)], Apply(s0, Ensure(7, {5}, 0));
    hide Run;
    assert [5][1..] == [];
    assert Chain({5}, 0, [5], 6);
    RunThen(s0, steps, s, Forward(7, [5]));
    assert Tag(7, [5]) == [Record(7, 5)];
    steps, s := steps + [Forward(7, [5])], Apply(s, Forward(7, [5]));
  }

  lemma {:induction false} RunThen(s0: System, steps: seq<Step>, s: System, step: Step)
    requires Run(s0, steps, s) && Enabled(s, step)
    ensures Run(s0, steps + [step], Apply(s, step))
    decreases |steps|
  {
    hide Enabled, Apply;
    if steps == [] {
      assert (steps + [step])[1..] == [];
    } else {
      RunThen(Apply(s0, steps[0]), steps[1..], s, step);
      assert (steps + [step])[0] == steps[0] && (steps + [step])[1..] == steps[1..] + [step];
    }
  }
}
