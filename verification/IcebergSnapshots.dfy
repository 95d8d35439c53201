/**
 The parent chain of an Iceberg table: the walk that lists the unread
 snapshots, and the chain it must equal.
 */
module IcebergSnapshots {
  import opened Wrappers

  type SnapshotId = int

  datatype Operation = Append | Replace | Overwrite | Delete

  /** `rank` is the sequence number: a parent's is smaller, so ancestry is well founded. */
  datatype Snapshot = Snapshot(id: SnapshotId, parent: Option<SnapshotId>, op: Operation, rank: nat)

  datatype Metadata = Metadata(snapshots: map<SnapshotId, Snapshot>, current: Option<SnapshotId>)

  datatype Error = Expired(id: SnapshotId) | Broken(missing: SnapshotId) | NotAncestor(last: SnapshotId) | NonAppend(id: SnapshotId)

  ghost predicate WellFormed(md: Metadata) {
    && (forall id | id in md.snapshots :: md.snapshots[id].id == id)
    && (forall id | id in md.snapshots && md.snapshots[id].parent.Some? && md.snapshots[id].parent.value in md.snapshots ::
          md.snapshots[md.snapshots[id].parent.value].rank < md.snapshots[id].rank)
    && (md.current.Some? ==> md.current.value in md.snapshots)
  }

  function Get(md: Metadata, id: SnapshotId): (s: Snapshot)
    requires WellFormed(md) && id in md.snapshots
    ensures s == md.snapshots[id] && s.id == id
  {
    md.snapshots[id]
  }

  function BrokenChain(md: Metadata, last: Option<SnapshotId>, missing: SnapshotId): Error {
    if last.Some? && last.value !in md.snapshots then Expired(last.value) else Broken(missing)
  }

  function NotAnAncestor(md: Metadata, last: SnapshotId): Error {
    if last !in md.snapshots then Expired(last) else NotAncestor(last)
  }

  /**
   Reference meaning: `chain` is the line of parents, oldest first, from just
   after `last`, or the whole line without a `last`, to the current snapshot.
   */
  ghost predicate IsAncestry(md: Metadata, last: Option<SnapshotId>, chain: seq<Snapshot>) {
    if chain == [] then md.current == last
    else
      && md.current == Some(chain[|chain| - 1].id)
      && (forall i | 0 <= i < |chain| :: chain[i].id in md.snapshots && md.snapshots[chain[i].id] == chain[i])
      && (forall i | 0 <= i < |chain| :: Some(chain[i].id) != last)
      && (forall i | 0 < i < |chain| :: chain[i].parent == Some(chain[i - 1].id))
      && chain[0].parent == last
  }

  /** The walk itself, newest snapshot first. */
  function Walk(md: Metadata, s: Snapshot, last: Option<SnapshotId>): Result<seq<Snapshot>, Error>
    requires WellFormed(md) && s.id in md.snapshots && md.snapshots[s.id] == s
    decreases s.rank
  {
    if Some(s.id) == last then Ok([])
    else match s.parent
      case None => if last.None? then Ok([s]) else Err(NotAnAncestor(md, last.value))
      case Some(p) =>
        if Some(p) == last then Ok([s])
        else if p !in md.snapshots then Err(BrokenChain(md, last, p))
        else match Walk(md, Get(md, p), last)
          case Err(e) => Err(e)
          case Ok(chain) => Ok([s] + chain)
  }

  function Reverse<T>(s: seq<T>): (r: seq<T>)
    ensures |r| == |s| && forall i | 0 <= i < |s| :: r[i] == s[|s| - 1 - i]
  {
    if s == [] then [] else Reverse(s[1..]) + [s[0]]
  }

  function Since(md: Metadata, last: Option<SnapshotId>): Result<seq<Snapshot>, Error>
    requires WellFormed(md)
  {
    match md.current
    case None => if last.None? then Ok([]) else Err(NotAnAncestor(md, last.value))
    case Some(id) =>
      match Walk(md, Get(md, id), last)
      case Err(e) => Err(e)
      case Ok(chain) => Ok(Reverse(chain))
  }

  method SnapshotsSince(md: Metadata, last: Option<SnapshotId>) returns (r: Result<seq<Snapshot>, Error>)
    requires WellFormed(md)
    ensures r == Since(md, last)
  {
    if md.current.None? {
      return if last.None? then Ok([]) else Err(NotAnAncestor(md, last.value));
    }
    var chain := [];
    var snapshot := Get(md, md.current.value);
    ghost var whole := Walk(md, snapshot, last);
    assert whole.Ok? ==> chain + whole.value == whole.value;
    assert Continues(md, snapshot, last, chain, whole);
    hide Walk, Continues;
    while true
      invariant snapshot.id in md.snapshots && md.snapshots[snapshot.id] == snapshot
      invariant Continues(md, snapshot, last, chain, whole)
      decreases snapshot.rank
    {
      WalkStops(md, snapshot, last, chain, whole);
      if Some(snapshot.id) == last {
        break;
      }
      match snapshot.parent {
        case Some(parent) =>
          if Some(parent) == last {
            chain := chain + [snapshot];
            break;
          }
          if parent !in md.snapshots {
            return Err(BrokenChain(md, last, parent));
          }
          WalkGoesOn(md, snapshot, last, chain, whole);
          chain := chain + [snapshot];
          snapshot := Get(md, parent);
        case None =>
          if last.None? {
            chain := chain + [snapshot];
            break;
          }
          return Err(NotAnAncestor(md, last.value));
      }
    }
    r := Ok(Reverse(chain));
  }

  /** After `chain`, the rest of the walk is the walk from `s`. */
  ghost predicate Continues(md: Metadata, s: Snapshot, last: Option<SnapshotId>, chain: seq<Snapshot>, whole: Result<seq<Snapshot>, Error>)
    requires WellFormed(md) && s.id in md.snapshots && md.snapshots[s.id] == s
  {
    match Walk(md, s, last)
    case Err(e) => whole == Err(e)
    case Ok(rest) => whole == Ok(chain + rest)
  }

  lemma WalkGoesOn(md: Metadata, s: Snapshot, last: Option<SnapshotId>, chain: seq<Snapshot>, whole: Result<seq<Snapshot>, Error>)
    requires WellFormed(md) && s.id in md.snapshots && md.snapshots[s.id] == s && Continues(md, s, last, chain, whole)
    requires Some(s.id) != last && s.parent.Some? && s.parent != last && s.parent.value in md.snapshots
    ensures Continues(md, Get(md, s.parent.value), last, chain + [s], whole)
  {
    var rest := Walk(md, Get(md, s.parent.value), last);
    if rest.Ok? {
      assert (chain + [s]) + rest.value == chain + ([s] + rest.value);
    }
  }

  lemma WalkStops(md: Metadata, s: Snapshot, last: Option<SnapshotId>, chain: seq<Snapshot>, whole: Result<seq<Snapshot>, Error>)
    requires WellFormed(md) && s.id in md.snapshots && md.snapshots[s.id] == s && Continues(md, s, last, chain, whole)
    ensures Some(s.id) == last ==> whole == Ok(chain)
    ensures Some(s.id) != last && s.parent == last ==> whole == Ok(chain + [s])
    ensures Some(s.id) != last && s.parent != last ==>
      match s.parent
      case None => whole == Err(NotAnAncestor(md, last.value))
      case Some(p) => p !in md.snapshots ==> whole == Err(BrokenChain(md, last, p))
  {
    assert chain + [] == chain;
  }

  /** Newest-first form of the reference meaning, from snapshot `s` down. */
  ghost predicate Descends(md: Metadata, s: Snapshot, last: Option<SnapshotId>, chain: seq<Snapshot>) {
    if chain == [] then last == Some(s.id)
    else
      && chain[0] == s
      && (forall i | 0 <= i < |chain| :: chain[i].id in md.snapshots && md.snapshots[chain[i].id] == chain[i] && Some(chain[i].id) != last)
      && (forall i | 0 < i < |chain| :: chain[i - 1].parent == Some(chain[i].id))
      && chain[|chain| - 1].parent == last
  }

  lemma {:induction false} WalkMeaning(md: Metadata, s: Snapshot, last: Option<SnapshotId>, chain: seq<Snapshot>)
    requires WellFormed(md) && s.id in md.snapshots && md.snapshots[s.id] == s
    ensures Walk(md, s, last) == Ok(chain) <==> Descends(md, s, last, chain)
    decreases s.rank
  {
    if Descends(md, s, last, chain) && chain != [] {
      assert |chain| > 1 ==> s.parent == Some(chain[1].id) && s.parent != last && chain[1].id in md.snapshots;
    }
    if Some(s.id) != last && s.parent.Some? && s.parent != last && s.parent.value in md.snapshots {
      var p := Get(md, s.parent.value);
      if chain != [] {
        WalkMeaning(md, p, last, chain[1..]);
        if Descends(md, s, last, chain) {
          assert |chain| > 1;
          assert chain[1].id == p.id;
          assert Descends(md, p, last, chain[1..]);
          assert chain == [s] + chain[1..];
        }
        if Walk(md, s, last) == Ok(chain) {
          assert Walk(md, p, last) == Ok(chain[1..]);
          assert chain[0] == s;
          assert forall i | 0 < i < |chain| :: chain[i] == chain[1..][i - 1];
        }
      }
    } else if chain != [] && Descends(md, s, last, chain) {
      assert chain == [s];
    }
  }

  /** The walk finds the ancestry exactly when there is one, and then it is the only one. */
  lemma SinceIsAncestry(md: Metadata, last: Option<SnapshotId>, chain: seq<Snapshot>)
    requires WellFormed(md)
    ensures Since(md, last) == Ok(chain) <==> IsAncestry(md, last, chain)
  {
    if md.current.Some? {
      var s := Get(md, md.current.value);
      var down := Reverse(chain);
      WalkMeaning(md, s, last, down);
      ReverseTwice(chain);
      assert Descends(md, s, last, down) <==> IsAncestry(md, last, chain) by {
        DescendsIsAncestry(md, s, last, chain);
      }
      if Since(md, last) == Ok(chain) {
        ReverseTwice(Walk(md, s, last).value);
      }
    }
  }

  lemma ReverseTwice<T>(s: seq<T>)
    ensures Reverse(Reverse(s)) == s
  {
    forall i | 0 <= i < |s|
      ensures Reverse(Reverse(s))[i] == s[i]
    {
    }
  }

  lemma DescendsIsAncestry(md: Metadata, s: Snapshot, last: Option<SnapshotId>, chain: seq<Snapshot>)
    requires WellFormed(md) && md.current == Some(s.id) && s.id in md.snapshots && md.snapshots[s.id] == s
    ensures Descends(md, s, last, Reverse(chain)) <==> IsAncestry(md, last, chain)
  {
    var down := Reverse(chain);
    var n := |chain|;
    if chain != [] {
      assert forall i | 0 <= i < n :: down[i] == chain[n - 1 - i] && chain[i] == down[n - 1 - i];
      if Descends(md, s, last, down) {
        forall i | 0 < i < n
          ensures chain[i].parent == Some(chain[i - 1].id)
        {
          assert down[n - i - 1].parent == Some(down[n - i].id);
        }
        assert chain[0] == down[n - 1] && chain[n - 1] == down[0];
        forall i | 0 <= i < n
          ensures chain[i].id in md.snapshots && md.snapshots[chain[i].id] == chain[i] && Some(chain[i].id) != last
        {
          assert chain[i] == down[n - 1 - i];
        }
        assert IsAncestry(md, last, chain);
      }
      if IsAncestry(md, last, chain) {
        forall i | 0 < i < n
          ensures down[i - 1].parent == Some(down[i].id)
        {
          assert chain[n - i].parent == Some(chain[n - i - 1].id);
        }
        assert chain[n - 1] == s && down[0] == s && down[n - 1] == chain[0];
        forall i | 0 <= i < n
          ensures down[i].id in md.snapshots && md.snapshots[down[i].id] == down[i] && Some(down[i].id) != last
        {
          assert down[i] == chain[n - 1 - i];
        }
        assert Descends(md, s, last, down);
      }
    }
  }

  lemma {:induction false} RanksGrow(md: Metadata, last: Option<SnapshotId>, chain: seq<Snapshot>, i: nat, j: nat)
    requires WellFormed(md) && IsAncestry(md, last, chain) && i < j < |chain|
    ensures chain[i].rank < chain[j].rank
    decreases j
  {
    assert chain[j].parent == Some(chain[j - 1].id);
    if i < j - 1 {
      RanksGrow(md, last, chain, i, j - 1);
    }
  }

  /** After snapshot `k` of the ancestry has been processed, the rest of the ancestry is what is left. */
  lemma SinceSuffix(md: Metadata, last: Option<SnapshotId>, chain: seq<Snapshot>, k: nat)
    requires WellFormed(md) && Since(md, last) == Ok(chain) && k < |chain|
    ensures Since(md, Some(chain[k].id)) == Ok(chain[k + 1..])
  {
    SinceIsAncestry(md, last, chain);
    var rest := chain[k + 1..];
    SinceIsAncestry(md, Some(chain[k].id), rest);
    if rest != [] {
      forall i | 0 <= i < |rest|
        ensures rest[i].id != chain[k].id
      {
        RanksGrow(md, last, chain, k, k + 1 + i);
      }
    }
  }

  /**
   `md'` only extends the ancestry of `md` beyond `last`: what is still to be
   read is kept and the old current snapshot is an ancestor of the new one.
   Snapshots already processed may have expired.
   */
  ghost predicate Extends(md: Metadata, md': Metadata, last: Option<SnapshotId>)
    requires WellFormed(md) && WellFormed(md')
  {
    && Since(md, last).Ok? && Since(md', md.current).Ok?
    && forall s | s in Since(md, last).value :: s.id in md'.snapshots && md'.snapshots[s.id] == s
  }

  lemma SinceExtends(md: Metadata, md': Metadata, last: Option<SnapshotId>)
    requires WellFormed(md) && WellFormed(md') && Extends(md, md', last)
    ensures Since(md', last) == Ok(Since(md, last).value + Since(md', md.current).value)
  {
    hide Since, WellFormed, IsAncestry;
    var a, b := Since(md, last).value, Since(md', md.current).value;
    SinceIsAncestry(md, last, a);
    SinceIsAncestry(md', md.current, b);
    JoinAncestry(md, md', last, a, b);
    SinceIsAncestry(md', last, a + b);
  }

  lemma JoinAncestry(md: Metadata, md': Metadata, last: Option<SnapshotId>, a: seq<Snapshot>, b: seq<Snapshot>)
    requires WellFormed(md) && WellFormed(md') && IsAncestry(md, last, a) && IsAncestry(md', md.current, b)
    requires forall s | s in a :: s.id in md'.snapshots && md'.snapshots[s.id] == s
    ensures IsAncestry(md', last, a + b)
  {
    if a == [] {
      assert a + b == b;
    } else if b == [] {
      assert a + b == a;
      assert forall i | 0 <= i < |a| :: a[i] in a;
    } else {
      var c := a + b;
      forall i | 0 <= i < |b|
        ensures Some(b[i].id) != last
      {
        NewerThanLast(md, md', last, a, b, i);
      }
      assert b[0].parent == Some(a[|a| - 1].id);
      forall i | 0 < i < |c|
        ensures c[i].parent == Some(c[i - 1].id)
      {
        if i > |a| {
          assert c[i] == b[i - |a|] && c[i - 1] == b[i - |a| - 1];
        }
      }
      assert forall i | 0 <= i < |a| :: a[i] in a;
      assert forall i | 0 <= i < |c| :: c[i].id in md'.snapshots && md'.snapshots[c[i].id] == c[i];
    }
  }

  lemma NewerThanLast(md: Metadata, md': Metadata, last: Option<SnapshotId>, a: seq<Snapshot>, b: seq<Snapshot>, i: nat)
    requires WellFormed(md) && WellFormed(md') && IsAncestry(md, last, a) && IsAncestry(md', md.current, b)
    requires forall s | s in a :: s.id in md'.snapshots && md'.snapshots[s.id] == s
    requires a != [] && i < |b|
    ensures Some(b[i].id) != last
  {
    var top := a[|a| - 1];
    assert top in a && a[0] in a;
    assert b[0].parent == Some(top.id);
    assert top.rank < b[0].rank;
    if i > 0 {
      RanksGrow(md', md.current, b, 0, i);
    }
    if |a| > 1 {
      RanksGrow(md, last, a, 0, |a| - 1);
    }
    if last.Some? && last.value in md'.snapshots {
      assert a[0].parent == last;
      assert md'.snapshots[last.value].rank < a[0].rank;
    }
  }

  datatype Policy = FailOnNonAppend | SkipNonAppend

  datatype Action = Read | Skip

  function Classify(s: Snapshot, policy: Policy): Result<Action, Error> {
    match s.op
    case Append => Ok(Read)
    case Replace => Ok(Skip)
    case _ => if policy == SkipNonAppend then Ok(Skip) else Err(NonAppend(s.id))
  }
}
