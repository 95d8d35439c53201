/**
 Deferred-ack bookkeeping of the Postgres CDC source.

 `Ledger` and `Shared` are the abstract values; the classes `AckLedger` and
 `SharedAck` update their fields in place and are proved to compute exactly the
 functions on those values that the protocol in `AckProtocol` is built from.
 */
module AckLedgers {

  /** A unit whose rows are all delivered, with the delivery position it was armed at. */
  datatype Armed<+A> = Armed(at: nat, ack: A)

  /** Rows delivered so far, units awaiting a covering checkpoint, and the position of each marker. */
  datatype Ledger<+A> = Ledger(emitted: nat, pending: seq<Armed<A>>, markers: map<nat, nat>) {

    /** Units are queued in arming order, never ahead of the delivery position. */
    ghost predicate Valid() {
      && (forall i, j | 0 <= i < j < |pending| :: pending[i].at <= pending[j].at)
      && (forall i | 0 <= i < |pending| :: pending[i].at <= emitted)
      && (forall e | e in markers :: markers[e] <= emitted)
    }
  }

  function NewLedger<A>(): Ledger<A> {
    Ledger(0, [], map[])
  }

  function RowsDelivered<A>(l: Ledger<A>, n: nat): Ledger<A> {
    l.(emitted := l.emitted + n)
  }

  function UnitCompleted<A>(l: Ledger<A>, ack: A): Ledger<A> {
    l.(pending := l.pending + [Armed(l.emitted, ack)])
  }

  function UnitsCompleted<A>(l: Ledger<A>, acks: seq<A>): (r: Ledger<A>)
    ensures r.emitted == l.emitted && r.markers == l.markers
    ensures r.pending == l.pending + seq(|acks|, i requires 0 <= i < |acks| => Armed(l.emitted, acks[i]))
    decreases |acks|
  {
    if acks == [] then l else UnitsCompleted(UnitCompleted(l, acks[0]), acks[1..])
  }

  function Marker<A>(l: Ledger<A>, epoch: nat): Ledger<A> {
    l.(markers := l.markers[epoch := l.emitted])
  }

  /** Number of leading units armed at or before `boundary`. */
  function Covered<A>(pending: seq<Armed<A>>, boundary: nat): (n: nat)
    ensures n <= |pending|
    ensures forall i | 0 <= i < n :: pending[i].at <= boundary
    ensures n < |pending| ==> pending[n].at > boundary
  {
    if pending == [] || pending[0].at > boundary then 0 else 1 + Covered(pending[1..], boundary)
  }

  function Finalize<A>(l: Ledger<A>, epoch: nat): (Ledger<A>, seq<A>) {
    if epoch !in l.markers then (l, [])
    else
      var n := Covered(l.pending, l.markers[epoch]);
      (l.(pending := l.pending[n..], markers := map e | e in l.markers && e > epoch :: l.markers[e]),
       seq(n, i requires 0 <= i < n => l.pending[i].ack))
  }

  /**
   Finalizing a marked epoch splits the queue exactly at the marker: what is
   released was armed at or before it and what stays was armed after it.
   */
  lemma FinalizeSplitsAtMarker<A>(l: Ledger<A>, epoch: nat)
    requires l.Valid() && epoch in l.markers
    ensures var (l', released) := Finalize(l, epoch);
      var boundary := l.markers[epoch];
      && l'.Valid() && l'.emitted == l.emitted
      && |released| + |l'.pending| == |l.pending|
      && (forall i | 0 <= i < |released| :: released[i] == l.pending[i].ack && l.pending[i].at <= boundary)
      && (forall i | 0 <= i < |l'.pending| :: l'.pending[i] == l.pending[|released| + i] && l'.pending[i].at > boundary)
  {
    var n := Covered(l.pending, l.markers[epoch]);
    forall i | n <= i < |l.pending|
      ensures l.pending[i].at > l.markers[epoch]
    {
      assert l.pending[n].at > l.markers[epoch];
      assert i > n ==> l.pending[n].at <= l.pending[i].at;
    }
  }

  /** A mutable ledger; `Model` is its abstract value. */
  class AckLedger<A(!new)> {
    var emitted: nat
    var pending: seq<Armed<A>>
    var markers: map<nat, nat>

    function Model(): Ledger<A>
      reads this
    {
      Ledger(emitted, pending, markers)
    }

    constructor ()
      ensures Model() == NewLedger()
    {
      emitted, pending, markers := 0, [], map[];
    }

    method DeliverRows(n: nat)
      modifies this`emitted
      ensures Model() == RowsDelivered(old(Model()), n)
    {
      emitted := emitted + n;
    }

    method CompleteUnit(ack: A)
      modifies this`pending
      ensures Model() == UnitCompleted(old(Model()), ack)
    {
      pending := pending + [Armed(emitted, ack)];
    }

    method MarkEpoch(epoch: nat)
      modifies this`markers
      ensures Model() == Marker(old(Model()), epoch)
    {
      markers := markers[epoch := emitted];
    }

    method FinalizeEpoch(epoch: nat) returns (released: seq<A>)
      modifies this`pending, this`markers
      ensures (Model(), released) == Finalize(old(Model()), epoch)
    {
      released := [];
      if epoch !in markers {
        return;
      }
      var boundary := markers[epoch];
      var later := map e | e in markers && e > epoch :: markers[e];
      markers := later;
      ghost var n := Covered(pending, boundary);
      while pending != [] && pending[0].at <= boundary
        invariant markers == later
        invariant |released| <= |old(pending)| && pending == old(pending)[|released|..]
        invariant |released| + Covered(pending, boundary) == n
        invariant forall i | 0 <= i < |released| :: released[i] == old(pending)[i].ack
        decreases |pending|
      {
        released := released + [pending[0].ack];
        pending := pending[1..];
      }
      assert released == Finalize(old(Model()), epoch).1;
    }
  }

  /**
   One etl write's ack shared by the subscribers it fed: whether the etl ack is
   still held, who has not released yet, and how often it has been sent.
   */
  datatype Shared = Shared(held: bool, pending: set<nat>, sent: nat)

  function FireIfDone(a: Shared): Shared {
    if a.pending == {} && a.held then a.(held := false, sent := a.sent + 1) else a
  }

  function NewShared(subscribers: set<nat>): Shared {
    FireIfDone(Shared(true, subscribers, 0))
  }

  function ReleaseSlice(a: Shared, source: nat): Shared {
    FireIfDone(a.(pending := a.pending - {source}))
  }

  /** The ack is sent once and only once nobody is pending. */
  ghost predicate FiresOnce(a: Shared) {
    && (a.pending == {} <==> a.sent == 1)
    && (a.pending != {} <==> a.sent == 0)
    && (a.held <==> a.sent == 0)
  }

  /** Whatever releases arrive, including repeats and strangers, the ack fires when the last pending slice is released and never again. */
  lemma {:induction false} SharedAckFiresOnce(subscribers: set<nat>, releases: seq<nat>)
    ensures var a := ReleaseAll(NewShared(subscribers), releases);
      FiresOnce(a) && a.pending == subscribers - (set r | r in releases)
  {
    if releases != [] {
      var k := |releases| - 1;
      SharedAckFiresOnce(subscribers, releases[..k]);
      assert releases == releases[..k] + [releases[k]];
      assert (set r | r in releases) == (set r | r in releases[..k]) + {releases[k]};
    } else {
      assert (set r | r in releases) == {};
    }
  }

  function ReleaseAll(a: Shared, releases: seq<nat>): Shared {
    if releases == [] then a
    else ReleaseSlice(ReleaseAll(a, releases[..|releases| - 1]), releases[|releases| - 1])
  }

  class SharedAck {
    var held: bool
    var pending: set<nat>
    var sent: nat

    function Model(): Shared
      reads this
    {
      Shared(held, pending, sent)
    }

    constructor (subscribers: set<nat>)
      ensures Model() == NewShared(subscribers)
    {
      held, pending, sent := true, subscribers, 0;
      new;
      Fire();
    }

    method Release(source: nat)
      modifies this
      ensures Model() == ReleaseSlice(old(Model()), source)
    {
      pending := pending - {source};
      Fire();
    }

    method Fire()
      modifies this
      ensures Model() == FireIfDone(old(Model()))
    {
      if pending == {} && held {
        held := false;
        sent := sent + 1;
      }
    }
  }
}
