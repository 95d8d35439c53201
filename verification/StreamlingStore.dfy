/**
 The operations of the etl store, its write-through rule, and its behaviour
 over failed writes and crashes.
 */
module StreamlingStores {
  import opened Wrappers
  import opened Collections
  import opened EtlStore

  // ---------------------------------------------------------------- schema versions

  /** The newest version at or before `id`, if there is one. */
  ghost predicate IsNewest(keys: set<SnapshotId>, id: SnapshotId, r: Option<SnapshotId>) {
    match r
    case None => forall k | k in keys :: !Le(k, id)
    case Some(m) => m in keys && Le(m, id) && forall k | k in keys && Le(k, id) :: Le(k, m)
  }

  lemma NewestIsUnique(keys: set<SnapshotId>, id: SnapshotId, a: Option<SnapshotId>, b: Option<SnapshotId>)
    requires IsNewest(keys, id, a) && IsNewest(keys, id, b)
    ensures a == b
  {
  }

  method FindNewest(keys: set<SnapshotId>, id: SnapshotId) returns (r: Option<SnapshotId>)
    ensures IsNewest(keys, id, r)
  {
    var order := Elements(keys);
    r := None;
    for i := 0 to |order|
      invariant r.None? ==> forall j | 0 <= j < i :: !Le(order[j], id)
      invariant r.Some? ==> r.value in keys && Le(r.value, id) && forall j | 0 <= j < i && Le(order[j], id) :: Le(order[j], r.value)
    {
      assert order[i] in keys;
      if Le(order[i], id) && (r.None? || Le(r.value, order[i])) {
        r := Some(order[i]);
      }
    }
    forall k | k in keys
      ensures exists j :: 0 <= j < |order| && order[j] == k
    {
      assert k in order;
    }
  }

  /** A version is obsolete when a newer one is still at or before the retention boundary. */
  predicate Obsolete(keys: set<SnapshotId>, boundary: SnapshotId, s: SnapshotId) {
    exists k :: k in keys && Le(k, boundary) && Lt(s, k)
  }

  function PruneVersions(versions: map<SnapshotId, TableSchema>, boundary: SnapshotId): map<SnapshotId, TableSchema> {
    map s | s in versions && !Obsolete(versions.Keys, boundary, s) :: versions[s]
  }

  function PruneAll(schemas: Schemas, retention: map<TableId, SnapshotId>): Schemas {
    map t | t in schemas :: if t in retention then PruneVersions(schemas[t], retention[t]) else schemas[t]
  }

  /** Some version at or before the boundary is the newest such, hence not obsolete. */
  lemma {:induction false} NewestSurvives(keys: set<SnapshotId>, boundary: SnapshotId, s: SnapshotId) returns (m: SnapshotId)
    requires s in keys && Le(s, boundary)
    ensures m in keys && Le(m, boundary) && Le(s, m) && !Obsolete(keys, boundary, m)
    decreases |Above(keys, s)|
  {
    if Obsolete(keys, boundary, s) {
      var k :| k in keys && Le(k, boundary) && Lt(s, k);
      FewerAbove(keys, s, k);
      m := NewestSurvives(keys, boundary, k);
    } else {
      m := s;
    }
  }

  ghost function Above(keys: set<SnapshotId>, s: SnapshotId): set<SnapshotId> {
    set k | k in keys && Lt(s, k)
  }

  lemma FewerAbove(keys: set<SnapshotId>, s: SnapshotId, k: SnapshotId)
    requires k in keys && Lt(s, k)
    ensures |Above(keys, k)| < |Above(keys, s)|
  {
    var a, b := Above(keys, k), Above(keys, s);
    forall x | x in a
      ensures x in b && x != k
    {
    }
    Smaller(a, b, k);
  }

  lemma Smaller<T>(a: set<T>, b: set<T>, k: T)
    requires a <= b && k in b && k !in a
    ensures |a| < |b|
  {
    assert b == (b - a) + a && k in b - a;
    assert |b| == |b - a| + |a|;
    assert |{k} + ((b - a) - {k})| >= 1;
    assert {k} + ((b - a) - {k}) == b - a;
  }

  /** Pruning does not change any lookup at or after the retention boundary. */
  lemma PruneKeepsLookups(versions: map<SnapshotId, TableSchema>, boundary: SnapshotId, id: SnapshotId, r: Option<SnapshotId>)
    requires Le(boundary, id)
    ensures IsNewest(versions.Keys, id, r) <==> IsNewest(PruneVersions(versions, boundary).Keys, id, r)
    ensures IsNewest(versions.Keys, id, r) && r.Some? ==> PruneVersions(versions, boundary)[r.value] == versions[r.value]
  {
    var pruned := PruneVersions(versions, boundary);
    if IsNewest(pruned.Keys, id, r) {
      forall k | k in versions && Le(k, id)
        ensures r.Some? && Le(k, r.value)
      {
        if Obsolete(versions.Keys, boundary, k) {
          var k' :| k' in versions && Le(k', boundary) && Lt(k, k');
          var m := NewestSurvives(versions.Keys, boundary, k');
          assert m in pruned && Le(m, id);
        } else {
          assert k in pruned;
        }
      }
    }
    if IsNewest(versions.Keys, id, r) && r.Some? {
      assert r.value in pruned;
    }
  }

  /** Without a version at or before the boundary, and without a boundary, a table is untouched. */
  lemma PruneLeavesOthers(schemas: Schemas, retention: map<TableId, SnapshotId>, t: TableId)
    requires t in schemas && (t in retention ==> forall k | k in schemas[t] :: !Le(k, retention[t]))
    ensures PruneAll(schemas, retention)[t] == schemas[t]
  {
  }

  /** Versions of the tables in `order`. */
  function Count(schemas: Schemas, order: seq<TableId>): nat {
    if order == [] then 0
    else Count(schemas, order[..|order| - 1]) + |Versions(schemas, order[|order| - 1])|
  }

  ghost predicate Enumerates(order: seq<TableId>, schemas: Schemas) {
    && (forall t :: t in order <==> t in schemas)
    && (forall i, j | 0 <= i < j < |order| :: order[i] != order[j])
  }

  /** `prune_table_schemas`: the count is the number of versions removed over all tables. */
  method PruneSchemas(schemas: Schemas, retention: map<TableId, SnapshotId>) returns (pruned: Schemas, removed: int, ghost order: seq<TableId>)
    ensures pruned == PruneAll(schemas, retention)
    ensures Enumerates(order, schemas) && removed == Count(schemas, order) - Count(pruned, order)
  {
    hide PruneVersions, PruneSome, Count;
    var tables := Elements(schemas.Keys);
    order := tables;
    ghost var goal := PruneAll(schemas, retention);
    ghost var done: set<TableId> := {};
    pruned := schemas;
    removed := 0;
    NothingPruned(schemas, retention);
    assert Count(schemas, tables[..0]) == Count(goal, tables[..0]) == 0 by {
      NothingCounted(schemas);
      NothingCounted(goal);
    }
    for i := 0 to |tables|
      invariant done == set j | 0 <= j < i :: tables[j]
      invariant pruned == PruneSome(schemas, retention, done)
      invariant removed == Count(schemas, tables[..i]) - Count(goal, tables[..i])
    {
      var t := tables[i];
      assert t in schemas && t !in done;
      CountNext(schemas, tables, i);
      CountNext(goal, tables, i);
      PruneOne(schemas, retention, done, t);
      if t in retention {
        var kept := PruneTable(pruned[t], retention[t]);
        removed := removed + |pruned[t]| - |kept|;
        pruned := pruned[t := kept];
      }
      done := done + {t};
    }
    assert tables[..|tables|] == tables;
    AllPruned(schemas, retention, done, tables);
  }

  /** The tables in `done` are pruned. */
  function PruneSome(schemas: Schemas, retention: map<TableId, SnapshotId>, done: set<TableId>): Schemas {
    map t | t in schemas :: if t in done && t in retention then PruneVersions(schemas[t], retention[t]) else schemas[t]
  }

  lemma PruneOne(schemas: Schemas, retention: map<TableId, SnapshotId>, done: set<TableId>, t: TableId)
    requires t in schemas && t !in done
    ensures var some := PruneSome(schemas, retention, done);
      && t in some && some[t] == schemas[t]
      && PruneSome(schemas, retention, done + {t}) ==
         if t in retention then some[t := PruneVersions(schemas[t], retention[t])] else some
  {
    hide PruneVersions;
  }

  lemma NothingPruned(schemas: Schemas, retention: map<TableId, SnapshotId>)
    ensures PruneSome(schemas, retention, {}) == schemas
  {
  }

  lemma AllPruned(schemas: Schemas, retention: map<TableId, SnapshotId>, done: set<TableId>, tables: seq<TableId>)
    requires done == set j | 0 <= j < |tables| :: tables[j]
    requires forall t :: t in tables <==> t in schemas
    ensures PruneSome(schemas, retention, done) == PruneAll(schemas, retention)
  {
    hide PruneVersions;
    forall t | t in schemas
      ensures t in done
    {
      assert t in tables;
    }
  }

  lemma NothingCounted(schemas: Schemas)
    ensures Count(schemas, []) == 0
  {
  }

  lemma CountNext(schemas: Schemas, order: seq<TableId>, i: nat)
    requires i < |order|
    ensures Count(schemas, order[..i + 1]) == Count(schemas, order[..i]) + |Versions(schemas, order[i])|
  {
    assert order[..i + 1][..i] == order[..i];
  }

  /** Keeps the newest version at or before the boundary and everything newer; without one, everything. */
  method PruneTable(versions: map<SnapshotId, TableSchema>, boundary: SnapshotId) returns (kept: map<SnapshotId, TableSchema>)
    ensures kept == PruneVersions(versions, boundary)
  {
    var retained := FindNewest(versions.Keys, boundary);
    if retained.None? {
      kept := versions;
      assert forall s | s in versions :: !Obsolete(versions.Keys, boundary, s);
    } else {
      kept := map s | s in versions && Le(retained.value, s) :: versions[s];
      forall s | s in versions
        ensures Le(retained.value, s) <==> !Obsolete(versions.Keys, boundary, s)
      {
        if !Le(retained.value, s) {
          assert retained.value in versions.Keys && Lt(s, retained.value);
        }
      }
    }
  }

  // ---------------------------------------------------------------- operations on the cache

  datatype Op =
    | UpdateStates(updates: seq<(TableId, TableState)>)
    | Rollback(t: TableId)
    | UpsertCheckpoint(w: Worker, lsn: Lsn)
    | DeleteCheckpoint(w: Worker)
    | StoreDestination(t: TableId, d: Destination)
    | StoreSchema(s: TableSchema)
    | Prune(retention: map<TableId, SnapshotId>)
    | PrepareForCopy(t: TableId)
    | ResetForResync
    | Delete(t: TableId)

  datatype StoreError = NothingToRollBack | BackendFailed | Unreadable

  function HistoryOf(inner: Inner, t: TableId): seq<TableState> {
    if t in inner.history then inner.history[t] else []
  }

  /** The current state goes to the history before it is replaced. */
  function PushState(inner: Inner, t: TableId, s: TableState): Inner {
    var history := if t in inner.states then inner.history[t := HistoryOf(inner, t) + [inner.states[t]]] else inner.history;
    inner.(states := inner.states[t := s], history := history)
  }

  function PushAll(inner: Inner, updates: seq<(TableId, TableState)>): Inner {
    if updates == [] then inner
    else
      var n := |updates| - 1;
      PushState(PushAll(inner, updates[..n]), updates[n].0, updates[n].1)
  }

  const INITIAL := TableState(Init, 0)

  /** The tables in `done` are back at the initial state, their old state in the history. */
  function ResetSome(inner: Inner, done: set<TableId>): Inner
    requires done <= inner.states.Keys
  {
    inner.(
      states := map t | t in inner.states :: if t in done then INITIAL else inner.states[t],
      history := map t | t in inner.history.Keys + done :: HistoryOf(inner, t) + if t in done then [inner.states[t]] else [])
  }

  lemma ResetOne(inner: Inner, done: set<TableId>, t: TableId)
    requires done <= inner.states.Keys && t in inner.states && t !in done
    ensures PushState(ResetSome(inner, done), t, INITIAL) == ResetSome(inner, done + {t})
  {
    var a, b := PushState(ResetSome(inner, done), t, INITIAL), ResetSome(inner, done + {t});
    assert a.states == b.states;
    assert a.history.Keys == b.history.Keys;
    assert HistoryOf(inner, t) + [] == HistoryOf(inner, t);
    assert a.history == b.history;
  }

  function Reset(inner: Inner): Inner {
    ResetSome(inner, inner.states.Keys).(checkpoints := inner.checkpoints - {ApplyWorker})
  }

  /** What an operation makes of the cache. */
  function Effect(inner: Inner, op: Op): Result<Inner, StoreError> {
    match op
    case UpdateStates(updates) => Ok(PushAll(inner, updates))
    case Rollback(t) =>
      if HistoryOf(inner, t) == [] then Err(NothingToRollBack)
      else Ok(inner.(states := inner.states[t := Last(HistoryOf(inner, t))], history := inner.history[t := Front(HistoryOf(inner, t))]))
    case UpsertCheckpoint(w, lsn) =>
      if w in inner.checkpoints && lsn <= inner.checkpoints[w] then Ok(inner)
      else Ok(inner.(checkpoints := inner.checkpoints[w := lsn]))
    case DeleteCheckpoint(w) => Ok(inner.(checkpoints := inner.checkpoints - {w}))
    case StoreDestination(t, d) => Ok(inner.(destinations := inner.destinations[t := d]))
    case StoreSchema(s) => Ok(inner.(schemas := Insert(inner.schemas, s)))
    case Prune(retention) => Ok(inner.(schemas := PruneAll(inner.schemas, retention)))
    case PrepareForCopy(t) =>
      Ok(inner.(schemas := inner.schemas - {t}, destinations := inner.destinations - {t}, checkpoints := inner.checkpoints - {TableSync(t)}))
    case ResetForResync => Ok(Reset(inner))
    case Delete(t) =>
      Ok(Inner(inner.states - {t}, inner.history - {t}, inner.schemas - {t}, inner.destinations - {t}, inner.checkpoints - {TableSync(t)}))
  }

  // ---------------------------------------------------------------- what the operations do

  /** Everything a table has been, oldest first; the last is its current state, if it has one. */
  function Timeline(inner: Inner, t: TableId): seq<TableState> {
    HistoryOf(inner, t) + if t in inner.states then [inner.states[t]] else []
  }

  /** The states a list of updates gives to a table, in order. */
  function StatesFor(updates: seq<(TableId, TableState)>, t: TableId): seq<TableState> {
    if updates == [] then []
    else StatesFor(updates[..|updates| - 1], t) + if updates[|updates| - 1].0 == t then [updates[|updates| - 1].1] else []
  }

  ghost predicate SameBut<K(!new), V>(a: map<K, V>, b: map<K, V>, k: K) {
    forall x | x != k :: (x in b <==> x in a) && (x in a ==> b[x] == a[x])
  }

  /** An update appends exactly its states to every table's timeline and touches nothing else; an unknown table gets its first one. */
  lemma {:induction false} UpdateAppends(inner: Inner, updates: seq<(TableId, TableState)>, t: TableId)
    ensures var r := Effect(inner, UpdateStates(updates));
      && r.Ok? && Timeline(r.value, t) == Timeline(inner, t) + StatesFor(updates, t)
      && (t in r.value.states <==> t in inner.states || StatesFor(updates, t) != [])
      && r.value.schemas == inner.schemas && r.value.destinations == inner.destinations && r.value.checkpoints == inner.checkpoints
  {
    PushKeepsRest(inner, updates);
    PushAppends(inner, updates, t);
    hide PushAll, Reset, PruneAll, Insert, Timeline, StatesFor;
  }

  lemma {:induction false} PushAppends(inner: Inner, updates: seq<(TableId, TableState)>, t: TableId)
    ensures var r := PushAll(inner, updates);
      && Timeline(r, t) == Timeline(inner, t) + StatesFor(updates, t)
      && (t in r.states <==> t in inner.states || StatesFor(updates, t) != [])
  {
    if updates != [] {
      var n := |updates| - 1;
      PushAppends(inner, updates[..n], t);
      PushOneAppends(PushAll(inner, updates[..n]), updates[n].0, updates[n].1, t);
      Associate(Timeline(inner, t), StatesFor(updates[..n], t), if updates[n].0 == t then [updates[n].1] else []);
    } else {
      assert Timeline(inner, t) + [] == Timeline(inner, t);
    }
  }

  lemma PushOneAppends(inner: Inner, u: TableId, s: TableState, t: TableId)
    ensures Timeline(PushState(inner, u, s), t) == Timeline(inner, t) + if u == t then [s] else []
    ensures t in PushState(inner, u, s).states <==> t in inner.states || u == t
  {
  }

  /** The updated states are the last ones given. */
  lemma UpdateSetsLast(inner: Inner, updates: seq<(TableId, TableState)>, t: TableId)
    ensures var r := Effect(inner, UpdateStates(updates));
      && r.Ok?
      && (StatesFor(updates, t) != [] ==> t in r.value.states && r.value.states[t] == Last(StatesFor(updates, t)))
      && (StatesFor(updates, t) == [] ==>
            HistoryOf(r.value, t) == HistoryOf(inner, t) && (t in r.value.states <==> t in inner.states)
            && (t in inner.states ==> r.value.states[t] == inner.states[t]))
  {
    UpdateAppends(inner, updates, t);
    hide Effect, StatesFor;
    var r := Effect(inner, UpdateStates(updates)).value;
    if StatesFor(updates, t) != [] {
      assert Last(Timeline(r, t)) == Last(StatesFor(updates, t));
    } else {
      assert Timeline(r, t) == Timeline(inner, t);
      if t in inner.states {
        assert Front(Timeline(r, t)) == HistoryOf(r, t) && Front(Timeline(inner, t)) == HistoryOf(inner, t);
        assert Last(Timeline(r, t)) == r.states[t] && Last(Timeline(inner, t)) == inner.states[t];
      } else {
        assert Timeline(r, t) == HistoryOf(r, t) && Timeline(inner, t) == HistoryOf(inner, t);
      }
    }
  }

  /** A reset makes every known table start over, remembering its state, and forgets the apply worker's checkpoint. */
  lemma ResetStartsOver(inner: Inner)
    ensures var r := Effect(inner, ResetForResync);
      && r.Ok? && r.value.states.Keys == inner.states.Keys
      && (forall t | t in inner.states ::
            r.value.states[t].kind == Init && HistoryOf(r.value, t) == HistoryOf(inner, t) + [inner.states[t]])
      && (forall t | t !in inner.states :: HistoryOf(r.value, t) == HistoryOf(inner, t))
      && ApplyWorker !in r.value.checkpoints && SameBut(inner.checkpoints, r.value.checkpoints, ApplyWorker)
      && r.value.schemas == inner.schemas && r.value.destinations == inner.destinations
  {
    hide PushAll, PruneAll, Insert;
    forall t | t !in inner.states
      ensures HistoryOf(Reset(inner), t) == HistoryOf(inner, t)
    {
      assert HistoryOf(inner, t) + [] == HistoryOf(inner, t);
    }
  }

  /** A rollback needs a history; then its last state is the current one again, and nothing else changes. */
  lemma RollbackPopsOne(inner: Inner, t: TableId)
    ensures Effect(inner, Rollback(t)).Ok? <==> HistoryOf(inner, t) != []
    ensures HistoryOf(inner, t) != [] ==>
      var r := Effect(inner, Rollback(t)).value;
      && Timeline(r, t) == HistoryOf(inner, t) && t in r.states
      && SameBut(inner.states, r.states, t) && SameBut(inner.history, r.history, t)
      && r.schemas == inner.schemas && r.destinations == inner.destinations && r.checkpoints == inner.checkpoints
  {
    hide PushAll, PruneAll, Insert, Reset;
  }

  /** A destination and a schema version are stored as given, beside the others. */
  lemma StoresWhatWasGiven(inner: Inner, t: TableId, d: Destination, s: TableSchema)
    ensures var r := Effect(inner, StoreDestination(t, d));
      && r.Ok? && t in r.value.destinations && r.value.destinations[t] == d && SameBut(inner.destinations, r.value.destinations, t)
      && r.value == inner.(destinations := r.value.destinations)
    ensures var r := Effect(inner, StoreSchema(s));
      && r.Ok? && s.snapshot in Versions(r.value.schemas, s.id) && Versions(r.value.schemas, s.id)[s.snapshot] == s
      && SameBut(Versions(inner.schemas, s.id), Versions(r.value.schemas, s.id), s.snapshot)
      && SameBut(inner.schemas, r.value.schemas, s.id) && r.value == inner.(schemas := r.value.schemas)
  {
    hide PushAll, PruneAll, Reset;
  }

  /** A checkpoint is raised to the given position if that is greater, or removed; the others stay. */
  lemma CheckpointIsRaised(inner: Inner, w: Worker, lsn: Lsn)
    ensures var r := Effect(inner, UpsertCheckpoint(w, lsn));
      && r.Ok? && w in r.value.checkpoints
      && r.value.checkpoints[w] >= lsn && (w in inner.checkpoints ==> r.value.checkpoints[w] >= inner.checkpoints[w])
      && (r.value.checkpoints[w] == lsn || (w in inner.checkpoints && r.value.checkpoints[w] == inner.checkpoints[w]))
      && SameBut(inner.checkpoints, r.value.checkpoints, w) && r.value == inner.(checkpoints := r.value.checkpoints)
    ensures var r := Effect(inner, DeleteCheckpoint(w));
      && r.Ok? && w !in r.value.checkpoints
      && SameBut(inner.checkpoints, r.value.checkpoints, w) && r.value == inner.(checkpoints := r.value.checkpoints)
  {
    hide PushAll, PruneAll, Insert, Reset;
  }

  /** Preparing a copy drops the table's schemas, destination and sync checkpoint; deleting it drops its states too. Other tables keep everything. */
  lemma TableIsDropped(inner: Inner, t: TableId)
    ensures var r := Effect(inner, PrepareForCopy(t));
      && r.Ok? && DataDropped(inner, r.value, t) && r.value.states == inner.states && r.value.history == inner.history
    ensures var r := Effect(inner, Delete(t));
      && r.Ok? && DataDropped(inner, r.value, t)
      && t !in r.value.states && SameBut(inner.states, r.value.states, t)
      && t !in r.value.history && SameBut(inner.history, r.value.history, t)
  {
    hide PushAll, PruneAll, Insert, Reset;
  }

  ghost predicate DataDropped(inner: Inner, r: Inner, t: TableId) {
    && t !in r.schemas && SameBut(inner.schemas, r.schemas, t)
    && t !in r.destinations && SameBut(inner.destinations, r.destinations, t)
    && TableSync(t) !in r.checkpoints && SameBut(inner.checkpoints, r.checkpoints, TableSync(t))
  }

  /** Pruning touches nothing but schemas. */
  lemma PruneTouchesSchemas(inner: Inner, retention: map<TableId, SnapshotId>)
    ensures var r := Effect(inner, Prune(retention));
      r.Ok? && r.value == inner.(schemas := r.value.schemas) && r.value.schemas == PruneAll(inner.schemas, retention)
  {
    hide PushAll, PruneAll, Insert, Reset;
  }

  /** A rollback undoes the update before it. */
  lemma RollbackUndoesUpdate(inner: Inner, t: TableId, s: TableState)
    requires t in inner.states
    ensures Effect(Effect(inner, UpdateStates([(t, s)])).value, Rollback(t)) == Ok(inner.(history := inner.history[t := HistoryOf(inner, t)]))
  {
    hide PushState;
    var us := [(t, s)];
    assert us[..0] == [];
    assert PushAll(inner, us) == PushState(PushAll(inner, us[..0]), t, s);
    RollbackOne(inner, t, s);
  }

  lemma RollbackOne(inner: Inner, t: TableId, s: TableState)
    requires t in inner.states
    ensures Effect(PushState(inner, t, s), Rollback(t)) == Ok(inner.(history := inner.history[t := HistoryOf(inner, t)]))
  {
    hide PushAll, Reset, PruneAll, Insert;
    var pushed := PushState(inner, t, s);
    var h := HistoryOf(inner, t);
    assert HistoryOf(pushed, t) == h + [inner.states[t]];
    assert Front(h + [inner.states[t]]) == h && Last(h + [inner.states[t]]) == inner.states[t];
    assert pushed.states[t := inner.states[t]] == inner.states;
    assert pushed.history[t := h] == inner.history[t := h];
  }

  /** After a reset for resync, a rollback brings a table's state and history back. */
  lemma RollbackUndoesReset(inner: Inner, t: TableId)
    requires t in inner.states
    ensures var r := Effect(Effect(inner, ResetForResync).value, Rollback(t));
      r.Ok? && t in r.value.states && r.value.states[t] == inner.states[t] && HistoryOf(r.value, t) == HistoryOf(inner, t)
  {
    var reset := Effect(inner, ResetForResync).value;
    assert reset == Reset(inner);
    ResetPushes(inner, t);
    RollbackPops(reset, t, HistoryOf(inner, t), inner.states[t]);
  }

  lemma ResetPushes(inner: Inner, t: TableId)
    requires t in inner.states
    ensures HistoryOf(Reset(inner), t) == HistoryOf(inner, t) + [inner.states[t]]
  {
  }

  lemma RollbackPops(inner: Inner, t: TableId, older: seq<TableState>, last: TableState)
    requires HistoryOf(inner, t) == older + [last]
    ensures var r := Effect(inner, Rollback(t));
      r.Ok? && t in r.value.states && r.value.states[t] == last && HistoryOf(r.value, t) == older
  {
    hide PushAll, PruneAll, Insert, Reset;
    assert Front(older + [last]) == older && Last(older + [last]) == last;
  }

  /** Whatever order its maps are listed in, a cache without the table leaves no trace of it in the backend. */
  lemma DeleteLeavesNoTrace(inner: Inner, t: TableId, p: Persisted)
    requires Valid(inner) && Represents(Effect(inner, Delete(t)).value, p)
    ensures forall i | 0 <= i < |p.states| :: p.states[i].table != t
    ensures forall i | 0 <= i < |p.schemas| :: p.schemas[i].table != t
    ensures forall i | 0 <= i < |p.destinations| :: p.destinations[i].table != t
    ensures forall i | 0 <= i < |p.checkpoints| :: p.checkpoints[i].0 != Some(t)
  {
    hide Surviving, StatesSaved, SchemasSaved, DestinationsSaved, CheckpointsSaved;
    DeletedIsGone(inner, t);
    var gone := Effect(inner, Delete(t)).value;
    hide Effect;
    NoStateNoSurvivor(gone, t);
    NoStateEntry(Surviving(gone), p.states, t);
    NoSchemaEntry(gone.schemas, p.schemas, t);
    NoOtherEntry(gone.destinations, p.destinations, gone.checkpoints, p.checkpoints, t);
  }

  lemma NoStateEntry(m: map<TableId, seq<TableState>>, es: seq<StateEntry>, t: TableId)
    requires StatesSaved(m, es) && t !in m
    ensures forall i | 0 <= i < |es| :: es[i].table != t
  {
    assert forall i | 0 <= i < |es| :: StateEntryOf(m, es[i]);
  }

  lemma NoSchemaEntry(schemas: Schemas, es: seq<SchemaEntry>, t: TableId)
    requires SchemasSaved(schemas, es) && t !in schemas
    ensures forall i | 0 <= i < |es| :: es[i].table != t
  {
    assert forall i | 0 <= i < |es| :: SchemaEntryOf(schemas, es[i]);
  }

  lemma NoOtherEntry(
    ds: map<TableId, Destination>, es: seq<DestinationEntry>, cs: map<Worker, Lsn>, fs: seq<(Option<TableId>, Lsn)>, t: TableId)
    requires DestinationsSaved(ds, es) && CheckpointsSaved(cs, fs) && t !in ds && TableSync(t) !in cs
    ensures forall i | 0 <= i < |es| :: es[i].table != t
    ensures forall i | 0 <= i < |fs| :: fs[i].0 != Some(t)
  {
    assert forall i | 0 <= i < |es| :: DestinationEntryOf(ds, es[i]);
    assert forall i | 0 <= i < |fs| :: CheckpointEntryOf(cs, fs[i]);
  }

  lemma DeletedIsGone(inner: Inner, t: TableId)
    ensures var gone := Effect(inner, Delete(t)).value;
      t !in gone.states && t !in gone.schemas && t !in gone.destinations && TableSync(t) !in gone.checkpoints
  {
    hide PushAll, PruneAll, Insert, Reset;
  }

  lemma NoStateNoSurvivor(inner: Inner, t: TableId)
    requires t !in inner.states
    ensures t !in Surviving(inner)
  {
  }

  /** A stored checkpoint never moves back except by being deleted. */
  lemma CheckpointsOnlyAdvance(inner: Inner, op: Op, w: Worker)
    requires w in inner.checkpoints && Effect(inner, op).Ok?
    requires op != DeleteCheckpoint(w) && !(op.ResetForResync? && w == ApplyWorker)
    requires (op.PrepareForCopy? || op.Delete?) ==> w != TableSync(op.t)
    ensures w in Effect(inner, op).value.checkpoints && inner.checkpoints[w] <= Effect(inner, op).value.checkpoints[w]
  {
    if op.UpdateStates? {
      PushKeepsRest(inner, op.updates);
    }
  }

  lemma {:induction false} PushKeepsRest(inner: Inner, updates: seq<(TableId, TableState)>)
    ensures var r := PushAll(inner, updates);
      r.schemas == inner.schemas && r.destinations == inner.destinations && r.checkpoints == inner.checkpoints
  {
    if updates != [] {
      PushKeepsRest(inner, updates[..|updates| - 1]);
    }
  }

  lemma EffectKeepsValid(known: KnownOids, inner: Inner, op: Op)
    requires Valid(inner) && KnownTypes(known, inner) && Effect(inner, op).Ok? && (op.StoreSchema? ==> KnownSchema(known, op.s))
    ensures Valid(Effect(inner, op).value) && KnownTypes(known, Effect(inner, op).value)
  {
    hide KnownSchema;
    if op.UpdateStates? {
      PushKeepsRest(inner, op.updates);
    }
  }

  // ---------------------------------------------------------------- the write-through cache

  function Stored(backend: Option<Persisted>): Persisted {
    if backend.Some? then backend.value else NOTHING
  }

  /** The state backend's answer to a write: it takes effect or it does not. */
  method PutKv(works: bool) returns (ok: bool)
    ensures ok == works
  {
    ok := works;
  }

  class StreamlingStore {
    const known: KnownOids
    var inner: Inner
    var backend: Option<Persisted>

    constructor (known: KnownOids, backend: Option<Persisted>)
      ensures inner == EMPTY && this.backend == backend && this.known == known
    {
      this.known, this.inner, this.backend := known, EMPTY, backend;
    }

    /** An operation succeeds on cache and backend together, or changes neither. */
    method Mutate(op: Op, works: bool) returns (r: Result<int, StoreError>)
      requires Valid(inner)
      modifies this
      ensures r.Err? ==> inner == old(inner) && backend == old(backend)
      ensures r.Ok? <==> works && Effect(old(inner), op).Ok?
      ensures r.Ok? ==> Effect(old(inner), op) == Ok(inner) && backend.Some? && Represents(inner, backend.value)
      ensures r.Ok? ==> Reports(old(inner), op, inner, r.value)
    {
      hide Effect, Represents, Count, Enumerates, Reports;
      var updated, reply := RunOp(inner, op);
      if updated.Err? {
        return Err(updated.error);
      }
      assert SchemasKeyed(updated.value.schemas) by { EffectKeepsKeys(inner, op); }
      var p := ToPersisted(updated.value);
      var ok := PutKv(works);
      if !ok {
        return Err(BackendFailed);
      }
      backend := Some(p);
      inner := updated.value;
      r := Ok(reply);
    }

    /** The cache becomes what the backend's value loads as, or stays when that fails. */
    method Hydrate(works: bool) returns (r: Result<(), StoreError>)
      modifies this`inner
      ensures r.Err? ==> inner == old(inner)
      ensures r.Ok? <==> works && Load(known, Stored(backend)).Ok?
      ensures r.Ok? ==> Load(known, Stored(backend)) == Ok(inner)
    {
      if !works {
        return Err(BackendFailed);
      }
      var loaded := FromPersisted(known, Stored(backend));
      match loaded {
        case Ok(value) =>
          inner := value;
          r := Ok(());
        case Err(_) => r := Err(Unreadable);
      }
    }

    /** The newest schema at or before the snapshot. */
    method GetTableSchema(t: TableId, id: SnapshotId) returns (r: Option<TableSchema>)
      ensures forall newest | IsNewest(Versions(inner.schemas, t).Keys, id, newest) ::
        r == if newest.Some? then Some(Versions(inner.schemas, t)[newest.value]) else None
      ensures r.None? ==> IsNewest(Versions(inner.schemas, t).Keys, id, None)
    {
      var versions := Versions(inner.schemas, t);
      var newest := FindNewest(versions.Keys, id);
      r := if newest.Some? then Some(versions[newest.value]) else None;
      forall other | IsNewest(versions.Keys, id, other)
        ensures other == newest
      {
        NewestIsUnique(versions.Keys, id, other, newest);
      }
    }
  }

  lemma EffectKeepsKeys(inner: Inner, op: Op)
    requires Valid(inner) && Effect(inner, op).Ok?
    ensures Valid(Effect(inner, op).value)
  {
    if op.UpdateStates? {
      PushKeepsRest(inner, op.updates);
    }
  }

  /** The number an operation reports: versions pruned, tables reset or deleted, or the checkpoint now stored. */
  ghost predicate Reports(inner: Inner, op: Op, updated: Inner, reply: int) {
    match op
    case Prune(_) =>
      exists order :: Enumerates(order, inner.schemas) && reply == Count(inner.schemas, order) - Count(updated.schemas, order)
    case ResetForResync => reply == |inner.states|
    case Delete(t) => reply == if t in inner.states then 1 else 0
    case UpsertCheckpoint(w, lsn) => w in updated.checkpoints && reply == updated.checkpoints[w] >= lsn
    case PrepareForCopy(_) => reply == 0
    case _ => true
  }

  /** The body of each operation, and the number it reports. */
  method RunOp(inner: Inner, op: Op) returns (r: Result<Inner, StoreError>, reply: int)
    ensures r == Effect(inner, op) && (r.Ok? ==> Reports(inner, op, r.value, reply))
  {
    hide Effect, Reports, Reset, Count, Enumerates;
    var updated;
    reply := 0;
    match op {
      case Rollback(t) =>
        r := RollbackTable(inner, t);
        if r.Ok? {
          NoNumber(inner, op, r.value);
        }
        return;
      case UpdateStates(updates) => updated := UpdateTableStates(inner, updates);
      case UpsertCheckpoint(w, lsn) => updated, reply := RaiseCheckpoint(inner, w, lsn);
      case DeleteCheckpoint(w) => updated := ForgetCheckpoint(inner, w);
      case StoreDestination(t, d) => updated := PutDestination(inner, t, d);
      case StoreSchema(s) => updated := PutSchema(inner, s);
      case Prune(retention) => updated, reply := PruneTableSchemas(inner, retention);
      case PrepareForCopy(t) => updated := RemoveTableData(inner, t);
      case ResetForResync =>
        updated, reply := ResetTables(inner);
        ResetIsEffect(inner, reply);
      case Delete(t) => updated, reply := DeleteTable(inner, t);
    }
    NoNumber(inner, op, updated);
    r := Ok(updated);
  }

  lemma NoNumber(inner: Inner, op: Op, updated: Inner)
    ensures op.UpdateStates? || op.Rollback? || op.DeleteCheckpoint? || op.StoreDestination? || op.StoreSchema? || op.PrepareForCopy? ==>
      Reports(inner, op, updated, 0)
  {
  }

  method ForgetCheckpoint(inner: Inner, w: Worker) returns (updated: Inner)
    ensures Effect(inner, DeleteCheckpoint(w)) == Ok(updated)
  {
    updated := inner.(checkpoints := inner.checkpoints - {w});
  }

  method PutDestination(inner: Inner, t: TableId, d: Destination) returns (updated: Inner)
    ensures Effect(inner, StoreDestination(t, d)) == Ok(updated)
  {
    updated := inner.(destinations := inner.destinations[t := d]);
  }

  method PutSchema(inner: Inner, s: TableSchema) returns (updated: Inner)
    ensures Effect(inner, StoreSchema(s)) == Ok(updated)
  {
    var versions := if s.id in inner.schemas then inner.schemas[s.id] else map[];
    versions := versions[s.snapshot := s];
    updated := inner.(schemas := inner.schemas[s.id := versions]);
  }

  method PruneTableSchemas(inner: Inner, retention: map<TableId, SnapshotId>) returns (updated: Inner, removed: int)
    ensures Effect(inner, Prune(retention)) == Ok(updated)
    ensures Reports(inner, Prune(retention), updated, removed)
  {
    hide Enumerates, Count, PruneAll;
    var pruned, count, order := PruneSchemas(inner.schemas, retention);
    updated, removed := inner.(schemas := pruned), count;
    assert removed == Count(inner.schemas, order) - Count(updated.schemas, order);
  }

  method DeleteTable(inner: Inner, t: TableId) returns (updated: Inner, count: nat)
    ensures Effect(inner, Delete(t)) == Ok(updated) && Reports(inner, Delete(t), updated, count)
  {
    count := if t in inner.states then 1 else 0;
    updated := inner.(states := inner.states - {t});
    updated := updated.(history := updated.history - {t});
    updated := RemoveTableData(updated, t);
  }

  /** Pops the last state of the history, if there is one. */
  method RollbackTable(inner: Inner, t: TableId) returns (r: Result<Inner, StoreError>)
    ensures r == Effect(inner, Rollback(t))
  {
    if t !in inner.history || inner.history[t] == [] {
      return Err(NothingToRollBack);
    }
    var older := inner.history[t];
    var previous := older[|older| - 1];
    older := older[..|older| - 1];
    r := Ok(inner.(history := inner.history[t := older], states := inner.states[t := previous]));
  }

  /** Inserts a checkpoint, or replaces a stored one by a greater one. */
  method RaiseCheckpoint(inner: Inner, w: Worker, lsn: Lsn) returns (updated: Inner, stored: Lsn)
    ensures Effect(inner, UpsertCheckpoint(w, lsn)) == Ok(updated)
    ensures Reports(inner, UpsertCheckpoint(w, lsn), updated, stored)
  {
    stored := lsn;
    if w in inner.checkpoints && !(lsn > inner.checkpoints[w]) {
      stored := inner.checkpoints[w];
    }
    updated := inner.(checkpoints := inner.checkpoints[w := stored]);
    assert w in inner.checkpoints && stored == inner.checkpoints[w] ==> updated.checkpoints == inner.checkpoints;
  }

  /** Drops a table's schemas, destination and sync checkpoint. */
  method RemoveTableData(inner: Inner, t: TableId) returns (updated: Inner)
    ensures Effect(inner, PrepareForCopy(t)) == Ok(updated)
  {
    updated := inner.(schemas := inner.schemas - {t});
    updated := updated.(destinations := updated.destinations - {t});
    updated := updated.(checkpoints := updated.checkpoints - {TableSync(t)});
  }

  method UpdateTableStates(inner: Inner, updates: seq<(TableId, TableState)>) returns (updated: Inner)
    ensures Effect(inner, UpdateStates(updates)) == Ok(updated)
  {
    hide PushState, Reset, PruneAll, Insert;
    updated := inner;
    for i := 0 to |updates|
      invariant updated == PushAll(inner, updates[..i])
    {
      assert updates[..i + 1][..i] == updates[..i];
      updated := PushState(updated, updates[i].0, updates[i].1);
    }
    assert updates[..|updates|] == updates;
  }

  method ResetTables(inner: Inner) returns (updated: Inner, count: nat)
    ensures updated == Reset(inner) && count == |inner.states|
  {
    hide ResetSome, PushState;
    var tables := Elements(inner.states.Keys);
    updated := inner;
    ghost var done: set<TableId> := {};
    NothingReset(inner);
    for i := 0 to |tables|
      invariant done == (set j | 0 <= j < i :: tables[j]) && done <= inner.states.Keys
      invariant updated == ResetSome(inner, done)
    {
      assert tables[i] in inner.states && tables[i] !in done;
      ResetOne(inner, done, tables[i]);
      updated := PushState(updated, tables[i], INITIAL);
      done := done + {tables[i]};
    }
    assert done == inner.states.Keys by { AllDone(done, tables, inner.states.Keys); }
    updated := updated.(checkpoints := inner.checkpoints - {ApplyWorker});
    count := |inner.states|;
  }

  lemma ResetIsEffect(inner: Inner, count: int)
    requires count == |inner.states|
    ensures Effect(inner, ResetForResync) == Ok(Reset(inner)) && Reports(inner, ResetForResync, Reset(inner), count)
  {
    hide Reset;
  }

  lemma AllDone(done: set<TableId>, tables: seq<TableId>, keys: set<TableId>)
    requires done == set j | 0 <= j < |tables| :: tables[j]
    requires forall t :: t in tables <==> t in keys
    ensures done == keys
  {
    forall t | t in keys
      ensures t in done
    {
      assert t in tables;
    }
  }

  lemma NothingReset(inner: Inner)
    ensures ResetSome(inner, {}) == inner
  {
    var r := ResetSome(inner, {});
    assert r.states == inner.states;
    assert forall t | t in inner.history :: HistoryOf(inner, t) + [] == inner.history[t];
    assert r.history == inner.history;
  }

  /** Of a table's timeline exactly the states that are not merely in memory are stored. */
  lemma {:induction false} StorableIs(states: seq<TableState>, s: TableState)
    ensures s in Storable(states) <==> s in states && s.kind != SyncWait && s.kind != Catchup
  {
    if states != [] {
      StorableIs(states[..|states| - 1], s);
      assert states == states[..|states| - 1] + [states[|states| - 1]];
    }
  }

  /** A current state other than these two is current again after a restart, and nothing else than states and empty entries is lost. */
  lemma StorableStateSurvives(inner: Inner, t: TableId)
    requires t in inner.states && inner.states[t].kind != SyncWait && inner.states[t].kind != Catchup
    ensures t in Normalize(inner).states && Normalize(inner).states[t] == inner.states[t]
    ensures Normalize(inner).destinations == inner.destinations && Normalize(inner).checkpoints == inner.checkpoints
    ensures forall u, v | v in Versions(inner.schemas, u) ::
      v in Versions(Normalize(inner).schemas, u) && Versions(Normalize(inner).schemas, u)[v] == Versions(inner.schemas, u)[v]
  {
    hide Normalize, Surviving, Storable;
    LastIsStorable(inner, t);
    NormalizedState(inner, t);
    NormalizeKeepsRest(inner);
  }

  lemma LastIsStorable(inner: Inner, t: TableId)
    requires t in inner.states && inner.states[t].kind != SyncWait && inner.states[t].kind != Catchup
    ensures Storable(Chain(inner, t)) != [] && Last(Storable(Chain(inner, t))) == inner.states[t]
  {
    var chain := Chain(inner, t);
    assert Storable(chain) == Storable(chain[..|chain| - 1]) + [inner.states[t]];
  }

  lemma NormalizeKeepsRest(inner: Inner)
    ensures Normalize(inner).destinations == inner.destinations && Normalize(inner).checkpoints == inner.checkpoints
    ensures forall u, v | v in Versions(inner.schemas, u) ::
      v in Versions(Normalize(inner).schemas, u) && Versions(Normalize(inner).schemas, u)[v] == Versions(inner.schemas, u)[v]
  {
    hide Surviving, LastStates, EarlierStates;
  }

  // ---------------------------------------------------------------- failures and crashes

  /** `last` is the cache of the last successful write, or what was hydrated since. */
  datatype System = System(cache: Inner, hydrated: bool, backend: Option<Persisted>, last: Inner)

  datatype Step = Hydrate(works: bool) | Mutate(op: Op, put: Option<Persisted>) | Crash

  function Start(): System {
    System(EMPTY, false, None, EMPTY)
  }

  ghost predicate Enabled(known: KnownOids, s: System, step: Step) {
    match step
    case Hydrate(_) => true
    case Mutate(op, put) =>
      && s.hydrated && (op.StoreSchema? ==> KnownSchema(known, op.s))
      && (put.Some? && Effect(s.cache, op).Ok? ==> Represents(Effect(s.cache, op).value, put.value))
    case Crash => true
  }

  function Apply(known: KnownOids, s: System, step: Step): System {
    match step
    case Hydrate(works) =>
      (match Load(known, Stored(s.backend))
       case Ok(cache) => if works then s.(cache := cache, hydrated := true) else s
       case Err(_) => s)
    case Mutate(op, put) =>
      (match Effect(s.cache, op)
       case Ok(updated) => if put.Some? then s.(cache := updated, backend := put, last := updated) else s
       case Err(_) => s)
    case Crash => s.(cache := EMPTY, hydrated := false)
  }

  ghost predicate Good(known: KnownOids, inner: Inner) {
    Valid(inner) && KnownTypes(known, inner)
  }

  ghost predicate Inv(known: KnownOids, s: System) {
    && known(TEXT) && Good(known, s.cache) && Good(known, s.last) && Represents(s.last, Stored(s.backend))
    && (s.hydrated ==> Represents(s.cache, Stored(s.backend)))
  }

  lemma NormalizeKeepsGood(known: KnownOids, inner: Inner)
    requires Good(known, inner)
    ensures Good(known, Normalize(inner))
  {
    hide KnownSchema, LastStates, EarlierStates, Surviving;
  }

  lemma StepKeeps(known: KnownOids, s: System, step: Step)
    requires Inv(known, s) && Enabled(known, s, step)
    ensures Inv(known, Apply(known, s, step))
  {
    hide Represents, Good, Effect, Normalize, Load;
    match step {
      case Hydrate(works) =>
        Recovered(known, s.last, Stored(s.backend));
      case Mutate(op, put) =>
        if Effect(s.cache, op).Ok? {
          GoodEffect(known, s.cache, op);
        }
      case Crash =>
        GoodEmpty(known);
    }
  }

  lemma GoodEmpty(known: KnownOids)
    ensures Good(known, EMPTY)
  {
  }

  lemma GoodEffect(known: KnownOids, inner: Inner, op: Op)
    requires Good(known, inner) && Effect(inner, op).Ok? && (op.StoreSchema? ==> KnownSchema(known, op.s))
    ensures Good(known, Effect(inner, op).value)
  {
    EffectKeepsValid(known, inner, op);
  }

  lemma Recovered(known: KnownOids, inner: Inner, p: Persisted)
    requires known(TEXT) && Good(known, inner) && Represents(inner, p)
    ensures Load(known, p) == Ok(Normalize(inner)) && Represents(Normalize(inner), p) && Good(known, Normalize(inner))
  {
    LoadRestores(known, inner, p);
    SurvivorsAreStable(inner, p);
    NormalizeKeepsGood(known, inner);
  }

  ghost predicate Run(known: KnownOids, s: System, steps: seq<Step>, s': System)
    decreases |steps|
  {
    if steps == [] then s == s' else Enabled(known, s, steps[0]) && Run(known, Apply(known, s, steps[0]), steps[1..], s')
  }

  lemma {:induction false} RunKeeps(known: KnownOids, s: System, steps: seq<Step>, s': System)
    requires Inv(known, s) && Run(known, s, steps, s')
    ensures Inv(known, s')
    decreases |steps|
  {
    hide Inv, Enabled, Apply;
    if steps != [] {
      StepKeeps(known, s, steps[0]);
      RunKeeps(known, Apply(known, s, steps[0]), steps[1..], s');
    }
  }

  lemma StartIsGood(known: KnownOids)
    requires known(TEXT)
    ensures Inv(known, Start())
  {
  }

  /**
   Over any run of mutations with failing or succeeding writes, hydrations and
   crashes, the backend holds a persisted form of the cache once it has been
   hydrated; a crash and a hydration then give the cache with unstorable
   states removed, and another one changes nothing.
   */
  lemma CrashRecoversTheCache(known: KnownOids, steps: seq<Step>, s: System)
    requires known(TEXT) && Run(known, Start(), steps, s) && s.hydrated
    ensures Represents(s.cache, Stored(s.backend))
    ensures var s1 := Apply(known, Apply(known, s, Crash), Hydrate(true));
      && s1.hydrated && s1.cache == Normalize(s.cache) && s1.backend == s.backend
      && Apply(known, Apply(known, s1, Crash), Hydrate(true)).cache == s1.cache
  {
    StartIsGood(known);
    RunKeeps(known, Start(), steps, s);
    hide Represents, Good, Normalize, Load;
    Recovered(known, s.cache, Stored(s.backend));
  }
}
