/**
 The etl store: replication metadata is cached in maps and written through as
 one value, in which the maps are lists of entries. Hash maps list their
 entries in any order, so the persisted form is a relation (`Represents`)
 rather than one value per cache.
 */
module EtlStore {
  import opened Wrappers
  import opened Collections

  type TableId = nat

  type Lsn = nat

  datatype SnapshotId = SnapshotId(commit: Lsn, message: Lsn)

  predicate Le(a: SnapshotId, b: SnapshotId) {
    a.commit < b.commit || (a.commit == b.commit && a.message <= b.message)
  }

  predicate Lt(a: SnapshotId, b: SnapshotId) {
    Le(a, b) && a != b
  }

  datatype StateKind = Init | DataSync | FinishedCopy | SyncWait | Catchup | SyncDone | Ready | Errored

  datatype TableState = TableState(kind: StateKind, detail: int)

  /** States that only live in memory are not stored. */
  predicate ShouldStore(s: TableState) {
    s.kind != SyncWait && s.kind != Catchup
  }

  type Oid = nat

  const TEXT: Oid := 25

  datatype Column = Column(
    name: string, typ: Oid, modifier: int, ordinal: int, primaryKey: Option<int>, nullable: bool, default: Option<string>)

  datatype TableSchema = TableSchema(id: TableId, schema: string, name: string, columns: seq<Column>, snapshot: SnapshotId)

  datatype DestinationSchema =
    | Creating(snapshot: SnapshotId, mask: seq<bool>)
    | Applying(snapshot: SnapshotId, mask: seq<bool>, previous: SnapshotId, previousMask: seq<bool>)
    | Applied(snapshot: SnapshotId, mask: seq<bool>)

  datatype Destination = Destination(table: string, schema: DestinationSchema)

  datatype Worker = ApplyWorker | TableSync(table: TableId)

  type Schemas = map<TableId, map<SnapshotId, TableSchema>>

  datatype Inner = Inner(
    states: map<TableId, TableState>, history: map<TableId, seq<TableState>>,
    schemas: Schemas, destinations: map<TableId, Destination>, checkpoints: map<Worker, Lsn>)

  const EMPTY := Inner(map[], map[], map[], map[], map[])

  // ---------------------------------------------------------------- the persisted value

  datatype StateEntry = StateEntry(table: TableId, current: TableState, history: seq<TableState>)

  datatype SchemaEntry = SchemaEntry(table: TableId, schema: string, name: string, snapshot: (Lsn, Lsn), columns: seq<Column>)

  datatype DestinationEntry = DestinationEntry(table: TableId, name: string, schema: DestinationSchema)

  datatype Persisted = Persisted(
    states: seq<StateEntry>, schemas: seq<SchemaEntry>, destinations: seq<DestinationEntry>, checkpoints: seq<(Option<TableId>, Lsn)>)

  const NOTHING := Persisted([], [], [], [])

  /** The states that survive a restart, oldest first. */
  function Storable(states: seq<TableState>): (r: seq<TableState>)
    ensures forall i | 0 <= i < |r| :: ShouldStore(r[i])
  {
    if states == [] then []
    else
      var n := |states| - 1;
      Storable(states[..n]) + if ShouldStore(states[n]) then [states[n]] else []
  }

  function Chain(inner: Inner, t: TableId): seq<TableState>
    requires t in inner.states
  {
    (if t in inner.history then inner.history[t] else []) + [inner.states[t]]
  }

  function PersistSchema(s: TableSchema): SchemaEntry {
    SchemaEntry(s.id, s.schema, s.name, (s.snapshot.commit, s.snapshot.message), s.columns)
  }

  function PersistWorker(w: Worker): Option<TableId> {
    match w
    case ApplyWorker => None
    case TableSync(t) => Some(t)
  }

  /** The storable states of every table that has any. */
  function Surviving(inner: Inner): (m: map<TableId, seq<TableState>>)
    ensures forall t | t in m :: m[t] != []
  {
    map t | t in inner.states && Storable(Chain(inner, t)) != [] :: Storable(Chain(inner, t))
  }

  /** The entry holds the last storable state as current and the ones before it as history. */
  predicate StateEntryOf(m: map<TableId, seq<TableState>>, e: StateEntry) {
    e.table in m && m[e.table] == e.history + [e.current]
  }

  predicate SchemaEntryOf(schemas: Schemas, e: SchemaEntry) {
    var s := SnapshotId(e.snapshot.0, e.snapshot.1);
    e.table in schemas && s in schemas[e.table] && e == PersistSchema(schemas[e.table][s])
  }

  predicate DestinationEntryOf(ds: map<TableId, Destination>, e: DestinationEntry) {
    e.table in ds && ds[e.table] == Destination(e.name, e.schema)
  }

  predicate CheckpointEntryOf(cs: map<Worker, Lsn>, e: (Option<TableId>, Lsn)) {
    RestoreWorker(e.0) in cs && cs[RestoreWorker(e.0)] == e.1
  }

  ghost predicate HasTable(es: seq<StateEntry>, t: TableId) {
    exists i :: 0 <= i < |es| && es[i].table == t
  }

  ghost predicate StatesSaved(m: map<TableId, seq<TableState>>, es: seq<StateEntry>) {
    && (forall i | 0 <= i < |es| :: StateEntryOf(m, es[i]))
    && (forall t | t in m :: HasTable(es, t))
  }

  ghost predicate HasSchema(es: seq<SchemaEntry>, t: TableId, s: SnapshotId) {
    exists i :: 0 <= i < |es| && es[i].table == t && es[i].snapshot == (s.commit, s.message)
  }

  ghost predicate SchemasSaved(schemas: Schemas, es: seq<SchemaEntry>) {
    && (forall i | 0 <= i < |es| :: SchemaEntryOf(schemas, es[i]))
    && (forall t, s | t in schemas && s in schemas[t] :: HasSchema(es, t, s))
  }

  ghost predicate DestinationsSaved(ds: map<TableId, Destination>, es: seq<DestinationEntry>) {
    && (forall i | 0 <= i < |es| :: DestinationEntryOf(ds, es[i]))
    && (forall t | t in ds :: HasDestination(es, t))
  }

  ghost predicate CheckpointsSaved(cs: map<Worker, Lsn>, es: seq<(Option<TableId>, Lsn)>) {
    && (forall i | 0 <= i < |es| :: CheckpointEntryOf(cs, es[i]))
    && (forall w | w in cs :: exists i :: 0 <= i < |es| && es[i].0 == PersistWorker(w))
  }

  /** `p` is a persisted form of the cache. */
  ghost predicate Represents(inner: Inner, p: Persisted) {
    && StatesSaved(Surviving(inner), p.states) && SchemasSaved(inner.schemas, p.schemas)
    && DestinationsSaved(inner.destinations, p.destinations) && CheckpointsSaved(inner.checkpoints, p.checkpoints)
  }

  // ---------------------------------------------------------------- writing it

  method PersistStates(inner: Inner) returns (es: seq<StateEntry>)
    ensures StatesSaved(Surviving(inner), es)
  {
    hide Storable, Chain;
    ghost var m := Surviving(inner);
    var order := Elements(inner.states.Keys);
    es := [];
    for k := 0 to |order|
      invariant forall i | 0 <= i < |es| :: StateEntryOf(m, es[i])
      invariant forall j | 0 <= j < k && order[j] in m :: HasTable(es, order[j])
    {
      assert order[k] in inner.states;
      var storable := Storable(Chain(inner, order[k]));
      if storable == [] {
        continue;
      }
      var n := |storable| - 1;
      var more := [StateEntry(order[k], storable[n], storable[..n])];
      assert more[0].table == order[k];
      forall j | 0 <= j <= k && order[j] in m
        ensures HasTable(es + more, order[j])
      {
        StillHasTable(es, more, order[j]);
      }
      es := es + more;
    }
    forall t | t in m
      ensures HasTable(es, t)
    {
      assert t in order;
    }
  }

  lemma StillHasTable(a: seq<StateEntry>, b: seq<StateEntry>, t: TableId)
    ensures HasTable(a, t) || HasTable(b, t) ==> HasTable(a + b, t)
  {
    if HasTable(a, t) {
      var i :| 0 <= i < |a| && a[i].table == t;
      assert (a + b)[i] == a[i];
    }
    if HasTable(b, t) {
      var i :| 0 <= i < |b| && b[i].table == t;
      assert (a + b)[|a| + i] == b[i];
    }
  }

  method PersistSchemas(schemas: Schemas) returns (es: seq<SchemaEntry>)
    requires SchemasKeyed(schemas)
    ensures SchemasSaved(schemas, es)
  {
    var tables := Elements(schemas.Keys);
    es := [];
    for k := 0 to |tables|
      invariant forall i | 0 <= i < |es| :: SchemaEntryOf(schemas, es[i])
      invariant forall j, s | 0 <= j < k && s in schemas[tables[j]] :: HasSchema(es, tables[j], s)
    {
      assert tables[k] in schemas;
      var more := PersistVersions(schemas, tables[k]);
      forall j, s | 0 <= j <= k && s in schemas[tables[j]]
        ensures HasSchema(es + more, tables[j], s)
      {
        StillHas(es, more, tables[j], s);
      }
      es := es + more;
    }
    forall t, s | t in schemas && s in schemas[t]
      ensures HasSchema(es, t, s)
    {
      assert t in tables;
    }
  }

  method PersistVersions(schemas: Schemas, t: TableId) returns (es: seq<SchemaEntry>)
    requires SchemasKeyed(schemas) && t in schemas
    ensures forall i | 0 <= i < |es| :: SchemaEntryOf(schemas, es[i])
    ensures forall s | s in schemas[t] :: HasSchema(es, t, s)
  {
    var versions := Elements(schemas[t].Keys);
    es := [];
    for k := 0 to |versions|
      invariant forall i | 0 <= i < |es| :: SchemaEntryOf(schemas, es[i])
      invariant forall j | 0 <= j < k :: HasSchema(es, t, versions[j])
    {
      var s := versions[k];
      assert s in schemas[t];
      var more := [PersistSchema(schemas[t][s])];
      assert more[0].table == t && more[0].snapshot == (s.commit, s.message);
      assert HasSchema(more, t, s);
      forall j | 0 <= j <= k
        ensures HasSchema(es + more, t, versions[j])
      {
        StillHas(es, more, t, versions[j]);
      }
      es := es + more;
    }
  }

  lemma StillHas(a: seq<SchemaEntry>, b: seq<SchemaEntry>, t: TableId, s: SnapshotId)
    ensures HasSchema(a, t, s) || HasSchema(b, t, s) ==> HasSchema(a + b, t, s)
  {
    if HasSchema(a, t, s) {
      var i :| 0 <= i < |a| && a[i].table == t && a[i].snapshot == (s.commit, s.message);
      assert (a + b)[i] == a[i];
    }
    if HasSchema(b, t, s) {
      var i :| 0 <= i < |b| && b[i].table == t && b[i].snapshot == (s.commit, s.message);
      assert (a + b)[|a| + i] == b[i];
    }
  }

  method PersistDestinations(ds: map<TableId, Destination>) returns (es: seq<DestinationEntry>)
    ensures DestinationsSaved(ds, es)
  {
    var order := Elements(ds.Keys);
    es := [];
    for k := 0 to |order|
      invariant |es| == k && forall i | 0 <= i < k :: es[i].table == order[i] && DestinationEntryOf(ds, es[i])
    {
      assert order[k] in ds;
      es := es + [DestinationEntry(order[k], ds[order[k]].table, ds[order[k]].schema)];
    }
    forall t | t in ds
      ensures exists i :: 0 <= i < |es| && es[i].table == t
    {
      assert t in order;
      var i :| 0 <= i < |order| && order[i] == t;
      assert es[i].table == t;
    }
  }

  method PersistCheckpoints(cs: map<Worker, Lsn>) returns (es: seq<(Option<TableId>, Lsn)>)
    ensures CheckpointsSaved(cs, es)
  {
    var order := Elements(cs.Keys);
    es := [];
    for k := 0 to |order|
      invariant |es| == k && forall i | 0 <= i < k :: es[i].0 == PersistWorker(order[i]) && CheckpointEntryOf(cs, es[i])
    {
      assert order[k] in cs;
      es := es + [(PersistWorker(order[k]), cs[order[k]])];
    }
    forall w | w in cs
      ensures exists i :: 0 <= i < |es| && es[i].0 == PersistWorker(w)
    {
      assert w in order;
      var i :| 0 <= i < |order| && order[i] == w;
      assert es[i].0 == PersistWorker(w);
    }
  }

  method ToPersisted(inner: Inner) returns (p: Persisted)
    requires SchemasKeyed(inner.schemas)
    ensures Represents(inner, p)
  {
    var states := PersistStates(inner);
    var schemas := PersistSchemas(inner.schemas);
    var destinations := PersistDestinations(inner.destinations);
    var checkpoints := PersistCheckpoints(inner.checkpoints);
    p := Persisted(states, schemas, destinations, checkpoints);
  }

  // ---------------------------------------------------------------- reading it back

  type KnownOids = Oid -> bool

  function RestoreColumn(known: KnownOids, c: Column): Column {
    c.(typ := if known(c.typ) then c.typ else TEXT)
  }

  function RestoreSchema(known: KnownOids, e: SchemaEntry): TableSchema {
    TableSchema(e.table, e.schema, e.name,
      seq(|e.columns|, i requires 0 <= i < |e.columns| => RestoreColumn(known, e.columns[i])),
      SnapshotId(e.snapshot.0, e.snapshot.1))
  }

  function RestoreWorker(t: Option<TableId>): Worker {
    match t
    case None => ApplyWorker
    case Some(t) => TableSync(t)
  }

  datatype LoadError = LoadError

  /** A change of an applied schema; any other state refuses it. */
  function WithSchemaChange(d: Destination, snapshot: SnapshotId, mask: seq<bool>): Result<Destination, LoadError> {
    match d.schema
    case Applied(s, m) => Ok(Destination(d.table, Applying(snapshot, mask, s, m)))
    case _ => Err(LoadError)
  }

  function RestoreDestination(e: DestinationEntry): Result<Destination, LoadError> {
    match e.schema
    case Creating(s, m) => Ok(Destination(e.name, Creating(s, m)))
    case Applying(s, m, ps, pm) => WithSchemaChange(Destination(e.name, Applied(ps, pm)), s, m)
    case Applied(s, m) => Ok(Destination(e.name, Applied(s, m)))
  }

  /** An interrupted schema change is rebuilt exactly, so loading never fails. */
  lemma DestinationRoundTrip(e: DestinationEntry)
    ensures RestoreDestination(e) == Ok(Destination(e.name, e.schema))
  {
  }

  function LoadStates(es: seq<StateEntry>): map<TableId, TableState> {
    FromPairs(StatePairs(es))
  }

  function StatePairs(es: seq<StateEntry>): (ps: seq<(TableId, TableState)>)
    ensures |ps| == |es| && forall i | 0 <= i < |es| :: ps[i] == (es[i].table, es[i].current)
  {
    seq(|es|, i requires 0 <= i < |es| => (es[i].table, es[i].current))
  }

  /** Empty histories are not inserted. */
  function LoadHistory(es: seq<StateEntry>): map<TableId, seq<TableState>> {
    if es == [] then map[]
    else
      var n := |es| - 1;
      if es[n].history == [] then LoadHistory(es[..n]) else LoadHistory(es[..n])[es[n].table := es[n].history]
  }

  function Versions(schemas: Schemas, t: TableId): map<SnapshotId, TableSchema> {
    if t in schemas then schemas[t] else map[]
  }

  function Insert(schemas: Schemas, s: TableSchema): Schemas {
    schemas[s.id := Versions(schemas, s.id)[s.snapshot := s]]
  }

  function LoadSchemas(known: KnownOids, es: seq<SchemaEntry>): Schemas {
    if es == [] then map[]
    else
      var n := |es| - 1;
      Insert(LoadSchemas(known, es[..n]), RestoreSchema(known, es[n]))
  }

  function LoadDestinations(es: seq<DestinationEntry>): Result<map<TableId, Destination>, LoadError> {
    if es == [] then Ok(map[])
    else
      var n := |es| - 1;
      match (LoadDestinations(es[..n]), RestoreDestination(es[n]))
      case (Ok(m), Ok(d)) => Ok(m[es[n].table := d])
      case _ => Err(LoadError)
  }

  function LoadCheckpoints(es: seq<(Option<TableId>, Lsn)>): map<Worker, Lsn> {
    FromPairs(CheckpointPairs(es))
  }

  function CheckpointPairs(es: seq<(Option<TableId>, Lsn)>): (ps: seq<(Worker, Lsn)>)
    ensures |ps| == |es| && forall i | 0 <= i < |es| :: ps[i] == (RestoreWorker(es[i].0), es[i].1)
  {
    seq(|es|, i requires 0 <= i < |es| => (RestoreWorker(es[i].0), es[i].1))
  }

  function Load(known: KnownOids, p: Persisted): Result<Inner, LoadError> {
    match LoadDestinations(p.destinations)
    case Ok(ds) => Ok(Inner(LoadStates(p.states), LoadHistory(p.states), LoadSchemas(known, p.schemas), ds, LoadCheckpoints(p.checkpoints)))
    case Err(e) => Err(e)
  }

  /** The loops of `from_persisted`, filling the maps entry by entry. */
  method FromPersisted(known: KnownOids, p: Persisted) returns (r: Result<Inner, LoadError>)
    ensures r == Load(known, p)
  {
    var states, history := LoadStateMaps(p.states);
    var schemas := LoadSchemaMap(known, p.schemas);
    var destinations := LoadDestinationMap(p.destinations);
    var checkpoints := LoadCheckpointMap(p.checkpoints);
    r := match destinations case Ok(ds) => Ok(Inner(states, history, schemas, ds, checkpoints)) case Err(e) => Err(e);
  }

  method LoadStateMaps(es: seq<StateEntry>) returns (states: map<TableId, TableState>, history: map<TableId, seq<TableState>>)
    ensures states == LoadStates(es) && history == LoadHistory(es)
  {
    states, history := map[], map[];
    ghost var pairs: seq<(TableId, TableState)> := [];
    for k := 0 to |es|
      invariant |pairs| == k && forall i | 0 <= i < k :: pairs[i] == (es[i].table, es[i].current)
      invariant states == FromPairs(pairs) && history == LoadHistory(es[..k])
    {
      var e := es[k];
      assert es[..k + 1][..k] == es[..k];
      AddPair(pairs, (e.table, e.current));
      pairs := pairs + [(e.table, e.current)];
      states := states[e.table := e.current];
      if e.history != [] {
        history := history[e.table := e.history];
      }
    }
    assert es[..|es|] == es;
    assert pairs == StatePairs(es);
  }

  method LoadSchemaMap(known: KnownOids, es: seq<SchemaEntry>) returns (schemas: Schemas)
    ensures schemas == LoadSchemas(known, es)
  {
    schemas := map[];
    for k := 0 to |es|
      invariant schemas == LoadSchemas(known, es[..k])
    {
      assert es[..k + 1][..k] == es[..k];
      schemas := Insert(schemas, RestoreSchema(known, es[k]));
    }
    assert es[..|es|] == es;
  }

  method LoadDestinationMap(es: seq<DestinationEntry>) returns (r: Result<map<TableId, Destination>, LoadError>)
    ensures r == LoadDestinations(es)
  {
    var m: map<TableId, Destination> := map[];
    for k := 0 to |es|
      invariant LoadDestinations(es[..k]) == Ok(m)
    {
      assert es[..k + 1][..k] == es[..k];
      DestinationRoundTrip(es[k]);
      m := m[es[k].table := RestoreDestination(es[k]).value];
    }
    assert es[..|es|] == es;
    r := Ok(m);
  }

  method LoadCheckpointMap(es: seq<(Option<TableId>, Lsn)>) returns (m: map<Worker, Lsn>)
    ensures m == LoadCheckpoints(es)
  {
    m := map[];
    ghost var pairs: seq<(Worker, Lsn)> := [];
    for k := 0 to |es|
      invariant pairs == seq(k, i requires 0 <= i < k => (RestoreWorker(es[i].0), es[i].1))
      invariant m == FromPairs(pairs)
    {
      ghost var more := pairs + [(RestoreWorker(es[k].0), es[k].1)];
      assert more[..|more| - 1] == pairs;
      pairs := more;
      m := m[RestoreWorker(es[k].0) := es[k].1];
    }
  }

  // ---------------------------------------------------------------- what survives

  /** Every schema is filed under its own table and snapshot. */
  predicate SchemasKeyed(schemas: Schemas) {
    forall t, s | t in schemas && s in schemas[t] :: schemas[t][s].id == t && schemas[t][s].snapshot == s
  }

  predicate Valid(inner: Inner) {
    SchemasKeyed(inner.schemas)
  }

  predicate KnownSchema(known: KnownOids, s: TableSchema) {
    forall i | 0 <= i < |s.columns| :: known(s.columns[i].typ)
  }

  predicate KnownTypes(known: KnownOids, inner: Inner) {
    forall t, s | t in inner.schemas && s in inner.schemas[t] :: KnownSchema(known, inner.schemas[t][s])
  }

  function LastStates(m: map<TableId, seq<TableState>>): map<TableId, TableState>
    requires forall t | t in m :: m[t] != []
  {
    map t | t in m :: Last(m[t])
  }

  /** The storable states before the last, where there are any. */
  function EarlierStates(m: map<TableId, seq<TableState>>): map<TableId, seq<TableState>>
    requires forall t | t in m :: m[t] != []
  {
    map t | t in m && |m[t]| > 1 :: Front(m[t])
  }

  function WithVersions(schemas: Schemas): Schemas {
    map t | t in schemas && schemas[t] != map[] :: schemas[t]
  }

  /** The cache with unstorable states removed, the last storable one current, and empty entries dropped. */
  function Normalize(inner: Inner): Inner {
    Inner(LastStates(Surviving(inner)), EarlierStates(Surviving(inner)), WithVersions(inner.schemas), inner.destinations, inner.checkpoints)
  }

  function Last<T>(s: seq<T>): T
    requires s != []
  {
    s[|s| - 1]
  }

  function Front<T>(s: seq<T>): seq<T>
    requires s != []
  {
    s[..|s| - 1]
  }

  lemma StatesLoad(m: map<TableId, seq<TableState>>, es: seq<StateEntry>)
    requires StatesSaved(m, es) && forall t | t in m :: m[t] != []
    ensures LoadStates(es) == LastStates(m)
  {
    var ps := StatePairs(es);
    forall i | 0 <= i < |ps|
      ensures ps[i].0 in LastStates(m) && LastStates(m)[ps[i].0] == ps[i].1
    {
      assert StateEntryOf(m, es[i]);
    }
    forall t | t in m
      ensures exists i :: 0 <= i < |ps| && ps[i].0 == t
    {
      assert HasTable(es, t);
      var i :| 0 <= i < |es| && es[i].table == t;
      assert ps[i].0 == t;
    }
    FromPairsIs(ps, LastStates(m));
  }

  lemma HistoryLoad(m: map<TableId, seq<TableState>>, es: seq<StateEntry>)
    requires StatesSaved(m, es) && forall t | t in m :: m[t] != []
    ensures LoadHistory(es) == EarlierStates(m)
  {
    HistoryLoads(m, es);
    forall t | t in m && |m[t]| > 1
      ensures HasHistory(es, t)
    {
      assert HasTable(es, t);
      var i :| 0 <= i < |es| && es[i].table == t;
      assert StateEntryOf(m, es[i]);
    }
  }

  ghost predicate HasHistory(es: seq<StateEntry>, t: TableId) {
    exists i :: 0 <= i < |es| && es[i].table == t && es[i].history != []
  }

  lemma {:induction false} HistoryLoads(m: map<TableId, seq<TableState>>, es: seq<StateEntry>)
    requires forall i | 0 <= i < |es| :: StateEntryOf(m, es[i])
    ensures forall t :: t in LoadHistory(es) <==> HasHistory(es, t)
    ensures forall t | t in LoadHistory(es) :: t in m && |m[t]| > 1 && LoadHistory(es)[t] == Front(m[t])
  {
    if es != [] {
      var n := |es| - 1;
      HistoryLoads(m, es[..n]);
      assert StateEntryOf(m, es[n]);
      hide HasHistory;
      forall t
        ensures HasHistory(es, t) <==> HasHistory(es[..n], t) || (es[n].table == t && es[n].history != [])
      {
        LastHistory(es, t);
      }
    } else {
      assert forall t :: !HasHistory(es, t);
    }
  }

  lemma LastHistory(es: seq<StateEntry>, t: TableId)
    requires es != []
    ensures HasHistory(es, t) <==> HasHistory(es[..|es| - 1], t) || (es[|es| - 1].table == t && es[|es| - 1].history != [])
  {
    var n := |es| - 1;
    if HasHistory(es[..n], t) {
      var i :| 0 <= i < n && es[..n][i].table == t && es[..n][i].history != [];
      assert es[i].table == t && es[i].history != [];
    }
    if HasHistory(es, t) && !(es[n].table == t && es[n].history != []) {
      var i :| 0 <= i < |es| && es[i].table == t && es[i].history != [];
      assert es[..n][i].table == t && es[..n][i].history != [];
    }
  }

  /** A stored schema is read back unchanged exactly when all its column types are known. */
  lemma SchemaRoundTrip(known: KnownOids, s: TableSchema)
    requires known(TEXT)
    ensures RestoreSchema(known, PersistSchema(s)) == s <==> KnownSchema(known, s)
  {
    var r := RestoreSchema(known, PersistSchema(s));
    if KnownSchema(known, s) {
      assert r.columns == s.columns;
    }
    if r == s {
      forall i | 0 <= i < |s.columns|
        ensures known(s.columns[i].typ)
      {
        assert r.columns[i] == RestoreColumn(known, s.columns[i]);
      }
    }
  }

  /** The loaded versions are those listed, each as it is in `schemas`. */
  ghost predicate LoadedFrom(loaded: Schemas, schemas: Schemas, es: seq<SchemaEntry>) {
    && (forall t, s :: s in Versions(loaded, t) <==> HasSchema(es, t, s))
    && (forall t | t in loaded :: t in schemas && loaded[t] != map[])
    && (forall t, s | s in Versions(loaded, t) :: s in Versions(schemas, t) && Versions(loaded, t)[s] == schemas[t][s])
  }

  lemma {:induction false} SchemasLoadSome(known: KnownOids, schemas: Schemas, es: seq<SchemaEntry>)
    requires SchemasKeyed(schemas) && known(TEXT)
    requires forall t, s | t in schemas && s in schemas[t] :: KnownSchema(known, schemas[t][s])
    requires forall i | 0 <= i < |es| :: SchemaEntryOf(schemas, es[i])
    ensures LoadedFrom(LoadSchemas(known, es), schemas, es)
  {
    if es != [] {
      var n := |es| - 1;
      SchemasLoadSome(known, schemas, es[..n]);
      var e := es[n];
      var key := SnapshotId(e.snapshot.0, e.snapshot.1);
      assert SchemaEntryOf(schemas, e);
      SchemaRoundTrip(known, schemas[e.table][key]);
      assert es == es[..n] + [e];
      hide LoadedFrom, KnownSchema, RestoreSchema, Insert;
      InsertLoads(LoadSchemas(known, es[..n]), schemas, es[..n], e);
    } else {
      assert forall t, s :: !HasSchema(es, t, s);
    }
  }

  lemma InsertLoads(before: Schemas, schemas: Schemas, es: seq<SchemaEntry>, e: SchemaEntry)
    requires LoadedFrom(before, schemas, es) && SchemasKeyed(schemas) && SchemaEntryOf(schemas, e)
    ensures LoadedFrom(Insert(before, schemas[e.table][SnapshotId(e.snapshot.0, e.snapshot.1)]), schemas, es + [e])
  {
    var key := SnapshotId(e.snapshot.0, e.snapshot.1);
    var schema := schemas[e.table][key];
    assert schema.id == e.table && schema.snapshot == key;
    var after := Insert(before, schema);
    hide HasSchema, SchemasKeyed, SchemaEntryOf;
    forall t: TableId, s
      ensures s in Versions(after, t) <==> HasSchema(es + [e], t, s)
    {
      OneMore(es, e, t, s);
      Inserted(before, schema, t);
    }
    forall t, s | s in Versions(after, t)
      ensures s in Versions(schemas, t) && Versions(after, t)[s] == schemas[t][s]
    {
      Inserted(before, schema, t);
    }
  }

  lemma Inserted(before: Schemas, s: TableSchema, t: TableId)
    ensures Versions(Insert(before, s), t) == if t == s.id then Versions(before, t)[s.snapshot := s] else Versions(before, t)
  {
  }

  lemma OneMore(es: seq<SchemaEntry>, e: SchemaEntry, t: TableId, s: SnapshotId)
    ensures HasSchema(es + [e], t, s) <==> HasSchema(es, t, s) || (e.table == t && e.snapshot == (s.commit, s.message))
  {
    var all := es + [e];
    assert all[|es|] == e;
    if HasSchema(es, t, s) {
      StillHas(es, [e], t, s);
    }
    if HasSchema(all, t, s) && !(e.table == t && e.snapshot == (s.commit, s.message)) {
      var i :| 0 <= i < |all| && all[i].table == t && all[i].snapshot == (s.commit, s.message);
      assert es[i] == all[i];
    }
  }

  lemma SchemasLoad(known: KnownOids, schemas: Schemas, es: seq<SchemaEntry>)
    requires SchemasKeyed(schemas) && known(TEXT) && SchemasSaved(schemas, es)
    requires forall t, s | t in schemas && s in schemas[t] :: KnownSchema(known, schemas[t][s])
    ensures LoadSchemas(known, es) == WithVersions(schemas)
  {
    SchemasLoadSome(known, schemas, es);
    SameSchemas(LoadSchemas(known, es), schemas, es);
  }

  lemma SameSchemas(loaded: Schemas, schemas: Schemas, es: seq<SchemaEntry>)
    requires SchemasSaved(schemas, es) && LoadedFrom(loaded, schemas, es)
    ensures loaded == WithVersions(schemas)
  {
    hide HasSchema, SchemaEntryOf;
    forall t | t in loaded
      ensures loaded[t] == schemas[t] && schemas[t] != map[]
    {
      assert Versions(loaded, t) == loaded[t] && Versions(schemas, t) == schemas[t];
      forall s
        ensures s in loaded[t] <==> s in schemas[t]
      {
        assert s in Versions(loaded, t) <==> HasSchema(es, t, s);
      }
    }
    forall t | t in schemas && schemas[t] != map[]
      ensures t in loaded
    {
      NonEmptyMap(schemas[t]);
      var s :| s in schemas[t];
      assert HasSchema(es, t, s);
      assert s in Versions(loaded, t);
    }
  }

  lemma NonEmptyMap<K, V>(m: map<K, V>)
    requires m != map[]
    ensures exists k :: k in m
  {
  }

  lemma {:induction false} DestinationsLoadSome(ds: map<TableId, Destination>, es: seq<DestinationEntry>)
    requires forall i | 0 <= i < |es| :: DestinationEntryOf(ds, es[i])
    ensures LoadDestinations(es).Ok?
    ensures forall t :: t in LoadDestinations(es).value <==> HasDestination(es, t)
    ensures forall t | t in LoadDestinations(es).value :: t in ds && LoadDestinations(es).value[t] == ds[t]
  {
    if es != [] {
      var n := |es| - 1;
      DestinationsLoadSome(ds, es[..n]);
      assert DestinationEntryOf(ds, es[n]);
      DestinationRoundTrip(es[n]);
      hide HasDestination, RestoreDestination;
      forall t
        ensures HasDestination(es, t) <==> HasDestination(es[..n], t) || es[n].table == t
      {
        LastDestination(es, t);
      }
    } else {
      assert forall t :: !HasDestination(es, t);
    }
  }

  ghost predicate HasDestination(es: seq<DestinationEntry>, t: TableId) {
    exists i :: 0 <= i < |es| && es[i].table == t
  }

  lemma LastDestination(es: seq<DestinationEntry>, t: TableId)
    requires es != []
    ensures HasDestination(es, t) <==> HasDestination(es[..|es| - 1], t) || es[|es| - 1].table == t
  {
    var n := |es| - 1;
    if HasDestination(es[..n], t) {
      var i :| 0 <= i < n && es[..n][i].table == t;
      assert es[i].table == t;
    }
    if HasDestination(es, t) && es[n].table != t {
      var i :| 0 <= i < |es| && es[i].table == t;
      assert es[..n][i].table == t;
    }
  }

  lemma DestinationsLoad(ds: map<TableId, Destination>, es: seq<DestinationEntry>)
    requires DestinationsSaved(ds, es)
    ensures LoadDestinations(es) == Ok(ds)
  {
    DestinationsLoadSome(ds, es);
    assert LoadDestinations(es).value == ds;
  }

  lemma CheckpointsLoad(cs: map<Worker, Lsn>, es: seq<(Option<TableId>, Lsn)>)
    requires CheckpointsSaved(cs, es)
    ensures LoadCheckpoints(es) == cs
  {
    hide CheckpointPairs, RestoreWorker, PersistWorker;
    var ps := CheckpointPairs(es);
    forall i | 0 <= i < |ps|
      ensures ps[i].0 in cs && cs[ps[i].0] == ps[i].1
    {
      assert CheckpointEntryOf(cs, es[i]);
    }
    forall w | w in cs
      ensures exists i :: 0 <= i < |ps| && ps[i].0 == w
    {
      var i :| 0 <= i < |es| && es[i].0 == PersistWorker(w);
      WorkerRoundTrip(w);
      assert ps[i].0 == w;
    }
    FromPairsIs(ps, cs);
  }

  lemma WorkerRoundTrip(w: Worker)
    ensures RestoreWorker(PersistWorker(w)) == w
  {
  }

  /** Reading back any persisted form of a cache gives the cache without what only lives in memory. */
  lemma LoadRestores(known: KnownOids, inner: Inner, p: Persisted)
    requires Valid(inner) && known(TEXT) && KnownTypes(known, inner) && Represents(inner, p)
    ensures Load(known, p) == Ok(Normalize(inner))
  {
    hide StatesSaved, SchemasSaved, DestinationsSaved, CheckpointsSaved, SchemasKeyed;
    hide LoadStates, LoadHistory, LoadSchemas, LoadDestinations, LoadCheckpoints, LastStates, EarlierStates, WithVersions;
    StatesLoad(Surviving(inner), p.states);
    HistoryLoad(Surviving(inner), p.states);
    SchemasLoad(known, inner.schemas, p.schemas);
    DestinationsLoad(inner.destinations, p.destinations);
    CheckpointsLoad(inner.checkpoints, p.checkpoints);
  }

  lemma {:induction false} StorableIdempotent(s: seq<TableState>)
    requires forall i | 0 <= i < |s| :: ShouldStore(s[i])
    ensures Storable(s) == s
  {
    if s != [] {
      StorableIdempotent(s[..|s| - 1]);
    }
  }

  lemma SurvivingChain(inner: Inner, t: TableId)
    requires t in inner.states && Storable(Chain(inner, t)) != []
    ensures t in Normalize(inner).states && Chain(Normalize(inner), t) == Storable(Chain(inner, t))
    ensures Storable(Chain(Normalize(inner), t)) == Storable(Chain(inner, t))
  {
    hide *;
    var s := Storable(Chain(inner, t));
    StorableTwice(Chain(inner, t));
    NormalizedState(inner, t);
    ChainIs(Normalize(inner), t, s);
  }

  lemma StorableTwice(s: seq<TableState>)
    ensures Storable(Storable(s)) == Storable(s)
  {
    var r := Storable(s);
    assert forall i | 0 <= i < |r| :: ShouldStore(r[i]);
    hide *;
    StorableIdempotent(r);
  }

  lemma ChainIs(n: Inner, t: TableId, s: seq<TableState>)
    requires s != [] && t in n.states && n.states[t] == Last(s)
    requires (if t in n.history then n.history[t] else []) == Front(s)
    ensures Chain(n, t) == s
  {
    assert s == Front(s) + [Last(s)];
  }

  lemma NormalizedState(inner: Inner, t: TableId)
    requires t in inner.states && Storable(Chain(inner, t)) != []
    ensures var n, s := Normalize(inner), Storable(Chain(inner, t));
      t in n.states && n.states[t] == Last(s) && (if t in n.history then n.history[t] else []) == Front(s)
  {
    hide Storable, Chain, WithVersions;
    assert t in Surviving(inner) && Surviving(inner)[t] == Storable(Chain(inner, t));
    hide Surviving;
  }

  /** What survives a restart is persisted by the very same values, and survives the next one unchanged. */
  lemma SurvivorsAreStable(inner: Inner, p: Persisted)
    requires Represents(inner, p)
    ensures Represents(Normalize(inner), p) && Normalize(Normalize(inner)) == Normalize(inner)
  {
    hide StatesSaved, SchemasSaved, DestinationsSaved, CheckpointsSaved, LastStates, EarlierStates, WithVersions, Surviving;
    SurvivingIsStable(inner);
    SchemasAreStable(inner.schemas, p.schemas);
  }

  lemma SurvivingIsStable(inner: Inner)
    ensures Surviving(Normalize(inner)) == Surviving(inner)
  {
    var n := Normalize(inner);
    forall t | t in n.states
      ensures Storable(Chain(n, t)) == Storable(Chain(inner, t)) && t in inner.states
    {
      SurvivingChain(inner, t);
    }
    hide Storable, Chain;
  }

  lemma SchemasAreStable(schemas: Schemas, es: seq<SchemaEntry>)
    requires SchemasSaved(schemas, es)
    ensures SchemasSaved(WithVersions(schemas), es) && WithVersions(WithVersions(schemas)) == WithVersions(schemas)
  {
    var n := WithVersions(schemas);
    forall i | 0 <= i < |es|
      ensures SchemaEntryOf(n, es[i])
    {
      assert SchemaEntryOf(schemas, es[i]);
    }
  }
}
