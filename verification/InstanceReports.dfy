/** Reports about app-server instances as the store records them: an instance whose row says the same already
    is not written, and a snapshot stops what it omits.  The table must be as if everything were written. */
module InstanceReports {
  import opened Common

  const UNCHANGED_DEBOUNCE_MS: int := 15 * 60 * 1000
  const OMITTED: string := "Instance was omitted from the latest connector snapshot."

  datatype InstanceState = Healthy | Degraded | Draining | Restarting | Stopped
  datatype EndpointType = Managed | External

  /** A connector-wide instance names neither workspace nor thread, a workspace's names no thread. */
  datatype Scope = ConnectorWide | OfWorkspace(workspace: Id) | OfThread(thread: Id, within: Option<Id>)

  datatype Placement = Everywhere | InWorkspace(workspace: Id) | InThread(thread: Id)

  function PlacementOf(scope: Scope): Placement {
    match scope
    case ConnectorWide => Everywhere
    case OfWorkspace(w) => InWorkspace(w)
    case OfThread(t, _) => InThread(t)
  }

  datatype Instance = Instance(
    key: Id,
    scope: Scope,
    endpoint: EndpointType,
    state: InstanceState,
    activeTurns: Option<nat>,
    generation: Option<nat>,
    summary: Option<string>,
    lastError: Option<string>)

  datatype Report = Report(instances: seq<Instance>, snapshot: bool)

  datatype Identity = Identity(connector: Id, key: Id, placement: Placement)

  /** Everything a row says apart from times. */
  datatype Content = Content(
    scope: Scope,
    endpoint: EndpointType,
    state: InstanceState,
    activeTurns: nat,
    generation: nat,
    summary: Option<string>,
    lastError: Option<string>)

  /** A fingerprint distinguishes whatever it is computed from; optional texts are never empty. */
  datatype Fingerprint = Fingerprint(key: Id, content: Content)

  datatype Row = Row(
    content: Content,
    fingerprint: Fingerprint,
    lastSeen: int,
    stateChanged: int,
    summaryChanged: int,
    created: int,
    updated: int)

  type Table = map<Identity, Row>
  type Contents = map<Identity, Content>

  function OrZero(n: Option<nat>): nat { if n.None? then 0 else n.value }

  function ContentOf(i: Instance): Content {
    Content(i.scope, i.endpoint, i.state, OrZero(i.activeTurns), OrZero(i.generation), i.summary, i.lastError)
  }

  function FingerprintOf(i: Instance): Fingerprint { Fingerprint(i.key, ContentOf(i)) }

  function IdentityOf(connector: Id, i: Instance): Identity { Identity(connector, i.key, PlacementOf(i.scope)) }

  function ContentsOf(t: Table): Contents { map id | id in t :: t[id].content }

  predicate ShouldPersist(existing: Option<Row>, i: Instance, syncedAt: int) {
    || existing.None?
    || existing.value.content.state != i.state
    || existing.value.content.endpoint != i.endpoint
    || existing.value.content.scope != i.scope
    || existing.value.content.activeTurns != OrZero(i.activeTurns)
    || existing.value.content.generation != OrZero(i.generation)
    || existing.value.fingerprint != FingerprintOf(i)
    || syncedAt - existing.value.lastSeen >= UNCHANGED_DEBOUNCE_MS
  }

  function Find<V>(m: map<Identity, V>, id: Identity): Option<V> {
    if id in m then Some(m[id]) else None
  }

  function Written(existing: Option<Row>, i: Instance, syncedAt: int): Row {
    Row(ContentOf(i), FingerprintOf(i), syncedAt,
        if existing.Some? && existing.value.content.state == i.state then existing.value.stateChanged else syncedAt,
        if existing.Some? && existing.value.fingerprint == FingerprintOf(i) then existing.value.summaryChanged
          else syncedAt,
        if existing.Some? then existing.value.created else syncedAt,
        syncedAt)
  }

  function RecordOne(t: Table, connector: Id, i: Instance, syncedAt: int): Table {
    var id := IdentityOf(connector, i);
    if ShouldPersist(Find(t, id), i, syncedAt) then t[id := Written(Find(t, id), i, syncedAt)] else t
  }

  function RecordAll(t: Table, connector: Id, instances: seq<Instance>, syncedAt: int): Table {
    if instances == [] then t
    else
      var n := |instances| - 1;
      RecordOne(RecordAll(t, connector, instances[..n], syncedAt), connector, instances[n], syncedAt)
  }

  function StoppedContent(c: Content, summary: string): Content {
    c.(state := Stopped, activeTurns := 0, summary := Some(summary), lastError := None)
  }

  function StoppedRow(key: Id, row: Row, summary: string, now: int): Row {
    var content := StoppedContent(row.content, summary);
    Row(content, Fingerprint(key, content), now, now, now, row.created, now)
  }

  function Identities(connector: Id, instances: seq<Instance>): set<Identity> {
    set i | i in instances :: IdentityOf(connector, i)
  }

  /** Rows of a connector that a stop concerns: those not stopped and not in `kept`. */
  predicate Stops(id: Identity, c: Content, connector: Id, kept: set<Identity>) {
    id.connector == connector && !c.state.Stopped? && id !in kept
  }

  function StopRows(t: Table, connector: Id, kept: set<Identity>, summary: string, now: int): Table {
    map id | id in t :: if Stops(id, t[id].content, connector, kept) then StoppedRow(id.key, t[id], summary, now)
      else t[id]
  }

  function RecordReport(t: Table, connector: Id, r: Report, syncedAt: int): Table {
    var recorded := RecordAll(t, connector, r.instances, syncedAt);
    if r.snapshot then StopRows(recorded, connector, Identities(connector, r.instances), OMITTED, syncedAt)
      else recorded
  }

  function Fingerprints(instances: seq<Instance>): (f: seq<Fingerprint>)
    ensures |f| == |instances| && forall k | 0 <= k < |f| :: f[k] == FingerprintOf(instances[k])
  {
    seq(|instances|, k requires 0 <= k < |instances| => FingerprintOf(instances[k]))
  }

  // ---------------------------------------------------------------------------------------------
  // Write-through, the reference

  function WriteAll(m: Contents, connector: Id, instances: seq<Instance>): Contents {
    if instances == [] then m
    else
      var n := |instances| - 1;
      WriteAll(m, connector, instances[..n])[IdentityOf(connector, instances[n]) := ContentOf(instances[n])]
  }

  function StopAll(m: Contents, connector: Id, kept: set<Identity>, summary: string): Contents {
    map id | id in m :: if Stops(id, m[id], connector, kept) then StoppedContent(m[id], summary) else m[id]
  }

  function WriteReport(m: Contents, connector: Id, r: Report): Contents {
    var written := WriteAll(m, connector, r.instances);
    if r.snapshot then StopAll(written, connector, Identities(connector, r.instances), OMITTED) else written
  }

  // ---------------------------------------------------------------------------------------------
  // The second level loses nothing

  /** A row's fingerprint is that of its content. */
  ghost predicate Printed(t: Table) {
    forall id | id in t :: t[id].fingerprint == Fingerprint(id.key, t[id].content)
  }

  lemma RecordOneWrites(t: Table, connector: Id, i: Instance, syncedAt: int)
    requires Printed(t)
    ensures Printed(RecordOne(t, connector, i, syncedAt))
    ensures ContentsOf(RecordOne(t, connector, i, syncedAt)) == ContentsOf(t)[IdentityOf(connector, i) := ContentOf(i)]
  {}

  /** The whole row after one reported instance, column by column; it is left alone exactly if it says all of
      this already and was seen less than a quarter of an hour ago. */
  lemma RecordOneMeans(t: Table, connector: Id, i: Instance, now: int)
    requires Printed(t)
    ensures
      var id := Identity(connector, i.key, match i.scope
        case ConnectorWide => Everywhere
        case OfWorkspace(w) => InWorkspace(w)
        case OfThread(thread, _) => InThread(thread));
      var t' := RecordOne(t, connector, i, now);
      var same :=
        && id in t && t[id].content.scope == i.scope && t[id].content.endpoint == i.endpoint
        && t[id].content.state == i.state
        && t[id].content.activeTurns == (if i.activeTurns.Some? then i.activeTurns.value else 0)
        && t[id].content.generation == (if i.generation.Some? then i.generation.value else 0)
        && t[id].content.summary == i.summary && t[id].content.lastError == i.lastError;
      && (forall k | k != id :: k in t' <==> k in t) && (forall k | k != id && k in t :: t'[k] == t[k])
      && id in t'
      && if same && now - t[id].lastSeen < 900_000 then t' == t
         else
           var row := t'[id];
           && row.content.scope == i.scope && row.content.endpoint == i.endpoint && row.content.state == i.state
           && row.content.activeTurns == (if i.activeTurns.Some? then i.activeTurns.value else 0)
           && row.content.generation == (if i.generation.Some? then i.generation.value else 0)
           && row.content.summary == i.summary && row.content.lastError == i.lastError
           && row.lastSeen == now && row.updated == now
           && row.created == (if id in t then t[id].created else now)
           && row.stateChanged == (if id in t && t[id].content.state == i.state then t[id].stateChanged else now)
           && row.summaryChanged == if same then t[id].summaryChanged else now
  {}

  /** Which rows a stop concerns, and every column of what becomes of them. */
  lemma StopRowsMeans(t: Table, connector: Id, kept: set<Identity>, summary: string, now: int, id: Identity)
    requires id in t
    ensures
      var row, row' := t[id], StopRows(t, connector, kept, summary, now)[id];
      if id.connector != connector || row.content.state.Stopped? || id in kept then row' == row
      else
        && row'.content.state.Stopped? && row'.content.activeTurns == 0 && row'.content.summary == Some(summary)
        && row'.content.lastError.None? && row'.content.scope == row.content.scope
        && row'.content.endpoint == row.content.endpoint && row'.content.generation == row.content.generation
        && row'.lastSeen == now && row'.stateChanged == now && row'.summaryChanged == now && row'.updated == now
        && row'.created == row.created
  {}

  lemma {:induction false} RecordAllWrites(t: Table, connector: Id, instances: seq<Instance>, syncedAt: int)
    requires Printed(t)
    ensures Printed(RecordAll(t, connector, instances, syncedAt))
    ensures ContentsOf(RecordAll(t, connector, instances, syncedAt)) == WriteAll(ContentsOf(t), connector, instances)
  {
    if instances != [] {
      var n := |instances| - 1;
      RecordAllWrites(t, connector, instances[..n], syncedAt);
      RecordOneWrites(RecordAll(t, connector, instances[..n], syncedAt), connector, instances[n], syncedAt);
    }
  }

  lemma StopRowsStops(t: Table, connector: Id, kept: set<Identity>, summary: string, now: int)
    requires Printed(t)
    ensures Printed(StopRows(t, connector, kept, summary, now))
    ensures ContentsOf(StopRows(t, connector, kept, summary, now)) == StopAll(ContentsOf(t), connector, kept, summary)
  {}

  lemma RecordReportWrites(t: Table, connector: Id, r: Report, syncedAt: int)
    requires Printed(t)
    ensures Printed(RecordReport(t, connector, r, syncedAt))
    ensures ContentsOf(RecordReport(t, connector, r, syncedAt)) == WriteReport(ContentsOf(t), connector, r)
  {
    RecordAllWrites(t, connector, r.instances, syncedAt);
    StopRowsStops(RecordAll(t, connector, r.instances, syncedAt), connector, Identities(connector, r.instances),
      OMITTED, syncedAt);
  }

  /** What a report says about an identity: its last word counts. */
  function LastWord(report: seq<Fingerprint>, connector: Id, id: Identity): Option<Content> {
    if report == [] then None
    else
      var last := report[|report| - 1];
      if Identity(connector, last.key, PlacementOf(last.content.scope)) == id then Some(last.content)
      else LastWord(report[..|report| - 1], connector, id)
  }

  /** The table says what a cached report said. */
  ghost predicate Reflects(m: Contents, connector: Id, report: seq<Fingerprint>) {
    forall id | LastWord(report, connector, id).Some? :: Find(m, id) == LastWord(report, connector, id)
  }

  lemma {:induction false} WriteAllFinds(m: Contents, connector: Id, instances: seq<Instance>, id: Identity)
    ensures var word := LastWord(Fingerprints(instances), connector, id);
      Find(WriteAll(m, connector, instances), id) == if word.Some? then word else Find(m, id)
  {
    if instances != [] {
      var n := |instances| - 1;
      assert Fingerprints(instances)[..n] == Fingerprints(instances[..n]);
      WriteAllFinds(m, connector, instances[..n], id);
    }
  }

  lemma {:induction false} LastWordIsItsOwn(report: seq<Fingerprint>, connector: Id, id: Identity)
    ensures var word := LastWord(report, connector, id);
      && (word.Some? ==> id.connector == connector && exists f :: f in report && f.content == word.value)
      && (forall f | f in report && Identity(connector, f.key, PlacementOf(f.content.scope)) == id :: word.Some?)
  {
    if report != [] {
      var rest := report[..|report| - 1];
      assert report == rest + [report[|report| - 1]];
      LastWordIsItsOwn(rest, connector, id);
    }
  }

  lemma SameMap<V>(a: map<Identity, V>, b: map<Identity, V>)
    requires forall id :: Find(a, id) == Find(b, id)
    ensures a == b
  {
    forall id
      ensures id in a <==> id in b
      ensures id in a ==> a[id] == b[id]
    {
      assert Find(a, id) == Find(b, id);
    }
  }

  /** Writing a report again changes nothing exactly when the table reflects it. */
  lemma RewriteIsIdle(m: Contents, connector: Id, instances: seq<Instance>)
    ensures WriteAll(m, connector, instances) == m <==> Reflects(m, connector, Fingerprints(instances))
  {
    forall id
      ensures var word := LastWord(Fingerprints(instances), connector, id);
        Find(WriteAll(m, connector, instances), id) == if word.Some? then word else Find(m, id)
    {
      WriteAllFinds(m, connector, instances, id);
    }
    if Reflects(m, connector, Fingerprints(instances)) {
      SameMap(WriteAll(m, connector, instances), m);
    }
  }

  lemma WrittenIsReflected(m: Contents, connector: Id, instances: seq<Instance>)
    ensures Reflects(WriteAll(m, connector, instances), connector, Fingerprints(instances))
  {
    forall id | LastWord(Fingerprints(instances), connector, id).Some?
      ensures Find(WriteAll(m, connector, instances), id) == LastWord(Fingerprints(instances), connector, id)
    {
      WriteAllFinds(m, connector, instances, id);
    }
  }

  /** A step for one connector leaves the rows of the others alone. */
  ghost predicate OwnRowsOnly(m: Contents, m': Contents, connector: Id) {
    forall id: Identity | id.connector != connector :: Find(m, id) == Find(m', id)
  }

  lemma WriteReportIsOwn(m: Contents, connector: Id, r: Report)
    ensures OwnRowsOnly(m, WriteReport(m, connector, r), connector)
  {
    forall id: Identity | id.connector != connector
      ensures Find(m, id) == Find(WriteReport(m, connector, r), id)
    {
      WriteAllFinds(m, connector, r.instances, id);
      LastWordIsItsOwn(Fingerprints(r.instances), connector, id);
    }
  }

  lemma ReflectsElsewhere(m: Contents, m': Contents, connector: Id, other: Id, report: seq<Fingerprint>)
    requires OwnRowsOnly(m, m', connector) && other != connector && Reflects(m, other, report)
    ensures Reflects(m', other, report)
  {
    forall id | LastWord(report, other, id).Some?
      ensures Find(m', id) == LastWord(report, other, id)
    {
      LastWordIsItsOwn(report, other, id);
    }
  }

  /** After a snapshot the connector's instances that are not stopped are exactly those it reported as
      not stopped, whatever the table held before. */
  lemma SnapshotIsExact(t: Table, connector: Id, r: Report, syncedAt: int, id: Identity)
    requires Printed(t) && r.snapshot && id.connector == connector
    ensures var t' := RecordReport(t, connector, r, syncedAt);
      var word := LastWord(Fingerprints(r.instances), connector, id);
      && (id in t' && !t'[id].content.state.Stopped? <==> word.Some? && !word.value.state.Stopped?)
      && (word.Some? ==> id in t' && t'[id].content == word.value)
  {
    RecordReportWrites(t, connector, r, syncedAt);
    WriteAllFinds(ContentsOf(t), connector, r.instances, id);
    LastWordIsItsOwn(Fingerprints(r.instances), connector, id);
    ReportedIsIn(connector, r.instances, id);
    var m := WriteReport(ContentsOf(t), connector, r);
    assert Find(m, id) == Find(ContentsOf(RecordReport(t, connector, r, syncedAt)), id);
  }

  lemma ReportedIsIn(connector: Id, instances: seq<Instance>, id: Identity)
    ensures id in Identities(connector, instances) <==> LastWord(Fingerprints(instances), connector, id).Some?
  {
    var prints := Fingerprints(instances);
    LastWordIsItsOwn(prints, connector, id);
    if id in Identities(connector, instances) {
      var i :| i in instances && IdentityOf(connector, i) == id;
      var k :| 0 <= k < |instances| && instances[k] == i;
      assert prints[k] in prints;
    }
    if LastWord(prints, connector, id).Some? {
      LastWordHolder(prints, connector, id);
      var k :| 0 <= k < |prints| && Identity(connector, prints[k].key, PlacementOf(prints[k].content.scope)) == id;
      assert instances[k] in instances;
    }
  }

  lemma {:induction false} LastWordHolder(report: seq<Fingerprint>, connector: Id, id: Identity)
    requires LastWord(report, connector, id).Some?
    ensures exists k | 0 <= k < |report| ::
      Identity(connector, report[k].key, PlacementOf(report[k].content.scope)) == id
  {
    var n := |report| - 1;
    if Identity(connector, report[n].key, PlacementOf(report[n].content.scope)) != id {
      LastWordHolder(report[..n], connector, id);
      var k :| 0 <= k < n && Identity(connector, report[..n][k].key, PlacementOf(report[..n][k].content.scope)) == id;
      assert report[k] == report[..n][k];
    }
  }
}
