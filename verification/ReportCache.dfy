/** The Durable Object in front of the store of instances: a report that repeats the last one a connector had
    accepted, within a minute, is skipped.  A report's handler checks the cache, has the store record the
    report, and then remembers it; other handlers may run between these three steps. */
module ReportCache {
  import opened Common
  import opened InstanceReports

  const REPORT_CACHE_MS: int := 60_000
  const WENT_OFFLINE: string := "Connector went offline before reporting app-server state."

  datatype Cached = Cached(report: seq<Fingerprint>, acceptedAt: int)

  /** The fingerprint of a report that may be skipped when it comes again. */
  function Cacheable(r: Report): Option<seq<Fingerprint>> {
    if r.snapshot || r.instances == [] then None
    else if exists i | i in r.instances :: !i.state.Healthy? then None
    else Some(Fingerprints(r.instances))
  }

  /** The handler of a report that was not skipped; `recorded` once the store has recorded it. */
  datatype Handler = Handler(connector: Id, report: Report, recorded: bool)

  datatype System = System(table: Table, cache: map<Id, Cached>, handlers: map<Id, Handler>)

  predicate Skips(s: System, connector: Id, r: Report, now: int) {
    var f := Cacheable(r);
    && f.Some? && connector in s.cache && s.cache[connector].report == f.value
    && now - s.cache[connector].acceptedAt < REPORT_CACHE_MS
  }

  /** The three steps of the handler `q` of a report; the close of a connector's socket; the retirement of a
      connector; a restart of the Durable Object.  `allowed`: the safety rules let instance states be
      written. */
  datatype Step =
    | Check(q: Id, connector: Id, report: Report, now: int)
    | Record(q: Id, now: int)
    | Remember(q: Id, now: int)
    | SocketGone(connector: Id, readyPeer: bool, allowed: bool, now: int)
    | Retire(connector: Id, allowed: bool, now: int)
    | Restart

  function Remembered(cache: map<Id, Cached>, connector: Id, r: Report, now: int): map<Id, Cached> {
    if Cacheable(r).None? then cache - {connector} else cache[connector := Cached(Cacheable(r).value, now)]
  }

  function Apply(s: System, step: Step): System {
    match step
    case Check(q, connector, r, now) =>
      if q in s.handlers || Skips(s, connector, r, now) then s
      else s.(handlers := s.handlers[q := Handler(connector, r, false)])
    case Record(q, now) =>
      if q !in s.handlers || s.handlers[q].recorded then s
      else
        var h := s.handlers[q];
        s.(table := RecordReport(s.table, h.connector, h.report, now),
          handlers := s.handlers[q := h.(recorded := true)])
    case Remember(q, now) =>
      if q !in s.handlers || !s.handlers[q].recorded then s
      else
        var h := s.handlers[q];
        s.(cache := Remembered(s.cache, h.connector, h.report, now), handlers := s.handlers - {q})
    case SocketGone(connector, readyPeer, allowed, now) =>
      if readyPeer then s
      else
        var table := if allowed then StopRows(s.table, connector, {}, WENT_OFFLINE, now) else s.table;
        s.(table := table, cache := s.cache - {connector})
    case Retire(connector, allowed, now) =>
      if allowed then s.(table := StopRows(s.table, connector, {}, WENT_OFFLINE, now)) else s
    case Restart => s.(cache := map[], handlers := map[])
  }

  function Run(s: System, steps: seq<Step>): System
    decreases |steps|
  {
    if steps == [] then s else Run(Apply(s, steps[0]), steps[1..])
  }

  const EMPTY := System(map[], map[], map[])

  // ---------------------------------------------------------------------------------------------
  // Write-through: every report is written, when it is skipped or when it is recorded

  function WriteThrough(s: System, m: Contents, step: Step): Contents {
    match step
    case Check(q, connector, r, now) =>
      if q !in s.handlers && Skips(s, connector, r, now) then WriteReport(m, connector, r) else m
    case Record(q, _) =>
      if q in s.handlers && !s.handlers[q].recorded then WriteReport(m, s.handlers[q].connector, s.handlers[q].report)
      else m
    case SocketGone(connector, readyPeer, allowed, _) =>
      if !readyPeer && allowed then StopAll(m, connector, {}, WENT_OFFLINE) else m
    case Retire(connector, allowed, _) => if allowed then StopAll(m, connector, {}, WENT_OFFLINE) else m
    case _ => m
  }

  function RunThrough(s: System, m: Contents, steps: seq<Step>): Contents
    decreases |steps|
  {
    if steps == [] then m else RunThrough(Apply(s, steps[0]), WriteThrough(s, m, steps[0]), steps[1..])
  }

  // ---------------------------------------------------------------------------------------------
  // Exactly when a step departs from write-through

  /** The rows of the reported instances say what the report says. */
  predicate RowsSay(t: Table, connector: Id, r: Report) {
    forall i | i in r.instances ::
      var id := IdentityOf(connector, i);
      Find(ContentsOf(t), id) == LastWord(Fingerprints(r.instances), connector, id)
  }

  /** The step skips a report although some row says otherwise. */
  predicate SkipsUnsaid(s: System, step: Step) {
    && step.Check? && step.q !in s.handlers && Skips(s, step.connector, step.report, step.now)
    && !RowsSay(s.table, step.connector, step.report)
  }

  lemma RowsSayReflects(t: Table, connector: Id, r: Report)
    ensures RowsSay(t, connector, r) <==> Reflects(ContentsOf(t), connector, Fingerprints(r.instances))
  {
    forall id
      ensures LastWord(Fingerprints(r.instances), connector, id).Some? <==>
        exists i :: i in r.instances && IdentityOf(connector, i) == id
    {
      ReportedIsIn(connector, r.instances, id);
    }
  }

  lemma CacheableIsHealthy(r: Report)
    requires Cacheable(r).Some?
    ensures !r.snapshot && Cacheable(r).value == Fingerprints(r.instances) != []
    ensures forall f | f in Cacheable(r).value :: f.content.state.Healthy?
  {}

  /** Which reports are skipped: no snapshots, of at least one instance, all healthy, that repeat what the
      connector last reported, instance by instance, less than a minute ago. */
  lemma SkipsMeans(s: System, connector: Id, r: Report, now: int)
    ensures Skips(s, connector, r, now) <==>
      && !r.snapshot && r.instances != [] && (forall i | i in r.instances :: i.state.Healthy?)
      && connector in s.cache && now - s.cache[connector].acceptedAt < 60_000
      && |s.cache[connector].report| == |r.instances|
      && forall k | 0 <= k < |r.instances| ::
           s.cache[connector].report[k] == Fingerprint(r.instances[k].key, ContentOf(r.instances[k]))
  {}

  /** What is remembered of a recorded report: its fingerprint if it may be skipped when it comes again, and
      nothing otherwise; nothing changes for other connectors. */
  lemma RememberedMeans(cache: map<Id, Cached>, connector: Id, r: Report, now: int)
    ensures
      var cache' := Remembered(cache, connector, r, now);
      && (if !r.snapshot && r.instances != [] && forall i | i in r.instances :: i.state.Healthy? then
            connector in cache' && cache'[connector] == Cached(Fingerprints(r.instances), now)
          else connector !in cache')
      && forall c | c != connector :: (c in cache' <==> c in cache) && (c in cache ==> cache'[c] == cache[c])
  {}

  /** In every interleaving: a step agrees with write-through, on every field but the times, if and only if it
      does not skip a report of which some row says otherwise. */
  lemma StepAgreesIff(s: System, step: Step)
    requires Printed(s.table)
    ensures Printed(Apply(s, step).table)
    ensures ContentsOf(Apply(s, step).table) == WriteThrough(s, ContentsOf(s.table), step) <==> !SkipsUnsaid(s, step)
  {
    match step {
      case Check(q, connector, r, now) =>
        if q !in s.handlers && Skips(s, connector, r, now) {
          CacheableIsHealthy(r);
          RewriteIsIdle(ContentsOf(s.table), connector, r.instances);
          RowsSayReflects(s.table, connector, r);
        }
      case Record(q, now) =>
        if q in s.handlers {
          RecordReportWrites(s.table, s.handlers[q].connector, s.handlers[q].report, now);
        }
      case SocketGone(connector, _, _, now) =>
        StopRowsStops(s.table, connector, {}, WENT_OFFLINE, now);
      case Retire(connector, _, now) =>
        StopRowsStops(s.table, connector, {}, WENT_OFFLINE, now);
      case _ =>
    }
  }

  predicate NeverSkipsUnsaid(s: System, steps: seq<Step>)
    decreases |steps|
  {
    steps == [] || (!SkipsUnsaid(s, steps[0]) && NeverSkipsUnsaid(Apply(s, steps[0]), steps[1..]))
  }

  lemma {:induction false} RunAgrees(s: System, steps: seq<Step>)
    requires Printed(s.table) && NeverSkipsUnsaid(s, steps)
    ensures Printed(Run(s, steps).table)
    ensures ContentsOf(Run(s, steps).table) == RunThrough(s, ContentsOf(s.table), steps)
    decreases |steps|
  {
    if steps != [] {
      StepAgreesIff(s, steps[0]);
      RunAgrees(Apply(s, steps[0]), steps[1..]);
    }
  }

  // ---------------------------------------------------------------------------------------------
  // Handlers of one connector one after the other

  /** No report is checked and no socket lost while a report of the same connector is being handled; that
      allows any interleaving of different connectors. */
  predicate Alone(s: System, step: Step) {
    match step
    case Check(_, connector, _, _) => Unhandled(s, connector)
    case SocketGone(connector, readyPeer, _, _) => readyPeer || Unhandled(s, connector)
    case _ => true
  }

  predicate Unhandled(s: System, connector: Id) {
    forall q | q in s.handlers :: s.handlers[q].connector != connector
  }

  predicate AllStopped(m: Contents, connector: Id) {
    forall id | id in m && id.connector == connector :: m[id].state.Stopped?
  }

  /** A report is healthy throughout, and the table reflects it unless a retirement has stopped its rows. */
  ghost predicate Backed(m: Contents, connector: Id, report: seq<Fingerprint>, retires: bool) {
    && report != []
    && (forall f | f in report :: f.content.state.Healthy?)
    && (Reflects(m, connector, report) || (retires && AllStopped(m, connector)))
  }

  ghost predicate HandlerBacked(m: Contents, h: Handler, retires: bool) {
    h.recorded && Cacheable(h.report).Some? ==> Backed(m, h.connector, Cacheable(h.report).value, retires)
  }

  /** What holds while handlers of one connector do not overlap; `retires`: connectors may be retired. */
  ghost predicate Serial(s: System, retires: bool) {
    && Printed(s.table)
    && (forall p, q | p in s.handlers && q in s.handlers && s.handlers[p].connector == s.handlers[q].connector ::
      p == q)
    && (forall q | q in s.handlers :: HandlerBacked(ContentsOf(s.table), s.handlers[q], retires))
    && (forall c | c in s.cache && Unhandled(s, c) :: Backed(ContentsOf(s.table), c, s.cache[c].report, retires))
  }

  lemma BackedElsewhere(m: Contents, m': Contents, connector: Id, other: Id, report: seq<Fingerprint>, retires: bool)
    requires OwnRowsOnly(m, m', connector) && other != connector && Backed(m, other, report, retires)
    ensures Backed(m', other, report, retires)
  {
    if Reflects(m, other, report) {
      ReflectsElsewhere(m, m', connector, other, report);
    } else {
      forall id | id in m' && id.connector == other ensures m'[id].state.Stopped? {
        assert Find(m, id) == Find(m', id);
      }
    }
  }

  /** A change to the rows of one connector leaves what backs the others. */
  lemma OthersStayBacked(s: System, m': Contents, connector: Id, retires: bool)
    requires Serial(s, retires) && OwnRowsOnly(ContentsOf(s.table), m', connector)
    ensures forall q | q in s.handlers && s.handlers[q].connector != connector ::
      HandlerBacked(m', s.handlers[q], retires)
    ensures forall c | c in s.cache && Unhandled(s, c) && c != connector :: Backed(m', c, s.cache[c].report, retires)
  {
    var m := ContentsOf(s.table);
    forall q | q in s.handlers && s.handlers[q].connector != connector
      ensures HandlerBacked(m', s.handlers[q], retires)
    {
      var h := s.handlers[q];
      assert HandlerBacked(m, h, retires);
      if h.recorded && Cacheable(h.report).Some? {
        BackedElsewhere(m, m', connector, h.connector, Cacheable(h.report).value, retires);
      }
    }
    forall c | c in s.cache && Unhandled(s, c) && c != connector
      ensures Backed(m', c, s.cache[c].report, retires)
    {
      BackedElsewhere(m, m', connector, c, s.cache[c].report, retires);
    }
  }

  lemma CheckKeepsSerial(s: System, step: Step, retires: bool)
    requires Serial(s, retires) && step.Check? && Alone(s, step)
    ensures Serial(Apply(s, step), retires)
  {
    var s' := Apply(s, step);
    if s' != s {
      assert s'.handlers[step.q].connector == step.connector;
      assert forall c | Unhandled(s', c) :: Unhandled(s, c) by {
        forall c | Unhandled(s', c) ensures Unhandled(s, c) {
          assert forall q | q in s.handlers :: s'.handlers[q] == s.handlers[q];
        }
      }
    }
  }

  lemma RecordKeepsSerial(s: System, step: Step, retires: bool)
    requires Serial(s, retires) && step.Record? && step.q in s.handlers && !s.handlers[step.q].recorded
    ensures Serial(Apply(s, step), retires)
  {
    var s', h := Apply(s, step), s.handlers[step.q];
    var m, m' := ContentsOf(s.table), ContentsOf(Apply(s, step).table);
    RecordReportWrites(s.table, h.connector, h.report, step.now);
    WriteReportIsOwn(m, h.connector, h.report);
    OthersStayBacked(s, m', h.connector, retires);
    assert HandlerBacked(m', s'.handlers[step.q], retires) by {
      if Cacheable(h.report).Some? {
        CacheableIsHealthy(h.report);
        WrittenIsReflected(m, h.connector, h.report.instances);
      }
    }
    assert s'.handlers[step.q].connector == h.connector;
    assert forall q | q in s.handlers :: q in s'.handlers && s'.handlers[q].connector == s.handlers[q].connector;
  }

  lemma RememberKeepsSerial(s: System, step: Step, retires: bool)
    requires Serial(s, retires) && step.Remember? && step.q in s.handlers && s.handlers[step.q].recorded
    ensures Serial(Apply(s, step), retires)
  {
    var s', h := Apply(s, step), s.handlers[step.q];
    assert HandlerBacked(ContentsOf(s.table), h, retires);
    forall c | c in s'.cache && Unhandled(s', c)
      ensures Backed(ContentsOf(s'.table), c, s'.cache[c].report, retires)
    {
      if c != h.connector {
        assert forall q | q in s.handlers && q != step.q :: s'.handlers[q] == s.handlers[q];
        assert Unhandled(s, c);
      }
    }
  }

  /** A socket loss also forgets the cached report. */
  lemma SocketLossKeepsSerial(s: System, step: Step, retires: bool)
    requires Serial(s, retires) && Alone(s, step) && step.SocketGone? && !step.readyPeer
    ensures Serial(Apply(s, step), retires)
  {
    var m' := ContentsOf(Apply(s, step).table);
    StopRowsStops(s.table, step.connector, {}, WENT_OFFLINE, step.now);
    assert OwnRowsOnly(ContentsOf(s.table), m', step.connector);
    OthersStayBacked(s, m', step.connector, retires);
  }

  /** A retirement does not. */
  lemma RetirementKeepsSerial(s: System, step: Step)
    requires Serial(s, true) && step.Retire? && step.allowed
    ensures Serial(Apply(s, step), true)
  {
    var m' := ContentsOf(Apply(s, step).table);
    StopRowsStops(s.table, step.connector, {}, WENT_OFFLINE, step.now);
    assert OwnRowsOnly(ContentsOf(s.table), m', step.connector);
    OthersStayBacked(s, m', step.connector, true);
    RetiredStaysBacked(s, m', step.connector);
  }

  lemma RetiredStaysBacked(s: System, m': Contents, connector: Id)
    requires Serial(s, true) && AllStopped(m', connector)
    ensures forall q | q in s.handlers && s.handlers[q].connector == connector :: HandlerBacked(m', s.handlers[q], true)
    ensures connector in s.cache && Unhandled(s, connector) ==> Backed(m', connector, s.cache[connector].report, true)
  {}

  lemma StepKeepsSerial(s: System, step: Step, retires: bool)
    requires Serial(s, retires) && Alone(s, step) && (step.Retire? ==> retires)
    ensures Serial(Apply(s, step), retires)
  {
    if step.Check? {
      CheckKeepsSerial(s, step, retires);
    } else if step.Record? && Apply(s, step) != s {
      RecordKeepsSerial(s, step, retires);
    } else if step.Remember? && Apply(s, step) != s {
      RememberKeepsSerial(s, step, retires);
    } else if step.SocketGone? && !step.readyPeer {
      SocketLossKeepsSerial(s, step, retires);
    } else if step.Retire? && step.allowed {
      RetirementKeepsSerial(s, step);
    }
  }

  /** Then a skipped report departs from write-through if and only if the rows of its connector are all
      stopped, which takes a retirement. */
  lemma SerialSkipIff(s: System, step: Step, retires: bool)
    requires Serial(s, retires) && Alone(s, step)
    requires step.Check? && step.q !in s.handlers && Skips(s, step.connector, step.report, step.now)
    ensures SkipsUnsaid(s, step) <==> AllStopped(ContentsOf(s.table), step.connector)
    ensures !retires ==> !SkipsUnsaid(s, step)
  {
    var m, c := ContentsOf(s.table), step.connector;
    var report := s.cache[c].report;
    CacheableIsHealthy(step.report);
    RowsSayReflects(s.table, c, step.report);
    assert Backed(m, c, report, retires);
    var f := report[0];
    var id := Identity(c, f.key, PlacementOf(f.content.scope));
    LastWordIsItsOwn(report, c, id);
    if Reflects(m, c, report) {
      assert m[id].state.Healthy?;
    }
  }

  predicate OneAtATime(s: System, steps: seq<Step>)
    decreases |steps|
  {
    steps == [] || (Alone(s, steps[0]) && OneAtATime(Apply(s, steps[0]), steps[1..]))
  }

  lemma {:induction false} SerialRunAgrees(s: System, steps: seq<Step>)
    requires Serial(s, false) && OneAtATime(s, steps) && forall step | step in steps :: !step.Retire?
    ensures ContentsOf(Run(s, steps).table) == RunThrough(s, ContentsOf(s.table), steps)
    decreases |steps|
  {
    if steps != [] {
      if SkipsUnsaid(s, steps[0]) {
        SerialSkipIff(s, steps[0], false);
      }
      StepAgreesIff(s, steps[0]);
      StepKeepsSerial(s, steps[0], false);
      SerialRunAgrees(Apply(s, steps[0]), steps[1..]);
    }
  }

  /** Both levels together refine write-through: over every run of reports, snapshots, socket losses and
      restarts in which handlers of one connector do not overlap and no connector is retired. */
  lemma DedupRefinesWriteThrough(steps: seq<Step>)
    requires OneAtATime(EMPTY, steps) && forall step | step in steps :: !step.Retire?
    ensures ContentsOf(Run(EMPTY, steps).table) == RunThrough(EMPTY, map[], steps)
  {
    SerialRunAgrees(EMPTY, steps);
    assert ContentsOf(EMPTY.table) == map[];
  }

  // ---------------------------------------------------------------------------------------------
  // Runs that depart from write-through

  lemma {:induction false} RunThen(s: System, m: Contents, steps: seq<Step>, step: Step)
    ensures Run(s, steps + [step]) == Apply(Run(s, steps), step)
    ensures RunThrough(s, m, steps + [step]) == WriteThrough(Run(s, steps), RunThrough(s, m, steps), step)
    decreases |steps|
  {
    if steps == [] {
      assert [] + [step] == [step] && [step][1..] == [];
      assert Run(Apply(s, step), []) == Apply(s, step);
      assert RunThrough(Apply(s, step), WriteThrough(s, m, step), []) == WriteThrough(s, m, step);
    } else {
      assert (steps + [step])[0] == steps[0] && (steps + [step])[1..] == steps[1..] + [step];
      RunThen(Apply(s, steps[0]), WriteThrough(s, m, steps[0]), steps[1..], step);
    }
  }

  /** A run that has agreed with write-through so far. */
  ghost predicate Reached(steps: seq<Step>, s: System) {
    && s == Run(EMPTY, steps) && Printed(s.table)
    && ContentsOf(s.table) == RunThrough(EMPTY, map[], steps)
  }

  lemma Then(steps: seq<Step>, s: System, step: Step) returns (steps': seq<Step>, s': System)
    requires Reached(steps, s) && !SkipsUnsaid(s, step)
    ensures s' == Apply(s, step) && Reached(steps', s')
  {
    RunThen(EMPTY, map[], steps, step);
    StepAgreesIff(s, step);
    steps', s' := steps + [step], Apply(s, step);
  }

  /** The next step makes the table depart from write-through. */
  ghost predicate Departs(steps: seq<Step>) {
    exists step | SkipsUnsaid(Run(EMPTY, steps), step) ::
      ContentsOf(Run(EMPTY, steps).table) == RunThrough(EMPTY, map[], steps) &&
      ContentsOf(Run(EMPTY, steps + [step]).table) != RunThrough(EMPTY, map[], steps + [step])
  }

  /** A report of one instance that an earlier identical report lets be skipped although the row says
      otherwise. */
  lemma SkipDeparts(steps: seq<Step>, s: System, q: Id, connector: Id, i: Instance, now: int)
    requires Reached(steps, s) && q !in s.handlers && i.state.Healthy?
    requires connector in s.cache && s.cache[connector].report == [FingerprintOf(i)]
    requires now - s.cache[connector].acceptedAt < REPORT_CACHE_MS
    requires Find(ContentsOf(s.table), IdentityOf(connector, i)) != Some(ContentOf(i))
    ensures Departs(steps)
  {
    var step := Check(q, connector, Report([i], false), now);
    OnlyWord(connector, i);
    assert i in step.report.instances;
    assert SkipsUnsaid(s, step);
    RunThen(EMPTY, map[], steps, step);
    StepAgreesIff(s, step);
  }

  lemma OnlyWord(connector: Id, i: Instance)
    ensures Fingerprints([i]) == [FingerprintOf(i)]
    ensures LastWord(Fingerprints([i]), connector, IdentityOf(connector, i)) == Some(ContentOf(i))
    ensures i.state.Healthy? ==> Cacheable(Report([i], false)) == Some([FingerprintOf(i)])
  {}

  /** Check and record a report of one instance that is not in the cache. */
  lemma CheckAndRecord(steps: seq<Step>, s: System, q: Id, connector: Id, i: Instance)
    returns (steps': seq<Step>, s': System)
    requires Reached(steps, s) && q !in s.handlers
    requires connector in s.cache ==> s.cache[connector].report != [FingerprintOf(i)]
    ensures Reached(steps', s') && s'.cache == s.cache
    ensures s'.handlers == s.handlers[q := Handler(connector, Report([i], false), true)]
    ensures Find(ContentsOf(s'.table), IdentityOf(connector, i)) == Some(ContentOf(i))
  {
    OnlyWord(connector, i);
    steps', s' := Then(steps, s, Check(q, connector, Report([i], false), 0));
    RecordReportWrites(s'.table, connector, Report([i], false), 0);
    WriteAllFinds(ContentsOf(s'.table), connector, [i], IdentityOf(connector, i));
    steps', s' := Then(steps', s', Record(q, 0));
  }

  lemma RememberIt(steps: seq<Step>, s: System, q: Id, connector: Id, i: Instance)
    returns (steps': seq<Step>, s': System)
    requires Reached(steps, s) && i.state.Healthy?
    requires q in s.handlers && s.handlers[q] == Handler(connector, Report([i], false), true)
    ensures Reached(steps', s')
    ensures s' == s.(cache := s.cache[connector := Cached([FingerprintOf(i)], 0)], handlers := s.handlers - {q})
  {
    OnlyWord(connector, i);
    steps', s' := Then(steps, s, Remember(q, 0));
  }

  function HealthyInstance(generation: nat): Instance {
    Instance(0, ConnectorWide, Managed, Healthy, None, Some(generation), None, None)
  }

  /** A retirement stops the rows but leaves the cached report: the next identical report is skipped, and the
      table keeps saying stopped about an instance just reported healthy. */
  lemma RetirementHidesAReport() returns (steps: seq<Step>)
    ensures Departs(steps)
  {
    var s: System;
    steps, s := CheckAndRecord([], EMPTY, 0, 0, HealthyInstance(0));
    steps, s := RememberIt(steps, s, 0, 0, HealthyInstance(0));
    StopRowsStops(s.table, 0, {}, WENT_OFFLINE, 1);
    steps, s := Then(steps, s, Retire(0, true, 1));
    SkipDeparts(steps, s, 1, 0, HealthyInstance(0), 2);
  }

  /** So does a socket lost after a report was recorded and before it is remembered. */
  lemma SocketLossHidesAReport() returns (steps: seq<Step>)
    ensures Departs(steps)
  {
    var s: System;
    steps, s := CheckAndRecord([], EMPTY, 0, 0, HealthyInstance(0));
    StopRowsStops(s.table, 0, {}, WENT_OFFLINE, 1);
    steps, s := Then(steps, s, SocketGone(0, false, true, 1));
    steps, s := RememberIt(steps, s, 0, 0, HealthyInstance(0));
    SkipDeparts(steps, s, 1, 0, HealthyInstance(0), 2);
  }

  /** So does a report that is recorded before another one and remembered after it. */
  lemma OvertakingHidesAReport() returns (steps: seq<Step>)
    ensures Departs(steps)
  {
    var s: System;
    steps, s := CheckAndRecord([], EMPTY, 0, 0, HealthyInstance(0));
    steps, s := CheckAndRecord(steps, s, 1, 0, HealthyInstance(1));
    steps, s := RememberIt(steps, s, 1, 0, HealthyInstance(1));
    steps, s := RememberIt(steps, s, 0, 0, HealthyInstance(0));
    SkipDeparts(steps, s, 2, 0, HealthyInstance(0), 1);
  }

  // ---------------------------------------------------------------------------------------------

  /** The rows of a connector that are not stopped, as the stop queries select them. */
  function NotStopped(t: Table, connector: Id): set<Identity> {
    set id | id in t && id.connector == connector && !t[id].content.state.Stopped?
  }

  class Reports {
    var table: Table
    var cache: map<Id, Cached>
    var handlers: map<Id, Handler>

    ghost function View(): System
      reads this
    {
      System(table, cache, handlers)
    }

    constructor ()
      ensures View() == EMPTY
    {
      table, cache, handlers := map[], map[], map[];
    }

    /** Upsert the reported instances, then stop what a snapshot omits. */
    method RecordInstances(connector: Id, r: Report, syncedAt: int)
      modifies this
      ensures table == RecordReport(old(table), connector, r, syncedAt) && cache == old(cache)
        && handlers == old(handlers)
    {
      var reported: set<Identity> := {};
      assert r.instances[..0] == [];
      for k := 0 to |r.instances|
        invariant cache == old(cache) && handlers == old(handlers)
        invariant table == RecordAll(old(table), connector, r.instances[..k], syncedAt)
        invariant reported == Identities(connector, r.instances[..k])
      {
        assert r.instances[..k + 1][..k] == r.instances[..k];
        assert r.instances[..k + 1] == r.instances[..k] + [r.instances[k]];
        var i := r.instances[k];
        var id := IdentityOf(connector, i);
        reported := reported + {id};
        var existing := if id in table then Some(table[id]) else None;
        if ShouldPersist(existing, i, syncedAt) {
          table := table[id := Written(existing, i, syncedAt)];
        }
      }
      assert r.instances[..|r.instances|] == r.instances;
      if r.snapshot {
        StopOthers(connector, reported, OMITTED, syncedAt);
      }
    }

    /** Stop the rows of a connector one by one, except those in `kept`. */
    method StopOthers(connector: Id, kept: set<Identity>, summary: string, now: int)
      modifies this
      ensures table == StopRows(old(table), connector, kept, summary, now) && cache == old(cache)
        && handlers == old(handlers)
    {
      var left := NotStopped(table, connector);
      while left != {}
        invariant cache == old(cache) && handlers == old(handlers) && table.Keys == old(table).Keys
        invariant left <= NotStopped(old(table), connector)
        invariant forall id | id in table ::
          table[id] ==
            if id in NotStopped(old(table), connector) - left - kept
              then StoppedRow(id.key, old(table)[id], summary, now)
            else old(table)[id]
        decreases left
      {
        var id :| id in left;
        left := left - {id};
        if id !in kept {
          table := table[id := StoppedRow(id.key, table[id], summary, now)];
        }
      }
    }

    /** The handler's first step; `skipped` if the report is not passed on to the store. */
    method CheckReport(q: Id, connector: Id, r: Report, now: int) returns (skipped: bool)
      requires q !in handlers
      modifies this
      ensures View() == Apply(old(View()), Check(q, connector, r, now))
      ensures skipped == Skips(old(View()), connector, r, now)
    {
      var cacheable := Cacheable(r);
      skipped := cacheable.Some? && connector in cache && cache[connector].report == cacheable.value
        && now - cache[connector].acceptedAt < REPORT_CACHE_MS;
      if !skipped {
        handlers := handlers[q := Handler(connector, r, false)];
      }
    }

    method RecordChecked(q: Id, now: int)
      requires q in handlers && !handlers[q].recorded
      modifies this
      ensures View() == Apply(old(View()), Record(q, now))
    {
      RecordInstances(handlers[q].connector, handlers[q].report, now);
      handlers := handlers[q := handlers[q].(recorded := true)];
    }

    method RememberRecorded(q: Id, now: int)
      requires q in handlers && handlers[q].recorded
      modifies this
      ensures View() == Apply(old(View()), Remember(q, now))
    {
      var h := handlers[q];
      var cacheable := Cacheable(h.report);
      if cacheable.None? {
        cache := cache - {h.connector};
      } else {
        cache := cache[h.connector := Cached(cacheable.value, now)];
      }
      handlers := handlers - {q};
    }

    /** The whole handler, when nothing comes in between. */
    method HandleReport(q: Id, connector: Id, r: Report, checkedAt: int, recordedAt: int, rememberedAt: int)
      returns (skipped: bool)
      requires q !in handlers
      modifies this
      ensures skipped == Skips(old(View()), connector, r, checkedAt)
      ensures skipped ==> View() == old(View())
      ensures !skipped ==>
        && table == RecordReport(old(table), connector, r, recordedAt)
        && cache == Remembered(old(cache), connector, r, rememberedAt) && handlers == old(handlers)
    {
      skipped := CheckReport(q, connector, r, checkedAt);
      if !skipped {
        assert handlers[q := handlers[q].(recorded := true)] - {q} == old(handlers);
        RecordChecked(q, recordedAt);
        RememberRecorded(q, rememberedAt);
      }
    }

    method HandleSocketGone(connector: Id, readyPeer: bool, allowed: bool, now: int)
      modifies this
      ensures View() == Apply(old(View()), SocketGone(connector, readyPeer, allowed, now))
    {
      if !readyPeer {
        cache := cache - {connector};
        if allowed {
          StopOthers(connector, {}, WENT_OFFLINE, now);
        }
      }
    }

    /** The store's part of retiring a connector: it cannot reach the cache. */
    method Retire(connector: Id, allowed: bool, now: int)
      modifies this
      ensures View() == Apply(old(View()), Step.Retire(connector, allowed, now))
    {
      if allowed {
        StopOthers(connector, {}, WENT_OFFLINE, now);
      }
    }

    method Restart()
      modifies this
      ensures View() == Apply(old(View()), Step.Restart)
    {
      cache, handlers := map[], map[];
    }
  }
}
