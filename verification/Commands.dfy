/** The `commands` table: every statement that reads or updates it, and what any interleaving of these
    statements keeps.  Each SQL statement is one atomic step.  A handler is a sequence of steps, so its
    reads may be out of date by the time it writes; `seen` and `plans` hold what handlers have read. */
module Commands {
  import opened Common
  import opened HostSessions

  datatype Kind = Placeholder | Codex

  /** execution_mode; NULL is `Unset`. */
  datatype Mode = Unset | AppServer | CliFallback

  datatype CommandState = Pending | Leased | Running | Succeeded | Failed

  /** target_connector_id_source. */
  datatype Source = Auto | Attached | Explicit

  datatype Command = Command(
    scope: Scope,
    kind: Kind,
    mode: Mode,
    state: CommandState,
    target: Option<Id>,
    source: Source,
    owner: Option<Id>,
    leaseUntil: Option<Time>,
    leaseTarget: Option<Id>,
    createdAt: Time)

  /** The columns of `connectors` that guards look at: status = 'online' and two capabilities. */
  datatype Connector = Connector(online: bool, codexExec: bool, appServerExec: bool)

  /** The tables that commands are matched against.  `canExecute` holds the (workspace, connector)
      pairs of workspace_connectors with can_execute = 1. */
  datatype World = World(sessions: seq<HostSession>, connectors: map<Id, Connector>, canExecute: set<(Id, Id)>)

  /** A row that some handler has read and will act upon. */
  datatype Read = Read(id: Id, row: Command)

  /** A row chosen by the lease query for a connector, with the attached session it was joined to. */
  datatype Plan = Plan(id: Id, row: Command, connector: Id, host: Option<HostSession>, at: Time)

  datatype Db = Db(commands: map<Id, Command>, world: World, seen: set<Read>, plans: set<Plan>, now: Time)

  predicate Terminal(s: CommandState) {
    s.Succeeded? || s.Failed?
  }

  predicate Active(s: CommandState) {
    s.Leased? || s.Running?
  }

  predicate LeaseExpired(c: Command, now: Time) {
    c.state.Leased? && c.leaseUntil.Some? && c.leaseUntil.value < now
  }

  // ---------------------------------------------------------------------------------------------
  // Creation

  datatype Request = Request(scope: Scope, kind: Kind, mode: Mode, target: Option<Id>)

  datatype CreateError =
    | ModeRequiresCodex
    | AppServerSessionRequired
    | ModeRequired
    | TargetDoesNotOwnSession
    | TargetUnavailable

  datatype Created = Built(command: Command) | Refused(error: CreateError)

  /** What creation decides from its reads: `attached` is the attached session found earlier, `chosen`
      the connector picked for the workspace, `executable` the check that the target may run it. */
  function Build(request: Request, attached: Option<HostSession>, chosen: Option<Id>, executable: bool,
      now: Time): Created
  {
    if request.mode != Unset && request.kind != Codex then Refused(ModeRequiresCodex)
    else
      var found := if request.mode == CliFallback then None else attached;
      var hasAppServer := found.Some? && found.value.appServer;
      if request.mode == AppServer && !hasAppServer then Refused(AppServerSessionRequired)
      else
        var mode := if request.kind == Codex && hasAppServer then AppServer else request.mode;
        if request.kind == Codex && mode == Unset then Refused(ModeRequired)
        else
          var target := if request.target.Some? then request.target
                        else if found.Some? then Some(found.value.connector) else chosen;
          var source := if request.target.Some? then Explicit else if found.Some? then Attached else Auto;
          if found.Some? && target != Some(found.value.connector) then Refused(TargetDoesNotOwnSession)
          else if target.Some? && !executable then Refused(TargetUnavailable)
          else
            var leaseTarget := if mode == AppServer && found.Some? then Some(found.value.sessionId) else None;
            Built(Command(request.scope, request.kind, mode, Pending, target, source, None, None, leaseTarget, now))
  }

  /** The INSERT repeats the resolution: the session it was built from must still be the attached one. */
  predicate MayInsert(world: World, request: Request, attached: Option<HostSession>) {
    request.mode == CliFallback || attached.None? ||
    var now := FirstOrdered(world.sessions, world.sessions, request.scope);
    && now.Some?
    && now.value.connector == attached.value.connector
    && now.value.sessionId == attached.value.sessionId
    && now.value.appServer == attached.value.appServer
  }

  // ---------------------------------------------------------------------------------------------
  // The lease: a SELECT, then an UPDATE that repeats the checks

  /** An online connector with can_execute in the workspace, able to run this kind of command through
      the session (`None`: no attached session). */
  predicate Runnable(world: World, c: Command, connector: Id, host: Option<HostSession>) {
    && (c.scope.workspace, connector) in world.canExecute
    && connector in world.connectors
    && var row := world.connectors[connector];
    && row.online
    && var appServer := host.Some? && host.value.appServer;
    && (c.kind != Codex || (appServer && row.appServerExec) || (!appServer && c.leaseTarget.None? && row.codexExec))
  }

  /** The session that the lease query joins to a command. */
  function JoinedHost(world: World, c: Command): Option<HostSession> {
    if c.mode == CliFallback then None else Resolve(world.sessions, c.scope)
  }

  predicate Selectable(world: World, c: Command, connector: Id, now: Time) {
    var host := JoinedHost(world, c);
    && (c.state.Pending? || LeaseExpired(c, now))
    && (|| c.target == Some(connector)
        || c.target.None?
        || (c.source.Auto? && host.Some? && host.value.connector == connector && host.value.appServer))
    && (host.None? || host.value.connector == connector)
    && (c.leaseTarget.None? || (host.Some? && c.leaseTarget == Some(host.value.sessionId)))
    && Runnable(world, c, connector, host)
  }

  /** The row of a session as it is now. */
  function CurrentRow(rows: seq<HostSession>, host: Option<HostSession>): Option<HostSession> {
    if host.None? then None else LatestWhere(rows, (h: HostSession) => h.id == host.value.id)
  }

  predicate MayLease(world: World, c: Command, p: Plan) {
    var now := CurrentRow(world.sessions, p.host);
    && (c.state.Pending? || LeaseExpired(c, p.at))
    && (c.mode == CliFallback ||
        var resolved := Resolve(world.sessions, c.scope);
        if p.host.None? then resolved.None? else resolved.Some? && resolved.value.id == p.host.value.id)
    && (c.leaseTarget.None? || (now.Some? && c.leaseTarget == Some(now.value.sessionId)))
    && (|| c.target == Some(p.connector)
        || c.target.None?
        || (c.source.Auto? && now.Some? && now.value.connector == p.connector && now.value.appServer))
    && (now.None? || now.value.connector == p.connector)
    && Runnable(world, c, p.connector, now)
  }

  /** The SET clause; the session and its app-server flag are those of the earlier SELECT. */
  function LeasedTo(c: Command, p: Plan, until: Time): Command {
    var throughAppServer := p.host.Some? && p.host.value.appServer;
    var adopt := c.source.Auto? && throughAppServer;
    c.(state := Leased,
       target := if adopt then Some(p.connector) else c.target,
       source := if adopt then Attached else c.source,
       owner := Some(p.connector),
       leaseUntil := Some(until),
       leaseTarget := if p.row.kind == Codex && throughAppServer then Some(p.host.value.sessionId) else None)
  }

  // ---------------------------------------------------------------------------------------------
  // Releases, failures and re-targeting

  function Requeued(c: Command, clearTarget: bool, host: Option<HostSession>): Command {
    c.(state := Pending,
       target := if clearTarget then None else c.target,
       source := if clearTarget then Auto else c.source,
       owner := None,
       leaseUntil := None,
       leaseTarget := if host.Some? then Some(host.value.sessionId) else None)
  }

  function FailedRow(c: Command): Command {
    c.(state := Failed, owner := None, leaseUntil := None)
  }

  /** A session through which an app-server command of this workspace can run now. */
  predicate Eligible(world: World, c: Command, host: Option<HostSession>) {
    && host.Some?
    && host.value.appServer
    && (c.scope.workspace, host.value.connector) in world.canExecute
    && host.value.connector in world.connectors
    && world.connectors[host.value.connector].online
    && world.connectors[host.value.connector].appServerExec
  }

  /** The commands a detached or demoted session `x` leaves behind. */
  predicate Affected(c: Command, x: HostSession) {
    && c.scope.workspace == x.workspace
    && c.kind == Codex
    && c.mode != CliFallback
    && (c.target == Some(x.connector) || c.target.None?)
    && (|| (c.state.Pending? && c.leaseTarget == Some(x.sessionId))
        || (c.state.Leased? && c.owner == Some(x.connector)
            && (c.leaseTarget == Some(x.sessionId) || c.leaseTarget.None?)))
    && (|| (x.task.Some? && c.scope.task == x.task)
        || (x.thread.Some? && c.scope.thread == x.thread))
  }

  predicate MayRequeueDetached(world: World, c: Command, x: HostSession) {
    var host := Coalesced(world.sessions, c.scope, NotSession(x));
    && Affected(c, x)
    && Eligible(world, c, host)
    && (c.source.Attached? || c.target.None? || c.target == Some(host.value.connector))
  }

  predicate MayFailDetached(world: World, c: Command, x: HostSession) {
    var host := Coalesced(world.sessions, c.scope, NotRow(x));
    && Affected(c, x)
    && !(Eligible(world, c, host) && (c.target.None? || c.target == Some(host.value.connector)))
  }

  /** State and ownership part of the guards of the stale-target cleanup. */
  predicate StaleScope(c: Command, connector: Id, now: Time) {
    && c.kind == Codex
    && (c.target == Some(connector) || (c.target.None? && c.source.Auto?))
    && c.leaseTarget.Some?
    && (c.state.Pending? || (LeaseExpired(c, now) && c.owner == Some(connector)))
  }

  predicate MayRequeueStale(world: World, c: Command, read: Command, connector: Id, now: Time) {
    var host := Resolve(world.sessions, c.scope);
    && !read.source.Explicit? && read.leaseTarget.Some?
    && StaleScope(c, connector, now)
    && !c.source.Explicit?
    && c.leaseTarget == read.leaseTarget
    && Eligible(world, c, host)
    && (host.value.connector != connector || Some(host.value.sessionId) != read.leaseTarget)
  }

  predicate MayFailStale(world: World, c: Command, connector: Id, now: Time) {
    var host := Resolve(world.sessions, c.scope);
    && StaleScope(c, connector, now)
    && !(Eligible(world, c, host) && host.value.connector == connector && c.leaseTarget == Some(host.value.sessionId))
  }

  /** The guard of the state update for an agent's event.  `gate` is the session named by a start event
      that must match the current attachment. */
  predicate MayAdvance(world: World, c: Command, connector: Id, gated: bool, gate: Option<Id>) {
    && c.owner == Some(connector)
    && Active(c.state)
    && (!gated ||
        var host := FirstOrdered(world.sessions, world.sessions, c.scope);
        && gate.Some? && c.leaseTarget == gate
        && host.Some? && host.value.connector == connector && Some(host.value.sessionId) == gate
        && host.value.appServer)
  }

  predicate MayRequeueRejected(world: World, c: Command, read: Command, connector: Id) {
    var host := Resolve(world.sessions, c.scope);
    && read.leaseTarget.Some?
    && c.owner == Some(connector) && c.state.Leased? && c.leaseTarget == read.leaseTarget
    && Eligible(world, c, host)
    && (host.value.connector != connector || Some(host.value.sessionId) != read.leaseTarget)
    && (read.source.Attached? || c.target.None? || c.target == Some(host.value.connector))
  }

  predicate MayFailRejected(c: Command, read: Command, connector: Id) {
    && read.source.Explicit? && read.leaseTarget.Some?
    && c.owner == Some(connector) && c.state.Leased? && c.leaseTarget == read.leaseTarget && c.source.Explicit?
  }

  /** A pending command that follows its session from a retired connector to its replacement. */
  predicate MayMigrateAttached(world: World, c: Command, row: HostSession, to: Id) {
    && c.scope.workspace == row.workspace
    && c.state.Pending? && c.target == Some(row.connector) && c.source.Attached?
    && (c.leaseTarget.None? || c.leaseTarget == Some(row.sessionId))
    && ((row.task.Some? && c.scope.task == row.task) || (row.thread.Some? && c.scope.thread == row.thread))
    && exists h | h in world.sessions ::
         && h.connector == to && h.sessionId == row.sessionId && h.workspace == c.scope.workspace
         && ((row.task.Some? && h.task == row.task) || (row.thread.Some? && h.thread == row.thread))
  }

  predicate MayMigrateExplicit(world: World, c: Command, row: HostSession, to: Id) {
    && c.scope.workspace == row.workspace
    && c.kind == Codex && c.state.Pending? && c.target == Some(row.connector) && c.source.Explicit?
    && c.leaseTarget == Some(row.sessionId)
    && exists h | h in world.sessions ::
         h.connector == to && h.sessionId == row.sessionId && h.workspace == c.scope.workspace && h.appServer
  }

  // ---------------------------------------------------------------------------------------------
  // Steps

  datatype Step =
    | ChangeWorld(world: World)
    | Tick(now: Time)
    | Create(id: Id, request: Request, attached: Option<HostSession>, chosen: Option<Id>, executable: bool)
    | ReadRow(id: Id)
    | SelectLease(id: Id, connector: Id)
    | Lease(plan: Plan, until: Time)
    | ReleaseLeased(id: Id, connector: Id)
    | Advance(id: Id, connector: Id, next: CommandState, gated: bool, gate: Option<Id>)
    | RequeueRejected(read: Read, connector: Id)
    | FailRejected(read: Read, connector: Id)
    | RequeueStale(read: Read, connector: Id, now: Time)
    | FailStale(id: Id, connector: Id, now: Time)
    | RequeueDetached(session: HostSession)
    | FailDetached(id: Id, session: HostSession)
    | FailActive(id: Id, connector: Id)
    | MigrateAttached(session: HostSession, to: Id)
    | MigrateExplicit(session: HostSession, to: Id)

  /** The WHERE clause of an UPDATE statement, asked of the row `c` stored under `id`. */
  predicate Matches(world: World, step: Step, id: Id, c: Command) {
    match step
    case Lease(p, _) => id == p.id && MayLease(world, c, p)
    case ReleaseLeased(i, connector) => id == i && c.state.Leased? && c.owner == Some(connector)
    case Advance(i, connector, _, gated, gate) => id == i && MayAdvance(world, c, connector, gated, gate)
    case RequeueRejected(r, connector) => id == r.id && MayRequeueRejected(world, c, r.row, connector)
    case FailRejected(r, connector) => id == r.id && MayFailRejected(c, r.row, connector)
    case RequeueStale(r, connector, now) => id == r.id && MayRequeueStale(world, c, r.row, connector, now)
    case FailStale(i, connector, now) => id == i && MayFailStale(world, c, connector, now)
    case RequeueDetached(x) => MayRequeueDetached(world, c, x)
    case FailDetached(i, x) => id == i && MayFailDetached(world, c, x)
    case FailActive(i, connector) => id == i && c.owner == Some(connector) && Active(c.state)
    case MigrateAttached(x, to) => MayMigrateAttached(world, c, x, to)
    case MigrateExplicit(x, to) => MayMigrateExplicit(world, c, x, to)
    case _ => false
  }

  /** The SET clause of an UPDATE statement. */
  function Assigned(world: World, step: Step, c: Command): Command {
    match step
    case Lease(p, until) => LeasedTo(c, p, until)
    case ReleaseLeased(_, _) => c.(state := Pending, owner := None, leaseUntil := None)
    case Advance(_, connector, next, _, _) => c.(state := next, owner := Some(connector))
    case RequeueRejected(r, _) => Requeued(c, r.row.source.Attached?, Resolve(world.sessions, c.scope))
    case RequeueStale(_, _, _) => Requeued(c, true, Resolve(world.sessions, c.scope))
    case RequeueDetached(x) => Requeued(c, c.source.Attached?, Coalesced(world.sessions, c.scope, NotSession(x)))
    case MigrateAttached(_, to) => c.(target := Some(to))
    case MigrateExplicit(_, to) => c.(target := Some(to))
    case _ => FailedRow(c)
  }

  /** What a statement makes of one row. */
  function Touched(world: World, step: Step, id: Id, c: Command): Command {
    if Matches(world, step, id, c) then Assigned(world, step, c) else c
  }

  /** The whole database after a step. */
  function Apply(db: Db, step: Step): Db {
    match step
    case ChangeWorld(w) => db.(world := w)
    case Tick(t) => if t > db.now then db.(now := t) else db
    case Create(id, request, attached, chosen, executable) =>
      var built := Build(request, attached, chosen, executable, db.now);
      if id !in db.commands && built.Built? && MayInsert(db.world, request, attached)
      then db.(commands := db.commands[id := built.command]) else db
    case ReadRow(id) =>
      if id in db.commands then db.(seen := db.seen + {Read(id, db.commands[id])}) else db
    case SelectLease(id, connector) =>
      if id in db.commands && Selectable(db.world, db.commands[id], connector, db.now)
      then db.(plans := db.plans + {Plan(id, db.commands[id], connector, JoinedHost(db.world, db.commands[id]),
        db.now)})
      else db
    case _ => db.(commands := map id | id in db.commands :: Touched(db.world, step, id, db.commands[id]))
  }

  /** Handlers only act on rows that they have read, and only with clock values already shown. */
  predicate Allowed(db: Db, step: Step) {
    match step
    case Lease(p, _) => p in db.plans
    case Advance(_, _, next, _, _) => next.Running? || Terminal(next)
    case RequeueRejected(r, _) => r in db.seen
    case FailRejected(r, _) => r in db.seen
    case RequeueStale(r, _, now) => r in db.seen && now <= db.now
    case FailStale(_, _, now) => now <= db.now
    case _ => true
  }

  predicate AllowedRun(db: Db, steps: seq<Step>)
    decreases |steps|
  {
    steps == [] || (Allowed(db, steps[0]) && AllowedRun(Apply(db, steps[0]), steps[1..]))
  }

  function Run(db: Db, steps: seq<Step>): Db
    decreases |steps|
  {
    if steps == [] then db else Run(Apply(db, steps[0]), steps[1..])
  }

  function Empty(world: World): Db {
    Db(map[], world, {}, {}, 0)
  }

  // ---------------------------------------------------------------------------------------------
  // What every step keeps

  /** The row invariant. */
  ghost predicate Sound(c: Command) {
    && (c.state.Pending? ==> c.owner.None? && c.leaseUntil.None?)
    && (Active(c.state) ==> c.owner.Some? && c.leaseUntil.Some?)
    && (!c.source.Auto? ==> c.target.Some?)
    && (Active(c.state) && c.target.Some? ==> c.owner == c.target)
    && (c.leaseTarget.Some? ==> c.kind == Codex && c.mode != CliFallback)
  }

  /** What may become of a row over any number of steps. */
  ghost predicate Evolves(c: Command, c': Command) {
    && c'.scope == c.scope && c'.kind == c.kind && c'.mode == c.mode && c'.createdAt == c.createdAt
    && (c'.source.Explicit? <==> c.source.Explicit?)
    && (c'.source.Auto? && c'.target.Some? ==> c.source.Auto? && c.target == c'.target)
    && (c.state.Running? ==>
          || (c'.state.Running? && c'.owner == c.owner)
          || Terminal(c'.state))
    && (Terminal(c.state) ==> c' == c)
  }

  /** A lease that has not expired keeps its owner, unless it is given up. */
  ghost predicate NotStolen(c: Command, c': Command, now: Time) {
    c.state.Leased? && !LeaseExpired(c, now) && c'.owner.Some? ==> c'.owner == c.owner
  }

  ghost predicate PlanSound(p: Plan) {
    && (p.row.mode == CliFallback ==> p.host.None?)
    && (|| p.row.target == Some(p.connector)
        || p.row.target.None?
        || (p.row.source.Auto? && p.host.Some? && p.host.value.appServer))
  }

  ghost predicate Good(db: Db) {
    && (forall id | id in db.commands :: Sound(db.commands[id]))
    && (forall r | r in db.seen :: r.id in db.commands && Evolves(r.row, db.commands[r.id]))
    && (forall p | p in db.plans ::
      p.id in db.commands && Evolves(p.row, db.commands[p.id]) && PlanSound(p) && p.at <= db.now)
  }

  lemma EvolvesTransitive(a: Command, b: Command, c: Command)
    requires Evolves(a, b) && Evolves(b, c)
    ensures Evolves(a, c)
  {}

  lemma BuiltIsSound(request: Request, attached: Option<HostSession>, chosen: Option<Id>, executable: bool, now: Time)
    ensures var b := Build(request, attached, chosen, executable, now);
      b.Built? ==> b.command.state.Pending? && Sound(b.command)
  {}

  /** The UPDATE of the lease, given that the row it was planned from evolved into the current one. */
  lemma LeaseKeepsRow(world: World, c: Command, p: Plan, until: Time, now: Time)
    requires Sound(c) && PlanSound(p) && Evolves(p.row, c) && p.at <= now
    requires MayLease(world, c, p)
    ensures Sound(LeasedTo(c, p, until)) && Evolves(c, LeasedTo(c, p, until))
      && NotStolen(c, LeasedTo(c, p, until), now)
  {}

  /** One step, one row. */
  lemma StepKeepsRow(db: Db, step: Step, id: Id)
    requires Good(db) && Allowed(db, step) && id in db.commands
    ensures Sound(Touched(db.world, step, id, db.commands[id]))
    ensures Evolves(db.commands[id], Touched(db.world, step, id, db.commands[id]))
    ensures NotStolen(db.commands[id], Touched(db.world, step, id, db.commands[id]), db.now)
  {}

  lemma StepKeepsGood(db: Db, step: Step)
    requires Good(db) && Allowed(db, step)
    ensures var db' := Apply(db, step);
      && Good(db') && db.commands.Keys <= db'.commands.Keys && db.now <= db'.now
      && forall id | id in db.commands ::
           Evolves(db.commands[id], db'.commands[id]) && NotStolen(db.commands[id], db'.commands[id], db.now)
  {
    var db' := Apply(db, step);
    forall id | id in db.commands
      ensures id in db'.commands && Sound(db'.commands[id]) && Evolves(db.commands[id], db'.commands[id])
      ensures NotStolen(db.commands[id], db'.commands[id], db.now)
    {
      StepKeepsRow(db, step, id);
    }
    if step.Create? {
      BuiltIsSound(step.request, step.attached, step.chosen, step.executable, db.now);
    }
    forall r | r in db.seen ensures Evolves(r.row, db'.commands[r.id]) {
      EvolvesTransitive(r.row, db.commands[r.id], db'.commands[r.id]);
    }
    forall p | p in db.plans ensures Evolves(p.row, db'.commands[p.id]) {
      EvolvesTransitive(p.row, db.commands[p.id], db'.commands[p.id]);
    }
  }

  /** Every interleaving of statements keeps the table sound, and every row evolves as allowed. */
  lemma {:induction false} RunKeepsGood(db: Db, steps: seq<Step>)
    requires Good(db) && AllowedRun(db, steps)
    ensures Good(Run(db, steps))
    ensures db.commands.Keys <= Run(db, steps).commands.Keys
    ensures forall id | id in db.commands :: Evolves(db.commands[id], Run(db, steps).commands[id])
    decreases |steps|
  {
    if steps != [] {
      var next := Apply(db, steps[0]);
      StepKeepsGood(db, steps[0]);
      RunKeepsGood(next, steps[1..]);
      forall id | id in db.commands ensures Evolves(db.commands[id], Run(db, steps).commands[id]) {
        EvolvesTransitive(db.commands[id], next.commands[id], Run(db, steps).commands[id]);
      }
    }
  }

  // ---------------------------------------------------------------------------------------------
  // Main results, for every run from an empty table

  /** Ownership and lease deadlines follow the state. */
  lemma EveryRunKeepsLifecycle(world: World, steps: seq<Step>)
    requires AllowedRun(Empty(world), steps)
    ensures forall id | id in Run(Empty(world), steps).commands ::
      var c := Run(Empty(world), steps).commands[id];
      && (c.state.Pending? ==> c.owner.None? && c.leaseUntil.None?)
      && (c.state.Leased? || c.state.Running? ==> c.owner.Some? && c.leaseUntil.Some?)
  {
    RunKeepsGood(Empty(world), steps);
  }

  /** Where a target came from, who owns leased work, and which commands may hold a session target. */
  lemma EveryRunKeepsProvenance(world: World, steps: seq<Step>)
    requires AllowedRun(Empty(world), steps)
    ensures forall id | id in Run(Empty(world), steps).commands ::
      var c := Run(Empty(world), steps).commands[id];
      && (c.source.Explicit? || c.source.Attached? ==> c.target.Some?)
      && ((c.state.Leased? || c.state.Running?) && c.target.Some? ==> c.owner == c.target)
      && (c.leaseTarget.Some? ==> c.kind == Codex && c.mode != CliFallback)
  {
    RunKeepsGood(Empty(world), steps);
  }

  /** From any point of a run to any later one: final states are final down to the last column, running
      work is never queued or leased again nor handed over, and an explicit source stays explicit. */
  lemma LaterRowsFollow(world: World, earlier: seq<Step>, later: seq<Step>, id: Id)
    requires AllowedRun(Empty(world), earlier) && AllowedRun(Run(Empty(world), earlier), later)
    requires id in Run(Empty(world), earlier).commands
    ensures var c := Run(Empty(world), earlier).commands[id];
      && id in Run(Run(Empty(world), earlier), later).commands
      && var c' := Run(Run(Empty(world), earlier), later).commands[id];
      && (c.state.Succeeded? || c.state.Failed? ==> c' == c)
      && (c.state.Running? ==> !c'.state.Pending? && !c'.state.Leased?)
      && (c.state.Running? && c'.state.Running? ==> c'.owner == c.owner)
      && (c.source.Explicit? <==> c'.source.Explicit?)
  {
    RunKeepsGood(Empty(world), earlier);
    RunKeepsGood(Run(Empty(world), earlier), later);
  }

  /** No statement, whatever it was planned from, gives an unexpired lease to another connector. */
  lemma LeaseIsNotStolen(world: World, steps: seq<Step>, step: Step, id: Id)
    requires AllowedRun(Empty(world), steps) && Allowed(Run(Empty(world), steps), step)
    requires id in Run(Empty(world), steps).commands
    ensures var db := Run(Empty(world), steps);
      && id in Apply(db, step).commands
      && var c, c' := db.commands[id], Apply(db, step).commands[id];
      (c.state.Leased? && c.leaseUntil.Some? && db.now <= c.leaseUntil.value && Active(c'.state) ==>
        c'.owner == c.owner)
  {
    RunKeepsGood(Empty(world), steps);
    StepKeepsGood(Run(Empty(world), steps), step);
  }
}
