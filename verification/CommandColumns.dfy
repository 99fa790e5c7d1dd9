/** What the guards of the statements on commands mean, said once more in terms of columns and case by case:
    who may take a command, which session a command resolves to, and what a request becomes. */
module CommandColumns {
  import opened Common
  import opened HostSessions
  import opened Commands

  // ---------------------------------------------------------------------------------------------
  // The attached session

  /** `h` is the session that a scope resolves to: attached to its task; or, if no session of the workspace
      is, attached to its thread; and the newest of these, the larger id deciding among equals. */
  predicate IsAttached(rows: seq<HostSession>, scope: Scope, h: HostSession) {
    && h in rows && h.workspace == scope.workspace
    && if scope.task.Some? && exists g | g in rows :: g.workspace == scope.workspace && g.task == scope.task then
         h.task == scope.task &&
         forall g | g in rows && g.workspace == scope.workspace && g.task == scope.task ::
           g.updatedAt < h.updatedAt || (g.updatedAt == h.updatedAt && g.id <= h.id)
       else
         scope.thread.Some? && h.thread == scope.thread &&
         forall g | g in rows && g.workspace == scope.workspace && g.thread == scope.thread ::
           g.updatedAt < h.updatedAt || (g.updatedAt == h.updatedAt && g.id <= h.id)
  }

  lemma ResolveMeans(rows: seq<HostSession>, scope: Scope)
    requires UniqueIds(rows)
    ensures Resolve(rows, scope).Some? ==> IsAttached(rows, scope, Resolve(rows, scope).value)
    ensures forall h | IsAttached(rows, scope, h) :: Resolve(rows, scope) == Some(h)
  {
    SequentialAgrees(rows, scope);
    forall h | IsAttached(rows, scope, h)
      ensures Resolve(rows, scope) == Some(h)
    {
      var r := Sequential(rows, scope);
      assert r.Some?;
      assert !Newer(h, r.value) && !Newer(r.value, h);
    }
  }

  // ---------------------------------------------------------------------------------------------
  // The lease

  /** Whether a connector may take a command now. */
  predicate Takes(world: World, c: Command, connector: Id, now: Time) {
    && (c.state.Pending? || (c.state.Leased? && c.leaseUntil.Some? && c.leaseUntil.value < now))
    && (c.scope.workspace, connector) in world.canExecute
    && connector in world.connectors && world.connectors[connector].online
    && var host := if c.mode.CliFallback? then None else Resolve(world.sessions, c.scope);
    match host
    case None =>
      // no attached session: any command of its own or without a target, by plain execution
      && (c.target.None? || c.target.value == connector) && c.leaseTarget.None?
      && (c.kind.Codex? ==> world.connectors[connector].codexExec)
    case Some(h) =>
      && h.connector == connector
      && if h.appServer then
           // through the session's app server; an automatic target gives way to the session
           && (c.target.None? || c.target.value == connector || c.source.Auto?)
           && (c.leaseTarget.None? || c.leaseTarget.value == h.sessionId)
           && (c.kind.Codex? ==> world.connectors[connector].appServerExec)
         else
           && (c.target.None? || c.target.value == connector)
           && (c.leaseTarget.None? || (c.leaseTarget.value == h.sessionId && !c.kind.Codex?))
           && (c.kind.Codex? ==> world.connectors[connector].codexExec)
  }

  lemma TakesIsSelectable(world: World, c: Command, connector: Id, now: Time)
    ensures Takes(world, c, connector, now) <==> Selectable(world, c, connector, now)
  {}

  /** What the lease makes of a row, when nothing happens between its SELECT and its UPDATE. */
  lemma LeasedMeans(world: World, c: Command, id: Id, connector: Id, now: Time, until: Time)
    requires Takes(world, c, connector, now)
    ensures var host := if c.mode.CliFallback? then None else Resolve(world.sessions, c.scope);
      var c' := LeasedTo(c, Plan(id, c, connector, JoinedHost(world, c), now), until);
      var through := host.Some? && host.value.appServer;
      && c'.state.Leased? && c'.owner == Some(connector) && c'.leaseUntil == Some(until)
      && c'.scope == c.scope && c'.kind == c.kind && c'.mode == c.mode && c'.createdAt == c.createdAt
      && c'.leaseTarget == (if c.kind.Codex? && through then Some(host.value.sessionId) else None)
      && c'.target == (if c.source.Auto? && through then Some(connector) else c.target)
      && c'.source == if c.source.Auto? && through then Attached else c.source
  {}

  // ---------------------------------------------------------------------------------------------
  // Sessions that can run a command through an app server

  /** A session with an app server on an online connector that may execute in the workspace. */
  predicate Serves(world: World, workspace: Id, h: HostSession) {
    h.appServer && (workspace, h.connector) in world.canExecute && h.connector in world.connectors &&
    match world.connectors[h.connector]
    case Connector(online, _, appServerExec) => online && appServerExec
  }

  lemma ServesIsEligible(world: World, c: Command, host: Option<HostSession>)
    ensures Eligible(world, c, host) <==> host.Some? && Serves(world, c.scope.workspace, host.value)
  {}

  // ---------------------------------------------------------------------------------------------
  // Creation

  /** What a request becomes: which requests are refused, and every column of the command of the others. */
  lemma BuildMeans(request: Request, attached: Option<HostSession>, chosen: Option<Id>, executable: bool, now: Time)
    ensures var built := Build(request, attached, chosen, executable, now);
      var codex := request.kind.Codex?;
      // CLI fallback ignores the attached session
      var session := if request.mode.CliFallback? then None else attached;
      var through := session.Some? && session.value.appServer;
      var target :=
        if request.target.Some? then request.target
        else if session.Some? then Some(session.value.connector)
        else chosen;
      && (built.Built? <==>
            && (request.mode.Unset? || codex)
            && (request.mode.AppServer? ==> through)
            && (codex ==> through || request.mode.CliFallback?)
            && (request.target.Some? && session.Some? ==> request.target.value == session.value.connector)
            && (target.Some? ==> executable))
      && (built.Built? ==>
            && built.command.scope == request.scope && built.command.kind == request.kind
            && built.command.mode == (if codex && through then AppServer else request.mode)
            && built.command.state.Pending? && built.command.owner.None? && built.command.leaseUntil.None?
            && built.command.target == target && built.command.createdAt == now
            && built.command.source ==
                 (if request.target.Some? then Explicit else if session.Some? then Attached else Auto)
            && built.command.leaseTarget == if codex && through then Some(session.value.sessionId) else None)
  {}

  /** The INSERT goes through exactly if the session found before still is the attached one. */
  lemma InsertMeans(world: World, request: Request, attached: Option<HostSession>)
    requires UniqueIds(world.sessions)
    ensures MayInsert(world, request, attached) <==>
      || request.mode.CliFallback? || attached.None?
      || exists h | h in world.sessions ::
           && IsAttached(world.sessions, request.scope, h)
           && h.connector == attached.value.connector && h.sessionId == attached.value.sessionId
           && h.appServer == attached.value.appServer
  {
    OrderedAgrees(world.sessions, request.scope);
    ResolveMeans(world.sessions, request.scope);
  }

  // ---------------------------------------------------------------------------------------------
  // Starts

  /** A start that names a session goes through exactly if the command was leased for that session, and the
      session is still attached, still the connector's, and still has an app server. */
  lemma GatedStartMeans(world: World, c: Command, connector: Id, session: Id)
    requires UniqueIds(world.sessions)
    ensures MayAdvance(world, c, connector, true, Some(session)) <==>
      && c.owner == Some(connector) && (c.state.Leased? || c.state.Running?) && c.leaseTarget == Some(session)
      && exists h | h in world.sessions ::
           && IsAttached(world.sessions, c.scope, h)
           && h.connector == connector && h.sessionId == session && h.appServer
  {
    OrderedAgrees(world.sessions, c.scope);
    ResolveMeans(world.sessions, c.scope);
  }

  /** Whether a connector's event is accepted for a command: it is its active work, and the start of a codex
      command that was leased for a session, or that names one, fits as above. */
  predicate MayReport(world: World, c: Command, connector: Id, starts: bool, session: Option<Id>) {
    && (c.target.None? || c.target.value == connector)
    && c.owner == Some(connector) && (c.state.Leased? || c.state.Running?)
    && (starts && c.kind.Codex? && (c.leaseTarget.Some? || session.Some?) ==>
          && session.Some? && c.leaseTarget == session
          && exists h | h in world.sessions ::
               && IsAttached(world.sessions, c.scope, h)
               && h.connector == connector && h.sessionId == session.value && h.appServer)
  }

  /** A refused start is queued again exactly if another session can take the command; otherwise a leased
      explicit one fails. */
  lemma RefusedStartMeans(world: World, c: Command, connector: Id)
    ensures var host := Resolve(world.sessions, c.scope);
      && (MayRequeueRejected(world, c, c, connector) <==>
            && c.state.Leased? && c.owner == Some(connector) && c.leaseTarget.Some?
            && host.Some? && Serves(world, c.scope.workspace, host.value)
            && !(host.value.connector == connector && host.value.sessionId == c.leaseTarget.value)
            && (c.source.Attached? || c.target.None? || c.target.value == host.value.connector))
      && (MayFailRejected(c, c, connector) <==>
            c.state.Leased? && c.owner == Some(connector) && c.leaseTarget.Some? && c.source.Explicit?)
  {}

  // ---------------------------------------------------------------------------------------------
  // Migration

  /** The pending commands that follow a session from a retired connector to its replacement, and what the
      two statements make of them. */
  lemma MigrationMeans(world: World, id: Id, c: Command, row: HostSession, to: Id)
    ensures var attached, explicit :=
        Touched(world, MigrateAttached(row, to), id, c), Touched(world, MigrateExplicit(row, to), id, c);
      var waits := c.state.Pending? && c.scope.workspace == row.workspace && c.target == Some(row.connector);
      && (attached == c || attached == c.(target := Some(to)))
      && (explicit == c || explicit == c.(target := Some(to)))
      && (to != row.connector ==>
            (attached != c <==>
              && waits && c.source.Attached? && (c.leaseTarget.None? || c.leaseTarget == Some(row.sessionId))
              && exists h | h in world.sessions ::
                   && h.connector == to && h.sessionId == row.sessionId && h.workspace == row.workspace
                   && ((row.task.Some? && c.scope.task == row.task)
                       || (row.thread.Some? && c.scope.thread == row.thread))
                   && ((row.task.Some? && h.task == row.task) || (row.thread.Some? && h.thread == row.thread))))
      && (to != row.connector ==>
            (explicit != c <==>
              && waits && c.kind.Codex? && c.source.Explicit? && c.leaseTarget == Some(row.sessionId)
              && exists h | h in world.sessions ::
                   && h.connector == to && h.sessionId == row.sessionId && h.workspace == row.workspace && h.appServer))
  {}
}
