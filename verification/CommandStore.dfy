/** The exported functions of the store that act on commands, each run without interruption: an object
    whose statements are the steps of `Commands`.  Every method says what it makes of the table, and keeps
    whatever every run of those steps keeps. */
module CommandStore {
  import opened Common
  import opened HostSessions
  import opened Commands
  import opened CommandColumns

  const LEASE_MS: nat := 60_000
  const STALE_CLEANUP_LIMIT: nat := 20

  /** The kinds of agent events, as far as they concern a command's state. */
  datatype EventKind = Started | Finished | FailedEvent | Progress

  /** What an agent's event led to.  `failed`: the command was failed instead of started; `failedEvent`: a
      command.failed event was appended for it, which needs a thread. */
  datatype EventResult = EventResult(accepted: bool, dispatchPending: bool, failed: bool, failedEvent: bool)

  // ---------------------------------------------------------------------------------------------
  // The lease's SELECT and UPDATE ask the same question

  /** When nothing happens in between, the UPDATE accepts a row exactly when the SELECT chose it. */
  lemma SelectedIsLeased(world: World, c: Command, id: Id, connector: Id, now: Time)
    requires UniqueIds(world.sessions)
    ensures Selectable(world, c, connector, now) <==>
      MayLease(world, c, Plan(id, c, connector, JoinedHost(world, c), now))
  {}

  /** A lease binds a codex command to the session that the resolver names, if that has an app server, and
      to none otherwise; a session it was bound to before stays.  Only an automatic command without a
      target of its own is given to the session's connector for good. */
  lemma LeaseBindsSession(world: World, c: Command, id: Id, connector: Id, now: Time, until: Time)
    requires Sound(c) && c.kind == Codex && Selectable(world, c, connector, now)
    ensures var host := JoinedHost(world, c);
      var c' := LeasedTo(c, Plan(id, c, connector, host, now), until);
      && c'.leaseTarget == (if host.Some? && host.value.appServer then Some(host.value.sessionId) else None)
      && (c.leaseTarget.Some? ==> c'.leaseTarget == c.leaseTarget)
      && (c'.leaseTarget.Some? ==>
            && c'.source != Auto
            && exists h | h in world.sessions :: h.connector == connector && Some(h.sessionId) == c'.leaseTarget)
      && (c'.target != c.target ==> c.source.Auto? && c'.target == Some(connector))
      && (c.source != Auto ==> c'.source == c.source)
  {}

  // ---------------------------------------------------------------------------------------------
  // Detaching a session

  /** The fate of a command when session `x` no longer serves it, said without either guard: if the
      session that now resolves for the command can run it, the command is queued for that session;
      otherwise it fails. */
  function Settled(world: World, c: Command, x: HostSession): Command {
    var host := Coalesced(world.sessions, c.scope, NotSession(x));
    if !Affected(c, x) then c
    else if Eligible(world, c, host) && (c.source.Attached? || c.target.None? || c.target == Some(host.value.connector))
    then Requeued(c, c.source.Attached?, host)
    else FailedRow(c)
  }

  /** `x` is in the table, perhaps with other attachments than when it was read. */
  ghost predicate Listed(world: World, x: HostSession) {
    && UniqueIds(world.sessions) && UniqueSessions(world.sessions)
    && exists h :: h in world.sessions && h.id == x.id && h.connector == x.connector && h.sessionId == x.sessionId
  }

  /** Which commands a session's loss concerns, and every column of what becomes of them. */
  lemma SettledMeans(world: World, c: Command, x: HostSession)
    ensures var c' := Settled(world, c, x);
      var host := Coalesced(world.sessions, c.scope, NotSession(x));
      var concerned :=
        && c.scope.workspace == x.workspace && c.kind.Codex? && !c.mode.CliFallback?
        && (c.target.None? || c.target.value == x.connector)
        && ((x.task.Some? && c.scope.task == x.task) || (x.thread.Some? && c.scope.thread == x.thread))
        && match c.state
           case Pending => c.leaseTarget == Some(x.sessionId)
           case Leased => c.owner == Some(x.connector) && (c.leaseTarget.None? || c.leaseTarget.value == x.sessionId)
           case _ => false;
      var moves := host.Some? && Serves(world, c.scope.workspace, host.value)
        && (c.source.Attached? || c.target.None? || c.target.value == host.value.connector);
      && (!concerned ==> c' == c)
      && (concerned && !moves ==> c' == c.(state := Failed, owner := None, leaseUntil := None))
      && (concerned && moves ==>
            c' == c.(state := Pending, owner := None, leaseUntil := None, leaseTarget := Some(host.value.sessionId),
                     target := if c.source.Attached? then None else c.target,
                     source := if c.source.Attached? then Auto else c.source))
  {}

  /** The release pass followed by the failure pass settles each command one way: an affected command
      is queued again for an eligible session or failed, none is left over, and none is failed after it
      was queued. */
  lemma DetachSplits(world: World, c: Command, id: Id, x: HostSession)
    requires Listed(world, x)
    ensures var queued := Touched(world, RequeueDetached(x), id, c);
      var settled := Touched(world, FailDetached(id, x), id, queued);
      var host := Coalesced(world.sessions, c.scope, NotSession(x));
      && settled == Settled(world, c, x)
      && (Matches(world, RequeueDetached(x), id, c) ==>
            && !Matches(world, FailDetached(id, x), id, queued)
            && settled.state.Pending? && settled.owner.None?
            && Eligible(world, c, host) && settled.leaseTarget == Some(host.value.sessionId))
      && (Affected(c, x) && !Matches(world, RequeueDetached(x), id, c) ==>
            Matches(world, FailDetached(id, x), id, queued) && settled.state.Failed?)
      && (!Affected(c, x) ==> settled == c)
  {
    ExclusionsAgree(world.sessions, c.scope, x);
  }

  /** The same for the whole table. */
  lemma DetachSplitsAll(world: World, before: map<Id, Command>, queued: map<Id, Command>, x: HostSession)
    requires Listed(world, x)
    requires queued == map id | id in before :: Touched(world, RequeueDetached(x), id, before[id])
    ensures forall id | id in before ::
      && Settled(world, before[id], x) == (if MayFailDetached(world, queued[id], x) then FailedRow(queued[id])
        else queued[id])
      && (MayFailDetached(world, queued[id], x) <==>
        Affected(before[id], x) && Settled(world, before[id], x).state.Failed?)
  {
    forall id | id in before
      ensures Settled(world, before[id], x) == (if MayFailDetached(world, queued[id], x) then FailedRow(queued[id])
        else queued[id])
      ensures MayFailDetached(world, queued[id], x) <==>
        Affected(before[id], x) && Settled(world, before[id], x).state.Failed?
    {
      DetachSplits(world, before[id], id, x);
    }
  }

  /** After a detach the session that decides is the resolver's plain answer in the new table. */
  lemma DetachUsesNewResolution(rows: seq<HostSession>, scope: Scope, x: HostSession, now: Time, world: World)
    requires UniqueIds(rows) && UniqueSessions(rows) && x in rows
    requires world.sessions == Detached(rows, x.id, now)
    ensures Listed(world, x)
    ensures Coalesced(world.sessions, scope, NotSession(x)) == Resolve(world.sessions, scope)
  {
    DetachedResolves(rows, scope, x, now);
    var i :| 0 <= i < |rows| && rows[i] == x;
    assert Detached(rows, x.id, now)[i] in Detached(rows, x.id, now);
  }

  // ---------------------------------------------------------------------------------------------
  // Stale explicit targets

  /** The SELECT of the cleanup: commands bound to a session that no longer serves them. */
  predicate StaleSelected(world: World, c: Command, connector: Id, now: Time) {
    var host := Resolve(world.sessions, c.scope);
    && MayFailStale(world, c, connector, now)
    && (c.target == Some(connector) ||
        exists h | h in world.sessions ::
          && h.workspace == c.scope.workspace && h.connector == connector
          && (Some(h.sessionId) == c.leaseTarget || (host.Some? && host.value.id == h.id)))
  }

  /** What the cleanup makes of a selected command. */
  function Cleaned(world: World, c: Command, connector: Id, now: Time): Command {
    var host := Resolve(world.sessions, c.scope);
    if !c.source.Explicit? && Eligible(world, c, host) then Requeued(c, true, host) else FailedRow(c)
  }

  /** The command's own session is attached, serves it, and belongs to this connector. */
  predicate IsServedHere(world: World, c: Command, connector: Id) {
    exists h | h in world.sessions ::
      && IsAttached(world.sessions, c.scope, h) && Serves(world, c.scope.workspace, h)
      && h.connector == connector && c.leaseTarget == Some(h.sessionId)
  }

  /** Which commands the cleanup takes for a connector, and every column of what becomes of them. */
  lemma CleanupMeans(world: World, c: Command, connector: Id, now: Time)
    requires UniqueIds(world.sessions)
    ensures var host := Resolve(world.sessions, c.scope);
      var moves := !c.source.Explicit? && host.Some? && Serves(world, c.scope.workspace, host.value);
      && (StaleSelected(world, c, connector, now) <==>
            && c.kind.Codex? && c.leaseTarget.Some? && !IsServedHere(world, c, connector)
            && (match c.state
                case Pending => true
                case Leased => c.owner == Some(connector) && c.leaseUntil.Some? && c.leaseUntil.value < now
                case _ => false)
            && match c.target
               case Some(target) => target == connector
               case None =>
                 c.source.Auto? &&
                 exists h | h in world.sessions :: h.workspace == c.scope.workspace && h.connector == connector
                   && (h.sessionId == c.leaseTarget.value || IsAttached(world.sessions, c.scope, h)))
      && Cleaned(world, c, connector, now) ==
           if moves then
             c.(state := Pending, target := None, source := Auto, owner := None, leaseUntil := None,
                leaseTarget := Some(host.value.sessionId))
           else c.(state := Failed, owner := None, leaseUntil := None)
  {
    ResolveMeans(world.sessions, c.scope);
  }

  /** A command that the cleanup selects is queued again or failed, never left as it is. */
  lemma StaleIsSettled(world: World, c: Command, id: Id, connector: Id, now: Time)
    requires StaleSelected(world, c, connector, now)
    ensures var queued := Touched(world, RequeueStale(Read(id, c), connector, now), id, c);
      Cleaned(world, c, connector, now) ==
        if Matches(world, RequeueStale(Read(id, c), connector, now), id, c) then queued
        else Touched(world, FailStale(id, connector, now), id, c)
  {}

  // ---------------------------------------------------------------------------------------------

  /** The table once the commands in `ids` have failed. */
  function FailedIn(m: map<Id, Command>, ids: set<Id>): map<Id, Command> {
    map id | id in m :: if id in ids then FailedRow(m[id]) else m[id]
  }

  lemma FailOneMore(m: map<Id, Command>, ids: set<Id>, id: Id)
    requires id in m && id !in ids
    ensures FailedIn(m, ids)[id] == m[id]
    ensures FailedIn(m, ids)[id := FailedRow(m[id])] == FailedIn(m, ids + {id})
  {}

  /** The command that a statement names in its WHERE clause, if it names one. */
  function KeyOf(step: Step): (k: Option<Id>)
    ensures k.Some? ==> forall world, id, c :: Matches(world, step, id, c) ==> id == k.value
  {
    match step
    case Lease(p, _) => Some(p.id)
    case ReleaseLeased(id, _) => Some(id)
    case Advance(id, _, _, _, _) => Some(id)
    case RequeueRejected(r, _) => Some(r.id)
    case FailRejected(r, _) => Some(r.id)
    case RequeueStale(r, _, _) => Some(r.id)
    case FailStale(id, _, _) => Some(id)
    case FailDetached(id, _) => Some(id)
    case FailActive(id, _) => Some(id)
    case _ => None
  }

  /** The checks an event must pass before anything else: the command is this connector's active work. */
  predicate Answers(c: Command, connector: Id) {
    (c.target.None? || c.target == Some(connector)) && c.owner == Some(connector) && Active(c.state)
  }

  /** The commands in `ids` that a connector has leased. */
  function LeasedAmong(m: map<Id, Command>, connector: Id, ids: seq<Id>): set<Id> {
    set id | id in m && id in ids && m[id].state.Leased? && m[id].owner == Some(connector)
  }

  /** The table once those commands are pending again. */
  function ReleasedIn(m: map<Id, Command>, connector: Id, ids: seq<Id>): map<Id, Command> {
    map id | id in m ::
      if id in LeasedAmong(m, connector, ids) then m[id].(state := Pending, owner := None, leaseUntil := None)
        else m[id]
  }

  lemma ReleaseOneMore(m: map<Id, Command>, connector: Id, ids: seq<Id>, i: nat)
    requires i < |ids|
    ensures var before, id := ReleasedIn(m, connector, ids[..i]), ids[i];
      var changes := id in before && before[id].state.Leased? && before[id].owner == Some(connector);
      && ReleasedIn(m, connector, ids[..i + 1]) ==
           (if changes then before[id := before[id].(state := Pending, owner := None, leaseUntil := None)] else before)
      && |LeasedAmong(m, connector, ids[..i + 1])| == |LeasedAmong(m, connector, ids[..i])| + if changes then 1 else 0
  {
    assert ids[..i + 1] == ids[..i] + [ids[i]];
    var id, before, after := ids[i], LeasedAmong(m, connector, ids[..i]), LeasedAmong(m, connector, ids[..i + 1]);
    if id in after && id !in before {
      assert after == before + {id};
    } else {
      assert after == before;
    }
  }

  function SelectableIds(m: map<Id, Command>, world: World, connector: Id, now: Time): set<Id> {
    set id | id in m && Selectable(world, m[id], connector, now)
  }

  lemma SelectableIdsTake(m: map<Id, Command>, world: World, connector: Id, now: Time)
    ensures forall id ::
      id in SelectableIds(m, world, connector, now) <==> id in m && Takes(world, m[id], connector, now)
    ensures forall id | OldestOf(m, SelectableIds(m, world, connector, now), id) ::
      LeaseFits(world, m, id, connector, now)
  {
    forall c { TakesIsSelectable(world, c, connector, now); }
  }

  /** A command that a connector takes: the connector is online, may execute in the workspace and has the
      capability that the resolved session calls for, and nothing older waits for it. */
  predicate LeaseFits(world: World, m: map<Id, Command>, id: Id, connector: Id, now: Time) {
    && id in m && Takes(world, m[id], connector, now)
    && connector in world.connectors && world.connectors[connector].online
    && (m[id].scope.workspace, connector) in world.canExecute
    && (m[id].kind.Codex? ==>
          var host := if m[id].mode.CliFallback? then None else Resolve(world.sessions, m[id].scope);
          if host.Some? && host.value.appServer then world.connectors[connector].appServerExec
          else world.connectors[connector].codexExec)
    && forall i | i in m && Takes(world, m[i], connector, now) :: m[id].createdAt <= m[i].createdAt
  }

  lemma ServedAreNotStale(m: map<Id, Command>, world: World, connector: Id, now: Time)
    ensures UniqueIds(world.sessions) ==>
      forall id | id in m && IsServedHere(world, m[id], connector) :: id !in StaleIds(m, world, connector, now)
  {
    if UniqueIds(world.sessions) {
      forall id | id in m { CleanupMeans(world, m[id], connector, now); }
    }
  }

  /** A first row in the order of creation. */
  predicate OldestOf(m: map<Id, Command>, ids: set<Id>, id: Id) {
    id in ids && forall i | i in ids :: i in m && id in m && m[id].createdAt <= m[i].createdAt
  }

  /** A first part of the rows in the order of creation. */
  predicate OldestPart(m: map<Id, Command>, part: set<Id>, all: set<Id>) {
    part <= all && forall i, j | i in part && j in all - part :: i in m && j in m && m[i].createdAt <= m[j].createdAt
  }

  function StaleIds(m: map<Id, Command>, world: World, connector: Id, now: Time): set<Id> {
    set id | id in m && StaleSelected(world, m[id], connector, now)
  }

  /** Whether a start must name the session that it runs in. */
  predicate Gated(c: Command, kind: EventKind, session: Option<Id>) {
    kind.Started? && c.kind == Codex && (c.leaseTarget.Some? || session.Some?)
  }

  /** Whether an event is accepted for its command. */
  predicate Accepts(world: World, c: Command, connector: Id, kind: EventKind, session: Option<Id>) {
    && Answers(c, connector)
    && (Gated(c, kind, session) ==> session.Some? && MayAdvance(world, c, connector, true, session))
  }

  lemma AcceptsMeans(world: World, c: Command, connector: Id, kind: EventKind, session: Option<Id>)
    requires UniqueIds(world.sessions)
    ensures Accepts(world, c, connector, kind, session) <==> MayReport(world, c, connector, kind.Started?, session)
  {
    if session.Some? {
      GatedStartMeans(world, c, connector, session.value);
    }
  }

  /** What an accepted event makes of its command. */
  function Advanced(c: Command, kind: EventKind): Command {
    match kind
    case Started => c.(state := Running)
    case Finished => c.(state := Succeeded)
    case FailedEvent => c.(state := Failed)
    case Progress => c
  }

  /** Whether the event is a start that no longer fits. */
  predicate Misfits(world: World, c: Command, connector: Id, kind: EventKind, session: Option<Id>) {
    Answers(c, connector) && !Accepts(world, c, connector, kind, session)
  }

  class Store {
    var commands: map<Id, Command>
    var world: World
    var now: Time
    ghost var seen: set<Read>
    ghost var plans: set<Plan>

    constructor (world: World)
      ensures Snapshot() == Empty(world)
    {
      this.commands, this.world, this.now := map[], world, 0;
      seen, plans := {}, {};
    }

    ghost function Snapshot(): Db
      reads this
    {
      Db(commands, world, seen, plans, now)
    }

    /** One UPDATE statement; `changed` is its change count being positive. */
    method Update(step: Step) returns (changed: bool)
      requires Allowed(Snapshot(), step)
      requires KeyOf(step).Some? || step.RequeueDetached? || step.MigrateAttached? || step.MigrateExplicit?
      modifies this`commands
      ensures old(Good(Snapshot())) ==> Good(Snapshot())
      ensures Snapshot() == Apply(old(Snapshot()), step)
      ensures changed <==> exists id :: id in old(commands) && Matches(world, step, id, old(commands[id]))
    {
      if Good(Snapshot()) {
        StepKeepsGood(Snapshot(), step);
      }
      changed := exists id | id in commands :: Matches(world, step, id, commands[id]);
      commands := map id | id in commands :: Touched(world, step, id, commands[id]);
    }

    /** An UPDATE ... WHERE id = ?: it touches no other row. */
    method UpdateRow(step: Step, id: Id) returns (changed: bool)
      requires Allowed(Snapshot(), step) && KeyOf(step) == Some(id)
      modifies this`commands
      ensures old(Good(Snapshot())) ==> Good(Snapshot())
      ensures Snapshot() == Apply(old(Snapshot()), step)
      ensures changed <==> id in old(commands) && Matches(world, step, id, old(commands[id]))
      ensures commands == if changed then old(commands)[id := Assigned(world, step, old(commands[id]))]
        else old(commands)
    {
      changed := Update(step);
    }

    /** SELECT of one row that the handler keeps for later. */
    method Fetch(id: Id) returns (row: Option<Command>)
      modifies this`seen
      ensures old(Good(Snapshot())) ==> Good(Snapshot())
      ensures Snapshot() == Apply(old(Snapshot()), ReadRow(id))
      ensures row == if id in commands then Some(commands[id]) else None
    {
      row := if id in commands then Some(commands[id]) else None;
      if id in commands {
        seen := seen + {Read(id, commands[id])};
      }
    }

    /** Insert a command, when it can be built and its attached session is still the attached one. */
    method CreateCommand(id: Id, request: Request, attached: Option<HostSession>, chosen: Option<Id>, executable: bool)
      returns (inserted: bool)
      modifies this`commands
      ensures old(Good(Snapshot())) ==> Good(Snapshot())
      ensures inserted <==> id !in old(commands) && Build(request, attached, chosen, executable, now).Built?
                            && MayInsert(world, request, attached)
      ensures commands == if inserted
        then old(commands)[id := Build(request, attached, chosen, executable, now).command]
                          else old(commands)
    {
      ghost var step := Commands.Create(id, request, attached, chosen, executable);
      if Good(Snapshot()) {
        StepKeepsGood(Snapshot(), step);
      }
      var built := Build(request, attached, chosen, executable, now);
      inserted := id !in commands && built.Built? && MayInsert(world, request, attached);
      if inserted {
        commands := commands[id := built.command];
      }
      assert Snapshot() == Apply(old(Snapshot()), step);
    }

    /** Time passes and the other tables change. */
    method Pass(w: World, elapsed: nat)
      modifies this`world, this`now
      ensures world == w && now == old(now) + elapsed
      ensures old(Good(Snapshot())) ==> Good(Snapshot())
    {
      world, now := w, now + elapsed;
    }

    /** The lease's SELECT: the oldest row that the connector may take, with the session joined to it. */
    method SelectForLease(connector: Id) returns (plan: Option<Plan>)
      modifies this`plans
      ensures old(Good(Snapshot())) ==> Good(Snapshot())
      ensures plan.Some? <==> SelectableIds(commands, world, connector, now) != {}
      ensures plan.Some? ==>
        && var p := plan.value;
        && p in plans && p.id in commands && Selectable(world, commands[p.id], connector, now)
        && p == Plan(p.id, commands[p.id], connector, JoinedHost(world, commands[p.id]), now)
        && OldestOf(commands, SelectableIds(commands, world, connector, now), p.id)
    {
      plan := None;
      var ids := SelectableIds(commands, world, connector, now);
      if ids != {} {
        var id := Oldest(ids);
        ghost var before := Snapshot();
        plan := Some(Plan(id, commands[id], connector, JoinedHost(world, commands[id]), now));
        plans := plans + {plan.value};
        assert Snapshot() == Apply(before, SelectLease(id, connector));
        if Good(before) {
          StepKeepsGood(before, SelectLease(id, connector));
        }
      }
    }

    /** ORDER BY created_at LIMIT 1. */
    method Oldest(ids: set<Id>) returns (id: Id)
      requires ids != {} && forall i | i in ids :: i in commands
      ensures OldestOf(commands, ids, id)
    {
      id :| id in ids;
      var left := ids - {id};
      while left != {}
        invariant id in ids && left <= ids
        invariant forall i | i in ids - left :: commands[id].createdAt <= commands[i].createdAt
        decreases left
      {
        var i :| i in left;
        left := left - {i};
        if commands[i].createdAt < commands[id].createdAt {
          id := i;
        }
      }
    }

    /** Lease at most one command for a connector: the oldest it may take, for a minute. */
    method PendingCommandsForConnector(connector: Id) returns (leased: Option<Plan>)
      requires UniqueIds(world.sessions)
      modifies this`commands, this`plans
      ensures old(Good(Snapshot())) ==> Good(Snapshot())
      ensures leased.Some? <==> SelectableIds(old(commands), world, connector, now) != {}
      ensures leased.None? ==> commands == old(commands)
      ensures leased.Some? ==>
        && var p := leased.value;
        && p.id in old(commands) && p.row == old(commands[p.id]) && Selectable(world, p.row, connector, now)
        && OldestOf(old(commands), SelectableIds(old(commands), world, connector, now), p.id)
        && p.connector == connector && p.host == JoinedHost(world, p.row)
        && commands == old(commands)[p.id := LeasedTo(p.row, p, now + LEASE_MS)]
      ensures leased.Some? <==> exists id | id in old(commands) :: Takes(world, old(commands[id]), connector, now)
      ensures leased.Some? ==>
        && LeaseFits(world, old(commands), leased.value.id, connector, now)
        && commands[leased.value.id].owner == Some(connector)
        && commands[leased.value.id].leaseUntil == Some(now + 60_000)
    {
      SelectableIdsTake(commands, world, connector, now);
      leased := LeaseOldest(connector);
    }

    method LeaseOldest(connector: Id) returns (leased: Option<Plan>)
      requires UniqueIds(world.sessions)
      modifies this`commands, this`plans
      ensures old(Good(Snapshot())) ==> Good(Snapshot())
      ensures leased.Some? <==> SelectableIds(old(commands), world, connector, now) != {}
      ensures leased.None? ==> commands == old(commands)
      ensures leased.Some? ==>
        && var p := leased.value;
        && p.id in old(commands) && p.row == old(commands[p.id]) && Selectable(world, p.row, connector, now)
        && OldestOf(old(commands), SelectableIds(old(commands), world, connector, now), p.id)
        && p.connector == connector && p.host == JoinedHost(world, p.row)
        && commands == old(commands)[p.id := LeasedTo(p.row, p, now + LEASE_MS)]
    {
      leased := SelectForLease(connector);
      if leased.Some? {
        var p := leased.value;
        SelectedIsLeased(world, p.row, p.id, connector, now);
        var _ := UpdateRow(Lease(p, now + LEASE_MS), p.id);
      }
    }

    /** Give back commands whose dispatch failed. */
    method ReleaseLeasedCommands(connector: Id, ids: seq<Id>) returns (released: nat)
      modifies this`commands
      ensures old(Good(Snapshot())) ==> Good(Snapshot())
      ensures commands == ReleasedIn(old(commands), connector, ids)
      ensures released == |LeasedAmong(old(commands), connector, ids)|
    {
      released := 0;
      for i := 0 to |ids|
        invariant old(Good(Snapshot())) ==> Good(Snapshot())
        invariant commands == ReleasedIn(old(commands), connector, ids[..i])
        invariant released == |LeasedAmong(old(commands), connector, ids[..i])|
      {
        ReleaseOneMore(old(commands), connector, ids, i);
        var changed := UpdateRow(ReleaseLeased(ids[i], connector), ids[i]);
        released := released + if changed then 1 else 0;
      }
      assert ids[..|ids|] == ids;
    }

    /** Fail the active commands of a connector: all of them, or those listed. */
    method FailActiveCommands(connector: Id, scoped: Option<set<Id>>)
      modifies this`commands
      ensures old(Good(Snapshot())) ==> Good(Snapshot())
      ensures commands.Keys == old(commands).Keys
      ensures forall id | id in commands ::
        commands[id] ==
          var c := old(commands[id]);
          if (scoped.None? || id in scoped.value) && c.owner == Some(connector) && Active(c.state)
          then FailedRow(c) else c
    {
      var todo := set id | id in commands && (scoped.None? || id in scoped.value)
                           && commands[id].owner == Some(connector) && Active(commands[id].state);
      ghost var before, done := commands, {};
      while todo != {}
        invariant todo !! done && commands == FailedIn(before, done)
        invariant todo + done == set id | id in before && (scoped.None? || id in scoped.value)
                                          && before[id].owner == Some(connector) && Active(before[id].state)
        invariant old(Good(Snapshot())) ==> Good(Snapshot())
        decreases todo
      {
        var id :| id in todo;
        FailOneMore(before, done, id);
        var _ := UpdateRow(FailActive(id, connector), id);
        todo, done := todo - {id}, done + {id};
      }
    }

    /** Detach a session: clear its attachments, queue again what another session can take, fail the rest. */
    method DetachHostSession(x: HostSession) returns (failed: set<Id>)
      requires UniqueIds(world.sessions) && UniqueSessions(world.sessions) && x in world.sessions
      modifies this`commands, this`world
      ensures old(Good(Snapshot())) ==> Good(Snapshot())
      ensures x.task.None? && x.thread.None? ==> commands == old(commands) && world == old(world) && failed == {}
      ensures x.task.Some? || x.thread.Some? ==>
        && world == old(world).(sessions := Detached(old(world).sessions, x.id, now))
        && commands.Keys == old(commands).Keys
        && (forall id | id in commands :: commands[id] == Settled(world, old(commands[id]), x))
        && failed == set id | id in old(commands) && Affected(old(commands[id]), x) && commands[id].state.Failed?
    {
      failed := {};
      if x.task.None? && x.thread.None? {
        return;
      }
      world := world.(sessions := Detached(world.sessions, x.id, now));
      DetachUsesNewResolution(old(world).sessions, Scope(0, None, None), x, now, world);
      failed := SettleWithout(x);
    }

    /** The release pass and the failure pass for a session that was detached, or that lost its app server. */
    method SettleWithout(x: HostSession) returns (failed: set<Id>)
      requires Listed(world, x)
      modifies this`commands
      ensures old(Good(Snapshot())) ==> Good(Snapshot())
      ensures commands.Keys == old(commands).Keys
      ensures forall id | id in commands :: commands[id] == Settled(world, old(commands[id]), x)
      ensures failed == set id | id in old(commands) && Affected(old(commands[id]), x) && commands[id].state.Failed?
    {
      var _ := Update(RequeueDetached(x));
      DetachSplitsAll(world, old(commands), commands, x);
      failed := FailDetachedCommands(x);
    }

    /** The failure pass: select what is left, then fail one command at a time. */
    method FailDetachedCommands(x: HostSession) returns (failed: set<Id>)
      modifies this`commands
      ensures old(Good(Snapshot())) ==> Good(Snapshot())
      ensures failed == set id | id in old(commands) && MayFailDetached(world, old(commands[id]), x)
      ensures commands.Keys == old(commands).Keys
      ensures forall id | id in commands ::
        commands[id] == if id in failed then FailedRow(old(commands[id])) else old(commands[id])
    {
      failed := set id | id in commands && MayFailDetached(world, commands[id], x);
      var todo := failed;
      ghost var before, done := commands, {};
      while todo != {}
        invariant todo !! done && todo + done == failed && commands == FailedIn(before, done)
        invariant old(Good(Snapshot())) ==> Good(Snapshot())
        decreases todo
      {
        var id :| id in todo;
        FailOneMore(before, done, id);
        var _ := UpdateRow(FailDetached(id, x), id);
        todo, done := todo - {id}, done + {id};
      }
      assert done == failed;
    }

    /** Requeue or fail up to twenty commands whose app-server target has gone; a command that its own attached
        session serves is left alone. */
    method CleanupStaleTargets(connector: Id) returns (picked: set<Id>)
      modifies this`commands, this`seen
      ensures old(Good(Snapshot())) ==> Good(Snapshot())
      ensures commands.Keys == old(commands).Keys
      ensures |picked| <= 20
      ensures OldestPart(old(commands), picked, StaleIds(old(commands), world, connector, now))
      ensures |picked| < 20 ==> picked == StaleIds(old(commands), world, connector, now)
      ensures forall id | id in commands ::
        commands[id] ==
          if id in picked then Cleaned(world, old(commands[id]), connector, now) else old(commands[id])
      ensures UniqueIds(world.sessions) ==>
        forall id | id in commands && IsServedHere(world, old(commands[id]), connector) ::
          commands[id] == old(commands[id])
    {
      ServedAreNotStale(commands, world, connector, now);
      picked := SelectStale(connector);
      CleanupPicked(connector, picked);
    }

    method CleanupPicked(connector: Id, picked: set<Id>)
      requires picked <= StaleIds(commands, world, connector, now)
      modifies this`commands, this`seen
      ensures old(Good(Snapshot())) ==> Good(Snapshot())
      ensures commands.Keys == old(commands).Keys
      ensures forall id | id in commands ::
        commands[id] ==
          if id in picked then Cleaned(world, old(commands[id]), connector, now) else old(commands[id])
    {
      var todo := picked;
      while todo != {}
        invariant todo <= picked
        invariant commands.Keys == old(commands).Keys
        invariant old(Good(Snapshot())) ==> Good(Snapshot())
        invariant forall id | id in commands ::
          commands[id] ==
            if id in picked - todo then Cleaned(world, old(commands[id]), connector, now) else old(commands[id])
      {
        var id :| id in todo;
        CleanupOne(connector, id);
        todo := todo - {id};
      }
    }

    /** The cleanup's SELECT ... ORDER BY created_at LIMIT 20. */
    method SelectStale(connector: Id) returns (picked: set<Id>)
      ensures |picked| <= STALE_CLEANUP_LIMIT
      ensures OldestPart(commands, picked, StaleIds(commands, world, connector, now))
      ensures |picked| < STALE_CLEANUP_LIMIT ==> picked == StaleIds(commands, world, connector, now)
    {
      var stale := StaleIds(commands, world, connector, now);
      picked := {};
      while |picked| < STALE_CLEANUP_LIMIT && stale - picked != {}
        invariant OldestPart(commands, picked, stale) && |picked| <= STALE_CLEANUP_LIMIT
        decreases stale - picked
      {
        var id := Oldest(stale - picked);
        picked := picked + {id};
      }
      assert |picked| < STALE_CLEANUP_LIMIT ==> stale <= picked;
    }

    /** Requeue a selected command, or fail it when that is refused. */
    method CleanupOne(connector: Id, id: Id)
      requires id in commands && StaleSelected(world, commands[id], connector, now)
      modifies this`commands, this`seen
      ensures old(Good(Snapshot())) ==> Good(Snapshot())
      ensures commands == old(commands)[id := Cleaned(world, old(commands[id]), connector, now)]
    {
      StaleIsSettled(world, commands[id], id, connector, now);
      var row := Fetch(id);
      var queued := UpdateRow(RequeueStale(Read(id, row.value), connector, now), id);
      if !queued {
        var _ := UpdateRow(FailStale(id, connector, now), id);
      }
    }

    /** Record an agent's event against its command. */
    method RecordAgentEvent(connector: Id, id: Id, kind: EventKind, session: Option<Id>) returns (r: EventResult)
      requires UniqueIds(world.sessions)
      modifies this`commands, this`seen
      ensures old(Good(Snapshot())) ==> Good(Snapshot())
      ensures commands.Keys == old(commands).Keys
      ensures forall i | i in commands && i != id :: commands[i] == old(commands[i])
      ensures r.accepted <==> id in old(commands) && Accepts(world, old(commands[id]), connector, kind, session)
      ensures r.accepted ==> commands[id] == match kind
        case Started => old(commands[id]).(state := Running)
        case Finished => old(commands[id]).(state := Succeeded)
        case FailedEvent => old(commands[id]).(state := Failed)
        case Progress => old(commands[id])
      ensures r.accepted <==>
        id in old(commands) && MayReport(world, old(commands[id]), connector, kind.Started?, session)
      ensures r.dispatchPending <==>
        && id in old(commands) && Misfits(world, old(commands[id]), connector, kind, session)
        && MayRequeueRejected(world, old(commands[id]), old(commands[id]), connector)
      ensures r.failed <==>
        && id in old(commands) && Misfits(world, old(commands[id]), connector, kind, session) && !r.dispatchPending
        && MayFailRejected(old(commands[id]), old(commands[id]), connector)
      ensures r.failedEvent <==> r.failed && commands[id].scope.thread.Some?
      ensures id in commands ==>
        commands[id] ==
          var c := old(commands[id]);
          if r.accepted then Advanced(c, kind)
          else if r.dispatchPending then Requeued(c, c.source.Attached?, Resolve(world.sessions, c.scope))
          else if r.failed then FailedRow(c)
          else c
    {
      if id in commands {
        AcceptsMeans(world, commands[id], connector, kind, session);
      }
      var row := Fetch(id);
      r := EventResult(false, false, false, false);
      if row.None? {
        return;
      }
      var c := row.value;
      if !Answers(c, connector) {
        return;
      }
      var gated := Gated(c, kind, session);
      if gated && session.None? {
        r := RejectStart(connector, id, c);
        return;
      }
      if !kind.Progress? {
        var next := match kind case Started => Running case Finished => Succeeded case _ => Failed;
        var changed := UpdateRow(Advance(id, connector, next, gated, session), id);
        if !changed {
          assert gated;
          r := RejectStart(connector, id, c);
          return;
        }
      }
      r := EventResult(true, false, false, false);
    }

    /** The start no longer fits the attached session: queue the command again, or fail an explicit one. */
    method RejectStart(connector: Id, id: Id, c: Command) returns (r: EventResult)
      requires id in commands && commands[id] == c && Read(id, c) in seen
      requires c.owner == Some(connector)
      modifies this`commands
      ensures old(Good(Snapshot())) ==> Good(Snapshot())
      ensures !r.accepted && commands.Keys == old(commands).Keys
      ensures forall i | i in commands && i != id :: commands[i] == old(commands[i])
      ensures r.dispatchPending <==> MayRequeueRejected(world, c, c, connector)
      ensures r.failed <==> !r.dispatchPending && MayFailRejected(c, c, connector)
      ensures commands[id] ==
        if r.dispatchPending then Requeued(c, c.source.Attached?, Resolve(world.sessions, c.scope))
        else if r.failed then FailedRow(c)
        else c
      ensures r.failedEvent <==> r.failed && c.scope.thread.Some?
    {
      var queued := UpdateRow(RequeueRejected(Read(id, c), connector), id);
      var failed := false;
      if !queued {
        failed := UpdateRow(FailRejected(Read(id, c), connector), id);
      }
      r := EventResult(false, queued, failed, failed && c.scope.thread.Some?);
    }
  }
}
