/** The Durable Object's bookkeeping: each agent socket remembers the commands it was given, so that their
    owner's last socket does not leave work behind when it closes. */
module ActiveCommands {
  import opened Common
  import opened HostSessions
  import opened Commands
  import opened CommandStore

  /** The attachment of an agent socket. */
  datatype Socket = Socket(connector: Id, ready: bool, active: set<Id>)

  /** Every leased or running command is listed by some live socket of its owner. */
  ghost predicate Covered(commands: map<Id, Command>, sockets: map<Id, Socket>) {
    forall id | id in commands && Active(commands[id].state) :: Listing(commands[id], id, sockets)
  }

  ghost predicate Listing(c: Command, id: Id, sockets: map<Id, Socket>) {
    exists ws | ws in sockets :: c.owner == Some(sockets[ws].connector) && id in sockets[ws].active
  }

  /** Once a connector has no socket left, it holds no leased and no running command. */
  lemma NothingIsOrphaned(commands: map<Id, Command>, sockets: map<Id, Socket>, connector: Id)
    requires Covered(commands, sockets)
    requires forall ws | ws in sockets :: sockets[ws].connector != connector
    ensures forall id | id in commands && Active(commands[id].state) :: commands[id].owner != Some(connector)
  {}

  /** Statements that never make a command active keep every listing that is still needed. */
  lemma CoveredWhenNoneStart(before: map<Id, Command>, after: map<Id, Command>, sockets: map<Id, Socket>)
    requires Covered(before, sockets)
    requires forall id | id in after && Active(after[id].state) ::
      id in before && Active(before[id].state) && before[id].owner == after[id].owner
    ensures Covered(after, sockets)
  {}

  /** Removing an entry is harmless when the command it names is not active work of that connector. */
  lemma CoveredWithoutEntry(commands: map<Id, Command>, sockets: map<Id, Socket>, ws: Id, id: Id)
    requires Covered(commands, sockets) && ws in sockets
    requires id in commands && Active(commands[id].state) ==> commands[id].owner != Some(sockets[ws].connector)
    ensures Covered(commands, sockets[ws := sockets[ws].(active := sockets[ws].active - {id})])
  {
    var after := sockets[ws := sockets[ws].(active := sockets[ws].active - {id})];
    forall i | i in commands && Active(commands[i].state) ensures Listing(commands[i], i, after) {
      assert Listing(commands[i], i, sockets);
      var w :| w in sockets && commands[i].owner == Some(sockets[w].connector) && i in sockets[w].active;
      assert w in after && commands[i].owner == Some(after[w].connector) && i in after[w].active;
    }
  }

  /** Keeping the connector and dropping no entry keeps every listing. */
  lemma CoveredByMore(commands: map<Id, Command>, sockets: map<Id, Socket>, after: map<Id, Socket>)
    requires Covered(commands, sockets)
    requires forall ws | ws in sockets ::
      ws in after && after[ws].connector == sockets[ws].connector && sockets[ws].active <= after[ws].active
    ensures Covered(commands, after)
  {}

  /** One change that a report of host sessions makes: the new table, and the session that lost its app server
      by it, if one did. */
  datatype Change = Change(sessions: seq<HostSession>, lost: Option<HostSession>)

  predicate InTable(sessions: seq<HostSession>, x: HostSession) {
    exists h | h in sessions :: h.id == x.id && h.connector == x.connector && h.sessionId == x.sessionId
  }

  /** Calls that reach the Durable Object, or the store beside it; each is handled to its end. */
  datatype Call =
    | Connected(ws: Id, connector: Id)
    | AgentReady(ws: Id)
    | Dispatch(ws: Id, cleanup: bool, sends: bool)
    | AgentEvent(ws: Id, id: Id, kind: EventKind, session: Option<Id>)
    | Gone(ws: Id)
    | Detach(detached: HostSession)
    | SessionsReported(changes: seq<Change>)
    | Create(id: Id, request: Request, attached: Option<HostSession>, chosen: Option<Id>, executable: bool)
    | Statement(step: Step)
    | Environment(world: World, elapsed: nat)

  /** The statements that handlers outside the Durable Object run on their own. */
  predicate NeverStarts(step: Step, now: Time) {
    || step.FailActive? || (step.FailStale? && step.now <= now) || step.MigrateAttached? || step.MigrateExplicit?
    || step.RequeueDetached? || step.FailDetached?
  }

  /** A socket with one more command, or one less. */
  function With(sockets: map<Id, Socket>, ws: Id, id: Id): map<Id, Socket>
    requires ws in sockets
  {
    sockets[ws := sockets[ws].(active := sockets[ws].active + {id})]
  }

  function Without(sockets: map<Id, Socket>, ws: Id, id: Id): map<Id, Socket>
    requires ws in sockets
  {
    sockets[ws := sockets[ws].(active := sockets[ws].active - {id})]
  }

  /** When an event makes the socket forget its command: the event is final, or the command was queued again
      or failed instead of started. */
  predicate Forgets(kind: EventKind, r: EventResult) {
    var final := kind.Finished? || kind.FailedEvent? || r.failedEvent;
    final || (!r.accepted && r.dispatchPending)
  }

  /** What the stale-target cleanup may leave: rows as they were, or queued again or failed. */
  ghost predicate CleanedFrom(before: map<Id, Command>, after: map<Id, Command>, world: World, connector: Id,
      now: Time) {
    after.Keys == before.Keys &&
    forall id | id in after ::
      || after[id] == before[id]
      || (StaleSelected(world, before[id], connector, now) && after[id] == Cleaned(world, before[id], connector, now))
  }

  lemma CleanedStaysCovered(before: map<Id, Command>, after: map<Id, Command>, sockets: map<Id, Socket>,
                            world: World, connector: Id, now: Time)
    requires Covered(before, sockets) && CleanedFrom(before, after, world, connector, now)
    ensures Covered(after, sockets)
  {}

  lemma SettledStaysCovered(before: map<Id, Command>, after: map<Id, Command>, sockets: map<Id, Socket>,
                            world: World, x: HostSession)
    requires Covered(before, sockets) && after.Keys == before.Keys
    requires (forall id | id in after :: after[id] == Settled(world, before[id], x)) || after == before
    ensures Covered(after, sockets)
  {}

  lemma EventStaysCovered(before: map<Id, Command>, after: map<Id, Command>, sockets: map<Id, Socket>, id: Id)
    requires Covered(before, sockets) && after.Keys == before.Keys
    requires forall i | i in after && i != id :: after[i] == before[i]
    requires id in after && Active(after[id].state) ==> Active(before[id].state) && after[id].owner == before[id].owner
    ensures Covered(after, sockets)
  {}

  lemma DetachKeepsUnique(sessions: seq<HostSession>, x: HostSession, now: Time)
    requires UniqueIds(sessions) && UniqueSessions(sessions) && x in sessions
    ensures UniqueIds(Detached(sessions, x.id, now)) && UniqueSessions(Detached(sessions, x.id, now))
  {}

  class Hub {
    const store: Store
    var sockets: map<Id, Socket>

    ghost predicate Valid()
      reads this, store
    {
      && Good(store.Snapshot())
      && UniqueIds(store.world.sessions) && UniqueSessions(store.world.sessions)
      && Covered(store.commands, sockets)
    }

    constructor (world: World)
      requires UniqueIds(world.sessions) && UniqueSessions(world.sessions)
      ensures Valid() && sockets == map[] && fresh(store)
    {
      store := new Store(world);
      sockets := map[];
    }

    method Accept(ws: Id, connector: Id)
      requires Valid() && ws !in sockets
      modifies this`sockets
      ensures Valid() && sockets == old(sockets)[ws := Socket(connector, false, {})]
    {
      sockets := sockets[ws := Socket(connector, false, {})];
      CoveredByMore(store.commands, old(sockets), sockets);
    }

    method MarkReady(ws: Id)
      requires Valid() && ws in sockets
      modifies this`sockets
      ensures Valid() && sockets == old(sockets)[ws := old(sockets)[ws].(ready := true)]
    {
      sockets := sockets[ws := sockets[ws].(ready := true)];
      CoveredByMore(store.commands, old(sockets), sockets);
    }

    /** Lease the oldest command that the socket's connector may take and send it; `sends` is whether the send
        succeeds, `queue` the table that the lease finds. */
    method SendPendingCommands(ws: Id, cleanup: bool, sends: bool)
      returns (leased: Option<Id>, ghost queue: map<Id, Command>)
      requires Valid() && ws in sockets
      modifies this`sockets, store
      ensures Valid() && store.world == old(store.world) && store.now == old(store.now)
      ensures CleanedFrom(old(store.commands), queue, store.world, old(sockets)[ws].connector, store.now)
      ensures !cleanup || !old(sockets)[ws].ready ==> queue == old(store.commands)
      ensures leased.Some? <==>
        old(sockets)[ws].ready && SelectableIds(queue, store.world, old(sockets)[ws].connector, store.now) != {}
      ensures leased.None? ==> sockets == old(sockets) && store.commands == queue
      ensures leased.Some? ==>
        OldestOf(queue, SelectableIds(queue, store.world, old(sockets)[ws].connector, store.now), leased.value)
      ensures leased.Some? && sends ==>
        && leased.value in store.commands && store.commands[leased.value].state.Leased?
        && store.commands[leased.value].owner == Some(old(sockets)[ws].connector)
        && sockets == With(old(sockets), ws, leased.value)
      ensures leased.Some? && !sends ==>
        && leased.value in store.commands && store.commands[leased.value].state.Pending?
        && sockets == old(sockets)[ws := Without(old(sockets), ws, leased.value)[ws].(ready := false)]
        && leased.value !in sockets[ws].active && !sockets[ws].ready
      ensures leased.Some? && sends ==> ws in sockets && leased.value in sockets[ws].active
    {
      leased, queue := None, store.commands;
      if !sockets[ws].ready {
        return;
      }
      if cleanup {
        Cleanup(sockets[ws].connector);
        queue := store.commands;
      }
      leased := LeaseAndSend(ws, sends);
    }

    method LeaseAndSend(ws: Id, sends: bool) returns (leased: Option<Id>)
      requires Valid() && ws in sockets
      modifies this`sockets, store
      ensures Valid() && store.world == old(store.world) && store.now == old(store.now)
      ensures leased.Some? <==>
        SelectableIds(old(store.commands), store.world, old(sockets)[ws].connector, store.now) != {}
      ensures leased.None? ==> sockets == old(sockets) && store.commands == old(store.commands)
      ensures leased.Some? ==>
        var ids := SelectableIds(old(store.commands), store.world, old(sockets)[ws].connector, store.now);
        && OldestOf(old(store.commands), ids, leased.value) && leased.value in store.commands
        && var c := store.commands[leased.value];
        if sends then
          && c.state.Leased? && c.owner == Some(old(sockets)[ws].connector)
          && sockets == With(old(sockets), ws, leased.value)
        else
          && c.state.Pending?
          && sockets == old(sockets)[ws := Without(old(sockets), ws, leased.value)[ws].(ready := false)]
    {
      ghost var active := sockets[ws].active;
      leased := LeaseFor(ws);
      if leased.Some? && !sends {
        assert active + {leased.value} - {leased.value} == active - {leased.value};
        GiveBack(ws, leased.value);
      }
    }

    method Cleanup(connector: Id)
      requires Valid()
      modifies store
      ensures Valid() && store.world == old(store.world) && store.now == old(store.now)
      ensures CleanedFrom(old(store.commands), store.commands, store.world, connector, store.now)
    {
      var _ := store.CleanupStaleTargets(connector);
      CleanedStaysCovered(old(store.commands), store.commands, sockets, store.world, connector, store.now);
    }

    /** Lease a command and list it, before it is sent. */
    method LeaseFor(ws: Id) returns (leased: Option<Id>)
      requires Valid() && ws in sockets
      modifies this`sockets, store
      ensures Valid() && store.world == old(store.world)
      ensures store.now == old(store.now)
      ensures leased.Some? <==>
        SelectableIds(old(store.commands), store.world, old(sockets)[ws].connector, store.now) != {}
      ensures leased.None? ==> sockets == old(sockets) && store.commands == old(store.commands)
      ensures leased.Some? ==>
        && leased.value in store.commands && store.commands[leased.value].state.Leased?
        && store.commands[leased.value].owner == Some(old(sockets)[ws].connector)
        && OldestOf(old(store.commands),
                    SelectableIds(old(store.commands), store.world, old(sockets)[ws].connector, store.now),
                      leased.value)
        && sockets == With(old(sockets), ws, leased.value)
    {
      var plan := store.PendingCommandsForConnector(sockets[ws].connector);
      leased := None;
      if plan.Some? {
        leased := Some(plan.value.id);
        sockets := With(sockets, ws, plan.value.id);
        LeaseIsCovered(old(store.commands), store.commands, old(sockets), sockets, ws, plan.value.id);
      }
    }

    /** The send failed: the socket takes no more work and the command goes back to the queue. */
    method GiveBack(ws: Id, id: Id)
      requires Valid() && ws in sockets
      requires id in store.commands && store.commands[id].state.Leased?
      requires store.commands[id].owner == Some(sockets[ws].connector)
      modifies this`sockets, store
      ensures Valid() && store.world == old(store.world)
      ensures store.now == old(store.now)
      ensures sockets == old(sockets)[ws := Without(old(sockets), ws, id)[ws].(ready := false)]
      ensures store.commands.Keys == old(store.commands).Keys && store.commands[id].state.Pending?
    {
      var _ := store.ReleaseLeasedCommands(sockets[ws].connector, [id]);
      CoveredWhenNoneStart(old(store.commands), store.commands, sockets);
      CoveredWithoutEntry(store.commands, sockets, ws, id);
      ghost var cleared := sockets[ws := sockets[ws].(active := sockets[ws].active - {id})];
      sockets := sockets[ws := sockets[ws].(ready := false, active := sockets[ws].active - {id})];
      CoveredByMore(store.commands, cleared, sockets);
    }

    /** Record an event of an agent and forget the command when it needs no socket any more. */
    method HandleEvent(ws: Id, id: Id, kind: EventKind, session: Option<Id>) returns (r: EventResult)
      requires Valid() && ws in sockets
      modifies this`sockets, store
      ensures Valid() && store.world == old(store.world)
      ensures r.accepted <==>
        id in old(store.commands) &&
        Accepts(store.world, old(store.commands[id]), old(sockets)[ws].connector, kind, session)
      ensures sockets == if Forgets(kind, r) then Without(old(sockets), ws, id) else old(sockets)
      ensures kind.Finished? || kind.FailedEvent? || r.failedEvent || (!r.accepted && r.dispatchPending) ==>
        id !in sockets[ws].active
      ensures !(kind.Finished? || kind.FailedEvent? || r.failedEvent || (!r.accepted && r.dispatchPending)) ==>
        sockets == old(sockets)
      ensures forall w | w in sockets ::
        sockets[w].connector == old(sockets)[w].connector && sockets[w].ready == old(sockets)[w].ready
        && sockets[w].active - {id} == old(sockets)[w].active - {id}
        && (w != ws ==> sockets[w] == old(sockets)[w])
    {
      var connector := sockets[ws].connector;
      r := store.RecordAgentEvent(connector, id, kind, session);
      EventStaysCovered(old(store.commands), store.commands, sockets, id);
      if Forgets(kind, r) {
        CoveredWithoutEntry(store.commands, sockets, ws, id);
        sockets := Without(sockets, ws, id);
      }
    }

    /** A socket closed: fail its commands, or all of its connector's when no ready socket remains. */
    method HandleSocketGone(ws: Id)
      requires Valid() && ws in sockets
      modifies this`sockets, store
      ensures Valid() && sockets == old(sockets) - {ws}
      ensures store.world == old(store.world) && store.commands.Keys == old(store.commands).Keys
      ensures (forall w | w in sockets :: sockets[w].connector != old(sockets)[ws].connector) ==>
        forall id | id in store.commands && Active(store.commands[id].state) ::
          store.commands[id].owner != Some(old(sockets)[ws].connector)
      ensures forall id | id in store.commands ::
        store.commands[id] ==
          var c, connector := old(store.commands[id]), old(sockets)[ws].connector;
          if c.owner == Some(connector) && (c.state.Leased? || c.state.Running?)
            && (id in old(sockets)[ws].active ||
                forall w | w in old(sockets) && w != ws && old(sockets)[w].connector == connector ::
                  !old(sockets)[w].ready)
          then c.(state := Failed, owner := None, leaseUntil := None)
          else c
    {
      var connector := sockets[ws].connector;
      var readyPeer := exists w | w in sockets :: w != ws && sockets[w].connector == connector && sockets[w].ready;
      var active := sockets[ws].active;
      if !readyPeer || active != {} {
        store.FailActiveCommands(connector, if readyPeer then Some(active) else None);
      }
      sockets := sockets - {ws};
      forall id | id in store.commands && Active(store.commands[id].state)
        ensures Listing(store.commands[id], id, sockets)
      {
        assert Listing(old(store.commands)[id], id, old(sockets));
        var w :| w in old(sockets) && old(store.commands)[id].owner == Some(old(sockets)[w].connector)
                 && id in old(sockets)[w].active;
        assert w != ws;
        assert w in sockets && sockets[w] == old(sockets)[w];
      }
      if forall w | w in sockets :: sockets[w].connector != connector {
        NothingIsOrphaned(store.commands, sockets, connector);
      }
    }

    /** One call of any kind, handled to its end. */
    method Handle(call: Call)
      modifies this`sockets, store
      requires Valid()
      ensures Valid()
    {
      match call
      case Connected(ws, connector) =>
        if ws !in sockets { Accept(ws, connector); }
      case AgentReady(ws) =>
        if ws in sockets { MarkReady(ws); }
      case Dispatch(ws, cleanup, sends) =>
        if ws in sockets { var _, _ := SendPendingCommands(ws, cleanup, sends); }
      case AgentEvent(ws, id, kind, session) =>
        if ws in sockets { var _ := HandleEvent(ws, id, kind, session); }
      case Gone(ws) =>
        if ws in sockets { HandleSocketGone(ws); }
      case Detach(x) =>
        if x in store.world.sessions { DetachSession(x); }
      case SessionsReported(changes) =>
        ReportSessions(changes);
      case Create(id, request, attached, chosen, executable) =>
        NewCommand(id, request, attached, chosen, executable);
      case Statement(step) =>
        if NeverStarts(step, store.now) { Execute(step); }
      case Environment(world, elapsed) =>
        if UniqueIds(world.sessions) && UniqueSessions(world.sessions) {
          store.Pass(world, elapsed);
        }
    }

    method DetachSession(x: HostSession)
      requires Valid() && x in store.world.sessions
      modifies store
      ensures Valid()
      ensures store.commands.Keys == old(store.commands).Keys
      ensures x.task.Some? || x.thread.Some? ==>
        forall id | id in store.commands :: store.commands[id] == Settled(store.world, old(store.commands[id]), x)
    {
      DetachKeepsUnique(store.world.sessions, x, store.now);
      var _ := store.DetachHostSession(x);
      SettledStaysCovered(old(store.commands), store.commands, sockets, store.world, x);
    }

    /** A report of host sessions: the table changes row by row, and the commands of each session that lost
        its app server are settled without it. */
    method ReportSessions(changes: seq<Change>)
      requires Valid()
      modifies store
      ensures Valid()
    {
      for i := 0 to |changes|
        invariant Valid()
      {
        if UniqueIds(changes[i].sessions) && UniqueSessions(changes[i].sessions) {
          ChangeSessions(changes[i]);
        }
      }
    }

    method ChangeSessions(change: Change)
      requires Valid() && UniqueIds(change.sessions) && UniqueSessions(change.sessions)
      modifies store
      ensures Valid() && store.world == old(store.world).(sessions := change.sessions)
      ensures store.commands.Keys == old(store.commands).Keys
      ensures change.lost.Some? && InTable(change.sessions, change.lost.value) ==>
        forall id | id in store.commands ::
          store.commands[id] == Settled(store.world, old(store.commands[id]), change.lost.value)
    {
      store.Pass(store.world.(sessions := change.sessions), 0);
      if change.lost.Some? && InTable(change.sessions, change.lost.value) {
        var _ := store.SettleWithout(change.lost.value);
        SettledStaysCovered(old(store.commands), store.commands, sockets, store.world, change.lost.value);
      }
    }

    method NewCommand(id: Id, request: Request, attached: Option<HostSession>, chosen: Option<Id>, executable: bool)
      requires Valid()
      modifies store
      ensures Valid()
    {
      var _ := store.CreateCommand(id, request, attached, chosen, executable);
      CoveredWhenNoneStart(old(store.commands), store.commands, sockets);
    }

    /** A statement of some other handler: a failure, a stale-target failure or a migration. */
    method Execute(step: Step)
      requires Valid() && NeverStarts(step, store.now)
      modifies store
      ensures Valid()
    {
      var _ := store.Update(step);
      CoveredWhenNoneStart(old(store.commands), store.commands, sockets);
    }

    /** Any sequence of calls: no leased or running command is ever without a socket that will fail it. */
    method Serve(calls: seq<Call>)
      requires Valid()
      modifies this`sockets, store
      ensures Valid()
      ensures forall connector ::
        (forall ws | ws in sockets :: sockets[ws].connector != connector) ==>
          forall id | id in store.commands && Active(store.commands[id].state) ::
            store.commands[id].owner != Some(connector)
    {
      for i := 0 to |calls|
        invariant Valid()
      {
        Handle(calls[i]);
      }
      forall connector | forall ws | ws in sockets :: sockets[ws].connector != connector
        ensures forall id | id in store.commands && Active(store.commands[id].state) ::
          store.commands[id].owner != Some(connector)
      {
        NothingIsOrphaned(store.commands, sockets, connector);
      }
    }
  }

  /** A lease adds one active command, and the socket it was leased for lists it. */
  lemma LeaseIsCovered(before: map<Id, Command>, after: map<Id, Command>,
                       listed: map<Id, Socket>, sockets: map<Id, Socket>, ws: Id, id: Id)
    requires Covered(before, listed) && ws in listed && id in after
    requires after == before[id := after[id]] && after[id].owner == Some(listed[ws].connector)
    requires sockets == listed[ws := listed[ws].(active := listed[ws].active + {id})]
    ensures Covered(after, sockets)
  {
    CoveredByMore(before, listed, sockets);
    forall i | i in after && Active(after[i].state) ensures Listing(after[i], i, sockets) {
      if i == id {
        assert ws in sockets && after[i].owner == Some(sockets[ws].connector) && i in sockets[ws].active;
      } else {
        assert Listing(before[i], i, sockets);
      }
    }
  }
}
