/** The manager of a local app-server process: starts it, watches it, and restarts it on schedule or for an
    upgrade once active turns have drained.  Clock readings, health checks and the process itself belong to
    an environment that may answer anything, except that the clock never goes back. */
module AppServerManager {
  import opened Common
  import opened AppServerLog

  const MAX_U64: nat := 0xFFFF_FFFF_FFFF_FFFF
  const MAX_U32: nat := 0xFFFF_FFFF
  const SPAWN_ATTEMPTS: nat := 3
  const SPAWN_RETRY_DELAY: Time := 20
  const READY_POLL: Time := 100
  const EXTERNAL_PROBE_INTERVAL: Time := 30_000

  /** What the manager remembers as the last error, as far as it decides by it. */
  datatype Detail = DrainTimeout | OtherDetail

  datatype SpawnResult = Started | FileBusy | SpawnError

  /** When the environment is asked something: no two questions have the same number. */
  datatype Moment = Moment(question: nat, at: Time, child: bool, turns: nat, restart: Option<Restart>)

  /** The environment's answers: how much time has passed, whether the app-server is healthy, how the child
      is, whether terminating it succeeds, how a spawn goes, whether the connector is shutting down, and
      when the upgrade marker was last modified. */
  datatype Environment = Environment(
    passed: Moment -> Time,
    healthy: Moment -> bool,
    status: Moment -> ChildStatus,
    stops: Moment -> bool,
    spawn: Moment -> SpawnResult,
    shutdown: Moment -> bool,
    marker: Moment -> Option<Time>)

  function Min(a: nat, b: nat): nat { if a <= b then a else b }

  /** The restart asked for or being carried out. */
  function InHand(pending: Option<Restart>, carrying: Option<Restart>): Option<Restart> {
    if pending.Some? then pending else carrying
  }

  function DrainedAt(config: Config, restart: Restart): Time {
    restart.requestedAt + AtLeastASecond(config.drainTimeout)
  }

  function BackoffDeadline(config: Config, lastStartFailure: Option<Time>): Option<Time> {
    if lastStartFailure.None? then None else Some(lastStartFailure.value + AtLeastASecond(config.restartBackoff))
  }

  /** An environment in which starting works at once, but in which a child can no longer be inspected while
      a restart is asked for; the upgrade marker appears once turns are active. */
  ghost predicate Adverse(env: Environment) {
    forall m ::
      && env.passed(m) == 0 && env.healthy(m) == m.child && env.spawn(m).Started? && !env.shutdown(m)
      && env.status(m) == (if m.restart.Some? then Unreadable else Running)
      && env.marker(m) == if m.turns > 0 then Some(1) else None
  }

  /** `adverse` may only be claimed of an adverse environment; wrapped like the log's safety. */
  ghost predicate Claimed(seals: nat, adverse: bool, env: Environment) {
    if seals == 0 then adverse ==> Adverse(env) else Claimed(seals - 1, adverse, env)
  }

  lemma {:induction false} ClaimedIsTrue(seals: nat, adverse: bool, env: Environment)
    ensures Claimed(seals, adverse, env) <==> (adverse ==> Adverse(env))
  {
    if seals > 0 {
      ClaimedIsTrue(seals - 1, adverse, env);
    }
  }

  class Manager {
    const config: Config
    const env: Environment
    var child: bool
    var state: InstanceState
    var generation: nat
    var activeTurns: nat
    var lastError: Option<Detail>
    var pending: Option<Restart>
    var nextScheduledRestart: Option<Time>
    var lastStartFailure: Option<Time>
    var lastUpgradeMarker: Option<Time>
    var lastExternalProbe: Option<Time>

    /** The environment's clock, in milliseconds, and the number of questions it was asked. */
    var clock: Time
    var question: nat
    /** The restart being carried out, which is no longer pending. */
    var carrying: Option<Restart>
    ghost const seals: nat
    ghost const adverse: bool
    ghost var log: Log
    ghost var tally: Tally
    ghost var tallies: seq<Tally>
    /** How often the start time of the pending restart has changed. */
    ghost var moves: nat
    /** Whether the last health check succeeded. */
    ghost var healthy: bool

    ghost predicate Sound()
      reads this
    {
      && seals > 1 && Sealed(seals, config, log, tallies, tally) && Claimed(seals, adverse, env)
      && tally.spawned == tally.reaped + (if child then 1 else 0)
      && generation == Min(tally.changes, MAX_U64)
      && activeTurns <= MAX_U32
      && (tally.lastFailure.Some? ==> tally.lastFailure.value <= clock)
      && (if lastStartFailure.Some? then tally.lastFailure == lastStartFailure else BackoffOver(config, tally, clock))
      && (InHand(pending, carrying).Some? ==>
            && moves <= 1 && (moves == 1 ==> InHand(pending, carrying).value.reason.UpgradeMarker?)
            && InHand(pending, carrying).value.requestedAt <= clock)
    }

    /** No cleanup is due. */
    ghost predicate Valid()
      reads this
    {
      Sound() && !tally.owes
    }

    constructor (config: Config, env: Environment, upgradeMarker: Option<Time>, ghost adverse: bool)
      requires adverse ==> Adverse(env)
      ensures Valid() && this.config == config && this.env == env && this.adverse == adverse && log == []
        && tally == NOTHING
      ensures !child && pending.None? && activeTurns == 0 && carrying.None? && lastStartFailure.None?
      ensures lastUpgradeMarker == upgradeMarker && clock == 0
    {
      this.config, this.env, this.adverse, seals := config, env, adverse, 2;
      child, state, generation, activeTurns := false, Stopped, 0, 0;
      lastError, pending, nextScheduledRestart, lastStartFailure := None, None, None, None;
      lastUpgradeMarker, lastExternalProbe := upgradeMarker, None;
      clock, question, log, tally, tallies := 0, 0, [], NOTHING, [NOTHING];
      carrying, moves, healthy := None, 0, false;
      new;
      SealedSums(seals, config, log, tallies, tally);
      ClaimedIsTrue(seals, adverse, env);
    }

    // -------------------------------------------------------------------------------------------
    // The environment

    /** A question to the environment; time passes meanwhile. */
    method Ask() returns (m: Moment)
      requires Sound()
      modifies this`clock, this`question
      ensures Sound() && m == Moment(old(question), old(clock), child, activeTurns, InHand(pending, carrying))
      ensures clock == old(clock) + env.passed(m) && question == old(question) + 1 && (adverse ==> Adverse(env))
    {
      ClaimedIsTrue(seals, adverse, env);
      m := Moment(question, clock, child, activeTurns, InHand(pending, carrying));
      question := question + 1;
      clock := clock + env.passed(m);
    }

    method Now() returns (now: Time)
      requires Valid()
      modifies this`clock, this`question
      ensures Valid() && now == clock >= old(clock)
      ensures adverse ==> clock == old(clock)
    {
      var _ := Ask();
      now := clock;
    }

    method Sleep(duration: Time)
      requires Valid()
      modifies this`clock, this`question
      ensures Valid() && clock >= old(clock) + duration
    {
      var _ := Ask();
      clock := clock + duration;
    }

    method CheckHealth() returns (ok: bool)
      requires Valid()
      modifies this`clock, this`question, this`healthy
      ensures Valid() && healthy == ok && clock >= old(clock) && question == old(question) + 1
      ensures adverse ==> clock == old(clock) && ok == child
    {
      var m := Ask();
      ok := env.healthy(m);
      healthy := ok;
    }

    method ShutdownRequested() returns (requested: bool)
      requires Valid()
      modifies this`clock, this`question
      ensures Valid() && clock >= old(clock)
      ensures adverse ==> clock == old(clock) && !requested
    {
      var m := Ask();
      requested := env.shutdown(m);
    }

    /** `try_wait`: the child's status. */
    method TryWait() returns (status: ChildStatus)
      requires Valid() && child
      modifies this`clock, this`question, this`log, this`tally, this`tallies
      ensures Sound() && clock >= old(clock)
      ensures log == old(log) + [Inspected(status)] && tally == Plus(old(tally), Inspected(status))
      ensures exists m: Moment :: m.restart == InHand(pending, carrying) && status == env.status(m)
      ensures adverse ==> clock == old(clock)
      ensures adverse ==> status == if InHand(pending, carrying).Some? then Unreadable else Running
    {
      var m := Ask();
      status := env.status(m);
      Note(Inspected(status));
    }

    /** One attempt to spawn. */
    method TrySpawn() returns (result: SpawnResult)
      requires Valid()
      modifies this`clock, this`question, this`log, this`tally, this`tallies
      ensures Valid() && clock >= old(clock)
      ensures log == old(log) + [Tried] && tally == Plus(old(tally), Tried)
      ensures exists m: Moment :: result == env.spawn(m)
      ensures adverse ==> clock == old(clock) && result.Started?
    {
      var m := Ask();
      result := env.spawn(m);
      Note(Tried);
    }

    // -------------------------------------------------------------------------------------------
    // Primitive changes

    ghost method Note(a: Action)
      requires Sealed(seals, config, log, tallies, tally) && SafeNext(config, tally, a)
      modifies this`log, this`tally, this`tallies
      ensures log == old(log) + [a] && tally == Plus(old(tally), a) && Sealed(seals, config, log, tallies, tally)
    {
      SealedGrows(seals, config, log, tallies, tally, a);
      log := log + [a];
      tally := Plus(tally, a);
      tallies := tallies + [tally];
    }

    method SetState(state: InstanceState, lastError: Option<Detail>)
      requires Sound()
      modifies this`state, this`generation, this`lastError, this`log, this`tally, this`tallies
      ensures Sound() && this.state == state && this.lastError == lastError
      ensures log == if old(this.state) == state then old(log) else old(log) + [StateChanged(old(this.state), state)]
      ensures tally == old(tally).(changes := tally.changes)
    {
      if this.state != state {
        generation := Min(generation + 1, MAX_U64);
        Note(StateChanged(this.state, state));
      }
      this.state := state;
      this.lastError := lastError;
    }

    method RecordStartFailure()
      requires Valid()
      modifies this`lastStartFailure, this`log, this`tally, this`tallies, this`clock, this`question
      ensures Valid() && lastStartFailure == Some(clock) && clock >= old(clock)
      ensures log == old(log) + [StartFailed(clock)] && tally == Plus(old(tally), StartFailed(clock))
      ensures adverse ==> clock == old(clock)
    {
      var now := Now();
      Note(StartFailed(now));
      lastStartFailure := Some(now);
    }

    /** `stop_child_checked`: a child that cannot be terminated stays owned. */
    method StopChild(why: Why) returns (stopped: bool)
      requires Sound() && (tally.owes ==> child)
      requires child ==> MayTerminate(config, tally, why, clock, activeTurns, InHand(pending, carrying))
      modifies this`child, this`log, this`tally, this`tallies, this`question
      ensures Valid() && (stopped <==> !child)
      ensures !old(child) ==> !child && log == old(log) && tally == old(tally)
      ensures old(child) ==>
        var a := Terminated(why, clock, activeTurns, InHand(pending, carrying), !child);
        log == old(log) + [a] && tally == Plus(old(tally), a)
    {
      if !child {
        return true;
      }
      stopped := env.stops(Moment(question, clock, child, activeTurns, InHand(pending, carrying)));
      question := question + 1;
      Note(Terminated(why, clock, activeTurns, InHand(pending, carrying), stopped));
      child := !stopped;
    }

    /** A running child is left alone; a child that has exited, or whose status cannot be read, is terminated,
        and that counts as a failed start.  `status` is what was read at `at`, if there is a child. */
    method ClearExitedChild() returns (ghost status: Option<ChildStatus>, ghost at: Time)
      requires Valid()
      modifies this`child, this`state, this`generation, this`lastError, this`lastStartFailure, this`log, this`tally,
        this`tallies, this`clock, this`question
      ensures Valid() && clock >= old(clock) && (child ==> old(child)) && (status.Some? <==> old(child))
      ensures status.None? || status == Some(Running) ==>
        && child == old(child) && state == old(state) && lastError == old(lastError)
        && lastStartFailure == old(lastStartFailure)
        && log == old(log) + (if status.Some? then [Inspected(Running)] else [])
        && tally == if status.Some? then Plus(old(tally), Inspected(Running)) else old(tally)
      ensures status.Some? && !status.value.Running? ==>
        && lastStartFailure == Some(clock) && state.Degraded? && Unhurried(old(tally), tally)
        && tally.stops == old(tally).stops + 1 && tally.read == status
        && old(clock) <= at <= clock
        && var stop := Terminated(CleanupOf(status.value), at, activeTurns, InHand(pending, carrying), !child);
        log == Changed(old(log) + [Inspected(status.value)], old(state), Degraded) + [stop, StartFailed(clock)]
      ensures WasRead(status, old(child), InHand(pending, carrying))
      ensures adverse ==> clock == old(clock)
      ensures adverse && child && InHand(pending, carrying).None? ==> status == Some(Running)
      ensures adverse && old(child) && InHand(pending, carrying).None? ==> child
    {
      status, at := None, clock;
      if child {
        var read := TryWait();
        status, at := Some(read), clock;
        if !read.Running? {
          CleanUp(read);
        }
      }
    }

    /** Terminate a child that does not run, as far as can be told. */
    method CleanUp(status: ChildStatus)
      requires Sound() && child && tally.owes && tally.read == Some(status) && !status.Running?
      modifies this`child, this`state, this`generation, this`lastError, this`lastStartFailure, this`log, this`tally,
        this`tallies, this`clock, this`question
      ensures Valid() && clock >= old(clock)
      ensures lastStartFailure == Some(clock) && state.Degraded? && Unhurried(old(tally), tally)
      ensures tally.stops == old(tally).stops + 1 && tally.read == old(tally).read
      ensures
        var stop := Terminated(CleanupOf(status), old(clock), activeTurns, InHand(pending, carrying), !child);
        log == Changed(old(log), old(state), Degraded) + [stop, StartFailed(clock)]
      ensures adverse ==> clock == old(clock)
    {
      SetState(Degraded, Some(OtherDetail));
      var _ := StopChild(CleanupOf(status));
      RecordStartFailure();
    }

    // -------------------------------------------------------------------------------------------
    // Asking for restarts

    method RequestRestart(reason: Reason)
      requires Valid() && carrying.None?
      modifies this`pending, this`moves, this`state, this`generation, this`lastError, this`log, this`tally,
        this`tallies, this`clock, this`question
      ensures Valid() && clock >= old(clock)
      ensures pending.Some? && Evolved(old(pending), pending)
      ensures reason.UpgradeMarker? ==> pending.value.reason.UpgradeMarker?
      ensures old(pending).None? ==> pending != old(pending)
      ensures Requested(old(pending), old(log), old(tally), old(state), reason, old(clock))
      ensures moves == if old(pending).None? then 0 else if pending != old(pending) then old(moves) + 1 else old(moves)
      ensures adverse ==> clock == old(clock)
    {
      if pending.Some? && !(reason.UpgradeMarker? && pending.value.reason.Scheduled?) {
        return;
      }
      var now := Now();
      moves := if pending.Some? then moves + 1 else 0;
      pending := Some(Restart(reason, now));
      Note(Asked(pending.value));
      SetState(if activeTurns > 0 then Draining else InstanceState.Restarting, None);
    }

    /** A restart was asked for since then, or nothing happened. */
    ghost predicate Requested(
      before: Option<Restart>, log0: Log, tally0: Tally, state0: InstanceState, reason: Reason, since: Time)
      reads this
    {
      if pending == before then log == log0 && tally == tally0 && state == state0
      else
        && pending.Some? && pending.value.reason == reason && since <= pending.value.requestedAt <= clock
        && state == (if activeTurns > 0 then Draining else InstanceState.Restarting)
        && |log| > |log0| && tally == tally0.(asked := tally0.asked + 1, changes := tally.changes)
    }

    method SchedulePeriodicRestart()
      requires Valid() && carrying.None?
      modifies this`nextScheduledRestart, this`pending, this`moves, this`state, this`generation, this`lastError,
        this`log, this`tally, this`tallies, this`clock, this`question
      ensures Valid() && clock >= old(clock)
      ensures old(pending).Some? ==> pending == old(pending)
      ensures Requested(old(pending), old(log), old(tally), old(state), Scheduled, old(clock))
      ensures config.restartInterval == 0 ==> nextScheduledRestart.None? && pending == old(pending)
      ensures config.restartInterval > 0 ==> nextScheduledRestart.Some?
      ensures pending != old(pending) ==>
        && old(nextScheduledRestart).Some? && clock >= old(nextScheduledRestart).value
        && (child || BackoffOver(config, tally, clock))
      ensures config.restartInterval > 0 && old(pending).None? ==>
        Due(old(nextScheduledRestart), old(clock), child, lastStartFailure) ==>
        pending.Some? && pending.value.reason.Scheduled? && tally.asked == old(tally).asked + 1
      ensures config.restartInterval > 0 ==>
        match old(nextScheduledRestart)
        case None => pending == old(pending) && nextScheduledRestart == Some(clock + config.restartInterval)
        case Some(at) =>
          && (clock < at ==> pending == old(pending))
          && nextScheduledRestart ==
               if clock >= at && !child && lastStartFailure.Some?
                 && clock < lastStartFailure.value + AtLeastASecond(config.restartBackoff)
               then Some(lastStartFailure.value + AtLeastASecond(config.restartBackoff))
               else Some(at)
      ensures adverse ==> clock == old(clock)
    {
      if config.restartInterval == 0 {
        nextScheduledRestart := None;
        return;
      }
      var now := Now();
      if nextScheduledRestart.None? {
        nextScheduledRestart := Some(now + config.restartInterval);
        return;
      }
      if now >= nextScheduledRestart.value {
        var deadline := BackoffDeadline(config, lastStartFailure);
        if !child && deadline.Some? && now < deadline.value {
          nextScheduledRestart := deadline;
          return;
        }
        RequestRestart(Scheduled);
      }
    }

    /** A periodic restart is due, and no backoff puts it off. */
    ghost predicate Due(next: Option<Time>, at: Time, owned: bool, failed: Option<Time>)
      reads this
    {
      && next.Some? && at >= next.value
      && (owned || failed.None? || at >= failed.value + AtLeastASecond(config.restartBackoff))
    }

    method ScheduleUpgradeRestart()
      requires Valid() && carrying.None?
      modifies this`lastUpgradeMarker, this`pending, this`moves, this`state, this`generation, this`lastError,
        this`log, this`tally, this`tallies, this`clock, this`question
      ensures Valid() && clock >= old(clock) && Evolved(old(pending), pending)
      ensures old(pending).Some? ==> pending.Some?
      ensures Requested(old(pending), old(log), old(tally), old(state), UpgradeMarker, old(clock))
      ensures pending != old(pending) ==> lastUpgradeMarker != old(lastUpgradeMarker)
      ensures lastUpgradeMarker != old(lastUpgradeMarker) ==> pending.Some? && pending.value.reason.UpgradeMarker?
      ensures old(lastUpgradeMarker).Some? ==>
        lastUpgradeMarker.Some? && lastUpgradeMarker.value >= old(lastUpgradeMarker).value
      ensures
        var seen := env.marker(Moment(old(question), old(clock), child, activeTurns, InHand(old(pending), carrying)));
        var newer := seen.Some? && (old(lastUpgradeMarker).None? || seen.value > old(lastUpgradeMarker).value);
        && lastUpgradeMarker == (if newer then seen else old(lastUpgradeMarker))
        && (pending != old(pending) <==> newer && (old(pending).None? || old(pending).value.reason.Scheduled?))
      ensures adverse ==> clock == old(clock)
      ensures adverse && old(lastUpgradeMarker).None? ==>
        if activeTurns > 0 then pending.Some? else pending == old(pending) && lastUpgradeMarker.None?
    {
      var m := Ask();
      var modified := env.marker(m);
      if modified.Some? && (lastUpgradeMarker.None? || modified.value > lastUpgradeMarker.value) {
        lastUpgradeMarker := modified;
        RequestRestart(UpgradeMarker);
      }
    }

    // -------------------------------------------------------------------------------------------
    // Starting

    /** Up to three attempts, again only while the executable is busy. */
    method Spawn() returns (started: bool)
      requires Valid() && !child && BackoffOver(config, tally, clock)
      requires Drained(config, clock, activeTurns, InHand(pending, carrying))
      modifies this`child, this`log, this`tally, this`tallies, this`clock, this`question
      ensures Valid() && clock >= old(clock) && (started <==> child)
      ensures old(tally).tried < tally.tried <= old(tally).tried + 3
      ensures tally == old(tally).(tried := tally.tried, spawned := old(tally).spawned + if started then 1 else 0)
      ensures !started ==>
        tally.tried == old(tally).tried + 3 || exists m: Moment :: env.spawn(m).SpawnError?
      ensures adverse ==> started && clock == old(clock)
    {
      for attempt := 1 to SPAWN_ATTEMPTS + 1
        invariant Valid() && !child && clock >= old(clock)
        invariant tally == old(tally).(tried := old(tally).tried + attempt - 1)
        invariant adverse ==> attempt == 1 && clock == old(clock)
      {
        var result := TrySpawn();
        match result {
          case Started =>
            Note(Spawned(clock, activeTurns, InHand(pending, carrying)));
            child := true;
            return true;
          case FileBusy =>
            if attempt == SPAWN_ATTEMPTS {
              return false;
            }
            Sleep(SPAWN_RETRY_DELAY);
          case SpawnError =>
            return false;
        }
      }
      started := false;
    }

    /** Poll until the child is healthy, exits, or takes too long. */
    method WaitUntilReady() returns (ready: bool)
      requires Valid() && child && Drained(config, clock, activeTurns, InHand(pending, carrying))
      modifies this`child, this`state, this`generation, this`lastError, this`lastStartFailure, this`log, this`tally,
        this`tallies, this`clock, this`question, this`healthy
      ensures Valid() && clock >= old(clock) && (ready ==> healthy && child)
      ensures Onward(old(tally), tally)
      ensures adverse && InHand(pending, carrying).None? ==> ready && clock == old(clock)
    {
      var now := Now();
      var deadline := now + AtLeastASecond(config.startupTimeout);
      now := Now();
      while now < deadline
        invariant Valid() && clock >= now && clock >= old(clock) && Onward(old(tally), tally)
        invariant adverse && InHand(pending, carrying).None? ==> child && now == clock == old(clock) < deadline
        decreases deadline - now
      {
        var gone := ShuttingDownOrGone();
        if gone {
          return false;
        }
        var checked, ok := CheckInTime(deadline);
        if !checked {
          break;
        }
        if ok {
          return true;
        }
        now := PauseUntil(deadline);
      }
      ready := false;
    }

    method ShuttingDownOrGone() returns (gone: bool)
      requires Valid()
      modifies this`child, this`state, this`generation, this`lastError, this`lastStartFailure, this`log, this`tally,
        this`tallies, this`clock, this`question
      ensures Valid() && clock >= old(clock) && Onward(old(tally), tally)
      ensures !gone ==> child
      ensures adverse && InHand(pending, carrying).None? && old(child) ==> !gone && clock == old(clock)
    {
      gone := ShutdownRequested();
      if !gone {
        var _, _ := ClearExitedChild();
        gone := !child;
      }
    }

    method PauseUntil(deadline: Time) returns (now: Time)
      requires Valid()
      modifies this`clock, this`question
      ensures Valid() && now == clock >= old(clock) && (now > old(clock) || now >= deadline)
    {
      var after := Now();
      if after < deadline {
        Sleep(Min(deadline - after, READY_POLL));
      }
      now := Now();
    }

    /** One health check of the startup loop, unless its time is over; it counts only if it came in time. */
    method CheckInTime(deadline: Time) returns (checked: bool, ok: bool)
      requires Valid()
      modifies this`clock, this`question, this`healthy
      ensures Valid() && clock >= old(clock) && (ok ==> checked && healthy)
      ensures adverse ==> clock == old(clock) && checked == (clock < deadline) && ok == (checked && child)
    {
      checked, ok := false, false;
      var before := Now();
      if before < deadline {
        checked := true;
        ok := CheckHealth();
        if ok {
          var after := Now();
          ok := after <= deadline;
        }
      }
    }

    /** The listen URL if the app-server is healthy, after starting or restarting it where that is allowed. */
    method EnsureReady() returns (url: Option<Id>)
      requires Valid() && Drained(config, clock, activeTurns, InHand(pending, carrying))
      modifies this`child, this`state, this`generation, this`lastError, this`lastStartFailure, this`log, this`tally,
        this`tallies, this`clock, this`question, this`healthy
      ensures Valid() && clock >= old(clock)
      ensures Onward(old(tally), tally)
      ensures url.Some? <==> state.Healthy?
      ensures url.Some? ==> url == config.listenUrl && healthy
      ensures url.None? ==> state.Degraded? || state.Stopped?
      ensures config.listenUrl.Some? && tally.tried == old(tally).tried ==> (url.Some? <==> healthy)
      ensures config.listenUrl.Some? && url.None? && !state.Stopped? ==>
        lastStartFailure.Some? && (lastStartFailure == old(lastStartFailure) || lastStartFailure.value >= old(clock))
      ensures StartsHere(old(child), old(lastStartFailure)) ==> child && clock == old(clock)
    {
      if config.listenUrl.None? {
        SetState(Degraded, Some(OtherDetail));
        return None;
      }
      var _, _ := ClearExitedChild();
      var ok := CheckHealth();
      if ok {
        SetState(Healthy, None);
        return config.listenUrl;
      }
      url := StartIfAllowed();
    }

    /** Nothing is started during the backoff; a forced restart's result stays shown meanwhile. */
    method StartIfAllowed() returns (url: Option<Id>)
      requires Valid() && Drained(config, clock, activeTurns, InHand(pending, carrying)) && config.listenUrl.Some?
      modifies this`child, this`state, this`generation, this`lastError, this`lastStartFailure, this`log, this`tally,
        this`tallies, this`clock, this`question, this`healthy
      ensures Valid() && clock >= old(clock)
      ensures Onward(old(tally), tally)
      ensures url.Some? <==> state.Healthy?
      ensures url.Some? ==> url == config.listenUrl && healthy
      ensures url.None? ==> state.Degraded? || state.Stopped?
      ensures tally.tried == old(tally).tried ==> url.None? && healthy == old(healthy)
      ensures config.listenUrl.Some? && url.None? && !state.Stopped? ==>
        lastStartFailure.Some? && (lastStartFailure == old(lastStartFailure) || lastStartFailure.value >= old(clock))
      ensures StartsHere(old(child), old(lastStartFailure)) ==> child && clock == old(clock)
    {
      var now := Now();
      var deadline := BackoffDeadline(config, lastStartFailure);
      if deadline.Some? && now < deadline.value {
        if !(state.Degraded? && lastError == Some(DrainTimeout)) {
          SetState(Degraded, Some(OtherDetail));
        }
        return None;
      }
      url := StartOver();
    }

    /** A child that is not owned is started at once. */
    ghost predicate StartsHere(owned: bool, failed: Option<Time>)
      reads this
    {
      adverse && InHand(pending, carrying).None? && !owned && failed.None? && config.listenUrl.Some?
    }

    /** Stop an unhealthy child and start a new one, unless the connector is shutting down. */
    method StartOver() returns (url: Option<Id>)
      requires Valid() && Drained(config, clock, activeTurns, InHand(pending, carrying))
      requires BackoffOver(config, tally, clock) && config.listenUrl.Some?
      modifies this`child, this`state, this`generation, this`lastError, this`lastStartFailure, this`log, this`tally,
        this`tallies, this`clock, this`question, this`healthy
      ensures Valid() && clock >= old(clock)
      ensures Onward(old(tally), tally)
      ensures url.Some? <==> state.Healthy?
      ensures url.Some? ==> url == config.listenUrl && healthy
      ensures url.None? ==> state.Degraded? || state.Stopped?
      ensures tally.tried == old(tally).tried ==> url.None? && healthy == old(healthy)
      ensures config.listenUrl.Some? && url.None? && !state.Stopped? ==>
        lastStartFailure.Some? && (lastStartFailure == old(lastStartFailure) || lastStartFailure.value >= old(clock))
      ensures StartsHere(old(child), old(lastStartFailure)) ==> child && clock == old(clock)
    {
      var shutdown := ShutdownRequested();
      if shutdown {
        SetState(Stopped, None);
        return None;
      }
      var cleared := StopUnhealthy();
      if !cleared {
        return None;
      }
      url := Start();
    }

    method StopUnhealthy() returns (cleared: bool)
      requires Valid() && BackoffOver(config, tally, clock)
      requires Drained(config, clock, activeTurns, InHand(pending, carrying))
      modifies this`child, this`state, this`generation, this`lastError, this`lastStartFailure, this`log, this`tally,
        this`tallies, this`clock, this`question
      ensures Valid() && clock >= old(clock) && (cleared <==> !child) && (child ==> old(child))
      ensures Onward(old(tally), tally)
      ensures tally.tried == old(tally).tried
      ensures cleared ==> BackoffOver(config, tally, clock) && clock == old(clock)
      ensures !cleared ==> state.Degraded? && lastStartFailure == Some(clock)
    {
      if !child {
        return true;
      }
      SetState(InstanceState.Restarting, None);
      cleared := StopChild(Deliberate);
      if !cleared {
        RecordStartFailure();
        SetState(Degraded, Some(OtherDetail));
      }
    }

    method Start() returns (url: Option<Id>)
      requires Valid() && BackoffOver(config, tally, clock) && !child && config.listenUrl.Some?
      requires Drained(config, clock, activeTurns, InHand(pending, carrying))
      modifies this`child, this`state, this`generation, this`lastError, this`lastStartFailure, this`log, this`tally,
        this`tallies, this`clock, this`question, this`healthy
      ensures Valid() && clock >= old(clock)
      ensures tally.tried > old(tally).tried
      ensures Onward(old(tally), tally)
      ensures
        if url.Some? then state.Healthy? && url == config.listenUrl && healthy && child
        else state.Degraded? && lastStartFailure == Some(clock)
      ensures adverse && InHand(pending, carrying).None? ==> url.Some? && clock == old(clock)
    {
      var ready := SpawnAndWait();
      if ready {
        SetState(Healthy, None);
        return config.listenUrl;
      }
      RecordStartFailure();
      SetState(Degraded, Some(OtherDetail));
      url := None;
    }

    /** A child that does not become healthy in time is stopped again. */
    method SpawnAndWait() returns (ready: bool)
      requires Valid() && BackoffOver(config, tally, clock) && !child
      requires Drained(config, clock, activeTurns, InHand(pending, carrying))
      modifies this`child, this`state, this`generation, this`lastError, this`lastStartFailure, this`log, this`tally,
        this`tallies, this`clock, this`question, this`healthy
      ensures Valid() && clock >= old(clock)
      ensures tally.tried > old(tally).tried
      ensures Onward(old(tally), tally)
      ensures ready ==> healthy && child
      ensures adverse && InHand(pending, carrying).None? ==> ready && clock == old(clock)
    {
      ready := false;
      var started := Spawn();
      if started {
        ready := WaitUntilReady();
        if !ready {
          var _ := StopChild(Deliberate);
        }
      }
    }

    // -------------------------------------------------------------------------------------------
    // Carrying restarts out

    /** A listener that this manager did not start cannot be restarted. */
    method BlockUnownedListener() returns (blocked: bool)
      requires Valid()
      modifies this`state, this`generation, this`lastError, this`log, this`tally, this`tallies, this`clock,
        this`question, this`healthy
      ensures Valid() && clock >= old(clock)
      ensures blocked ==> !child && state.Degraded? && healthy
      ensures !child && config.listenUrl.Some? ==> (blocked <==> healthy)
      ensures !blocked ==> state == old(state) && lastError == old(lastError)
      ensures log == Changed(old(log), old(state), state)
      ensures tally == old(tally).(changes := tally.changes)
      ensures adverse ==> clock == old(clock)
    {
      if child || config.listenUrl.None? {
        return false;
      }
      blocked := CheckHealth();
      if blocked {
        SetState(Degraded, Some(OtherDetail));
      }
    }

    method ScheduledBackoffDeadline(restart: Restart) returns (deadline: Option<Time>)
      requires Valid()
      modifies this`clock, this`question
      ensures Valid() && clock >= old(clock)
      ensures deadline.Some? ==> restart.reason.Scheduled? && !child
      ensures deadline.Some? ==> deadline == BackoffDeadline(config, lastStartFailure) && clock < deadline.value
      ensures deadline.None? && restart.reason.Scheduled? && !child ==> BackoffOver(config, tally, clock)
      ensures adverse ==> clock == old(clock)
    {
      if !restart.reason.Scheduled? || child {
        return None;
      }
      deadline := BackoffDeadline(config, lastStartFailure);
      if deadline.Some? {
        var now := Now();
        if now >= deadline.value {
          deadline := None;
        }
      }
    }

    method ArmNextScheduledRestart()
      requires Valid()
      modifies this`nextScheduledRestart, this`clock, this`question
      ensures Valid() && clock >= old(clock)
      ensures nextScheduledRestart ==
        if config.restartInterval == 0 then None else Some(clock + config.restartInterval)
    {
      if config.restartInterval == 0 {
        nextScheduledRestart := None;
      } else {
        var now := Now();
        nextScheduledRestart := Some(now + config.restartInterval);
      }
    }

    /** Wait for active turns to drain, then stop the child and start a new one.  `status` is what was read of
        the child, if there was one. */
    method AdvancePendingRestart() returns (url: Option<Id>, ghost status: Option<ChildStatus>)
      requires Valid() && pending.Some? && carrying.None?
      modifies this`child, this`state, this`generation, this`lastError, this`lastStartFailure, this`log, this`tally,
        this`tallies, this`clock, this`question, this`healthy, this`pending, this`carrying, this`nextScheduledRestart
      ensures Valid() && carrying.None? && clock >= old(clock)
      ensures Onward(old(tally), tally)
      ensures url.Some? <==> state.Healthy?
      ensures url.Some? ==> url == config.listenUrl && healthy
      ensures pending.None? || (pending == old(pending) && (state.Draining? || state.Degraded?))
      ensures WasRead(status, old(child), old(pending))
      ensures Held(old(pending).value, |old(log)|, old(tally), status)
      ensures old(child) && (activeTurns == 0 || old(clock) >= DrainedAt(config, old(pending).value)) ==>
        tally.stops > old(tally).stops
      ensures adverse && activeTurns > 0 && old(clock) < DrainedAt(config, old(pending).value) ==>
        clock == old(clock)
    {
      var restart := pending.value;
      var held, forced, backoff;
      held, forced, backoff, status := Drain(restart);
      if held {
        return None, status;
      }
      if backoff.Some? {
        pending := None;
        nextScheduledRestart := backoff;
        url := EnsureReady();
        return;
      }
      var stopped := CarryOut(restart, forced);
      if !stopped {
        return None, status;
      }
      url := StartAnew(forced);
    }

    /** What the environment said about the child. */
    ghost predicate WasRead(status: Option<ChildStatus>, owned: bool, restart: Option<Restart>) {
      && (status.Some? <==> owned)
      && (status.Some? ==> exists m: Moment :: m.restart == restart && status == Some(env.status(m)))
    }

    /** While turns are active and the drain timeout is not over: the restart waits, nothing is spawned, and
        the child is terminated if and only if the status just read was not Running. */
    ghost predicate Held(restart: Restart, from: nat, before: Tally, status: Option<ChildStatus>)
      reads this
    {
      activeTurns > 0 && clock < DrainedAt(config, restart) ==>
        && pending == Some(restart) && state.Draining? && tally.spawned == before.spawned
        && Decided(restart, from, before, status)
    }

    ghost predicate Decided(restart: Restart, from: nat, before: Tally, status: Option<ChildStatus>)
      reads this
    {
      if status.None? || status.value.Running? then tally.stops == before.stops
      else tally.stops > before.stops && Ended(log, from, status.value, activeTurns, restart, clock)
    }

    /** Whether the restart must wait, for active turns or because the listener is not ours. */
    method Drain(restart: Restart)
      returns (held: bool, forced: bool, backoff: Option<Time>, ghost status: Option<ChildStatus>)
      requires Valid() && pending == Some(restart) && carrying.None?
      modifies this`child, this`state, this`generation, this`lastError, this`lastStartFailure, this`log, this`tally,
        this`tallies, this`clock, this`question, this`healthy, this`nextScheduledRestart
      ensures Valid() && clock >= old(clock) && WasRead(status, old(child), pending)
      ensures held ==>
        if state.Draining? then activeTurns > 0 && (backoff.Some? || old(clock) < DrainedAt(config, restart))
        else state.Degraded? && !child && healthy
      ensures held && state.Draining? && backoff.Some? ==> nextScheduledRestart == backoff
      ensures forced ==> activeTurns > 0 && clock >= DrainedAt(config, restart)
      ensures !held ==> activeTurns == 0 || (forced && backoff.None?)
      ensures !held && backoff.None? && restart.reason.Scheduled? && !child ==> BackoffOver(config, tally, clock)
      ensures activeTurns > 0 && clock < DrainedAt(config, restart) ==> held && state.Draining?
      ensures tally.spawned == old(tally).spawned && Onward(old(tally), tally)
      ensures Decided(restart, |old(log)|, old(tally), status)
      ensures old(child) && (activeTurns == 0 || old(clock) >= DrainedAt(config, restart)) ==>
        tally.stops > old(tally).stops || (child && !held && backoff.None?)
      ensures adverse ==> clock == old(clock)
    {
      status := InspectForDrain(restart);
      ghost var before, then_ := log, clock;
      held, forced, backoff := Decide(restart);
      if status.Some? && !status.value.Running? {
        EndedStays(before, log, |old(log)|, status.value, activeTurns, restart, then_, clock);
      }
    }

    method Decide(restart: Restart) returns (held: bool, forced: bool, backoff: Option<Time>)
      requires Valid() && pending == Some(restart) && carrying.None?
      modifies this`state, this`generation, this`lastError, this`log, this`tally, this`tallies, this`clock,
        this`question, this`healthy, this`nextScheduledRestart
      ensures Valid() && clock >= old(clock)
      ensures held ==>
        if state.Draining? then activeTurns > 0 && (backoff.Some? || old(clock) < DrainedAt(config, restart))
        else state.Degraded? && !child && healthy
      ensures held && state.Draining? && backoff.Some? ==> nextScheduledRestart == backoff
      ensures forced ==> activeTurns > 0 && clock >= DrainedAt(config, restart)
      ensures !held ==> activeTurns == 0 || (forced && backoff.None?)
      ensures !held && backoff.None? && restart.reason.Scheduled? && !child ==> BackoffOver(config, tally, clock)
      ensures activeTurns > 0 && clock < DrainedAt(config, restart) ==> held && state.Draining?
      ensures log == Changed(old(log), old(state), state) && tally == old(tally).(changes := tally.changes)
      ensures child && (activeTurns == 0 || old(clock) >= DrainedAt(config, restart)) ==> !held && backoff.None?
      ensures adverse ==> clock == old(clock)
    {
      var now := Now();
      forced := activeTurns > 0 && now - restart.requestedAt >= AtLeastASecond(config.drainTimeout);
      backoff := ScheduledBackoffDeadline(restart);
      if activeTurns > 0 && (backoff.Some? || !forced) {
        if backoff.Some? {
          nextScheduledRestart := backoff;
        }
        SetState(Draining, None);
        held := true;
      } else {
        held := BlockUnownedListener();
      }
    }

    method InspectForDrain(restart: Restart) returns (ghost status: Option<ChildStatus>)
      requires Valid() && pending == Some(restart) && carrying.None?
      modifies this`child, this`state, this`generation, this`lastError, this`lastStartFailure, this`log, this`tally,
        this`tallies, this`clock, this`question
      ensures Valid() && clock >= old(clock) && WasRead(status, old(child), pending)
      ensures tally.spawned == old(tally).spawned && Onward(old(tally), tally)
      ensures status.None? || status.value.Running? ==> child == old(child)
      ensures Decided(restart, |old(log)|, old(tally), status)
      ensures adverse ==> clock == old(clock)
    {
      ghost var at;
      status, at := ClearExitedChild();
      if status.Some? && !status.value.Running? {
        assert Terminates(log[|log| - 2], status.value, activeTurns, restart, clock);
      }
    }

    /** Stop the child for a restart; if that fails, or if something else listens, the restart stays pending. */
    method CarryOut(restart: Restart, forced: bool) returns (stopped: bool)
      requires Valid() && pending == Some(restart) && carrying.None?
      requires Drained(config, clock, activeTurns, InHand(pending, carrying))
      requires restart.reason.Scheduled? && !child ==> BackoffOver(config, tally, clock)
      modifies this`child, this`state, this`generation, this`lastError, this`lastStartFailure, this`log, this`tally,
        this`tallies, this`clock, this`question, this`healthy, this`pending, this`carrying, this`nextScheduledRestart
      ensures Valid() && clock >= old(clock)
      ensures Onward(old(tally), tally)
      ensures old(child) ==> tally.stops > old(tally).stops
      ensures
        if stopped then pending.None? && carrying == old(pending) && !child
        else pending == old(pending) && carrying.None? && state.Degraded?
    {
      carrying := pending;
      pending := None;
      ArmNextScheduledRestart();
      LiftBackoff(restart, forced);
      stopped := StopForRestart(forced);
      if !stopped {
        pending := Some(restart);
        carrying := None;
      }
    }

    method StopForRestart(forced: bool) returns (stopped: bool)
      requires Valid() && Drained(config, clock, activeTurns, InHand(pending, carrying))
      modifies this`child, this`state, this`generation, this`lastError, this`log, this`tally, this`tallies,
        this`clock, this`question, this`healthy
      ensures Valid() && clock >= old(clock)
      ensures Onward(old(tally), tally)
      ensures if stopped then !child else state.Degraded?
      ensures old(child) ==> tally.stops == old(tally).stops + 1
    {
      SetState(InstanceState.Restarting, if forced then Some(DrainTimeout) else None);
      stopped := StopChild(Deliberate);
      if stopped {
        var blocked := BlockUnownedListener();
        stopped := !blocked;
      } else {
        SetState(Degraded, Some(OtherDetail));
      }
    }

    method StartAnew(forced: bool) returns (url: Option<Id>)
      requires Valid() && pending.None? && Drained(config, clock, activeTurns, InHand(pending, carrying))
      modifies this`child, this`state, this`generation, this`lastError, this`lastStartFailure, this`log, this`tally,
        this`tallies, this`clock, this`question, this`healthy, this`carrying, this`nextScheduledRestart
      ensures Valid() && carrying.None? && clock >= old(clock)
      ensures Onward(old(tally), tally)
      ensures url.Some? <==> state.Healthy?
      ensures url.Some? ==> url == config.listenUrl && healthy
      ensures forced && url.None? ==> state.Degraded? && lastError == Some(DrainTimeout)
      ensures url.Some? ==> (config.restartInterval == 0 <==> nextScheduledRestart.None?)
    {
      url := EnsureReadyAndArm();
      if forced {
        RecordForcedRestart(url.Some?);
      }
      carrying := None;
    }

    method EnsureReadyAndArm() returns (url: Option<Id>)
      requires Valid() && Drained(config, clock, activeTurns, InHand(pending, carrying))
      modifies this`child, this`state, this`generation, this`lastError, this`lastStartFailure, this`log, this`tally,
        this`tallies, this`clock, this`question, this`healthy, this`nextScheduledRestart
      ensures Valid() && clock >= old(clock)
      ensures Onward(old(tally), tally)
      ensures url.Some? <==> state.Healthy?
      ensures url.Some? ==> url == config.listenUrl && healthy
      ensures url.Some? ==> (config.restartInterval == 0 <==> nextScheduledRestart.None?)
    {
      url := EnsureReady();
      if url.Some? {
        ArmNextScheduledRestart();
      }
    }

    method RecordForcedRestart(healthy: bool)
      requires Valid()
      modifies this`state, this`generation, this`lastError, this`log, this`tally, this`tallies
      ensures Valid() && Onward(old(tally), tally)
      ensures if healthy then state.Healthy? && lastError.None? else state.Degraded? && lastError == Some(DrainTimeout)
    {
      if healthy {
        SetState(Healthy, None);
      } else {
        SetState(Degraded, Some(DrainTimeout));
      }
    }

    /** Starting anew is allowed at once for an upgrade, for a forced restart, or if a child is still owned. */
    method LiftBackoff(restart: Restart, forced: bool)
      requires Valid() && (restart.reason.Scheduled? && !child ==> BackoffOver(config, tally, clock))
      modifies this`lastStartFailure, this`log, this`tally, this`tallies
      ensures Valid() && tally.stops == old(tally).stops
      ensures Onward(old(tally), tally)
      ensures log == old(log) + [CarriedOut(restart, child)]
      ensures lastStartFailure ==
        if child || forced || restart.reason.UpgradeMarker? then None else old(lastStartFailure)
    {
      Note(CarriedOut(restart, child));
      if child || forced || restart.reason.UpgradeMarker? {
        lastStartFailure := None;
      }
    }

    // -------------------------------------------------------------------------------------------
    // What the connector calls

    method BeginTurn()
      requires Valid()
      modifies this`activeTurns
      ensures Valid() && activeTurns == Min(old(activeTurns) + 1, MAX_U32)
    {
      activeTurns := Min(activeTurns + 1, MAX_U32);
    }

    method FinishTurn()
      requires Valid()
      modifies this`activeTurns
      ensures Valid() && activeTurns == if old(activeTurns) == 0 then 0 else old(activeTurns) - 1
    {
      activeTurns := if activeTurns == 0 then 0 else activeTurns - 1;
    }

    method ScheduleRestarts()
      requires Valid() && carrying.None?
      modifies this`nextScheduledRestart, this`lastUpgradeMarker, this`pending, this`moves, this`state,
        this`generation, this`lastError, this`log, this`tally, this`tallies, this`clock, this`question
      ensures Valid() && clock >= old(clock) && Evolved(old(pending), pending)
      ensures old(pending).Some? ==> pending.Some?
      ensures tally == old(tally).(asked := tally.asked, changes := tally.changes) && |log| >= |old(log)|
      ensures tally.asked == old(tally).asked ==> pending == old(pending) && log == old(log) && state == old(state)
      ensures pending == old(pending) || (pending.Some? && pending.value.requestedAt >= old(clock))
      ensures Asks(old(pending), old(nextScheduledRestart), old(clock), old(lastUpgradeMarker), child,
        lastStartFailure) ==>
        tally.asked > old(tally).asked && pending.Some?
      ensures adverse ==> clock == old(clock)
      ensures adverse && config.restartInterval == 0 && old(lastUpgradeMarker).None? ==>
        if activeTurns > 0 then pending.Some? else pending == old(pending) && lastUpgradeMarker.None?
    {
      SchedulePeriodicRestart();
      ScheduleUpgradeRestart();
    }

    /** Something asks for a restart that is not asked for yet: the interval has passed, or the upgrade marker is
        newer whenever it is looked at. */
    ghost predicate Asks(before: Option<Restart>, next: Option<Time>, at: Time, marker: Option<Time>, owned: bool,
                         failed: Option<Time>)
      reads this
    {
      || (before.None? && config.restartInterval > 0 && Due(next, at, owned, failed))
      || ((before.None? || before.value.reason.Scheduled?) && MarkerIsNewer(env, marker))
    }

    method RuntimeUrl(allowStart: bool) returns (url: Option<Id>, ghost status: Option<ChildStatus>)
      requires Valid() && carrying.None?
      modifies this`child, this`state, this`generation, this`lastError, this`lastStartFailure, this`log, this`tally,
        this`tallies, this`clock, this`question, this`healthy, this`pending, this`carrying, this`nextScheduledRestart,
        this`lastUpgradeMarker, this`moves
      ensures Valid() && carrying.None? && Evolved(old(pending), pending)
      ensures config.enabled && allowStart ==>
        (url.Some? <==> state.Healthy?) && (pending.Some? ==> state.Draining? || state.Degraded?)
      ensures config.enabled && url.Some? ==> url == config.listenUrl && healthy
      ensures
        var asks := Asks(old(pending), old(nextScheduledRestart), old(clock), old(lastUpgradeMarker), old(child),
                         old(lastStartFailure));
        config.enabled && allowStart && asks ==> tally.asked > old(tally).asked
      ensures config.enabled && !allowStart && config.listenUrl.Some? ==>
        question == old(question) + 1 && (url.Some? <==> healthy)
      ensures !config.enabled ==> url == config.configuredUrl
      ensures !config.enabled || !allowStart ==> log == old(log) && pending == old(pending) && child == old(child)
      ensures config.enabled && allowStart && pending.Some? ==> Held(pending.value, |old(log)|, old(tally), status)
      ensures config.enabled && allowStart && old(pending).Some? && activeTurns > 0 ==>
        pending.Some? || clock >= DrainedAt(config, old(pending).value)
      ensures config.enabled && allowStart && config.listenUrl.Some? && adverse && Idle(old(child), old(pending),
        old(lastUpgradeMarker), old(lastStartFailure)) ==>
        child && pending.None? && lastUpgradeMarker.None? && clock == old(clock)
    {
      status := None;
      if !config.enabled {
        return config.configuredUrl, status;
      }
      if !allowStart {
        if config.listenUrl.Some? {
          var ok := CheckHealth();
          return if ok then config.listenUrl else None, status;
        }
        return None, status;
      }
      ScheduleRestarts();
      if pending.Some? {
        url, status := AdvancePendingRestart();
      } else {
        url := EnsureReady();
      }
    }

    /** Nothing runs, has failed, or asks for a restart. */
    ghost predicate Idle(owned: bool, pending: Option<Restart>, marker: Option<Time>, failed: Option<Time>)
      reads this
    {
      config.restartInterval == 0 && activeTurns == 0 && !owned && pending.None? && marker.None? && failed.None?
    }

    /** While turns run, only a restart that is asked for may touch the app-server. */
    method ActiveTurnUrl() returns (url: Option<Id>, ghost status: Option<ChildStatus>)
      requires Valid() && carrying.None?
      modifies this`child, this`state, this`generation, this`lastError, this`lastStartFailure, this`log, this`tally,
        this`tallies, this`clock, this`question, this`healthy, this`pending, this`carrying, this`nextScheduledRestart,
        this`lastUpgradeMarker, this`moves
      ensures Valid() && carrying.None? && Evolved(old(pending), pending)
      ensures !config.enabled ==> url == config.configuredUrl && pending == old(pending)
      ensures !config.enabled || (old(pending).None? && tally.asked == old(tally).asked) ==>
        log == old(log) && child == old(child) && state == old(state) && url == config.configuredUrl
      ensures config.enabled && url.Some? ==>
        url == config.configuredUrl || (url == config.listenUrl && healthy && state.Healthy?)
      ensures config.enabled && pending.Some? ==> Held(pending.value, |old(log)|, old(tally), status)
      ensures config.enabled && old(pending).Some? && activeTurns > 0 ==>
        pending.Some? || clock >= DrainedAt(config, old(pending).value)
      ensures config.enabled && pending.Some? ==> exists r :: WasRead(status, old(child), r) && r.Some?
      ensures
        var asks := Asks(old(pending), old(nextScheduledRestart), old(clock), old(lastUpgradeMarker), old(child),
                         old(lastStartFailure));
        config.enabled && asks ==> tally.asked > old(tally).asked
      ensures config.enabled && config.restartInterval == 0 && adverse && activeTurns > 0 ==>
        old(pending).None? && old(lastUpgradeMarker).None? ==>
        pending.Some? && clock < DrainedAt(config, pending.value)
    {
      status := None;
      if !config.enabled {
        return config.configuredUrl, status;
      }
      ScheduleRestarts();
      if pending.Some? {
        url, status := AdvancePendingRestart();
      } else {
        url := config.configuredUrl;
      }
    }

    /** The state to report; an external app-server is probed at most every thirty seconds. */
    method InstanceSnapshot() returns (reported: Option<InstanceState>)
      requires Valid()
      modifies this`state, this`generation, this`lastError, this`log, this`tally, this`tallies, this`clock,
        this`question, this`healthy, this`lastExternalProbe
      ensures Valid() && clock >= old(clock)
      ensures reported == if !config.enabled && config.configuredUrl.None? then None else Some(state)
      ensures config.enabled ==> state == old(state) && log == old(log)
      ensures !config.enabled && config.configuredUrl.Some? ==>
        (old(lastExternalProbe).None? || old(clock) >= old(lastExternalProbe).value + 30_000) ==>
        && lastExternalProbe.Some? && lastExternalProbe.value >= old(clock)
        && state == if healthy then Healthy else Degraded
      ensures lastExternalProbe != old(lastExternalProbe) ==>
        && lastExternalProbe.Some?
        && (old(lastExternalProbe).Some? ==>
              lastExternalProbe.value >= old(lastExternalProbe).value + 30_000)
        && state == if healthy then Healthy else Degraded
    {
      if !config.enabled && config.configuredUrl.None? {
        return None;
      }
      if !config.enabled {
        var now := Now();
        if lastExternalProbe.None? || now - lastExternalProbe.value >= EXTERNAL_PROBE_INTERVAL {
          lastExternalProbe := Some(now);
          var ok := CheckHealth();
          SetState(if ok then Healthy else Degraded, if ok then None else Some(OtherDetail));
        }
      }
      reported := Some(state);
    }

    /** The manager goes away, whatever turns are active. */
    method Drop()
      requires Valid()
      modifies this`child, this`log, this`tally, this`tallies, this`question
      ensures Valid() && (child ==> old(child))
      ensures log ==
        if old(child) then old(log) + [Terminated(ShuttingDown, clock, activeTurns, InHand(pending, carrying), !child)]
        else old(log)
    {
      var _ := StopChild(ShuttingDown);
    }
  }

  function Changed(log: Log, from: InstanceState, to: InstanceState): Log {
    if from == to then log else log + [StateChanged(from, to)]
  }

  ghost predicate MarkerIsNewer(env: Environment, marker: Option<Time>) {
    forall m :: env.marker(m).Some? && (marker.None? || env.marker(m).value > marker.value)
  }

  /** No restart was asked for meanwhile. */
  predicate Onward(before: Tally, after: Tally) {
    after.asked == before.asked && after.stops >= before.stops && after.tried >= before.tried
  }

  /** Nothing was asked for or spawned meanwhile. */
  predicate Unhurried(before: Tally, after: Tally) {
    after.asked == before.asked && after.tried == before.tried && after.spawned == before.spawned
  }

  /** The termination of a child for a status that was read, with a restart asked for. */
  predicate Terminates(a: Action, status: ChildStatus, turns: nat, restart: Restart, until: Time) {
    a.Terminated? && a.why == CleanupOf(status) && a.turns == turns && a.restart == Some(restart) && a.at <= until
  }

  lemma EndedStays(log: Log, log': Log, from: nat, status: ChildStatus, turns: nat, restart: Restart,
                   until: Time, until': Time)
    requires Ended(log, from, status, turns, restart, until) && until <= until'
    requires |log| <= |log'| && log'[..|log|] == log
    ensures Ended(log', from, status, turns, restart, until')
  {}

  ghost predicate Ended(log: Log, from: nat, status: ChildStatus, turns: nat, restart: Restart, until: Time) {
    exists k :: from <= k < |log| && Terminates(log[k], status, turns, restart, until)
  }

  /** How a pending restart may change from one moment to a later one: it is carried out, it appears, or
      an upgrade supersedes a scheduled one; nothing else moves its start time. */
  predicate Evolved(before: Option<Restart>, after: Option<Restart>) {
    || before.None? || after.None? || before == after
    || (before.value.reason.Scheduled? && after.value.reason.UpgradeMarker?)
  }

  /** While a restart stays pending, its start time moves at most once. */
  lemma {:induction false} PendingMovesAtMostOnce(history: seq<Restart>, i: nat, j: nat, k: nat)
    requires i <= j <= k < |history|
    requires forall n | 0 < n < |history| :: Evolved(Some(history[n - 1]), Some(history[n]))
    ensures history[i] == history[j] || history[j] == history[k]
    ensures history[i] != history[k] ==> history[k].reason.UpgradeMarker?
    decreases k
  {
    if k > 0 {
      assert Evolved(Some(history[k - 1]), Some(history[k]));
      if j < k {
        PendingMovesAtMostOnce(history, i, j, k - 1);
      } else if i < k {
        PendingMovesAtMostOnce(history, i, k - 1, k - 1);
      }
    }
  }

  datatype Call = Poll(allowStart: bool) | PollDuringTurn | BeginTurn | FinishTurn | Snapshot

  /** Any calls in any order, in any environment. */
  method Serve(config: Config, env: Environment, upgradeMarker: Option<Time>, calls: seq<Call>) returns (m: Manager)
    ensures fresh(m) && m.Valid() && m.config == config
    ensures Safe(config, m.log) && m.tally == TallyOf(m.log) && !m.tally.owes
  {
    m := new Manager(config, env, upgradeMarker, false);
    for i := 0 to |calls|
      invariant fresh(m) && m.Valid() && m.config == config && m.carrying.None?
    {
      match calls[i] {
        case Poll(allowStart) => var _, _ := m.RuntimeUrl(allowStart);
        case PollDuringTurn => var _, _ := m.ActiveTurnUrl();
        case BeginTurn => m.BeginTurn();
        case FinishTurn => m.FinishTurn();
        case Snapshot => var _ := m.InstanceSnapshot();
      }
    }
    m.Drop();
    SealedSums(m.seals, config, m.log, m.tallies, m.tally);
    SumsIsSafe(config, m.log, m.tallies, m.tally);
  }

  /** A run in which a running child ends during a drain: a poll starts it, a turn begins, the upgrade marker
      appears, and at the next poll the status of the child cannot be read. */
  method UnreadableStatusEndsAChild() returns (m: Manager)
    ensures fresh(m) && m.Valid() && m.activeTurns > 0 && m.pending.Some?
    ensures exists a :: a in m.log && a.Terminated? && a.why.Uninspectable? && DuringDrain(m.config, a)
  {
    var config := Config(true, None, Some(0), 0, 0, 0, 0);
    var env := Environment(
      _ => 0, (m: Moment) => m.child, (m: Moment) => if m.restart.Some? then Unreadable else Running,
      _ => true, _ => Started, _ => false, (m: Moment) => if m.turns > 0 then Some(1) else None);
    m := new Manager(config, env, None, true);
    var _, _ := m.RuntimeUrl(true);
    m.BeginTurn();
    var _, status := m.ActiveTurnUrl();
    assert status == Some(Unreadable);
  }
}
