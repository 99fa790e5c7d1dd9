/** What an app-server manager has done, action by action, and when an action is safe. */
module AppServerLog {
  import opened Common

  datatype InstanceState = Healthy | Degraded | Draining | Restarting | Stopped

  datatype Reason = Scheduled | UpgradeMarker

  datatype Restart = Restart(reason: Reason, requestedAt: Time)

  /** Why a child is terminated: it is to be stopped, it has exited, its state cannot be read, or the
      manager itself goes away. */
  datatype Why = Deliberate | Exited | Uninspectable | ShuttingDown

  /** Durations; the configured ones are raised to at least one second where they are used. */
  datatype Config = Config(
    enabled: bool,
    configuredUrl: Option<Id>,
    listenUrl: Option<Id>,
    restartInterval: Time,
    drainTimeout: Time,
    restartBackoff: Time,
    startupTimeout: Time)

  /** What the system says about a child when asked. */
  datatype ChildStatus = Running | HasExited | Unreadable

  /** Why a child is cleaned up that does not run, as far as can be told. */
  function CleanupOf(status: ChildStatus): Why {
    if status.HasExited? then Exited else Uninspectable
  }

  /** `turns`: active turns at that moment; `restart`: the restart asked for or being carried out. */
  datatype Action =
    | Inspected(status: ChildStatus)
    | Asked(asked: Restart)
    | Tried
    | Spawned(at: Time, turns: nat, restart: Option<Restart>)
    | Terminated(why: Why, at: Time, turns: nat, restart: Option<Restart>, reaped: bool)
    | StartFailed(at: Time)
    | CarriedOut(restarted: Restart, owned: bool)
    | StateChanged(from: InstanceState, to: InstanceState)

  type Log = seq<Action>

  const SECOND: Time := 1000

  function AtLeastASecond(d: Time): (r: Time)
    ensures r >= 1000 && r >= d && (r == 1000 || r == d)
  {
    if d < SECOND then SECOND else d
  }

  /** What a log adds up to: children spawned and reaped, terminations, restarts asked for, attempts to
      spawn, changes of state; when a start last failed, and whether the failure backoff was lifted since;
      the last status read, and whether a cleanup is due for it. */
  datatype Tally = Tally(
    spawned: nat, reaped: nat, stops: nat, asked: nat, tried: nat, changes: nat,
    lastFailure: Option<Time>, lifted: bool, read: Option<ChildStatus>, owes: bool)

  const NOTHING := Tally(0, 0, 0, 0, 0, 0, None, false, None, false)

  /** A restart that lifts the failure backoff: for an upgrade, or of a child still owned. */
  predicate Lifts(a: Action) {
    a.CarriedOut? && (a.restarted.reason.UpgradeMarker? || a.owned)
  }

  function Plus(t: Tally, a: Action): Tally {
    match a
    case Inspected(status) => t.(read := Some(status), owes := !status.Running?)
    case Asked(_) => t.(asked := t.asked + 1)
    case Tried => t.(tried := t.tried + 1)
    case Spawned(_, _, _) => t.(spawned := t.spawned + 1)
    case Terminated(_, _, _, _, reaped) =>
      t.(stops := t.stops + 1, owes := false, reaped := t.reaped + if reaped then 1 else 0)
    case StartFailed(at) => t.(lastFailure := Some(at), lifted := false)
    case CarriedOut(_, _) => t.(lifted := t.lifted || Lifts(a))
    case StateChanged(_, _) => t.(changes := t.changes + 1)
  }

  function TallyOf(log: Log): Tally {
    if log == [] then NOTHING else Plus(TallyOf(log[..|log| - 1]), log[|log| - 1])
  }

  /** With turns active and a restart asked for, the drain timeout must have elapsed. */
  predicate Drained(config: Config, at: Time, turns: nat, restart: Option<Restart>) {
    turns > 0 && restart.Some? ==> at >= restart.value.requestedAt + AtLeastASecond(config.drainTimeout)
  }

  predicate BackoffOver(config: Config, t: Tally, at: Time) {
    t.lastFailure.Some? ==> at >= t.lastFailure.value + AtLeastASecond(config.restartBackoff) || t.lifted
  }

  /** Why a child may be terminated: on purpose once turns have drained; because the status read just
      before says that it does not run or cannot be read; or because the manager goes away. */
  predicate MayTerminate(config: Config, t: Tally, why: Why, at: Time, turns: nat, restart: Option<Restart>) {
    match why
    case Deliberate => !t.owes && Drained(config, at, turns, restart)
    case Exited => t.owes && t.read == Some(HasExited)
    case Uninspectable => t.owes && t.read == Some(Unreadable)
    case ShuttingDown => !t.owes
  }

  predicate SafeNext(config: Config, t: Tally, a: Action) {
    && (t.owes ==> a.StateChanged? || a.Terminated?)
    && match a
       case Inspected(_) => t.spawned == t.reaped + 1
       case Spawned(at, turns, restart) =>
         Drained(config, at, turns, restart) && BackoffOver(config, t, at) && t.spawned == t.reaped
       case Terminated(why, at, turns, restart, _) =>
         MayTerminate(config, t, why, at, turns, restart) && t.spawned == t.reaped + 1
       case StartFailed(at) => t.lastFailure.Some? ==> at >= t.lastFailure.value
       case CarriedOut(_, owned) => owned <==> t.spawned == t.reaped + 1
       case StateChanged(from, to) => from != to
       case _ => true
  }

  /** Every action was safe when it was taken. */
  predicate Safe(config: Config, log: Log) {
    log == [] || (Safe(config, log[..|log| - 1]) && SafeNext(config, TallyOf(log[..|log| - 1]), log[|log| - 1]))
  }

  /** The log is safe and adds up to `t`, as the tallies of its prefixes show. */
  ghost predicate Sums(config: Config, log: Log, tallies: seq<Tally>, t: Tally) {
    && |tallies| == |log| + 1 && tallies[0] == NOTHING && tallies[|log|] == t
    && forall k {:trigger log[k]} | 0 <= k < |log| ::
         SafeNext(config, tallies[k], log[k]) && tallies[k + 1] == Plus(tallies[k], log[k])
  }

  /** The same, wrapped: a method that only passes it on need not look inside. */
  ghost predicate Sealed(seals: nat, config: Config, log: Log, tallies: seq<Tally>, t: Tally) {
    if seals == 0 then Sums(config, log, tallies, t) else Sealed(seals - 1, config, log, tallies, t)
  }

  lemma {:induction false} SealedSums(seals: nat, config: Config, log: Log, tallies: seq<Tally>, t: Tally)
    ensures Sealed(seals, config, log, tallies, t) <==> Sums(config, log, tallies, t)
  {
    if seals > 0 {
      SealedSums(seals - 1, config, log, tallies, t);
    }
  }

  lemma SealedGrows(seals: nat, config: Config, log: Log, tallies: seq<Tally>, t: Tally, a: Action)
    requires Sealed(seals, config, log, tallies, t) && SafeNext(config, t, a)
    ensures Sealed(seals, config, log + [a], tallies + [Plus(t, a)], Plus(t, a))
  {}

  lemma {:induction false} SumsIsSafe(config: Config, log: Log, tallies: seq<Tally>, t: Tally)
    requires Sums(config, log, tallies, t)
    ensures Safe(config, log) && t == TallyOf(log)
  {
    var n := |log| - 1;
    if n >= 0 {
      assert log[n] == log[n];
      forall k | 0 <= k < n
        ensures SafeNext(config, tallies[..n + 1][k], log[..n][k])
        ensures tallies[..n + 1][k + 1] == Plus(tallies[..n + 1][k], log[..n][k])
      {
        assert log[..n][k] == log[k];
      }
      SumsIsSafe(config, log[..n], tallies[..n + 1], tallies[n]);
    }
  }

  lemma {:induction false} PrefixIsSafe(config: Config, log: Log, k: nat)
    requires Safe(config, log) && k < |log|
    ensures Safe(config, log[..k]) && SafeNext(config, TallyOf(log[..k]), log[k])
    decreases |log|
  {
    if k < |log| - 1 {
      PrefixIsSafe(config, log[..|log| - 1], k);
      assert log[..|log| - 1][..k] == log[..k];
    }
  }

  /** An action on a child while turns are active, a restart is asked for, and the drain timeout is not over. */
  predicate DuringDrain(config: Config, a: Action) {
    (a.Spawned? || a.Terminated?) && !Drained(config, a.at, a.turns, a.restart)
  }

  /** Action `k` follows the inspection `j` at once, but for a change of state. */
  predicate AtOnce(log: Log, j: int, k: int) {
    0 <= j < k < |log| && log[j].Inspected? && forall m | j < m < k :: log[m].StateChanged?
  }

  /** A termination that the inspection `j` led to. */
  predicate CleansUp(log: Log, j: int, k: int) {
    AtOnce(log, j, k) && log[k].Terminated? && log[k].why == CleanupOf(log[j].status)
  }

  /** Draining: nothing is spawned before the drain timeout, and a child is terminated only right after a
      status was read that is not Running, or because the manager goes away. */
  lemma DrainIsRespected(config: Config, log: Log, k: nat)
    requires Safe(config, log) && k < |log| && DuringDrain(config, log[k])
    ensures log[k].Terminated?
    ensures log[k].why.ShuttingDown? || exists j :: CleansUp(log, j, k) && !log[j].status.Running?
  {
    PrefixIsSafe(config, log, k);
    if !log[k].why.ShuttingDown? {
      var j := DueSince(config, log, k);
      assert CleansUp(log, j, k);
    }
  }

  /** Exactly when an inspection ends a child, during a drain or not: when it did not read Running. */
  lemma InspectionIsDecisive(config: Config, log: Log, j: nat)
    requires Safe(config, log) && !TallyOf(log).owes && j < |log| && log[j].Inspected?
    ensures !log[j].status.Running? <==> exists k :: CleansUp(log, j, k)
    ensures forall k | AtOnce(log, j, k) && log[k].Terminated? && DuringDrain(config, log[k]) ::
      log[k].why.ShuttingDown? || CleansUp(log, j, k)
  {
    assert log[..j + 1][..j] == log[..j];
    if !log[j].status.Running? {
      var k := PaidAt(config, log, j, j + 1);
    }
    forall k | AtOnce(log, j, k) && log[k].Terminated?
      ensures log[k].why.Exited? || log[k].why.Uninspectable? ==> CleansUp(log, j, k) && !log[j].status.Running?
      ensures DuringDrain(config, log[k]) ==> !log[k].why.Deliberate?
    {
      PrefixIsSafe(config, log, k);
      if TallyOf(log[..k]).owes {
        var i := DueSince(config, log, k);
        assert i == j;
      }
    }
  }

  /** The inspection for which a cleanup is due. */
  lemma {:induction false} DueSince(config: Config, log: Log, k: nat) returns (j: nat)
    requires Safe(config, log) && k < |log| && TallyOf(log[..k]).owes
    ensures AtOnce(log, j, k) && !log[j].status.Running? && TallyOf(log[..k]).read == Some(log[j].status)
    decreases k
  {
    assert log[..k][..k - 1] == log[..k - 1];
    PrefixIsSafe(config, log, k - 1);
    if log[k - 1].Inspected? {
      j := k - 1;
    } else {
      j := DueSince(config, log, k - 1);
    }
  }

  /** The termination that a cleanup which is due leads to. */
  lemma {:induction false} PaidAt(config: Config, log: Log, j: nat, n: nat) returns (k: nat)
    requires Safe(config, log) && !TallyOf(log).owes && j < n <= |log|
    requires log[j].Inspected? && !log[j].status.Running? && forall m | j < m < n :: log[m].StateChanged?
    requires TallyOf(log[..n]).owes && TallyOf(log[..n]).read == Some(log[j].status)
    ensures CleansUp(log, j, k)
    decreases |log| - n
  {
    assert log[..|log|] == log;
    PrefixIsSafe(config, log, n);
    if log[n].Terminated? {
      k := n;
    } else {
      assert log[..n + 1][..n] == log[..n];
      k := PaidAt(config, log, j, n + 1);
    }
  }

  lemma {:induction false} FailuresAreOrdered(config: Config, log: Log, i: nat)
    requires Safe(config, log) && i < |log| && log[i].StartFailed?
    ensures TallyOf(log).lastFailure.Some? && TallyOf(log).lastFailure.value >= log[i].at
    ensures TallyOf(log).lifted ==> exists j :: i < j < |log| && Lifts(log[j])
    decreases |log|
  {
    var n := |log| - 1;
    if i < n {
      FailuresAreOrdered(config, log[..n], i);
      if TallyOf(log).lifted && !Lifts(log[n]) {
        var j :| i < j < n && Lifts(log[..n][j]);
        assert Lifts(log[j]);
      }
    }
  }

  /** Backoff: a spawn soon after a failed start follows a restart that lifted the backoff in between. */
  lemma SpawnInBackoffIsLifted(config: Config, log: Log, i: nat, k: nat)
    requires Safe(config, log) && i < k < |log|
    requires log[i].StartFailed? && log[k].Spawned? && log[k].at < log[i].at + AtLeastASecond(config.restartBackoff)
    ensures exists j :: i < j < k && Lifts(log[j])
  {
    PrefixIsSafe(config, log, k);
    FailuresAreOrdered(config, log[..k], i);
    var j :| i < j < k && Lifts(log[..k][j]);
    assert Lifts(log[j]);
  }

  /** Children are spawned one at a time: between two spawns the first child was reaped. */
  lemma {:induction false} ReapedBetweenSpawns(config: Config, log: Log, i: nat, k: nat)
    requires Safe(config, log) && i < k < |log| && log[i].Spawned? && log[k].Spawned?
    ensures exists j :: i < j < k && log[j].Terminated? && log[j].reaped
  {
    PrefixIsSafe(config, log, k);
    PrefixIsSafe(config, log, i);
    assert log[..i + 1][..i] == log[..i];
    if forall j | i < j < k :: !(log[j].Terminated? && log[j].reaped) {
      NoReaps(log, i + 1, k);
      SpawnsGrow(log, i + 1, k);
    }
  }

  lemma {:induction false} NoReaps(log: Log, i: nat, k: nat)
    requires i <= k <= |log| && forall j | i <= j < k :: !(log[j].Terminated? && log[j].reaped)
    ensures TallyOf(log[..k]).reaped == TallyOf(log[..i]).reaped
  {
    if i < k {
      NoReaps(log, i, k - 1);
      assert log[..k][..k - 1] == log[..k - 1];
    }
  }

  lemma {:induction false} SpawnsGrow(log: Log, i: nat, k: nat)
    requires i <= k <= |log|
    ensures TallyOf(log[..i]).spawned <= TallyOf(log[..k]).spawned
  {
    if i < k {
      SpawnsGrow(log, i, k - 1);
      assert log[..k][..k - 1] == log[..k - 1];
    }
  }
}
