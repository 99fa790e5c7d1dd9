/** Usage accounting: every event counts in a minute, a four-hour and a daily window; each window's row
    holds its totals, its budget state and its used percentage.  Times are milliseconds since the epoch. */
module UsageWindows {
  import opened Common

  // ---------------------------------------------------------------------------------------------
  // Thresholds

  datatype BudgetState = Normal | Conservative | Throttled | HardLimited

  datatype Thresholds = Thresholds(hardLimit: nat, throttledAt: nat, conservativeAt: nat)

  function Max(a: int, b: int): int { if a >= b then a else b }
  function Min(a: int, b: int): int { if a <= b then a else b }

  function NinetyPercentUp(n: nat): nat { (9 * n + 9) / 10 }
  function ThreeQuartersUp(n: nat): nat { (3 * n + 3) / 4 }

  function ThresholdSet(hardLimit: nat, softLimit: Option<nat>): (t: Thresholds)
    ensures 1 <= t.conservativeAt <= t.throttledAt <= t.hardLimit
  {
    var hard := Max(1, hardLimit);
    var throttledAt := Min(hard, if softLimit.None? then Max(1, NinetyPercentUp(hard)) else Max(1, softLimit.value));
    var base := if softLimit.None? then hard else throttledAt;
    Thresholds(hard, throttledAt, Max(1, Min(throttledAt, ThreeQuartersUp(base))))
  }

  function StateFor(count: nat, t: Thresholds): BudgetState {
    if count >= t.hardLimit then HardLimited
    else if count >= t.throttledAt then Throttled
    else if count >= t.conservativeAt then Conservative
    else Normal
  }

  function Severity(s: BudgetState): nat {
    match s case Normal => 0 case Conservative => 1 case Throttled => 2 case HardLimited => 3
  }

  function Scaled(o: Option<nat>, k: nat): Option<nat> {
    if o.None? then None else Some(o.value * k)
  }

  /** What the rounded thresholds mean as fractions of the budgets. */
  lemma StateMeans(count: nat, hard: nat, soft: Option<nat>)
    requires hard >= 1 && (soft.Some? ==> soft.value >= 1)
    ensures var severity := Severity(StateFor(count, ThresholdSet(hard, soft)));
      && (severity >= 3 <==> count >= hard)
      && (soft.None? ==> (severity >= 2 <==> 10 * count >= 9 * hard) && (severity >= 1 <==> 4 * count >= 3 * hard))
      && (soft.Some? ==>
            && (severity >= 2 <==> count >= Min(hard, soft.value))
            && (severity >= 1 <==> 4 * count >= 3 * Min(hard, soft.value)))
  {}

  lemma RoundedUpTimes(count: nat, n: nat, k: nat)
    requires k >= 1
    ensures count * k >= NinetyPercentUp(n * k) <==> count >= NinetyPercentUp(n)
    ensures count * k >= ThreeQuartersUp(n * k) <==> count >= ThreeQuartersUp(n)
  {
    assert count * k >= NinetyPercentUp(n * k) <==> 10 * (count * k) >= 9 * (n * k);
    assert count * k >= ThreeQuartersUp(n * k) <==> 4 * (count * k) >= 3 * (n * k);
    TimesKeepsOrder(9 * n, 10 * count, k);
    TimesKeepsOrder(3 * n, 4 * count, k);
    assert 10 * (count * k) == (10 * count) * k && 9 * (n * k) == (9 * n) * k;
    assert 4 * (count * k) == (4 * count) * k && 3 * (n * k) == (3 * n) * k;
  }

  lemma TimesKeepsOrder(a: int, b: int, k: nat)
    requires k >= 1
    ensures a * k <= b * k <==> a <= b
  {}

  /** Rounding up does not disturb a change of unit from events to rows written: the state of a count
      against its budgets does not change when all of them are multiplied. */
  lemma ThresholdsScale(count: nat, hard: nat, soft: Option<nat>, k: nat)
    requires k >= 1
    ensures StateFor(count * k, ThresholdSet(hard * k, Scaled(soft, k))) == StateFor(count, ThresholdSet(hard, soft))
  {
    TimesKeepsOrder(hard, count, k);
    TimesKeepsOrder(1, count, k);
    TimesKeepsOrder(1, hard, k);
    if soft.None? {
      RoundedUpTimes(count, hard, k);
    } else {
      SoftThresholdsScale(count, hard, soft.value, k);
    }
  }

  lemma SoftThresholdsScale(count: nat, hard: nat, soft: nat, k: nat)
    requires k >= 1
    ensures StateFor(count * k, ThresholdSet(hard * k, Some(soft * k))) ==
      StateFor(count, ThresholdSet(hard, Some(soft)))
  {
    TimesKeepsOrder(hard, count, k);
    TimesKeepsOrder(1, count, k);
    TimesKeepsOrder(1, hard, k);
    TimesKeepsOrder(soft, count, k);
    TimesKeepsOrder(1, soft, k);
    TimesKeepsOrder(soft, hard, k);
    RoundedUpTimes(count, hard, k);
    RoundedUpTimes(count, soft, k);
  }

  lemma MoreIsNotMilder(count: nat, more: nat, t: Thresholds)
    requires count <= more
    ensures t.conservativeAt <= t.throttledAt <= t.hardLimit ==>
      Severity(StateFor(count, t)) <= Severity(StateFor(more, t))
  {}

  /** What the budget view reads of a window. */
  datatype Constraint = Constraint(limitUnits: nat, usedUnits: Option<nat>, state: Option<BudgetState>)

  function UsedUnits(localRows: Option<nat>, telemetryRows: Option<nat>): Option<nat> {
    if telemetryRows.None? then localRows
    else if localRows.None? then telemetryRows
    else Some(Max(localRows.value, telemetryRows.value))
  }

  /** The constraint in rows written; a missing sample has no state. */
  function WriteConstraint(eventBudget: nat, windowEvents: Option<nat>, rowsPerEvent: nat,
                           telemetryRows: Option<nat>, softEventBudget: Option<nat>): Constraint
  {
    var limit := eventBudget * rowsPerEvent;
    var used := UsedUnits(Scaled(windowEvents, rowsPerEvent), telemetryRows);
    Constraint(limit, used,
      if used.None? then None
      else Some(StateFor(used.value, ThresholdSet(limit, Scaled(softEventBudget, rowsPerEvent)))))
  }

  /** Without telemetry the constraint in rows is the window's state in events, and telemetry can only
      make it more severe. */
  lemma ConstraintAgreesWithWindow(eventBudget: nat, windowEvents: nat, rowsPerEvent: nat,
                                   telemetryRows: Option<nat>, softEventBudget: Option<nat>)
    requires rowsPerEvent >= 1
    ensures var c := WriteConstraint(eventBudget, Some(windowEvents), rowsPerEvent, telemetryRows, softEventBudget);
      var window := StateFor(windowEvents, ThresholdSet(eventBudget, softEventBudget));
      && c.state.Some?
      && (telemetryRows.None? ==> c.state.value == window)
      && Severity(window) <= Severity(c.state.value)
  {
    ThresholdsScale(windowEvents, eventBudget, softEventBudget, rowsPerEvent);
    var t := ThresholdSet(eventBudget * rowsPerEvent, Scaled(softEventBudget, rowsPerEvent));
    var used := UsedUnits(Some(windowEvents * rowsPerEvent), telemetryRows).value;
    MoreIsNotMilder(windowEvents * rowsPerEvent, used, t);
  }

  // ---------------------------------------------------------------------------------------------
  // Windows

  const MINUTE: int := 60_000
  const HOUR: int := 3_600_000
  const FOUR_HOURS: int := 14_400_000
  const DAY: int := 86_400_000

  datatype WindowType = Daily | FourHour | Burst

  datatype Key = Key(windowType: WindowType, start: int)

  function Length(w: WindowType): int {
    match w case Daily => DAY case FourHour => FOUR_HOURS case Burst => MINUTE
  }

  /** The start of the window of `t`, from its day, hour and minute. */
  function Start(w: WindowType, t: int): int {
    var day := t - t % DAY;
    var hour := t % DAY / HOUR;
    var minute := t % HOUR / MINUTE;
    match w
    case Daily => day
    case FourHour => day + hour / 4 * 4 * HOUR
    case Burst => day + hour * HOUR + minute * MINUTE
  }

  predicate Contains(key: Key, t: int) {
    key.start <= t < key.start + Length(key.windowType)
  }

  predicate Aligned(key: Key) {
    Start(key.windowType, key.start) == key.start
  }

  lemma FloorIsUnique(t: int, n: nat, q: int)
    requires n >= 1 && q * n <= t < q * n + n
    ensures t - t % n == q * n
  {
    assert t == t / n * n + t % n;
    assert (q + 1) * n == q * n + n && (t / n + 1) * n == t / n * n + n;
    TimesKeepsOrder(q + 1, t / n, n);
    TimesKeepsOrder(t / n + 1, q, n);
  }

  lemma StartIsFloor(w: WindowType, t: int)
    ensures Start(w, t) == t - t % Length(w)
  {
    var hour := t % DAY / HOUR;
    var minute := t % HOUR / MINUTE;
    match w
    case Daily =>
    case FourHour => FloorIsUnique(t, FOUR_HOURS, 6 * (t / DAY) + hour / 4);
    case Burst =>
      FloorIsUnique(t, HOUR, 24 * (t / DAY) + hour);
      FloorIsUnique(t, MINUTE, 1440 * (t / DAY) + 60 * hour + minute);
  }

  /** The windows of one type partition time: each instant lies in exactly one, the one that starts at
      its `Start`. */
  lemma WindowsPartition(key: Key, t: int)
    ensures Aligned(Key(key.windowType, Start(key.windowType, t)))
      && Contains(Key(key.windowType, Start(key.windowType, t)), t)
    ensures Aligned(key) ==> (Contains(key, t) <==> key.start == Start(key.windowType, t))
    ensures Aligned(key) <==> key.start % Length(key.windowType) == 0
  {
    var n := Length(key.windowType);
    StartIsFloor(key.windowType, t);
    StartIsFloor(key.windowType, key.start);
    StartIsFloor(key.windowType, t - t % n);
    assert t == t / n * n + t % n && key.start == key.start / n * n + key.start % n;
    FloorIsUnique(t - t % n, n, t / n);
    if key.start % n == 0 && Contains(key, t) {
      FloorIsUnique(t, n, key.start / n);
    }
  }

  /** Minute windows lie inside four-hour windows, and these inside days. */
  lemma WindowsNest(t: int)
    ensures Start(Daily, t) <= Start(FourHour, t) <= Start(Burst, t) <= t
    ensures t < Start(Burst, t) + MINUTE <= Start(FourHour, t) + FOUR_HOURS <= Start(Daily, t) + DAY
  {}
}
