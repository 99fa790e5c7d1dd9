/** The usage table: batches of events are added up per window and then upserted. */
module UsageAccounting {
  import opened Common
  import opened UsageWindows

  /** The settings the windows are made from. */
  datatype Budgets = Budgets(daily: nat, fourHourHard: nat, fourHourSoft: nat, burst: nat)

  /** Totals of some events in one window, with the latest of their times. */
  datatype Aggregate = Aggregate(events: nat, compacted: nat, delayed: nat, spoolBytes: nat, updatedAt: int)

  /** A row: its totals, the state, and tenths of a percent used, absent for a budget of zero. */
  datatype Row = Row(totals: Aggregate, state: BudgetState, usedPct: Option<nat>)

  type Table = map<Key, Row>

  /** What one event adds, and when: `at` is absent for a text that is no time. */
  datatype Event = Event(at: Option<int>, compacted: nat, delayed: nat, spoolBytes: nat)

  function BudgetUnits(b: Budgets, w: WindowType): nat {
    match w case Daily => b.daily case FourHour => Max(b.fourHourHard, b.fourHourSoft) case Burst => b.burst
  }

  function ThresholdsOf(b: Budgets, w: WindowType): Thresholds {
    match w
    case Daily => ThresholdSet(b.daily, None)
    case FourHour => ThresholdSet(Max(b.fourHourHard, b.fourHourSoft), Some(b.fourHourSoft))
    case Burst => ThresholdSet(b.burst, None)
  }

  /** Tenths of a percent, rounded half up. */
  function UsedPct(count: nat, budgetUnits: nat): Option<nat> {
    if budgetUnits == 0 then None else Some((2000 * count + budgetUnits) / (2 * budgetUnits))
  }

  /** The percentage is off by at most a twentieth. */
  lemma UsedPctIsNearest(count: nat, budgetUnits: nat)
    requires budgetUnits >= 1
    ensures var tenths := UsedPct(count, budgetUnits).value;
      2 * budgetUnits * tenths - budgetUnits <= 2000 * count < 2 * budgetUnits * tenths + budgetUnits
  {}

  function Plus(a: Aggregate, b: Aggregate): Aggregate {
    Aggregate(a.events + b.events, a.compacted + b.compacted, a.delayed + b.delayed, a.spoolBytes + b.spoolBytes,
              if a.updatedAt > b.updatedAt then a.updatedAt else b.updatedAt)
  }

  function Join(a: Option<Aggregate>, b: Option<Aggregate>): Option<Aggregate> {
    if a.None? then b else if b.None? then a else Some(Plus(a.value, b.value))
  }

  /** The row with given totals: its state and percentage are functions of its count. */
  function RowOf(b: Budgets, key: Key, a: Aggregate): Row {
    Row(a, StateFor(a.events, ThresholdsOf(b, key.windowType)), UsedPct(a.events, BudgetUnits(b, key.windowType)))
  }

  /** The windows of an instant, in the order the code visits them. */
  function Keys(t: int): seq<Key> {
    [Key(Daily, Start(Daily, t)), Key(FourHour, Start(FourHour, t)), Key(Burst, Start(Burst, t))]
  }

  // ---------------------------------------------------------------------------------------------
  // What a log of events amounts to

  /** An event with the time it is accounted at. */
  datatype Entry = Entry(at: int, compacted: nat, delayed: nat, spoolBytes: nat)

  /** The entries of a batch; events whose time cannot be read are skipped. */
  function Entries(events: seq<Event>, accountedAt: Option<Option<int>>): seq<Entry> {
    if events == [] then []
    else
      var e := events[|events| - 1];
      var at := if accountedAt.Some? then accountedAt.value else e.at;
      Entries(events[..|events| - 1], accountedAt) +
        if at.None? then [] else [Entry(at.value, e.compacted, e.delayed, e.spoolBytes)]
  }

  function One(e: Entry): Aggregate {
    Aggregate(1, e.compacted, e.delayed, e.spoolBytes, e.at)
  }

  function Share(e: Entry, key: Key): Option<Aggregate> {
    if key in Keys(e.at) then Some(One(e)) else None
  }

  /** What the entries of a log add to one window. */
  function Total(log: seq<Entry>, key: Key): Option<Aggregate> {
    if log == [] then None
    else Join(Total(log[..|log| - 1], key), Share(log[|log| - 1], key))
  }

  function Touched(log: seq<Entry>): set<Key> {
    if log == [] then {}
    else
      var keys := Keys(log[|log| - 1].at);
      Touched(log[..|log| - 1]) + {keys[0], keys[1], keys[2]}
  }

  lemma {:induction false} TouchedHasTotal(log: seq<Entry>, key: Key)
    ensures key in Touched(log) <==> Total(log, key).Some?
  {
    if log != [] {
      TouchedHasTotal(log[..|log| - 1], key);
    }
  }

  function Totals(log: seq<Entry>): (m: map<Key, Aggregate>)
    ensures forall key :: (key in m <==> Total(log, key).Some?) && (key in m ==> m[key] == Total(log, key).value)
  {
    EveryTouchedHasTotal(log);
    map key | key in Touched(log) :: Total(log, key).value
  }

  lemma EveryTouchedHasTotal(log: seq<Entry>)
    ensures forall key :: key in Touched(log) <==> Total(log, key).Some?
  {}

  function TotalsOf(rows: Table, key: Key): Option<Aggregate> {
    if key in rows then Some(rows[key].totals) else None
  }

  /** The table with some aggregates added to it. */
  function Merged(b: Budgets, rows: Table, added: map<Key, Aggregate>): Table {
    map key | key in rows.Keys + added.Keys ::
      if key in added then RowOf(b, key, Join(TotalsOf(rows, key), Some(added[key])).value) else rows[key]
  }

  /** The table after a log, whatever batches it came in. */
  function Recorded(b: Budgets, rows: Table, log: seq<Entry>): Table {
    Merged(b, rows, Totals(log))
  }

  // ---------------------------------------------------------------------------------------------
  // What totals and rows mean

  function Sum(log: seq<Entry>, from: int, to: int, share: Entry -> nat): nat {
    if log == [] then 0
    else Sum(log[..|log| - 1], from, to, share) + if from <= log[|log| - 1].at < to then share(log[|log| - 1]) else 0
  }

  /** A window's total sums up the entries whose times lie in it, each column by itself, and bears the latest of
      these times. */
  lemma {:induction false} TotalMeans(log: seq<Entry>, key: Key)
    requires Aligned(key)
    ensures
      var from, to := key.start, key.start + Length(key.windowType);
      match Total(log, key)
      case None => forall e | e in log :: !(from <= e.at < to)
      case Some(Aggregate(events, compacted, delayed, spoolBytes, updatedAt)) =>
        && events == Sum(log, from, to, (e: Entry) => 1)
        && compacted == Sum(log, from, to, (e: Entry) => e.compacted)
        && delayed == Sum(log, from, to, (e: Entry) => e.delayed)
        && spoolBytes == Sum(log, from, to, (e: Entry) => e.spoolBytes)
        && (exists e | e in log :: from <= e.at < to && e.at == updatedAt)
        && forall e | e in log && from <= e.at < to :: e.at <= updatedAt
  {
    if log != [] {
      var rest, last := log[..|log| - 1], log[|log| - 1];
      assert log == rest + [last];
      TotalMeans(rest, key);
      WindowsPartition(key, last.at);
      if Total(rest, key).None? {
        NothingToSum(rest, key, (e: Entry) => 1);
        NothingToSum(rest, key, (e: Entry) => e.compacted);
        NothingToSum(rest, key, (e: Entry) => e.delayed);
        NothingToSum(rest, key, (e: Entry) => e.spoolBytes);
      }
    }
  }

  lemma {:induction false} NothingToSum(log: seq<Entry>, key: Key, share: Entry -> nat)
    requires forall e | e in log :: !(key.start <= e.at < key.start + Length(key.windowType))
    ensures Sum(log, key.start, key.start + Length(key.windowType), share) == 0
  {
    if log != [] {
      NothingToSum(log[..|log| - 1], key, share);
    }
  }

  /** A row's state and percentage in terms of the settings, for each type of window: ninety and seventy-five
      percent of the budget for days and minutes; the soft budget and seventy-five percent of it for four
      hours, whose hard budget is at least the soft one. */
  lemma RowMeans(b: Budgets, key: Key, a: Aggregate)
    requires b.daily >= 1 && b.fourHourSoft >= 1 && b.burst >= 1
    ensures
      var row := RowOf(b, key, a);
      var severity := Severity(row.state);
      && row.totals == a && row.usedPct.Some?
      && match key.windowType
         case Daily =>
           && (severity == 3 <==> a.events >= b.daily) && (severity >= 2 <==> 10 * a.events >= 9 * b.daily)
           && (severity >= 1 <==> 4 * a.events >= 3 * b.daily)
           && Nearest(row.usedPct.value, a.events, b.daily)
         case FourHour =>
           && (severity == 3 <==> a.events >= b.fourHourHard && a.events >= b.fourHourSoft)
           && (severity >= 2 <==> a.events >= b.fourHourSoft) && (severity >= 1 <==> 4 * a.events >= 3 * b.fourHourSoft)
           && Nearest(row.usedPct.value, a.events, Max(b.fourHourHard, b.fourHourSoft))
         case Burst =>
           && (severity == 3 <==> a.events >= b.burst) && (severity >= 2 <==> 10 * a.events >= 9 * b.burst)
           && (severity >= 1 <==> 4 * a.events >= 3 * b.burst)
           && Nearest(row.usedPct.value, a.events, b.burst)
  {
    var units := BudgetUnits(b, key.windowType);
    UsedPctIsNearest(a.events, units);
    StateMeans(a.events, units, if key.windowType.FourHour? then Some(b.fourHourSoft) else None);
  }

  /** `tenths` of a percent is the share of a count in a budget, rounded to the nearest tenth, half up. */
  predicate Nearest(tenths: nat, count: nat, budget: nat) {
    2 * budget * tenths - budget <= 2000 * count < 2 * budget * tenths + budget
  }

  // ---------------------------------------------------------------------------------------------
  // Order and grouping do not matter

  lemma JoinLaws(a: Option<Aggregate>, b: Option<Aggregate>, c: Option<Aggregate>)
    ensures Join(Join(a, b), c) == Join(a, Join(b, c))
    ensures Join(a, b) == Join(b, a)
  {}

  lemma {:induction false} TotalSplits(a: seq<Entry>, b: seq<Entry>, key: Key)
    ensures Total(a + b, key) == Join(Total(a, key), Total(b, key))
  {
    if b == [] {
      assert a + b == a;
    } else {
      var rest := b[..|b| - 1];
      assert (a + b)[..|a + b| - 1] == a + rest;
      TotalSplits(a, rest, key);
      JoinLaws(Total(a, key), Total(rest, key), Share(b[|b| - 1], key));
    }
  }

  /** One entry can be moved to the end of a log. */
  lemma TotalMoves(a: seq<Entry>, e: Entry, b: seq<Entry>, key: Key)
    ensures Total(a + [e] + b, key) == Join(Total(a + b, key), Share(e, key))
  {
    TotalSplits(a + [e], b, key);
    TotalSplits(a, b, key);
    assert (a + [e])[..|a|] == a;
    JoinLaws(Total(a, key), Share(e, key), Total(b, key));
    JoinLaws(Share(e, key), Total(b, key), None);
    JoinLaws(Total(a, key), Total(b, key), Share(e, key));
  }

  lemma {:induction false} TotalPermutes(a: seq<Entry>, b: seq<Entry>, key: Key)
    requires multiset(a) == multiset(b)
    ensures Total(a, key) == Total(b, key)
    decreases |a|
  {
    if a == [] {
      assert |b| == |multiset(b)| == 0;
    } else {
      var e, rest := a[|a| - 1], a[..|a| - 1];
      assert a == rest + [e];
      assert e in multiset(b);
      var i :| 0 <= i < |b| && b[i] == e;
      assert b == b[..i] + [e] + b[i + 1..];
      assert multiset(rest) == multiset(a) - multiset{e};
      assert multiset(b[..i] + b[i + 1..]) == multiset(b) - multiset{e};
      TotalPermutes(rest, b[..i] + b[i + 1..], key);
      TotalMoves(b[..i], e, b[i + 1..], key);
    }
  }

  function Find<V>(m: map<Key, V>, key: Key): Option<V> {
    if key in m then Some(m[key]) else None
  }

  function JoinedMaps(a: map<Key, Aggregate>, b: map<Key, Aggregate>): map<Key, Aggregate> {
    map key | key in a.Keys + b.Keys :: Join(Find(a, key), Find(b, key)).value
  }

  lemma MergedOnce(b: Budgets, rows: Table, added: map<Key, Aggregate>, key: Key)
    ensures Find(Merged(b, rows, added), key) ==
      if key in added then Some(RowOf(b, key, Join(TotalsOf(rows, key), Find(added, key)).value)) else Find(rows, key)
    ensures TotalsOf(Merged(b, rows, added), key) == Join(TotalsOf(rows, key), Find(added, key))
  {}

  /** Upserting twice is upserting the sum once. */
  lemma MergedTwice(b: Budgets, rows: Table, first: map<Key, Aggregate>, second: map<Key, Aggregate>)
    ensures Merged(b, Merged(b, rows, first), second) == Merged(b, rows, JoinedMaps(first, second))
  {
    var twice := Merged(b, Merged(b, rows, first), second);
    var once := Merged(b, rows, JoinedMaps(first, second));
    forall key
      ensures Find(twice, key) == Find(once, key)
    {
      MergedOnce(b, Merged(b, rows, first), second, key);
      MergedOnce(b, rows, first, key);
      MergedOnce(b, rows, JoinedMaps(first, second), key);
      JoinLaws(TotalsOf(rows, key), Find(first, key), Find(second, key));
    }
    SameMap(twice, once);
  }

  lemma SameMap<V>(a: map<Key, V>, b: map<Key, V>)
    requires forall key :: Find(a, key) == Find(b, key)
    ensures a == b
  {
    forall key
      ensures key in a <==> key in b
      ensures key in a ==> a[key] == b[key]
    {
      assert Find(a, key) == Find(b, key);
    }
  }

  lemma TotalsSplit(first: seq<Entry>, second: seq<Entry>)
    ensures Totals(first + second) == JoinedMaps(Totals(first), Totals(second))
  {
    forall key
      ensures Find(Totals(first + second), key) == Find(JoinedMaps(Totals(first), Totals(second)), key)
    {
      TotalSplits(first, second, key);
      assert Find(Totals(first), key) == Total(first, key) && Find(Totals(second), key) == Total(second, key);
    }
    SameMap(Totals(first + second), JoinedMaps(Totals(first), Totals(second)));
  }

  /** Any split of a log into batches gives the same table. */
  lemma RecordingSplits(b: Budgets, rows: Table, first: seq<Entry>, second: seq<Entry>)
    ensures Recorded(b, Recorded(b, rows, first), second) == Recorded(b, rows, first + second)
  {
    MergedTwice(b, rows, Totals(first), Totals(second));
    TotalsSplit(first, second);
  }

  /** So does any order. */
  lemma RecordingPermutes(b: Budgets, rows: Table, first: seq<Entry>, second: seq<Entry>)
    requires multiset(first) == multiset(second)
    ensures Recorded(b, rows, first) == Recorded(b, rows, second)
  {
    forall key ensures Total(first, key) == Total(second, key) { TotalPermutes(first, second, key); }
    assert Totals(first) == Totals(second);
  }

  lemma {:induction false} EntriesSplit(a: seq<Event>, b: seq<Event>, accountedAt: Option<Option<int>>)
    ensures Entries(a + b, accountedAt) == Entries(a, accountedAt) + Entries(b, accountedAt)
  {
    if b == [] {
      assert a + b == a;
    } else {
      assert (a + b)[..|a + b| - 1] == a + b[..|b| - 1];
      EntriesSplit(a, b[..|b| - 1], accountedAt);
    }
  }

  function OneAtATime(b: Budgets, rows: Table, events: seq<Event>, accountedAt: Option<Option<int>>): Table {
    if events == [] then rows
    else
      var n := |events| - 1;
      Recorded(b, OneAtATime(b, rows, events[..n], accountedAt), Entries([events[n]], accountedAt))
  }

  /** Recording a batch is recording its events one at a time. */
  lemma {:induction false} BatchIsOneAtATime(b: Budgets, rows: Table, events: seq<Event>,
      accountedAt: Option<Option<int>>)
    ensures Recorded(b, rows, Entries(events, accountedAt)) == OneAtATime(b, rows, events, accountedAt)
  {
    if events == [] {
      assert Totals([]) == map[];
    } else {
      var n := |events| - 1;
      BatchIsOneAtATime(b, rows, events[..n], accountedAt);
      assert events == events[..n] + [events[n]];
      EntriesSplit(events[..n], [events[n]], accountedAt);
      RecordingSplits(b, rows, Entries(events[..n], accountedAt), Entries([events[n]], accountedAt));
    }
  }

  // ---------------------------------------------------------------------------------------------
  // Conservation over every run

  datatype Op = Record(events: seq<Event>, accountedAt: Option<Option<int>>) | Bootstrap(at: int)

  function Zero(at: int): map<Key, Aggregate> {
    map key | key in Keys(at) :: Aggregate(0, 0, 0, 0, at)
  }

  function Apply(b: Budgets, rows: Table, op: Op): Table {
    match op
    case Record(events, accountedAt) => Recorded(b, rows, Entries(events, accountedAt))
    case Bootstrap(at) => Merged(b, rows, Zero(at))
  }

  function Run(b: Budgets, ops: seq<Op>): Table {
    if ops == [] then map[] else Apply(b, Run(b, ops[..|ops| - 1]), ops[|ops| - 1])
  }

  function LogOf(ops: seq<Op>): seq<Entry> {
    if ops == [] then []
    else
      var op := ops[|ops| - 1];
      LogOf(ops[..|ops| - 1]) + if op.Record? then Entries(op.events, op.accountedAt) else []
  }

  function EventsIn(rows: Table, key: Key): nat {
    if key in rows then rows[key].totals.events else 0
  }

  function Count(log: seq<Entry>, from: int, to: int): nat {
    if log == [] then 0
    else Count(log[..|log| - 1], from, to) + if from <= log[|log| - 1].at < to then 1 else 0
  }

  /** State and percentage of every row are those of its count. */
  ghost predicate RowsAgree(b: Budgets, rows: Table) {
    forall key | key in rows :: rows[key] == RowOf(b, key, rows[key].totals)
  }

  ghost predicate Counted(rows: Table, log: seq<Entry>) {
    forall key | Aligned(key) :: EventsIn(rows, key) == Count(log, key.start, key.start + Length(key.windowType))
  }

  lemma {:induction false} TotalCounts(log: seq<Entry>, key: Key)
    requires Aligned(key)
    ensures (if Total(log, key).Some? then Total(log, key).value.events else 0)
         == Count(log, key.start, key.start + Length(key.windowType))
  {
    if log != [] {
      TotalCounts(log[..|log| - 1], key);
      WindowsPartition(key, log[|log| - 1].at);
    }
  }

  lemma {:induction false} CountSplits(a: seq<Entry>, b: seq<Entry>, from: int, to: int)
    ensures Count(a + b, from, to) == Count(a, from, to) + Count(b, from, to)
  {
    if b == [] {
      assert a + b == a;
    } else {
      assert (a + b)[..|a + b| - 1] == a + b[..|b| - 1];
      CountSplits(a, b[..|b| - 1], from, to);
    }
  }

  lemma MergeKeepsRowsAgree(b: Budgets, rows: Table, added: map<Key, Aggregate>)
    requires RowsAgree(b, rows)
    ensures RowsAgree(b, Merged(b, rows, added))
  {}

  lemma MergeCounts(b: Budgets, rows: Table, added: map<Key, Aggregate>, key: Key)
    ensures EventsIn(Merged(b, rows, added), key) == EventsIn(rows, key) + if key in added then added[key].events else 0
  {}

  /** In every reachable table each row is the function of its count, and each count is the number of
      events accounted for in its window. */
  lemma {:induction false} EveryRowCounts(b: Budgets, ops: seq<Op>)
    ensures RowsAgree(b, Run(b, ops)) && Counted(Run(b, ops), LogOf(ops))
  {
    if ops != [] {
      var n := |ops| - 1;
      var rows := Run(b, ops[..n]);
      EveryRowCounts(b, ops[..n]);
      var log := if ops[n].Record? then Entries(ops[n].events, ops[n].accountedAt) else [];
      var added := if ops[n].Record? then Totals(log) else Zero(ops[n].at);
      MergeKeepsRowsAgree(b, rows, added);
      assert LogOf(ops) == LogOf(ops[..n]) + log;
      forall key | Aligned(key)
        ensures EventsIn(Merged(b, rows, added), key) ==
          Count(LogOf(ops), key.start, key.start + Length(key.windowType))
      {
        MergeCounts(b, rows, added, key);
        TotalCounts(log, key);
        CountSplits(LogOf(ops[..n]), log, key.start, key.start + Length(key.windowType));
      }
    }
  }

  lemma {:induction false} TouchedAreAligned(log: seq<Entry>)
    ensures forall key | key in Touched(log) :: Aligned(key)
  {
    if log != [] {
      TouchedAreAligned(log[..|log| - 1]);
      KeysAreAligned(log[|log| - 1].at);
    }
  }

  lemma KeysAreAligned(t: int)
    ensures forall key | key in Keys(t) :: Aligned(key)
  {
    forall key | key in Keys(t) ensures Aligned(key) { WindowsPartition(key, t); }
  }

  /** The view finds the window of a row again from the start that the row stores, so the state it
      computes is the one the row holds. */
  lemma {:induction false} RowsAreReadBack(b: Budgets, ops: seq<Op>, key: Key)
    requires key in Run(b, ops)
    ensures key in Keys(key.start)
    ensures var row := Run(b, ops)[key];
      StateFor(row.totals.events, ThresholdsOf(b, key.windowType)) == row.state
  {
    EveryRowCounts(b, ops);
    KeyIsAligned(b, ops, key);
  }

  lemma {:induction false} KeyIsAligned(b: Budgets, ops: seq<Op>, key: Key)
    requires key in Run(b, ops)
    ensures Aligned(key)
  {
    if ops != [] {
      var n := |ops| - 1;
      if key in Run(b, ops[..n]) {
        KeyIsAligned(b, ops[..n], key);
      } else if ops[n].Record? {
        TouchedAreAligned(Entries(ops[n].events, ops[n].accountedAt));
      } else {
        KeysAreAligned(ops[n].at);
      }
    }
  }

  /** The counts of `n` windows in a row. */
  function SumOf(rows: Table, w: WindowType, start: int, n: nat): nat
    decreases n
  {
    if n == 0 then 0 else EventsIn(rows, Key(w, start)) + SumOf(rows, w, start + Length(w), n - 1)
  }

  function EndOf(w: WindowType, start: int, n: nat): int
    decreases n
  {
    if n == 0 then start else EndOf(w, start + Length(w), n - 1)
  }

  lemma {:induction false} EndIsLinear(w: WindowType, start: int, n: nat)
    ensures w.Burst? ==> EndOf(w, start, n) == start + n * MINUTE
    ensures w.FourHour? ==> EndOf(w, start, n) == start + n * FOUR_HOURS
    decreases n
  {
    if n > 0 {
      EndIsLinear(w, start + Length(w), n - 1);
    }
  }

  lemma {:induction false} CountJoins(log: seq<Entry>, from: int, mid: int, to: int)
    requires from <= mid <= to
    ensures Count(log, from, to) == Count(log, from, mid) + Count(log, mid, to)
  {
    if log != [] {
      CountJoins(log[..|log| - 1], from, mid, to);
    }
  }

  lemma NextIsAligned(w: WindowType, start: int)
    requires Aligned(Key(w, start))
    ensures Aligned(Key(w, start + Length(w)))
  {
    WindowsPartition(Key(w, start), start);
    WindowsPartition(Key(w, start + Length(w)), start);
    FloorIsUnique(start + Length(w), Length(w), start / Length(w) + 1);
  }

  lemma {:induction false} SumIsCount(rows: Table, log: seq<Entry>, w: WindowType, start: int, n: nat)
    requires Counted(rows, log) && Aligned(Key(w, start))
    ensures start <= EndOf(w, start, n)
    ensures SumOf(rows, w, start, n) == Count(log, start, EndOf(w, start, n))
    decreases n
  {
    if n == 0 {
      NoneIn(log, start);
    } else {
      var next := start + Length(w);
      NextIsAligned(w, start);
      SumIsCount(rows, log, w, next, n - 1);
      CountJoins(log, start, next, EndOf(w, next, n - 1));
    }
  }

  lemma {:induction false} NoneIn(log: seq<Entry>, at: int)
    ensures Count(log, at, at) == 0
  {
    if log != [] {
      NoneIn(log[..|log| - 1], at);
    }
  }

  /** Nothing is lost or counted twice between granularities: after every run a day's count is the sum of
      its six four-hour counts and of its 1440 minute counts, and a four-hour count that of its 240
      minutes. */
  lemma CountsAreConserved(b: Budgets, ops: seq<Op>, t: int)
    ensures var rows := Run(b, ops); var day := Start(Daily, t); var part := Start(FourHour, t);
      && EventsIn(rows, Key(Daily, day)) == SumOf(rows, FourHour, day, 6)
      && EventsIn(rows, Key(Daily, day)) == SumOf(rows, Burst, day, 1440)
      && EventsIn(rows, Key(FourHour, part)) == SumOf(rows, Burst, part, 240)
  {
    var day := Start(Daily, t);
    var part := Start(FourHour, t);
    EveryRowCounts(b, ops);
    StartsAreAligned(t);
    PartsSumUp(Run(b, ops), LogOf(ops), Daily, day, FourHour, 6);
    PartsSumUp(Run(b, ops), LogOf(ops), Daily, day, Burst, 1440);
    PartsSumUp(Run(b, ops), LogOf(ops), FourHour, part, Burst, 240);
  }

  lemma StartsAreAligned(t: int)
    ensures Start(Daily, t) % DAY == 0 && Start(Daily, t) % FOUR_HOURS == 0 && Start(Daily, t) % MINUTE == 0
    ensures Start(FourHour, t) % FOUR_HOURS == 0 && Start(FourHour, t) % MINUTE == 0
  {
    var part := Start(FourHour, t);
    StartIsFloor(FourHour, t);
    assert Start(Daily, t) == t / DAY * DAY && part == t / FOUR_HOURS * FOUR_HOURS;
  }

  lemma PartsSumUp(rows: Table, log: seq<Entry>, w: WindowType, start: int, part: WindowType, n: nat)
    requires Counted(rows, log) && start % Length(w) == 0 && start % Length(part) == 0
    requires !part.Daily? && Length(w) == n * Length(part)
    ensures EventsIn(rows, Key(w, start)) == SumOf(rows, part, start, n)
  {
    WindowsPartition(Key(w, start), start);
    WindowsPartition(Key(part, start), start);
    EndIsLinear(part, start, n);
    SumIsCount(rows, log, part, start, n);
  }

  // ---------------------------------------------------------------------------------------------

  class UsageTable {
    const budgets: Budgets
    var rows: Table

    constructor (budgets: Budgets)
      ensures this.budgets == budgets && rows == map[]
    {
      this.budgets := budgets;
      rows := map[];
    }

    /** INSERT ... ON CONFLICT(id) DO UPDATE, with the thresholds spelled out. */
    method Upsert(key: Key, a: Aggregate)
      modifies this
      ensures rows == Merged(budgets, old(rows), map[key := a])
    {
      var t := ThresholdsOf(budgets, key.windowType);
      var units := BudgetUnits(budgets, key.windowType);
      if key !in rows {
        rows := rows[key := Row(a, StateFor(a.events, t), UsedPct(a.events, units))];
      } else {
        var row := rows[key].totals;
        var events := row.events + a.events;
        var state :=
          if events >= t.hardLimit then HardLimited
          else if events >= t.throttledAt then Throttled
          else if events >= t.conservativeAt then Conservative
          else Normal;
        var updatedAt := if row.updatedAt > a.updatedAt then row.updatedAt else a.updatedAt;
        rows := rows[key := Row(
          Aggregate(events, row.compacted + a.compacted, row.delayed + a.delayed, row.spoolBytes + a.spoolBytes,
            updatedAt),
          state, UsedPct(events, units))];
      }
    }

    /** Record a batch; `accountedAt`, if given, replaces the time of every event. */
    method RecordEvents(events: seq<Event>, accountedAt: Option<Option<int>>)
      modifies this
      ensures rows == Recorded(budgets, old(rows), Entries(events, accountedAt))
    {
      var aggregates: map<Key, Aggregate> := map[];
      var order: seq<Key> := [];
      assert events[..0] == [];
      for i := 0 to |events|
        invariant rows == old(rows)
        invariant aggregates == Totals(Entries(events[..i], accountedAt))
        invariant Lists(order, aggregates)
      {
        assert events[..i + 1][..i] == events[..i] && events[..i + 1][i] == events[i];
        ghost var before := Entries(events[..i], accountedAt);
        var at := if accountedAt.Some? then accountedAt.value else events[i].at;
        if at.Some? {
          var e := Entry(at.value, events[i].compacted, events[i].delayed, events[i].spoolBytes);
          GrownIsTotals(before, e);
          aggregates, order := AddEntry(aggregates, order, e);
          assert Entries(events[..i + 1], accountedAt) == before + [e];
        } else {
          assert Entries(events[..i + 1], accountedAt) == before;
        }
      }
      assert events[..|events|] == events;
      UpsertAll(aggregates, order);
    }

    method UpsertAll(aggregates: map<Key, Aggregate>, order: seq<Key>)
      requires Lists(order, aggregates)
      modifies this
      ensures rows == Merged(budgets, old(rows), aggregates)
    {
      for i := 0 to |order|
        invariant rows == Merged(budgets, old(rows), Only(aggregates, order[..i]))
      {
        MergeOneMore(budgets, old(rows), aggregates, order, i);
        Upsert(order[i], aggregates[order[i]]);
      }
      assert Only(aggregates, order[..|order|]) == aggregates;
    }

    /** Create the windows of the given instant, with nothing counted yet. */
    method BootstrapWindows(at: int)
      modifies this
      ensures rows == Merged(budgets, old(rows), Zero(at))
      ensures rows.Keys == old(rows).Keys + {Key(Daily, Start(Daily, at)), Key(FourHour, Start(FourHour, at)),
        Key(Burst, Start(Burst, at))}
      ensures forall key | key in rows ::
        rows[key].totals.events == if key in old(rows) then old(rows)[key].totals.events else 0
    {
      UpsertAll(Zero(at), Keys(at));
    }
  }

  /** `order` lists the keys of a map once each: the insertion order of a JavaScript Map. */
  ghost predicate Lists<V>(order: seq<Key>, m: map<Key, V>) {
    && (forall key :: key in order <==> key in m)
    && (forall i, j | 0 <= i < j < |order| :: order[i] != order[j])
  }

  function Only(m: map<Key, Aggregate>, keys: seq<Key>): map<Key, Aggregate> {
    map key | key in m && key in keys :: m[key]
  }

  lemma MergeOneMore(b: Budgets, rows: Table, m: map<Key, Aggregate>, order: seq<Key>, i: nat)
    requires Lists(order, m) && i < |order|
    ensures Merged(b, Merged(b, rows, Only(m, order[..i])), map[order[i] := m[order[i]]]) ==
      Merged(b, rows, Only(m, order[..i + 1]))
  {
    assert order[i] !in order[..i];
    assert order[..i + 1] == order[..i] + [order[i]];
    MergedTwice(b, rows, Only(m, order[..i]), map[order[i] := m[order[i]]]);
    var joined := JoinedMaps(Only(m, order[..i]), map[order[i] := m[order[i]]]);
    forall key ensures Find(joined, key) == Find(Only(m, order[..i + 1]), key) {
      assert key in order[..i + 1] <==> key in order[..i] || key == order[i];
    }
    SameMap(joined, Only(m, order[..i + 1]));
  }

  function GrownBy(m: map<Key, Aggregate>, key: Key, e: Entry): map<Key, Aggregate> {
    m[key := if key in m then Plus(m[key], One(e)) else One(e)]
  }

  function Grown(m: map<Key, Aggregate>, e: Entry): map<Key, Aggregate> {
    GrownBy(GrownBy(GrownBy(m, Keys(e.at)[0], e), Keys(e.at)[1], e), Keys(e.at)[2], e)
  }

  lemma GrownIsTotals(log: seq<Entry>, e: Entry)
    ensures Grown(Totals(log), e) == Totals(log + [e])
  {}

  /** Add one event to the aggregates of its three windows. */
  method AddEntry(aggregates: map<Key, Aggregate>, order: seq<Key>, e: Entry)
    returns (aggregates': map<Key, Aggregate>, order': seq<Key>)
    requires Lists(order, aggregates)
    ensures aggregates' == Grown(aggregates, e) && Lists(order', aggregates')
  {
    aggregates', order' := aggregates, order;
    var keys := Keys(e.at);
    for i := 0 to 3
      invariant Lists(order', aggregates')
      invariant aggregates' == match i
        case 0 => aggregates
        case 1 => GrownBy(aggregates, keys[0], e)
        case 2 => GrownBy(GrownBy(aggregates, keys[0], e), keys[1], e)
        case _ => Grown(aggregates, e)
    {
      var key := keys[i];
      if key in aggregates' {
        var a := aggregates'[key];
        aggregates' := aggregates'[key := Aggregate(a.events + 1, a.compacted + e.compacted, a.delayed + e.delayed,
          a.spoolBytes + e.spoolBytes, if a.updatedAt > e.at then a.updatedAt else e.at)];
      } else {
        aggregates' := aggregates'[key := Aggregate(1, e.compacted, e.delayed, e.spoolBytes, e.at)];
        order' := order' + [key];
      }
    }
  }
}
