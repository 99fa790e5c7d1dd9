/** Sequence numbers of one thread's events: reserved by incrementing the thread's counter, used by an
    insert, and given back by a guarded decrement when the insert fails.  Appends and backfill imports
    run side by side; every statement is one atomic step, and any of them may stop for good. */
module EventSequence {
  import opened Common

  /** Where an append or an import stands after it reserved a number. */
  datatype Stage = Appending | Failing | Importing

  datatype Slot = Slot(number: nat, stage: Stage)

  /** `stored` maps event ids to sequence numbers, `held` appends and imports in flight to the numbers that
      they have not stored; `unnoticed` holds the numbers of appends whose insert took effect but reported a
      failure; `lost` counts the numbers that nobody will use. */
  datatype Thread = Thread(lastSeq: nat, stored: map<Id, nat>, held: map<Id, Slot>, unnoticed: map<Id, nat>, lost: nat)

  /** How an INSERT ends: it stores the event, it does not, or it does but reports a failure. */
  datatype Result = Stored | Failed | StoredUnnoticed

  datatype Step =
    | Reserve(a: Id, imports: bool)
    | Insert(a: Id, event: Id, result: Result)
    | Rollback(a: Id, runs: bool)
    | InsertOrIgnore(a: Id, event: Id, throws: bool)

  /** The primary key of events and UNIQUE(thread_id, seq). */
  predicate MayStore(t: Thread, event: Id, number: nat) {
    event !in t.stored && forall e | e in t.stored :: t.stored[e] != number
  }

  function Apply(t: Thread, step: Step): Thread {
    match step
    case Reserve(a, imports) =>
      if a in t.held || a in t.unnoticed then t
      else
        var slot := Slot(t.lastSeq + 1, if imports then Importing else Appending);
        t.(lastSeq := t.lastSeq + 1, held := t.held[a := slot])
    case Insert(a, event, result) =>
      if a !in t.held || !t.held[a].stage.Appending? then t
      else if result.Failed? || !MayStore(t, event, t.held[a].number)
      then t.(held := t.held[a := t.held[a].(stage := Failing)])
      else
        var stored := t.(stored := t.stored[event := t.held[a].number], held := t.held - {a});
        if result.Stored? then stored else stored.(unnoticed := t.unnoticed[a := t.held[a].number])
    case Rollback(a, runs) =>
      if a in t.held && t.held[a].stage.Failing? then
        if runs && t.lastSeq == t.held[a].number && t.lastSeq > 0
        then t.(lastSeq := t.lastSeq - 1, held := t.held - {a})
        else t.(held := t.held - {a}, lost := t.lost + 1)
      else if a !in t.held && a in t.unnoticed then
        var done := t.(unnoticed := t.unnoticed - {a});
        if runs && t.lastSeq == t.unnoticed[a] && t.lastSeq > 0 then done.(lastSeq := t.lastSeq - 1) else done
      else t
    case InsertOrIgnore(a, event, throws) =>
      if a !in t.held || !t.held[a].stage.Importing? then t
      else if throws || !MayStore(t, event, t.held[a].number) then t.(held := t.held - {a}, lost := t.lost + 1)
      else t.(stored := t.stored[event := t.held[a].number], held := t.held - {a})
  }

  function Run(t: Thread, steps: seq<Step>): Thread
    decreases |steps|
  {
    if steps == [] then t else Run(Apply(t, steps[0]), steps[1..])
  }

  const EMPTY := Thread(0, map[], map[], map[], 0)

  /** A number is used by a stored event or by an append or import in flight. */
  datatype Use = ByEvent(id: Id) | ByHolder(id: Id)

  predicate InUse(t: Thread, u: Use) {
    match u
    case ByEvent(id) => id in t.stored
    case ByHolder(id) => id in t.held
  }

  function NumberOf(t: Thread, u: Use): nat
    requires InUse(t, u)
  {
    match u
    case ByEvent(id) => t.stored[id]
    case ByHolder(id) => t.held[id].number
  }

  /** Numbers in use are between 1 and the counter, and no two uses share one. */
  ghost predicate Distinct(t: Thread) {
    && (forall u | InUse(t, u) :: 1 <= NumberOf(t, u) <= t.lastSeq)
    && (forall u, v | InUse(t, u) && InUse(t, v) && NumberOf(t, u) == NumberOf(t, v) :: u == v)
  }

  /** Every number ever handed out is stored, held, or lost. */
  ghost predicate Accounted(t: Thread) {
    t.lastSeq == |t.stored| + |t.held| + t.lost
  }

  predicate Carried(t: Thread, number: nat) {
    exists e | e in t.stored :: t.stored[e] == number
  }

  /** The events of unnoticed inserts are there. */
  ghost predicate AllCarried(t: Thread) {
    forall a | a in t.unnoticed :: a !in t.held && t.unnoticed[a] > 0 && Carried(t, t.unnoticed[a])
  }

  ghost predicate Good(t: Thread) {
    Distinct(t) && Accounted(t) && AllCarried(t)
  }

  /** The rollback takes back the number of an event that is stored: its insert took effect although it
      reported a failure, and the counter still stands at its number. */
  predicate TakesBackStored(t: Thread, step: Step) {
    step.Rollback? && step.runs && step.a !in t.held && step.a in t.unnoticed && t.lastSeq == t.unnoticed[step.a]
  }

  /** Exactly such a rollback breaks the numbering. */
  lemma StepKeepsGood(t: Thread, step: Step)
    requires Good(t)
    ensures Good(Apply(t, step)) <==> !TakesBackStored(t, step)
  {
    if TakesBackStored(t, step) {
      var e :| e in t.stored && t.stored[e] == t.lastSeq;
      var t' := Apply(t, step);
      assert InUse(t', ByEvent(e)) && NumberOf(t', ByEvent(e)) == t'.lastSeq + 1;
    } else {
      StepKeepsDistinct(t, step);
      StepKeepsAccounted(t, step);
      StepKeepsCarried(t, step);
    }
  }

  lemma StepKeepsCarried(t: Thread, step: Step)
    requires Good(t)
    ensures AllCarried(Apply(t, step))
  {
    forall a | a in Apply(t, step).unnoticed
      ensures a !in Apply(t, step).held
      ensures Apply(t, step).unnoticed[a] > 0 && Carried(Apply(t, step), Apply(t, step).unnoticed[a])
    {
      if a in t.held {
        HeldIsFree(t, a);
      }
      StepKeepsOneCarried(t, step, a);
    }
  }

  lemma StepKeepsOneCarried(t: Thread, step: Step, a: Id)
    requires a in t.unnoticed ==> a !in t.held && t.unnoticed[a] > 0 && Carried(t, t.unnoticed[a])
    requires a in t.held ==> t.held[a].number > 0
    ensures var t' := Apply(t, step);
      a in t'.unnoticed ==> a !in t'.held && t'.unnoticed[a] > 0 && Carried(t', t'.unnoticed[a])
  {
    var t' := Apply(t, step);
    if a in t.unnoticed {
      CarriedStays(t, step, t.unnoticed[a]);
    } else if a in t'.unnoticed {
      assert step.event in t'.stored && t'.stored[step.event] == t'.unnoticed[a];
    }
  }

  lemma CarriedStays(t: Thread, step: Step, number: nat)
    requires Carried(t, number)
    ensures Carried(Apply(t, step), number)
  {
    var e :| e in t.stored && t.stored[e] == number;
    assert e in Apply(t, step).stored && Apply(t, step).stored[e] == number;
  }

  lemma StepKeepsDistinct(t: Thread, step: Step)
    requires Distinct(t) && !TakesBackStored(t, step)
    ensures Distinct(Apply(t, step))
  {
    var t' := Apply(t, step);
    if t' == t {
    } else if step.Reserve? {
      HoldKeepsDistinct(t, step.a, t'.held[step.a]);
    } else if step.a !in t.held {
      SameUsesKeepDistinct(t, t');
    } else {
      var dropped := t.(held := t.held - {step.a});
      DropKeepsDistinct(t, step.a);
      HeldIsFree(t, step.a);
      if t'.stored != t.stored {
        assert forall u | InUse(dropped, u) ::
          InUse(t, u) && u != ByHolder(step.a) && NumberOf(dropped, u) == NumberOf(t, u);
        StoreKeepsDistinct(dropped, step.event, t.held[step.a].number);
        SameUsesKeepDistinct(dropped.(stored := t'.stored), t');
      } else if step.a in t'.held {
        SameUsesKeepDistinct(t, t');
      } else if t'.lastSeq == t.lastSeq {
        SameUsesKeepDistinct(dropped, t');
      }
    }
  }

  /** Stages, unnoticed inserts and losses do not matter. */
  lemma SameUsesKeepDistinct(t: Thread, t': Thread)
    requires Distinct(t) && t'.lastSeq == t.lastSeq && t'.stored == t.stored && t'.held.Keys == t.held.Keys
    requires forall a | a in t.held :: t'.held[a].number == t.held[a].number
    ensures Distinct(t')
  {
    assert forall u | InUse(t', u) :: InUse(t, u) && NumberOf(t', u) == NumberOf(t, u);
  }

  /** A new number, above the counter. */
  lemma HoldKeepsDistinct(t: Thread, a: Id, slot: Slot)
    requires Distinct(t) && a !in t.held && slot.number == t.lastSeq + 1
    ensures Distinct(t.(lastSeq := t.lastSeq + 1, held := t.held[a := slot]))
  {
    var t' := t.(lastSeq := t.lastSeq + 1, held := t.held[a := slot]);
    assert forall u | InUse(t', u) && u != ByHolder(a) :: InUse(t, u) && NumberOf(t', u) == NumberOf(t, u);
  }

  /** Nobody else uses the number that is let go, so the counter may give it back if it is the last. */
  lemma DropKeepsDistinct(t: Thread, a: Id)
    requires Distinct(t) && a in t.held
    ensures Distinct(t.(held := t.held - {a}))
    ensures forall u | InUse(t, u) && u != ByHolder(a) :: NumberOf(t, u) != t.held[a].number
    ensures 0 < t.lastSeq == t.held[a].number ==> Distinct(t.(lastSeq := t.lastSeq - 1, held := t.held - {a}))
  {
    assert InUse(t, ByHolder(a));
    var t' := t.(held := t.held - {a});
    assert forall u | InUse(t', u) :: u != ByHolder(a) && InUse(t, u) && NumberOf(t', u) == NumberOf(t, u);
    if 0 < t.lastSeq == t.held[a].number {
      var t2 := t.(lastSeq := t.lastSeq - 1, held := t.held - {a});
      assert forall u | InUse(t2, u) :: InUse(t', u) && NumberOf(t2, u) == NumberOf(t', u);
    }
  }

  lemma HeldIsFree(t: Thread, a: Id)
    requires Distinct(t) && a in t.held
    ensures 1 <= t.held[a].number <= t.lastSeq
    ensures forall e | e in t.stored :: t.stored[e] != t.held[a].number && t.stored[e] <= t.lastSeq
    ensures forall b | b in t.held && b != a :: t.held[b].number != t.held[a].number && t.held[b].number <= t.lastSeq
  {
    assert InUse(t, ByHolder(a)) && NumberOf(t, ByHolder(a)) == t.held[a].number;
    forall e | e in t.stored
      ensures t.stored[e] != t.held[a].number && t.stored[e] <= t.lastSeq
    {
      assert InUse(t, ByEvent(e)) && NumberOf(t, ByEvent(e)) == t.stored[e];
    }
    forall b | b in t.held && b != a
      ensures t.held[b].number != t.held[a].number && t.held[b].number <= t.lastSeq
    {
      assert InUse(t, ByHolder(b)) && NumberOf(t, ByHolder(b)) == t.held[b].number;
    }
  }

  lemma StoreKeepsDistinct(t: Thread, event: Id, number: nat)
    requires Distinct(t) && event !in t.stored && 1 <= number <= t.lastSeq
    requires forall u | InUse(t, u) :: NumberOf(t, u) != number
    ensures Distinct(t.(stored := t.stored[event := number]))
  {
    var t' := t.(stored := t.stored[event := number]);
    assert forall u | InUse(t', u) && u != ByEvent(event) :: InUse(t, u) && NumberOf(t', u) == NumberOf(t, u);
  }

  lemma StepKeepsAccounted(t: Thread, step: Step)
    requires Accounted(t) && !TakesBackStored(t, step)
    ensures Accounted(Apply(t, step))
  {}

  predicate NeverTakesBackStored(t: Thread, steps: seq<Step>)
    decreases |steps|
  {
    steps == [] || (!TakesBackStored(t, steps[0]) && NeverTakesBackStored(Apply(t, steps[0]), steps[1..]))
  }

  /** In every interleaving of appends, failing inserts, guarded rollbacks and imports, as long as no rollback
      takes back the number of a stored event. */
  lemma {:induction false} RunKeepsDistinct(t: Thread, steps: seq<Step>)
    requires Good(t) && NeverTakesBackStored(t, steps)
    ensures Good(Run(t, steps))
    decreases |steps|
  {
    if steps != [] {
      StepKeepsGood(t, steps[0]);
      RunKeepsDistinct(Apply(t, steps[0]), steps[1..]);
    }
  }

  /** If every insert that reports a failure stored nothing, that is every run. */
  lemma {:induction false} NoticedRunKeepsDistinct(t: Thread, steps: seq<Step>)
    requires Good(t) && t.unnoticed == map[]
    requires forall step | step in steps && step.Insert? :: !step.result.StoredUnnoticed?
    ensures Good(Run(t, steps)) && NeverTakesBackStored(t, steps)
    decreases |steps|
  {
    if steps != [] {
      StepKeepsGood(t, steps[0]);
      assert Apply(t, steps[0]).unnoticed == map[];
      NoticedRunKeepsDistinct(Apply(t, steps[0]), steps[1..]);
    }
  }

  /** A rollback of an insert that stored nothing, if it lowers the counter, frees a number that nothing else
      holds and no event carries, and the next append gets a number above all those in use. */
  lemma RollbackFreesOnlyItsOwn(steps: seq<Step>, a: Id, next: Id, imports: bool)
    requires NeverTakesBackStored(EMPTY, steps)
    requires var t := Run(EMPTY, steps);
      a in t.held && Apply(t, Rollback(a, true)).lastSeq < t.lastSeq
    ensures var t := Run(EMPTY, steps); var t' := Apply(t, Rollback(a, true));
      && (forall b | b in t'.held :: t'.held[b].number < t.held[a].number)
      && (forall e | e in t'.stored :: t'.stored[e] < t.held[a].number)
      && (next !in t'.held && next !in t'.unnoticed ==>
            Apply(t', Reserve(next, imports)).held[next].number == t.held[a].number)
  {
    RunKeepsDistinct(EMPTY, steps);
    HeldIsFree(Run(EMPTY, steps), a);
  }

  /** The UNIQUE(thread_id, seq) constraint never refuses a reserved number: an insert with a fresh event
      id fails only if the database fails it. */
  lemma ReservedNumbersInsert(steps: seq<Step>, a: Id, event: Id)
    requires NeverTakesBackStored(EMPTY, steps)
    requires var t := Run(EMPTY, steps); a in t.held && event !in t.stored
    ensures var t := Run(EMPTY, steps);
      && MayStore(t, event, t.held[a].number)
      && (t.held[a].stage.Appending? ==>
            Apply(t, Insert(a, event, Stored)).stored == t.stored[event := t.held[a].number])
  {
    RunKeepsDistinct(EMPTY, steps);
    HeldIsFree(Run(EMPTY, steps), a);
  }

  /** A run in which a rollback takes back the number of a stored event. */
  lemma UnnoticedInsertBreaksNumbering(a: Id, event: Id)
    ensures var t := Run(EMPTY, [Reserve(a, false), Insert(a, event, StoredUnnoticed), Rollback(a, true)]);
      t.lastSeq == 0 && event in t.stored && t.stored[event] == 1 && !Good(t)
  {
    var steps := [Reserve(a, false), Insert(a, event, StoredUnnoticed), Rollback(a, true)];
    var t1 := Apply(EMPTY, steps[0]);
    var t2 := Apply(t1, steps[1]);
    assert Run(EMPTY, steps) == Run(t1, steps[1..]) == Run(t2, steps[1..][1..]);
    assert steps[1..][1..] == [steps[2]] && [steps[2]][1..] == [];
    var t := Apply(t2, steps[2]);
    assert Run(t2, [steps[2]]) == Run(t, []) == t;
    assert InUse(t, ByEvent(event)) && NumberOf(t, ByEvent(event)) == 1;
  }

  /** From then on every append gets the taken number, is refused by the unique key, and takes its number
      back: nothing more is ever stored by an append whose rollback runs. */
  lemma AppendsCollide(t: Thread, a: Id, event: Id, result: Result, taken: Id)
    requires taken in t.stored && t.stored[taken] == t.lastSeq + 1 && a !in t.held && a !in t.unnoticed
    ensures !MayStore(Apply(t, Reserve(a, false)), event, t.lastSeq + 1)
    ensures Apply(Apply(Apply(t, Reserve(a, false)), Insert(a, event, result)), Rollback(a, true)) == t
  {}

  // ---------------------------------------------------------------------------------------------

  /** The steps of one append, taken in a row. */
  function Appended(t: Thread, a: Id, event: Id, result: Result, rollbackRuns: bool): Thread {
    var t' := Apply(Apply(t, Reserve(a, false)), Insert(a, event, result));
    if result.Stored? then t' else Apply(t', Rollback(a, rollbackRuns))
  }

  /** An append stores its event under the next number, or leaves everything as it was; a number is lost only
      when the rollback does not run.  The numbering stays good unless the insert took effect unnoticed and
      the rollback runs. */
  lemma AppendedWell(t: Thread, a: Id, event: Id, result: Result, rollbackRuns: bool)
    requires Good(t) && a !in t.held && a !in t.unnoticed && event !in t.stored
    ensures MayStore(Apply(t, Reserve(a, false)), event, t.lastSeq + 1)
    ensures var t' := Appended(t, a, event, result, rollbackRuns);
      && (Good(t') <==> !(result.StoredUnnoticed? && rollbackRuns))
      && t' == AfterAppend(t, event, result, rollbackRuns)
  {
    ReservedWell(t, a, false);
    AppendedIs(t, a, event, result, rollbackRuns);
    AppendKeepsGood(t, a, event, result, rollbackRuns);
  }

  function AfterAppend(t: Thread, event: Id, result: Result, rollbackRuns: bool): Thread {
    t.(lastSeq := t.lastSeq + (if !result.Stored? && rollbackRuns then 0 else 1),
       stored := if result.Failed? then t.stored else t.stored[event := t.lastSeq + 1],
       lost := t.lost + if result.Failed? && !rollbackRuns then 1 else 0)
  }

  lemma AppendedIs(t: Thread, a: Id, event: Id, result: Result, rollbackRuns: bool)
    requires a !in t.held && a !in t.unnoticed && MayStore(t, event, t.lastSeq + 1)
    ensures Appended(t, a, event, result, rollbackRuns) == AfterAppend(t, event, result, rollbackRuns)
  {}

  lemma AppendKeepsGood(t: Thread, a: Id, event: Id, result: Result, rollbackRuns: bool)
    requires Good(t) && a !in t.held && a !in t.unnoticed && MayStore(t, event, t.lastSeq + 1)
    ensures Good(Appended(t, a, event, result, rollbackRuns)) <==> !(result.StoredUnnoticed? && rollbackRuns)
  {
    InsertKeepsGood(t, a, event, result);
    if !result.Stored? {
      StepKeepsGood(Apply(Apply(t, Reserve(a, false)), Insert(a, event, result)), Rollback(a, rollbackRuns));
    }
  }

  lemma InsertKeepsGood(t: Thread, a: Id, event: Id, result: Result)
    requires Good(t) && a !in t.held && a !in t.unnoticed && MayStore(t, event, t.lastSeq + 1)
    ensures
      var t2 := Apply(Apply(t, Reserve(a, false)), Insert(a, event, result));
      Good(t2) && (a in t2.held <==> result.Failed?)
      && if result.StoredUnnoticed? then a in t2.unnoticed && t2.unnoticed[a] == t2.lastSeq else a !in t2.unnoticed
  {
    StepKeepsGood(t, Reserve(a, false));
    StepKeepsGood(Apply(t, Reserve(a, false)), Insert(a, event, result));
  }

  lemma ReservedWell(t: Thread, a: Id, imports: bool)
    requires Good(t) && a !in t.held && a !in t.unnoticed
    ensures var t' := Apply(t, Reserve(a, imports));
      && Good(t') && a in t'.held && t'.held[a] == Slot(t.lastSeq + 1, if imports then Importing else Appending)
      && t'.lastSeq == t.lastSeq + 1 && t'.stored == t.stored && t'.lost == t.lost && t'.unnoticed == t.unnoticed
      && t'.held - {a} == t.held && t'.held[a := Slot(t.lastSeq + 1, Failing)] - {a} == t.held
      && forall e | e in t.stored :: t.stored[e] != t.lastSeq + 1
  {
    var t' := Apply(t, Reserve(a, imports));
    StepKeepsGood(t, Reserve(a, imports));
    HeldIsFree(t', a);
    assert t'.held - {a} == t.held;
  }

  lemma ImportedWell(t: Thread, a: Id, event: Id)
    requires Good(t) && a !in t.held && a !in t.unnoticed && event !in t.stored
    ensures var t1 := Apply(t, Reserve(a, true)); var t' := Apply(t1, InsertOrIgnore(a, event, false));
      && Good(t') && MayStore(t1, event, t.lastSeq + 1)
      && t' == t.(lastSeq := t.lastSeq + 1, stored := t.stored[event := t.lastSeq + 1])
  {
    var t1 := Apply(t, Reserve(a, true));
    ReservedWell(t, a, true);
    StepKeepsGood(t1, InsertOrIgnore(a, event, false));
  }

  class EventLog {
    var lastSeq: nat
    var stored: map<Id, nat>
    ghost var held: map<Id, Slot>
    ghost var unnoticed: map<Id, nat>
    ghost var lost: nat

    ghost function View(): Thread
      reads this
    {
      Thread(lastSeq, stored, held, unnoticed, lost)
    }

    ghost predicate Valid()
      reads this
    {
      Good(View())
    }

    constructor ()
      ensures Valid() && View() == EMPTY
    {
      lastSeq, stored, held, unnoticed, lost := 0, map[], map[], map[], 0;
    }

    /** UPDATE threads SET last_seq = last_seq + 1 RETURNING last_seq. */
    method Next(a: Id, imports: bool) returns (number: nat)
      requires a !in held && a !in unnoticed
      modifies this
      ensures View() == Apply(old(View()), Reserve(a, imports)) && number == lastSeq
    {
      lastSeq := lastSeq + 1;
      number := lastSeq;
      held := held[a := Slot(number, if imports then Importing else Appending)];
    }

    /** The INSERT of a reserved number by an append; `ok` is what it reports. */
    method Put(a: Id, event: Id, number: nat, result: Result) returns (ok: bool)
      requires a in held && held[a] == Slot(number, Appending) && MayStore(View(), event, number)
      modifies this
      ensures View() == Apply(old(View()), Insert(a, event, result)) && ok == result.Stored?
    {
      ok := result.Stored?;
      if result.Failed? {
        held := held[a := Slot(number, Failing)];
      } else {
        stored := stored[event := number];
        held := held - {a};
        unnoticed := if ok then unnoticed else unnoticed[a := number];
      }
    }

    /** INSERT OR IGNORE; `changed` says whether a row was added. */
    method PutOrIgnore(a: Id, event: Id, number: nat) returns (changed: bool)
      requires a in held && held[a] == Slot(number, Importing)
      modifies this
      ensures changed == MayStore(old(View()), event, number)
      ensures View() == Apply(old(View()), InsertOrIgnore(a, event, false))
    {
      changed := event !in stored && forall e | e in stored :: stored[e] != number;
      if changed {
        stored := stored[event := number];
      } else {
        lost := lost + 1;
      }
      held := held - {a};
    }

    /** The guarded decrement after an INSERT that reported a failure; `runs` says whether it runs. */
    method TakeBack(a: Id, number: nat, runs: bool)
      requires if a in held then held[a] == Slot(number, Failing) else a in unnoticed && unnoticed[a] == number
      modifies this
      ensures View() == Apply(old(View()), Rollback(a, runs))
    {
      var lowers := runs && lastSeq == number && lastSeq > 0;
      if lowers {
        lastSeq := lastSeq - 1;
      }
      if a in held {
        lost := if lowers then lost else lost + 1;
        held := held - {a};
      } else {
        unnoticed := unnoticed - {a};
      }
    }

    /** Append one event while appends of others, which hold numbers of their own, are in flight. */
    method Append(a: Id, event: Id, result: Result, rollbackRuns: bool) returns (number: Option<nat>)
      requires Valid() && a !in held && a !in unnoticed && event !in stored
      modifies this
      ensures View() == Appended(old(View()), a, event, result, rollbackRuns)
      ensures Valid() <==> !(result.StoredUnnoticed? && rollbackRuns)
      ensures number == if result.Stored? then Some(old(lastSeq) + 1) else None
    {
      AppendedWell(View(), a, event, result, rollbackRuns);
      var n := Next(a, false);
      var ok := Put(a, event, n, result);
      if ok {
        number := Some(n);
      } else {
        TakeBack(a, n, rollbackRuns);
        number := None;
      }
    }

    /** Import the events of a session's history, given by their ids, skipping those already stored. */
    method Backfill(a: Id, events: seq<Id>) returns (imported: seq<Id>)
      requires a !in held && a !in unnoticed
      modifies this
      ensures View() == ImportAll(old(View()), a, events)
      ensures imported == ImportedOf(old(View()), a, events)
    {
      imported := [];
      assert events[..0] == [];
      for i := 0 to |events|
        invariant held == old(held) && unnoticed == old(unnoticed)
        invariant View() == ImportAll(old(View()), a, events[..i])
        invariant imported == ImportedOf(old(View()), a, events[..i])
      {
        assert events[..i + 1][..i] == events[..i];
        ghost var t := View();
        var id := events[i];
        if id !in stored {
          var n := Next(a, true);
          var changed := PutOrIgnore(a, id, n);
          assert Apply(t, Reserve(a, true)).held - {a} == t.held;
          if changed {
            imported := imported + [id];
          }
        }
      }
      assert events[..|events|] == events;
    }
  }

  /** The two statements of an import, for an event that the SELECT before them did not find. */
  function ImportOne(t: Thread, a: Id, id: Id): Thread {
    if id in t.stored then t else Apply(Apply(t, Reserve(a, true)), InsertOrIgnore(a, id, false))
  }

  function ImportAll(t: Thread, a: Id, events: seq<Id>): Thread {
    if events == [] then t
    else ImportOne(ImportAll(t, a, events[..|events| - 1]), a, events[|events| - 1])
  }

  /** The events that the import reports: those its INSERT added. */
  function ImportedOf(t: Thread, a: Id, events: seq<Id>): seq<Id> {
    if events == [] then []
    else
      var id := events[|events| - 1];
      var before := ImportAll(t, a, events[..|events| - 1]);
      ImportedOf(t, a, events[..|events| - 1]) +
        if id !in before.stored && id in ImportOne(before, a, id).stored then [id] else []
  }

  /** The events to import: the first occurrence of each id that is not known yet. */
  function Fresh(events: seq<Id>, known: set<Id>): seq<Id> {
    if events == [] then []
    else
      var id := events[|events| - 1];
      var before := Fresh(events[..|events| - 1], known);
      if id in known || id in before then before else before + [id]
  }

  /** The stored events once `ids` are added with the numbers after `last`. */
  function Numbered(stored: map<Id, nat>, ids: seq<Id>, last: nat): map<Id, nat> {
    if ids == [] then stored
    else Numbered(stored, ids[..|ids| - 1], last)[ids[|ids| - 1] := last + |ids|]
  }

  function Imported(t: Thread, ids: seq<Id>): Thread {
    t.(lastSeq := t.lastSeq + |ids|, stored := Numbered(t.stored, ids, t.lastSeq))
  }

  lemma ImportStep(t: Thread, ids: seq<Id>, a: Id, id: Id)
    requires Good(Imported(t, ids)) && a !in t.held && a !in t.unnoticed
    ensures Good(ImportOne(Imported(t, ids), a, id))
    ensures id !in Imported(t, ids).stored ==> ImportOne(Imported(t, ids), a, id) == Imported(t, ids + [id])
  {
    var before := Imported(t, ids);
    if id !in before.stored {
      ImportedWell(before, a, id);
      assert (ids + [id])[..|ids|] == ids;
    }
  }

  /** An import never loses a number: it adds exactly the new events, numbered after those in use in the
      order of the history. */
  lemma {:induction false} ImportIsNumbered(t: Thread, a: Id, events: seq<Id>)
    requires Good(t) && a !in t.held && a !in t.unnoticed
    ensures var added := Fresh(events, t.stored.Keys);
      && ImportedOf(t, a, events) == added && Good(ImportAll(t, a, events))
      && ImportAll(t, a, events) == Imported(t, added)
  {
    if events != [] {
      var rest := events[..|events| - 1];
      var id := events[|events| - 1];
      var added := Fresh(rest, t.stored.Keys);
      ImportIsNumbered(t, a, rest);
      ImportStep(t, added, a, id);
      FreshIsNew(rest, t.stored.Keys);
      NumberedInOrder(t.stored, added, t.lastSeq);
      assert id in Imported(t, added).stored <==> id in t.stored || id in added;
      assert id in Imported(t, added + [id]).stored;
    }
  }

  /** What is imported is new, occurs in the history, and nothing of the history is missing; no event is
      imported twice. */
  lemma {:induction false} FreshIsNew(events: seq<Id>, known: set<Id>)
    ensures var added := Fresh(events, known);
      && (forall id :: id in added <==> id in events && id !in known)
      && (forall i, j | 0 <= i < j < |added| :: added[i] != added[j])
  {
    if events != [] {
      FreshIsNew(events[..|events| - 1], known);
      assert events == events[..|events| - 1] + [events[|events| - 1]];
    }
  }

  /** Imported events are numbered in the order of the history, and no stored event changes its number. */
  lemma {:induction false} NumberedInOrder(stored: map<Id, nat>, ids: seq<Id>, last: nat)
    requires forall i, j | 0 <= i < j < |ids| :: ids[i] != ids[j]
    ensures var all := Numbered(stored, ids, last);
      && (forall i | 0 <= i < |ids| :: ids[i] in all && all[ids[i]] == last + i + 1)
      && (forall e | e !in ids :: (e in all <==> e in stored) && (e in stored ==> all[e] == stored[e]))
  {
    if ids != [] {
      var rest := ids[..|ids| - 1];
      NumberedInOrder(stored, rest, last);
      assert ids == rest + [ids[|ids| - 1]];
    }
  }

  lemma NothingIn(ids: seq<Id>)
    ensures ids == [] || exists id :: id in ids
  {
    if ids != [] {
      assert ids[0] in ids;
    }
  }

  /** Importing the same history again imports nothing. */
  lemma BackfillAgainImportsNothing(events: seq<Id>, stored: map<Id, nat>, last: nat)
    ensures Fresh(events, Numbered(stored, Fresh(events, stored.Keys), last).Keys) == []
  {
    FreshIsNew(events, stored.Keys);
    var added := Fresh(events, stored.Keys);
    NumberedInOrder(stored, added, last);
    var known := Numbered(stored, added, last).Keys;
    FreshIsNew(events, known);
    var again := Fresh(events, known);
    NothingIn(again);
  }
}
