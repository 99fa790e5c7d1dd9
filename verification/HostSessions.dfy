/** The `host_sessions` table and the three query shapes that look for the session attached to a command. */
module HostSessions {
  import opened Common

  /** One row: a session of a connector, possibly attached to a task, a thread, or both. */
  datatype HostSession = HostSession(
    id: Id,
    connector: Id,
    workspace: Id,
    sessionId: Id,
    appServer: bool,
    task: Option<Id>,
    thread: Option<Id>,
    updatedAt: Time)

  /** Where a command lives; the two optional columns are what an attachment is matched against. */
  datatype Scope = Scope(workspace: Id, task: Option<Id>, thread: Option<Id>)

  /** The primary key of the table. */
  predicate UniqueIds(rows: seq<HostSession>) {
    forall a, b | a in rows && b in rows && a.id == b.id :: a == b
  }

  /** The key UNIQUE(connector_id, session_id). */
  predicate UniqueSessions(rows: seq<HostSession>) {
    forall a, b | a in rows && b in rows && a.connector == b.connector && a.sessionId == b.sessionId :: a == b
  }

  /** ORDER BY updated_at DESC, id DESC: `a` is listed before `b`. */
  predicate Newer(a: HostSession, b: HostSession) {
    a.updatedAt > b.updatedAt || (a.updatedAt == b.updatedAt && a.id > b.id)
  }

  /** WHERE p ORDER BY updated_at DESC, id DESC LIMIT 1. */
  function LatestWhere(rows: seq<HostSession>, p: HostSession -> bool): (r: Option<HostSession>)
    ensures r.None? <==> forall h | h in rows :: !p(h)
    ensures r.Some? ==> r.value in rows && p(r.value)
    ensures r.Some? ==> forall h | h in rows && p(h) :: !Newer(h, r.value)
  {
    if rows == [] then None
    else
      var rest := LatestWhere(rows[1..], p);
      if p(rows[0]) && (rest.None? || Newer(rows[0], rest.value)) then Some(rows[0]) else rest
  }

  predicate AttachedByTask(scope: Scope, h: HostSession) {
    h.workspace == scope.workspace && scope.task.Some? && h.task == scope.task
  }

  predicate AttachedByThread(scope: Scope, h: HostSession) {
    h.workspace == scope.workspace && scope.thread.Some? && h.thread == scope.thread
  }

  /** NOT EXISTS (... attached_task_id = task ...), restricted to the rows a query keeps. */
  predicate NoTaskSession(rows: seq<HostSession>, scope: Scope, keep: HostSession -> bool) {
    forall h | h in rows && keep(h) :: !AttachedByTask(scope, h)
  }

  /** COALESCE(latest by task, latest by thread): the subquery of the lease, the releases and the
      detach updates.  `keep` is the extra exclusion that the detach updates add to each part. */
  function Coalesced(rows: seq<HostSession>, scope: Scope, keep: HostSession -> bool): Option<HostSession> {
    var byTask := LatestWhere(rows, h => keep(h) && AttachedByTask(scope, h));
    if byTask.Some? then byTask
    else
      LatestWhere(rows, h => keep(h) && AttachedByThread(scope, h)
        && (scope.task.None? || NoTaskSession(rows, scope, keep)))
  }

  /** The lease's form of the query, which keeps every row. */
  function Resolve(rows: seq<HostSession>, scope: Scope): Option<HostSession> {
    Coalesced(rows, scope, h => true)
  }

  /** The WHERE clause of the one-query form used by command creation and by the start gate. */
  predicate Candidate(rows: seq<HostSession>, scope: Scope, h: HostSession) {
    || AttachedByTask(scope, h)
    || (AttachedByThread(scope, h) && (scope.task.None? || NoTaskSession(rows, scope, k => true)))
  }

  /** ORDER BY CASE WHEN task match THEN 0 ELSE 1 END, updated_at DESC, id DESC. */
  predicate Before(scope: Scope, a: HostSession, b: HostSession) {
    var rankA := if AttachedByTask(scope, a) then 0 else 1;
    var rankB := if AttachedByTask(scope, b) then 0 else 1;
    rankA < rankB || (rankA == rankB && Newer(a, b))
  }

  /** The one-query form: the first candidate in the CASE order. `all` is the table the WHERE clause
      reads, `rows` the part of it scanned so far. */
  function FirstOrdered(all: seq<HostSession>, rows: seq<HostSession>, scope: Scope): (r: Option<HostSession>)
    ensures r.None? <==> forall h | h in rows :: !Candidate(all, scope, h)
    ensures r.Some? ==> r.value in rows && Candidate(all, scope, r.value)
    ensures r.Some? ==> forall h | h in rows && Candidate(all, scope, h) :: !Before(scope, h, r.value)
  {
    if rows == [] then None
    else
      var rest := FirstOrdered(all, rows[1..], scope);
      if Candidate(all, scope, rows[0]) && (rest.None? || Before(scope, rows[0], rest.value))
      then Some(rows[0]) else rest
  }

  /** The two-query form used before a command is created: a session of the task, else one of the thread. */
  function Sequential(rows: seq<HostSession>, scope: Scope): Option<HostSession> {
    var byTask := if scope.task.Some? then LatestWhere(rows, h => AttachedByTask(scope, h)) else None;
    if byTask.Some? then byTask
    else if scope.thread.Some? then LatestWhere(rows, h => AttachedByThread(scope, h))
    else None
  }

  /** Two filters that agree on the rows select the same row. */
  lemma {:induction false} LatestAgrees(rows: seq<HostSession>, p: HostSession -> bool, q: HostSession -> bool)
    requires forall h | h in rows :: p(h) == q(h)
    ensures LatestWhere(rows, p) == LatestWhere(rows, q)
  {
    if rows != [] {
      assert rows[0] in rows;
      LatestAgrees(rows[1..], p, q);
    }
  }

  /** The COALESCE subquery, the single query ordered by CASE and the two sequential queries return the
      same row, for every session table and every command scope. */
  lemma ResolversAgree(rows: seq<HostSession>, scope: Scope)
    requires UniqueIds(rows)
    ensures Resolve(rows, scope) == FirstOrdered(rows, rows, scope)
    ensures Resolve(rows, scope) == Sequential(rows, scope)
  {
    OrderedAgrees(rows, scope);
    SequentialAgrees(rows, scope);
  }

  lemma OrderedAgrees(rows: seq<HostSession>, scope: Scope)
    requires UniqueIds(rows)
    ensures Resolve(rows, scope) == FirstOrdered(rows, rows, scope)
  {}

  lemma SequentialAgrees(rows: seq<HostSession>, scope: Scope)
    ensures Resolve(rows, scope) == Sequential(rows, scope)
  {
    var keep := (h: HostSession) => true;
    LatestAgrees(rows, h => keep(h) && AttachedByTask(scope, h), h => AttachedByTask(scope, h));
    if NoTaskSession(rows, scope, keep) {
      LatestAgrees(rows,
                   h => keep(h) && AttachedByThread(scope, h) && (scope.task.None? || NoTaskSession(rows, scope, keep)),
                   h => AttachedByThread(scope, h));
    }
  }

  /** Exclusions that agree on the rows attached to the scope select the same row. */
  lemma {:induction false} CoalescedAgrees(rows: seq<HostSession>, scope: Scope,
                                           keep: HostSession -> bool, keep': HostSession -> bool)
    requires forall h | h in rows && (AttachedByTask(scope, h) || AttachedByThread(scope, h)) :: keep(h) == keep'(h)
    ensures Coalesced(rows, scope, keep) == Coalesced(rows, scope, keep')
  {
    LatestAgrees(rows, h => keep(h) && AttachedByTask(scope, h), h => keep'(h) && AttachedByTask(scope, h));
    assert NoTaskSession(rows, scope, keep) == NoTaskSession(rows, scope, keep');
    LatestAgrees(rows,
                 h => keep(h) && AttachedByThread(scope, h) && (scope.task.None? || NoTaskSession(rows, scope, keep)),
                 h => keep'(h) && AttachedByThread(scope, h)
                   && (scope.task.None? || NoTaskSession(rows, scope, keep')));
  }

  /** The release after a detach excludes the session by (connector, session id), the failure pass by
      row id: both exclude the same row. */
  lemma ExclusionsAgree(rows: seq<HostSession>, scope: Scope, x: HostSession)
    requires UniqueIds(rows) && UniqueSessions(rows)
    requires exists h :: h in rows && h.id == x.id && h.connector == x.connector && h.sessionId == x.sessionId
    ensures Coalesced(rows, scope, NotSession(x)) == Coalesced(rows, scope, NotRow(x))
  {}

  /** (connector_id <> ? OR session_id <> ?). */
  function NotSession(x: HostSession): HostSession -> bool {
    (h: HostSession) => h.connector != x.connector || h.sessionId != x.sessionId
  }

  /** id <> ?. */
  function NotRow(x: HostSession): HostSession -> bool {
    (h: HostSession) => h.id != x.id
  }

  /** UPDATE host_sessions SET attached_task_id = NULL, attached_thread_id = NULL WHERE id = ?. */
  function Detached(rows: seq<HostSession>, id: Id, now: Time): (r: seq<HostSession>)
    ensures |r| == |rows|
  {
    seq(|rows|, i requires 0 <= i < |rows| =>
      if rows[i].id == id then rows[i].(task := None, thread := None, updatedAt := now) else rows[i])
  }

  /** Once a session is detached, excluding it changes no resolution: it is attached to nothing. */
  lemma DetachedResolves(rows: seq<HostSession>, scope: Scope, x: HostSession, now: Time)
    requires UniqueIds(rows) && UniqueSessions(rows) && x in rows
    ensures var after := Detached(rows, x.id, now);
      && UniqueIds(after) && UniqueSessions(after)
      && Coalesced(after, scope, NotSession(x)) == Resolve(after, scope)
  {
    var after := Detached(rows, x.id, now);
    forall h | h in after
      ensures exists g :: g in rows && h == if g.id == x.id then g.(task := None, thread := None, updatedAt := now)
        else g
    {
      var i :| 0 <= i < |after| && after[i] == h;
      assert rows[i] in rows;
    }
    CoalescedAgrees(after, scope, NotSession(x), h => true);
  }
}
