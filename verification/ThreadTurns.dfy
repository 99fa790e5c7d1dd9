/** The turns of a thread, rebuilt from its flat list of events: one turn for each command, and history
    turns cut out of the events that belong to no command. */
module ThreadTurns {
  import opened Common

  datatype Role = User | Assistant
  datatype Message = Message(role: Role, text: string)
  datatype Kind = CommandFailed | CommandFinished | OtherKind

  /** An event; `command` is absent also for an empty id.  The order of `createdAt` is that of its texts. */
  datatype Event = Event(
    id: Id,
    thread: Id,
    command: Option<Id>,
    number: nat,
    createdAt: nat,
    kind: Kind,
    summary: string)

  datatype Command = Command(id: Id, thread: Id)

  /** How a summary reads as a message of the user or the assistant, if it does. */
  type Parser = string -> Option<Message>

  function RoleOf(parse: Parser, e: Event): Option<Role> {
    var m := parse(e.summary);
    if m.None? then None else Some(m.value.role)
  }

  predicate IsUser(parse: Parser, e: Event) { RoleOf(parse, e) == Some(User) }
  predicate IsAssistant(parse: Parser, e: Event) { RoleOf(parse, e) == Some(Assistant) }

  lemma Roles(parse: Parser, e: Event)
    ensures RoleOf(parse, e).None? || IsUser(parse, e) || IsAssistant(parse, e)
  {
    var m := parse(e.summary);
    if m.Some? {
      match m.value.role {
        case User =>
        case Assistant =>
      }
    }
  }

  // ---------------------------------------------------------------------------------------------
  // Sorting by sequence number, then by time; stable

  predicate Before(a: Event, b: Event) {
    a.number < b.number || (a.number == b.number && a.createdAt <= b.createdAt)
  }

  function Insert(s: seq<Event>, e: Event): seq<Event> {
    if s == [] || Before(s[|s| - 1], e) then s + [e] else Insert(s[..|s| - 1], e) + [s[|s| - 1]]
  }

  function Sort(s: seq<Event>): seq<Event> {
    if s == [] then [] else Insert(Sort(s[..|s| - 1]), s[|s| - 1])
  }

  ghost predicate Sorted(s: seq<Event>) {
    forall i, j | 0 <= i < j < |s| :: Before(s[i], s[j])
  }

  function Picked(e: Event, number: nat, createdAt: nat): seq<Event> {
    if e.number == number && e.createdAt == createdAt then [e] else []
  }

  function WithKey(s: seq<Event>, number: nat, createdAt: nat): seq<Event> {
    if s == [] then []
    else WithKey(s[..|s| - 1], number, createdAt) + Picked(s[|s| - 1], number, createdAt)
  }

  lemma {:induction false} InsertSorts(s: seq<Event>, e: Event)
    requires Sorted(s)
    ensures Sorted(Insert(s, e)) && multiset(Insert(s, e)) == multiset(s) + multiset{e}
  {
    if s != [] && !Before(s[|s| - 1], e) {
      var rest, last := s[..|s| - 1], s[|s| - 1];
      assert s == rest + [last];
      InsertSorts(rest, e);
      forall i | 0 <= i < |Insert(rest, e)|
        ensures Before(Insert(rest, e)[i], last)
      {
        assert Insert(rest, e)[i] in multiset(Insert(rest, e));
        assert Insert(rest, e)[i] in rest || Insert(rest, e)[i] == e;
      }
    }
  }

  lemma WithKeyGrows(s: seq<Event>, e: Event, number: nat, createdAt: nat)
    ensures WithKey(s + [e], number, createdAt) == WithKey(s, number, createdAt) + Picked(e, number, createdAt)
  {}

  lemma EmptyPartsCommute(w: seq<Event>, a: seq<Event>, b: seq<Event>)
    requires a == [] || b == []
    ensures w + a + b == w + b + a
  {}

  lemma {:induction false} InsertKeepsKeys(s: seq<Event>, e: Event, number: nat, createdAt: nat)
    ensures WithKey(Insert(s, e), number, createdAt) == WithKey(s, number, createdAt) + Picked(e, number, createdAt)
  {
    if s == [] || Before(s[|s| - 1], e) {
      WithKeyGrows(s, e, number, createdAt);
    } else {
      var rest, last := s[..|s| - 1], s[|s| - 1];
      var w := WithKey(rest, number, createdAt);
      InsertKeepsKeys(rest, e, number, createdAt);
      WithKeyGrows(Insert(rest, e), last, number, createdAt);
      EmptyPartsCommute(w, Picked(e, number, createdAt), Picked(last, number, createdAt));
    }
  }

  /** The result is ordered, holds the same events, and keeps the order of events with equal keys. */
  lemma {:induction false} SortSorts(s: seq<Event>, number: nat, createdAt: nat)
    ensures Sorted(Sort(s)) && multiset(Sort(s)) == multiset(s)
    ensures forall i, j | 0 <= i < j < |Sort(s)| ::
      var a, b := Sort(s)[i], Sort(s)[j];
      a.number < b.number || (a.number == b.number && a.createdAt <= b.createdAt)
    ensures WithKey(Sort(s), number, createdAt) == WithKey(s, number, createdAt)
  {
    if s != [] {
      var rest, last := s[..|s| - 1], s[|s| - 1];
      assert s == rest + [last];
      SortSorts(rest, number, createdAt);
      InsertSorts(Sort(rest), last);
      InsertKeepsKeys(Sort(rest), last, number, createdAt);
    }
  }

  /** Sorting what is sorted changes nothing. */
  lemma {:induction false} SortIsIdle(s: seq<Event>)
    requires Sorted(s)
    ensures Sort(s) == s
  {
    if s != [] {
      var rest := s[..|s| - 1];
      SortIsIdle(rest);
      if rest != [] {
        assert Before(s[|rest| - 1], s[|s| - 1]);
      }
    }
  }

  // ---------------------------------------------------------------------------------------------
  // Cutting the history into turns

  function HistoryOf(thread: Id, events: seq<Event>): seq<Event> {
    if events == [] then []
    else
      var e := events[|events| - 1];
      HistoryOf(thread, events[..|events| - 1]) + if e.thread == thread && e.command.None? then [e] else []
  }

  /** A segment opens at every user message, and at an assistant message that comes before any of them. */
  function Segments(parse: Parser, s: seq<Event>): seq<seq<Event>> {
    if s == [] then []
    else
      var e, before := s[|s| - 1], Segments(parse, s[..|s| - 1]);
      if IsUser(parse, e) || (before == [] && IsAssistant(parse, e)) then before + [[e]]
      else if before == [] then []
      else before[..|before| - 1] + [before[|before| - 1] + [e]]
  }

  function Joined(segments: seq<seq<Event>>): seq<Event> {
    if segments == [] then [] else Joined(segments[..|segments| - 1]) + segments[|segments| - 1]
  }

  /** The history without the events before its first message. */
  function FromFirstMessage(parse: Parser, s: seq<Event>): seq<Event> {
    if s == [] then [] else if RoleOf(parse, s[0]).None? then FromFirstMessage(parse, s[1..]) else s
  }

  function Users(parse: Parser, s: seq<Event>): nat {
    if s == [] then 0 else Users(parse, s[..|s| - 1]) + if IsUser(parse, s[|s| - 1]) then 1 else 0
  }

  /** Whether an assistant message comes before any user message. */
  predicate AssistantFirst(parse: Parser, s: seq<Event>) {
    var messages := FromFirstMessage(parse, s);
    messages != [] && IsAssistant(parse, messages[0])
  }

  lemma {:induction false} FromFirstMessageGrows(parse: Parser, s: seq<Event>, e: Event)
    ensures FromFirstMessage(parse, s + [e]) ==
      if FromFirstMessage(parse, s) == [] && RoleOf(parse, e).None? then [] else FromFirstMessage(parse, s) + [e]
    decreases |s|
  {
    if s == [] {
      assert s + [e] == [e] && [e][1..] == [];
    } else if RoleOf(parse, s[0]).None? {
      assert (s + [e])[1..] == s[1..] + [e];
      FromFirstMessageGrows(parse, s[1..], e);
    }
  }

  lemma JoinedOpens(segments: seq<seq<Event>>, e: Event)
    ensures Joined(segments + [[e]]) == Joined(segments) + [e]
  {
    assert (segments + [[e]])[..|segments|] == segments;
  }

  lemma JoinedExtends(segments: seq<seq<Event>>, e: Event)
    requires segments != []
    ensures var n := |segments| - 1;
      Joined(segments[..n] + [segments[n] + [e]]) == Joined(segments) + [e]
  {
    var n := |segments| - 1;
    assert (segments[..n] + [segments[n] + [e]])[..n] == segments[..n];
    assert Joined(segments[..n]) + (segments[n] + [e]) == Joined(segments[..n]) + segments[n] + [e];
  }

  lemma {:induction false} SegmentsAreFull(parse: Parser, s: seq<Event>)
    ensures forall k | 0 <= k < |Segments(parse, s)| :: Segments(parse, s)[k] != []
    ensures Segments(parse, s) == [] <==> FromFirstMessage(parse, s) == []
  {
    if s != [] {
      Roles(parse, s[|s| - 1]);
      SegmentsAreFull(parse, s[..|s| - 1]);
      FromFirstMessageGrows(parse, s[..|s| - 1], s[|s| - 1]);
      assert s == s[..|s| - 1] + [s[|s| - 1]];
    }
  }

  /** The segments in order are the history, minus the events before its first message. */
  lemma {:induction false} SegmentsPartition(parse: Parser, s: seq<Event>)
    ensures Joined(Segments(parse, s)) == FromFirstMessage(parse, s)
  {
    if s != [] {
      var rest, e := s[..|s| - 1], s[|s| - 1];
      var before := Segments(parse, rest);
      Roles(parse, e);
      SegmentsPartition(parse, rest);
      FromFirstMessageGrows(parse, rest, e);
      SegmentsAreFull(parse, rest);
      assert s == rest + [e];
      JoinedOpens(before, e);
      if before != [] {
        JoinedExtends(before, e);
      }
    }
  }

  /** There are as many segments as user messages, plus one if an assistant message comes first. */
  lemma {:induction false} SegmentsCount(parse: Parser, s: seq<Event>)
    ensures |Segments(parse, s)| == Users(parse, s) + if AssistantFirst(parse, s) then 1 else 0
  {
    if s != [] {
      var rest, e := s[..|s| - 1], s[|s| - 1];
      Roles(parse, e);
      SegmentsCount(parse, rest);
      FromFirstMessageGrows(parse, rest, e);
      SegmentsAreFull(parse, rest);
      assert s == rest + [e];
    }
  }

  /** A segment has at most one user message, its first event; a segment that opens with an assistant
      message is the first. */
  lemma {:induction false} SegmentsOpen(parse: Parser, s: seq<Event>)
    ensures forall k | 0 <= k < |Segments(parse, s)| ::
      var g := Segments(parse, s)[k];
      && g != [] && (IsUser(parse, g[0]) || (k == 0 && IsAssistant(parse, g[0])))
      && forall i | 0 < i < |g| :: !IsUser(parse, g[i])
  {
    if s != [] {
      SegmentsOpen(parse, s[..|s| - 1]);
    }
  }

  // ---------------------------------------------------------------------------------------------
  // Drafts

  datatype Draft = Draft(
    id: Id,
    prompt: Option<string>,
    assistant: Option<string>,
    progress: seq<string>,
    events: seq<Event>)

  function WithSummary(progress: seq<string>, summary: string): seq<string> {
    if summary in progress then progress else progress + [summary]
  }

  function Opened(parse: Parser, e: Event): Draft {
    var m := parse(e.summary);
    if m.None? then Draft(e.id, None, None, [e.summary], [e])
    else if m.value.role.User? then Draft(e.id, Some(m.value.text), None, [], [e])
    else Draft(e.id, None, Some(m.value.text), [], [e])
  }

  function Extended(parse: Parser, d: Draft, e: Event): Draft {
    var m := parse(e.summary);
    if m.Some? then d.(assistant := Some(m.value.text), events := d.events + [e])
    else d.(progress := WithSummary(d.progress, e.summary), events := d.events + [e])
  }

  function DraftOf(parse: Parser, g: seq<Event>): Draft
    requires g != []
  {
    if |g| == 1 then Opened(parse, g[0]) else Extended(parse, DraftOf(parse, g[..|g| - 1]), g[|g| - 1])
  }

  /** The last word of the assistant. */
  function LastReply(parse: Parser, g: seq<Event>): Option<string> {
    if g == [] then None
    else if IsAssistant(parse, g[|g| - 1]) then Some(parse(g[|g| - 1].summary).value.text)
    else LastReply(parse, g[..|g| - 1])
  }

  /** The summaries of the events that are no messages. */
  function Progress(parse: Parser, g: seq<Event>): set<string> {
    if g == [] then {}
    else Progress(parse, g[..|g| - 1]) + if RoleOf(parse, g[|g| - 1]).None? then {g[|g| - 1].summary} else {}
  }

  /** What the fields of a draft mean in terms of its segment. */
  lemma {:induction false} DraftMeans(parse: Parser, g: seq<Event>)
    requires g != [] && forall i | 0 < i < |g| :: !IsUser(parse, g[i])
    ensures var d := DraftOf(parse, g);
      && d.events == g && d.id == g[0].id
      && d.prompt == (if IsUser(parse, g[0]) then Some(parse(g[0].summary).value.text) else None)
      && d.assistant == LastReply(parse, g)
      && (forall t :: t in d.progress <==> t in Progress(parse, g))
      && (forall i, j | 0 <= i < j < |d.progress| :: d.progress[i] != d.progress[j])
  {
    var n := |g| - 1;
    if n > 0 {
      DraftMeans(parse, g[..n]);
      Roles(parse, g[n]);
    } else {
      Roles(parse, g[0]);
      assert g[..0] == [];
      assert g == [g[0]];
    }
  }

  // ---------------------------------------------------------------------------------------------
  // Turns

  datatype Status = Failed | Succeeded | Partial

  /** `updatedAt` is absent when no time is known. */
  datatype Turn = Turn(
    id: Id,
    prompt: Option<string>,
    status: Status,
    assistant: Option<string>,
    errorSummary: Option<string>,
    progress: seq<string>,
    eventCount: nat,
    lastNumber: nat,
    updatedAt: Option<nat>,
    events: seq<Event>)

  /** The time that stands for an unknown one: the start of 1970. */
  const UNKNOWN_CREATED_AT: nat := 0

  function LastNumber(s: seq<Event>): nat {
    if s == [] then 0
    else
      var rest := LastNumber(s[..|s| - 1]);
      if s[|s| - 1].number > rest then s[|s| - 1].number else rest
  }

  /** The latest known time. */
  function UpdatedAt(s: seq<Event>): Option<nat> {
    if s == [] then None
    else
      var rest, at := UpdatedAt(s[..|s| - 1]), s[|s| - 1].createdAt;
      if at == UNKNOWN_CREATED_AT || (rest.Some? && rest.value >= at) then rest else Some(at)
  }

  /** The summary of the last failure. */
  function ErrorSummary(s: seq<Event>): Option<string> {
    if s == [] then None
    else if s[|s| - 1].kind.CommandFailed? then Some(s[|s| - 1].summary)
    else ErrorSummary(s[..|s| - 1])
  }

  /** An assistant text is never empty, so its presence decides. */
  function TurnOf(d: Draft): Turn {
    var sorted := Sort(d.events);
    var failed := exists e | e in sorted :: e.kind.CommandFailed?;
    Turn(d.id, d.prompt, if failed then Failed else if d.assistant.Some? then Succeeded else Partial,
         d.assistant, ErrorSummary(sorted), d.progress, |sorted|, LastNumber(sorted), UpdatedAt(sorted), sorted)
  }

  lemma {:induction false} LastNumberIsLargest(s: seq<Event>)
    ensures forall e | e in s :: e.number <= LastNumber(s)
    ensures LastNumber(s) > 0 ==> exists e | e in s :: e.number == LastNumber(s)
  {
    if s != [] {
      assert s == s[..|s| - 1] + [s[|s| - 1]];
      LastNumberIsLargest(s[..|s| - 1]);
    }
  }

  lemma {:induction false} UpdatedAtIsLatest(s: seq<Event>)
    ensures UpdatedAt(s).None? <==> forall e | e in s :: e.createdAt == UNKNOWN_CREATED_AT
    ensures UpdatedAt(s).Some? ==>
      && (exists e | e in s :: e.createdAt == UpdatedAt(s).value)
      && forall e | e in s :: e.createdAt <= UpdatedAt(s).value
  {
    if s != [] {
      assert s == s[..|s| - 1] + [s[|s| - 1]];
      UpdatedAtIsLatest(s[..|s| - 1]);
    }
  }

  lemma {:induction false} ErrorSummaryIsLast(s: seq<Event>)
    ensures ErrorSummary(s).Some? <==> exists e | e in s :: e.kind.CommandFailed?
  {
    if s != [] {
      assert s == s[..|s| - 1] + [s[|s| - 1]];
      ErrorSummaryIsLast(s[..|s| - 1]);
    }
  }

  function EventsOf(turns: seq<Turn>): seq<Event> {
    if turns == [] then [] else EventsOf(turns[..|turns| - 1]) + turns[|turns| - 1].events
  }

  /** The history turns of a thread. */
  ghost predicate AreHistoryTurns(parse: Parser, thread: Id, events: seq<Event>, turns: seq<Turn>) {
    var segments := Segments(parse, Sort(HistoryOf(thread, events)));
    && |turns| == |segments|
    && forall k | 0 <= k < |turns| :: segments[k] != [] && turns[k] == TurnOf(DraftOf(parse, segments[k]))
  }

  /** A contiguous part of a sorted sequence is sorted. */
  lemma {:induction false} JoinedParts(segments: seq<seq<Event>>, k: nat)
    requires k < |segments| && Sorted(Joined(segments))
    ensures Sorted(segments[k])
    decreases |segments|
  {
    var n := |segments| - 1;
    var front := Joined(segments[..n]);
    assert Joined(segments) == front + segments[n];
    if k == n {
      forall i, j | 0 <= i < j < |segments[n]| ensures Before(segments[n][i], segments[n][j]) {
        assert Before(Joined(segments)[|front| + i], Joined(segments)[|front| + j]);
      }
    } else {
      forall i, j | 0 <= i < j < |front| ensures Before(front[i], front[j]) {
        assert Before(Joined(segments)[i], Joined(segments)[j]);
      }
      JoinedParts(segments[..n], k);
    }
  }

  lemma {:induction false} FromFirstMessageIsSorted(parse: Parser, s: seq<Event>)
    requires Sorted(s)
    ensures Sorted(FromFirstMessage(parse, s))
    decreases |s|
  {
    if s != [] {
      FromFirstMessageIsSorted(parse, s[1..]);
    }
  }

  lemma {:induction false} TurnsJoin(turns: seq<Turn>, segments: seq<seq<Event>>)
    requires |turns| == |segments| && forall k | 0 <= k < |turns| :: turns[k].events == segments[k]
    ensures EventsOf(turns) == Joined(segments)
  {
    if turns != [] {
      TurnsJoin(turns[..|turns| - 1], segments[..|segments| - 1]);
    }
  }

  /** History turns neither lose, repeat nor reorder events: in order they are the sorted history of the
      thread, minus the events before its first message.  Each turn has at most one user message, its
      first event, and there are as many turns as user messages, plus one if an assistant message comes
      first. */
  lemma HistoryTurnsPartition(parse: Parser, thread: Id, events: seq<Event>, turns: seq<Turn>)
    requires AreHistoryTurns(parse, thread, events, turns)
    ensures var history := Sort(HistoryOf(thread, events));
      && EventsOf(turns) == FromFirstMessage(parse, history)
      && |turns| == Users(parse, history) + (if AssistantFirst(parse, history) then 1 else 0)
    ensures forall k | 0 <= k < |turns| :: TurnFits(parse, turns[k], k)
  {
    var history := Sort(HistoryOf(thread, events));
    SortSorts(HistoryOf(thread, events), 0, 0);
    FromFirstMessageIsSorted(parse, history);
    SegmentsPartition(parse, history);
    SegmentsCount(parse, history);
    forall k | 0 <= k < |turns|
      ensures TurnFits(parse, turns[k], k) && turns[k].events == Segments(parse, history)[k]
    {
      TurnOfSegment(parse, history, k);
    }
    TurnsJoin(turns, Segments(parse, history));
  }

  /** A turn's fields in terms of its events. */
  ghost predicate TurnFits(parse: Parser, t: Turn, k: nat) {
    && t.events != [] && t.eventCount == |t.events| && t.id == t.events[0].id
    && (IsUser(parse, t.events[0]) || (k == 0 && IsAssistant(parse, t.events[0])))
    && (t.prompt.Some? <==> IsUser(parse, t.events[0]))
    && t.assistant == LastReply(parse, t.events)
    && (t.status.Failed? <==> t.errorSummary.Some?) && (t.status.Succeeded? ==> t.assistant.Some?)
    && (t.status.Failed? <==> exists e | e in t.events :: e.kind.CommandFailed?)
    && (forall e | e in t.events :: e.number <= t.lastNumber)
    && (t.updatedAt.None? <==> forall e | e in t.events :: e.createdAt == UNKNOWN_CREATED_AT)
    && (t.updatedAt.Some? ==> forall e | e in t.events :: e.createdAt <= t.updatedAt.value)
    && forall i | 0 < i < |t.events| :: !IsUser(parse, t.events[i])
  }

  lemma TurnOfSegment(parse: Parser, history: seq<Event>, k: nat)
    requires Sorted(Joined(Segments(parse, history))) && k < |Segments(parse, history)|
    ensures var g := Segments(parse, history)[k];
      g != [] && TurnFits(parse, TurnOf(DraftOf(parse, g)), k) && TurnOf(DraftOf(parse, g)).events == g
  {
    SegmentsOpen(parse, history);
    var g := Segments(parse, history)[k];
    JoinedParts(Segments(parse, history), k);
    DraftMeans(parse, g);
    SortIsIdle(g);
    LastNumberIsLargest(g);
    UpdatedAtIsLatest(g);
    ErrorSummaryIsLast(g);
  }

  lemma SegmentsGrow(parse: Parser, s: seq<Event>, k: nat)
    requires k < |s|
    ensures Segments(parse, s[..k + 1]) ==
      var before, e := Segments(parse, s[..k]), s[k];
      if IsUser(parse, e) || (before == [] && IsAssistant(parse, e)) then before + [[e]]
      else if before == [] then []
      else before[..|before| - 1] + [before[|before| - 1] + [e]]
  {
    assert s[..k + 1][..k] == s[..k];
  }

  /** The drafts cut from the first events, the last of them perhaps still open. */
  ghost predicate Cut(parse: Parser, s: seq<Event>, drafts: seq<Draft>, current: Option<Draft>) {
    AreDrafts(parse, s, drafts + if current.Some? then [current.value] else [])
  }

  lemma CutOpens(parse: Parser, s: seq<Event>, k: nat, drafts: seq<Draft>, current: Option<Draft>)
    requires k < |s| && Cut(parse, s[..k], drafts, current)
    requires IsUser(parse, s[k]) || (drafts == [] && current.None? && IsAssistant(parse, s[k]))
    ensures Cut(parse, s[..k + 1], drafts + (if current.Some? then [current.value] else []), Some(Opened(parse, s[k])))
    ensures
      var all := drafts + if current.Some? then [current.value] else [];
      Cut(parse, s[..k + 1], all + [Opened(parse, s[k])], None)
  {
    SegmentsGrow(parse, s, k);
    var all := drafts + if current.Some? then [current.value] else [];
    var before, after := Segments(parse, s[..k]), Segments(parse, s[..k + 1]);
    assert |all| == 0 ==> all == [];
    assert after == before + [[s[k]]];
    var all' := all + [Opened(parse, s[k])];
    forall j | 0 <= j < |all'| ensures after[j] != [] && all'[j] == DraftOf(parse, after[j]) {
      if j < |all| {
        assert after[j] == before[j];
      }
    }
    assert all' + [] == all';
  }

  lemma LastSegmentExtends(parse: Parser, s: seq<Event>, k: nat)
    requires k < |s| && !IsUser(parse, s[k]) && Segments(parse, s[..k]) != []
    ensures var before, after := Segments(parse, s[..k]), Segments(parse, s[..k + 1]); var n := |before| - 1;
      && |after| == n + 1 && after[..n] == before[..n]
      && after[n] != [] && (before[n] != [] ==>
        DraftOf(parse, after[n]) == Extended(parse, DraftOf(parse, before[n]), s[k]))
  {
    SegmentsGrow(parse, s, k);
    var before := Segments(parse, s[..k]);
    var g := before[|before| - 1];
    assert (g + [s[k]])[..|g|] == g;
  }

  /** The drafts with the last one extended. */
  function LastExtended(parse: Parser, all: seq<Draft>, e: Event): seq<Draft>
    requires all != []
  {
    all[..|all| - 1] + [Extended(parse, all[|all| - 1], e)]
  }

  ghost predicate AreDrafts(parse: Parser, s: seq<Event>, all: seq<Draft>) {
    var segments := Segments(parse, s);
    && |all| == |segments|
    && forall k | 0 <= k < |all| :: segments[k] != [] && all[k] == DraftOf(parse, segments[k])
  }

  lemma LastExtendedAreDrafts(parse: Parser, s: seq<Event>, k: nat, all: seq<Draft>)
    requires k < |s| && AreDrafts(parse, s[..k], all) && !IsUser(parse, s[k]) && all != []
    ensures AreDrafts(parse, s[..k + 1], LastExtended(parse, all, s[k]))
  {
    LastSegmentExtends(parse, s, k);
    LastDraftExtends(parse, Segments(parse, s[..k]), Segments(parse, s[..k + 1]), all, s[k]);
  }

  lemma LastDraftExtends(parse: Parser, before: seq<seq<Event>>, after: seq<seq<Event>>, all: seq<Draft>, e: Event)
    requires all != [] && |before| == |after| == |all|
    requires forall k | 0 <= k < |all| :: before[k] != [] && all[k] == DraftOf(parse, before[k])
    requires var n := |all| - 1;
      && after[..n] == before[..n] && after[n] != []
      && DraftOf(parse, after[n]) == Extended(parse, DraftOf(parse, before[n]), e)
    ensures forall k | 0 <= k < |all| :: after[k] != [] && LastExtended(parse, all, e)[k] == DraftOf(parse, after[k])
  {
    var n := |all| - 1;
    forall k | 0 <= k < n ensures after[k] == before[k] {
      assert after[..n][k] == before[..n][k];
    }
  }

  lemma CutExtendsOpen(parse: Parser, s: seq<Event>, k: nat, drafts: seq<Draft>, d: Draft)
    requires k < |s| && Cut(parse, s[..k], drafts, Some(d)) && !IsUser(parse, s[k])
    ensures Cut(parse, s[..k + 1], drafts, Some(Extended(parse, d, s[k])))
    ensures Cut(parse, s[..k + 1], drafts + [Extended(parse, d, s[k])], None)
  {
    var all := drafts + [d];
    LastExtendedAreDrafts(parse, s, k, all);
    assert LastExtended(parse, all, s[k]) == drafts + [Extended(parse, d, s[k])];
    assert drafts + [Extended(parse, d, s[k])] + [] == drafts + [Extended(parse, d, s[k])];
  }

  lemma CutExtendsLast(parse: Parser, s: seq<Event>, k: nat, drafts: seq<Draft>)
    requires k < |s| && Cut(parse, s[..k], drafts, None) && !IsUser(parse, s[k]) && drafts != []
    ensures Cut(parse, s[..k + 1], LastExtended(parse, drafts, s[k]), None)
  {
    assert drafts + [] == drafts;
    LastExtendedAreDrafts(parse, s, k, drafts);
    assert LastExtended(parse, drafts, s[k]) + [] == LastExtended(parse, drafts, s[k]);
  }

  lemma CutDrops(parse: Parser, s: seq<Event>, k: nat)
    requires k < |s| && Cut(parse, s[..k], [], None) && RoleOf(parse, s[k]).None?
    ensures Cut(parse, s[..k + 1], [], None)
  {
    SegmentsGrow(parse, s, k);
  }

  /** An assistant message closes the open draft, or extends the last one, or opens the first. */
  method TakeReply(parse: Parser, ghost history: seq<Event>, ghost k: nat, e: Event, text: string, drafts: seq<Draft>,
      current: Option<Draft>)
    returns (drafts': seq<Draft>)
    requires k < |history| && e == history[k] && Cut(parse, history[..k], drafts, current)
    requires parse(e.summary) == Some(Message(Assistant, text))
    ensures Cut(parse, history[..k + 1], drafts', None)
  {
    if current.Some? {
      CutExtendsOpen(parse, history, k, drafts, current.value);
      drafts' := drafts + [current.value.(assistant := Some(text), events := current.value.events + [e])];
    } else if drafts != [] {
      CutExtendsLast(parse, history, k, drafts);
      var previous := drafts[|drafts| - 1];
      drafts' := drafts[..|drafts| - 1] + [previous.(assistant := Some(text), events := previous.events + [e])];
    } else {
      CutOpens(parse, history, k, drafts, current);
      drafts' := [Draft(e.id, None, Some(text), [], [e])];
      assert drafts + [] + drafts' == drafts';
    }
  }

  /** Any other event belongs to the open draft, or to the last one; before the first draft it is dropped. */
  method TakeProgress(parse: Parser, ghost history: seq<Event>, ghost k: nat, e: Event, drafts: seq<Draft>,
      current: Option<Draft>)
    returns (drafts': seq<Draft>, current': Option<Draft>)
    requires k < |history| && e == history[k] && Cut(parse, history[..k], drafts, current)
    requires parse(e.summary).None?
    ensures Cut(parse, history[..k + 1], drafts', current')
  {
    drafts', current' := drafts, current;
    if current.Some? {
      CutExtendsOpen(parse, history, k, drafts, current.value);
      var d := current.value;
      current' := Some(d.(progress := WithSummary(d.progress, e.summary), events := d.events + [e]));
    } else if drafts != [] {
      CutExtendsLast(parse, history, k, drafts);
      var d := drafts[|drafts| - 1];
      var extended := d.(progress := WithSummary(d.progress, e.summary), events := d.events + [e]);
      drafts' := drafts[..|drafts| - 1] + [extended];
    } else {
      CutDrops(parse, history, k);
    }
  }

  /** Cut the history of a thread into turns. */
  method BuildHistoryTurns(parse: Parser, thread: Id, events: seq<Event>) returns (turns: seq<Turn>)
    ensures AreHistoryTurns(parse, thread, events, turns)
  {
    var history := Sort(HistoryOf(thread, events));
    var drafts: seq<Draft> := [];
    var current: Option<Draft> := None;
    assert history[..0] == [];
    for k := 0 to |history|
      invariant Cut(parse, history[..k], drafts, current)
    {
      var message := parse(history[k].summary);
      if message.Some? && message.value.role.User? {
        CutOpens(parse, history, k, drafts, current);
        if current.Some? {
          drafts := drafts + [current.value];
        } else {
          assert drafts + [] == drafts;
        }
        current := Some(Draft(history[k].id, Some(message.value.text), None, [], [history[k]]));
      } else if message.Some? {
        drafts := TakeReply(parse, history, k, history[k], message.value.text, drafts, current);
        current := None;
      } else {
        drafts, current := TakeProgress(parse, history, k, history[k], drafts, current);
      }
    }
    assert history[..|history|] == history;
    if current.Some? {
      drafts := drafts + [current.value];
    }
    turns := seq(|drafts|, k requires 0 <= k < |drafts| => TurnOf(drafts[k]));
  }

  // ---------------------------------------------------------------------------------------------
  // Command turns

  datatype Group = Group(command: Option<Command>, events: seq<Event>)

  function OfCommand(thread: Id, id: Id, events: seq<Event>): seq<Event> {
    if events == [] then []
    else
      var e := events[|events| - 1];
      OfCommand(thread, id, events[..|events| - 1]) + if e.thread == thread && e.command == Some(id) then [e] else []
  }

  function LastCommand(thread: Id, id: Id, commands: seq<Command>): Option<Command> {
    if commands == [] then None
    else
      var c := commands[|commands| - 1];
      if c.thread == thread && c.id == id then Some(c) else LastCommand(thread, id, commands[..|commands| - 1])
  }

  /** The groups after some of the events and commands were taken in. */
  ghost predicate Grouped(thread: Id, events: seq<Event>, commands: seq<Command>, order: seq<Id>,
      groups: map<Id, Group>) {
    && (forall id :: id in order <==> id in groups)
    && (forall i, j | 0 <= i < j < |order| :: order[i] != order[j])
    && (forall id :: id in groups <==> OfCommand(thread, id, events) != [] || LastCommand(thread, id, commands).Some?)
    && (forall id | id in groups ::
      groups[id] == Group(LastCommand(thread, id, commands), OfCommand(thread, id, events)))
  }

  lemma OfCommandGrows(thread: Id, id: Id, events: seq<Event>, k: nat)
    requires k < |events|
    ensures OfCommand(thread, id, events[..k + 1]) ==
      OfCommand(thread, id, events[..k]) + if events[k].thread == thread && events[k].command == Some(id)
        then [events[k]] else []
  {
    assert events[..k + 1][..k] == events[..k];
  }

  lemma EventGrouped(thread: Id, events: seq<Event>, k: nat, order: seq<Id>, groups: map<Id, Group>)
    requires k < |events| && Grouped(thread, events[..k], [], order, groups)
    ensures var e := events[k];
      if e.thread != thread || e.command.None? then Grouped(thread, events[..k + 1], [], order, groups)
      else
        var id := e.command.value;
        var group := if id in groups then groups[id] else Group(None, []);
        Grouped(thread, events[..k + 1], [], if id in groups then order else order + [id],
                groups[id := group.(events := group.events + [e])])
  {
    forall id { OfCommandGrows(thread, id, events, k); }
  }

  lemma LastCommandGrows(thread: Id, id: Id, commands: seq<Command>, k: nat)
    requires k < |commands|
    ensures LastCommand(thread, id, commands[..k + 1]) ==
      if commands[k].thread == thread && commands[k].id == id then Some(commands[k])
        else LastCommand(thread, id, commands[..k])
  {
    assert commands[..k + 1][..k] == commands[..k];
  }

  /** Group a thread's events by command, in the insertion order of a JavaScript Map. */
  method GroupByCommand(thread: Id, commands: seq<Command>, events: seq<Event>)
      returns (order: seq<Id>, groups: map<Id, Group>)
    ensures Grouped(thread, events, commands, order, groups)
  {
    order, groups := GroupEvents(thread, events);
    assert commands[..0] == [];
    for k := 0 to |commands|
      invariant Grouped(thread, events, commands[..k], order, groups)
    {
      forall id { LastCommandGrows(thread, id, commands, k); }
      var c := commands[k];
      if c.thread == thread {
        var group := if c.id in groups then groups[c.id] else Group(None, []);
        order := if c.id in groups then order else order + [c.id];
        groups := groups[c.id := group.(command := Some(c))];
      }
    }
    assert commands[..|commands|] == commands;
  }

  method GroupEvents(thread: Id, events: seq<Event>) returns (order: seq<Id>, groups: map<Id, Group>)
    ensures Grouped(thread, events, [], order, groups)
  {
    order, groups := [], map[];
    assert events[..0] == [];
    for k := 0 to |events|
      invariant Grouped(thread, events[..k], [], order, groups)
    {
      EventGrouped(thread, events, k, order, groups);
      var e := events[k];
      if e.thread == thread && e.command.Some? {
        var id := e.command.value;
        var group := if id in groups then groups[id] else Group(None, []);
        order := if id in groups then order else order + [id];
        groups := groups[id := group.(events := group.events + [e])];
      }
    }
    assert events[..|events|] == events;
  }

  lemma {:induction false} OfCommandSelects(thread: Id, id: Id, events: seq<Event>, e: Event)
    ensures multiset(OfCommand(thread, id, events))[e] ==
      if e.thread == thread && e.command == Some(id) then multiset(events)[e] else 0
  {
    if events != [] {
      OfCommandSelects(thread, id, events[..|events| - 1], e);
      assert events == events[..|events| - 1] + [events[|events| - 1]];
    }
  }

  lemma {:induction false} HistorySelects(thread: Id, events: seq<Event>, e: Event)
    ensures multiset(HistoryOf(thread, events))[e] == if e.thread == thread && e.command.None?
      then multiset(events)[e] else 0
  {
    if events != [] {
      HistorySelects(thread, events[..|events| - 1], e);
      assert events == events[..|events| - 1] + [events[|events| - 1]];
    }
  }

  /** Every event of the thread that belongs to a command is in exactly one group, that command's, as often
      as it is in the log; no group holds an event of another thread or another command. */
  lemma CommandEventsOnce(thread: Id, commands: seq<Command>, events: seq<Event>, order: seq<Id>,
      groups: map<Id, Group>, e: Event)
    requires Grouped(thread, events, commands, order, groups)
    ensures e in events && e.thread == thread && e.command.Some? ==> e.command.value in order
    ensures forall id | id in order ::
      multiset(Sort(groups[id].events))[e] ==
        if e.thread == thread && e.command == Some(id) then multiset(events)[e] else 0
  {
    if e in events && e.thread == thread && e.command.Some? {
      OfCommandSelects(thread, e.command.value, events, e);
      assert multiset(events)[e] > 0;
    }
    forall id | id in order
      ensures multiset(Sort(groups[id].events))[e] ==
        if e.thread == thread && e.command == Some(id) then multiset(events)[e] else 0
    {
      OfCommandSelects(thread, id, events, e);
      SortSorts(groups[id].events, 0, 0);
    }
  }

  // ---------------------------------------------------------------------------------------------
  // All turns

  /** What is shown: a command's turn, with its events, or a history turn. */
  datatype Shown = OfGroup(id: Id, command: Option<Command>, sorted: seq<Event>) | OfHistory(turn: Turn)

  function ShownEvents(t: Shown): seq<Event> {
    match t
    case OfGroup(_, _, sorted) => sorted
    case OfHistory(turn) => turn.events
  }

  /** How often an event is shown. */
  function TimesShown(turns: seq<Shown>, e: Event): nat {
    if turns == [] then 0
    else TimesShown(turns[..|turns| - 1], e) + multiset(ShownEvents(turns[|turns| - 1]))[e]
  }

  /** The events of the thread's history before its first message, which belong to no turn. */
  function Leading(parse: Parser, s: seq<Event>): seq<Event> {
    if s == [] || RoleOf(parse, s[0]).Some? then [] else [s[0]] + Leading(parse, s[1..])
  }

  function LeadingTimes(parse: Parser, thread: Id, events: seq<Event>, e: Event): nat {
    multiset(Leading(parse, Sort(HistoryOf(thread, events))))[e]
  }

  /** The turns of a thread, before they are ordered for display. */
  method ThreadTurnsForDisplay(parse: Parser, thread: Id, commands: seq<Command>, events: seq<Event>)
    returns (shown: seq<Shown>)
    ensures AreTurns(parse, thread, commands, events, shown)
  {
    var order, groups := GroupByCommand(thread, commands, events);
    var turns := BuildHistoryTurns(parse, thread, events);
    var front := seq(|order|, k requires 0 <= k < |order| =>
      OfGroup(order[k], groups[order[k]].command, Sort(groups[order[k]].events)));
    var back := seq(|turns|, k requires 0 <= k < |turns| => OfHistory(turns[k]));
    assert AreGroups(thread, commands, events, front, order, groups);
    assert AreHistory(parse, thread, events, back, turns);
    shown := front + back;
  }

  ghost predicate AreGroups(thread: Id, commands: seq<Command>, events: seq<Event>, front: seq<Shown>,
                            order: seq<Id>, groups: map<Id, Group>)
  {
    && Grouped(thread, events, commands, order, groups) && |front| == |order|
    && forall k | 0 <= k < |order| ::
         front[k] == OfGroup(order[k], groups[order[k]].command, Sort(groups[order[k]].events))
  }

  ghost predicate AreHistory(parse: Parser, thread: Id, events: seq<Event>, back: seq<Shown>, turns: seq<Turn>) {
    && AreHistoryTurns(parse, thread, events, turns) && |back| == |turns|
    && forall k | 0 <= k < |turns| :: back[k] == OfHistory(turns[k])
  }

  /** One turn for each command with events or a row in the thread, then the history turns. */
  ghost predicate AreTurns(parse: Parser, thread: Id, commands: seq<Command>, events: seq<Event>, shown: seq<Shown>) {
    exists front, back, order, groups, turns ::
      && shown == front + back
      && AreGroups(thread, commands, events, front, order, groups)
      && AreHistory(parse, thread, events, back, turns)
  }

  /** In any order of display: an event of the thread is shown as often as it is in the log, unless it is one
      of the leading events of the history; an event of another thread is not shown. */
  lemma EveryEventOnce(parse: Parser, thread: Id, commands: seq<Command>, events: seq<Event>,
                       turns: seq<Shown>, displayed: seq<Shown>, e: Event)
    requires AreTurns(parse, thread, commands, events, turns) && multiset(displayed) == multiset(turns)
    ensures TimesShown(displayed, e) + LeadingTimes(parse, thread, events, e) ==
      if e.thread == thread then multiset(events)[e] else 0
    ensures e.command.Some? || e.thread != thread ==> LeadingTimes(parse, thread, events, e) == 0
  {
    var front, back, order, groups, history :|
      && turns == front + back
      && AreGroups(thread, commands, events, front, order, groups)
      && AreHistory(parse, thread, events, back, history);
    OrderIsIrrelevant(displayed, turns, e);
    TimesJoin(front, back, e);
    GroupTimes(thread, commands, events, order, groups, front, e);
    HistoryTimes(parse, thread, events, history, back, e);
  }

  lemma {:induction false} TimesJoin(a: seq<Shown>, b: seq<Shown>, e: Event)
    ensures TimesShown(a + b, e) == TimesShown(a, e) + TimesShown(b, e)
  {
    if b == [] {
      assert a + b == a;
    } else {
      assert (a + b)[..|a + b| - 1] == a + b[..|b| - 1];
      TimesJoin(a, b[..|b| - 1], e);
    }
  }

  /** Ordering the turns for display changes nothing of this, whatever the order. */
  lemma {:induction false} OrderIsIrrelevant(a: seq<Shown>, b: seq<Shown>, e: Event)
    requires multiset(a) == multiset(b)
    ensures TimesShown(a, e) == TimesShown(b, e)
    decreases |a|
  {
    if a == [] {
      assert |b| == |multiset(b)| == 0;
    } else {
      var t, rest := a[|a| - 1], a[..|a| - 1];
      assert a == rest + [t];
      assert t in multiset(b);
      var i :| 0 <= i < |b| && b[i] == t;
      assert b == b[..i] + [t] + b[i + 1..];
      assert multiset(rest) == multiset(a) - multiset{t};
      assert multiset(b[..i] + b[i + 1..]) == multiset(b) - multiset{t};
      OrderIsIrrelevant(rest, b[..i] + b[i + 1..], e);
      TimesMove(b[..i], t, b[i + 1..], e);
    }
  }

  /** One turn can be moved to the end. */
  lemma TimesMove(a: seq<Shown>, t: Shown, b: seq<Shown>, e: Event)
    ensures TimesShown(a + [t] + b, e) == TimesShown(a + b, e) + multiset(ShownEvents(t))[e]
  {
    TimesJoin(a + [t], b, e);
    TimesJoin(a, b, e);
    assert (a + [t])[..|a|] == a;
  }

  /** An event is in the group of its command alone. */
  lemma GroupTimes(thread: Id, commands: seq<Command>, events: seq<Event>, order: seq<Id>, groups: map<Id, Group>,
                   front: seq<Shown>, e: Event)
    requires AreGroups(thread, commands, events, front, order, groups)
    ensures TimesShown(front, e) == if e.thread == thread && e.command.Some? then multiset(events)[e] else 0
  {
    CommandEventsOnce(thread, commands, events, order, groups, e);
    if e.thread == thread && e.command.Some? && e.command.value in order {
      var k :| 0 <= k < |order| && order[k] == e.command.value;
      OneGroupShows(front, e, k, multiset(events)[e]);
    } else {
      NoGroupShows(front, e);
    }
  }

  lemma {:induction false} OneGroupShows(front: seq<Shown>, e: Event, k: nat, n: nat)
    requires k < |front|
    requires forall i | 0 <= i < |front| :: multiset(ShownEvents(front[i]))[e] == if i == k then n else 0
    ensures TimesShown(front, e) == n
  {
    if k == |front| - 1 {
      NoGroupShows(front[..k], e);
    } else {
      OneGroupShows(front[..|front| - 1], e, k, n);
    }
  }

  lemma {:induction false} NoGroupShows(front: seq<Shown>, e: Event)
    requires forall i | 0 <= i < |front| :: multiset(ShownEvents(front[i]))[e] == 0
    ensures TimesShown(front, e) == 0
  {
    if front != [] {
      NoGroupShows(front[..|front| - 1], e);
    }
  }

  lemma {:induction false} LeadingComesFirst(parse: Parser, s: seq<Event>)
    ensures s == Leading(parse, s) + FromFirstMessage(parse, s)
  {
    if s != [] && RoleOf(parse, s[0]).None? {
      LeadingComesFirst(parse, s[1..]);
    }
  }

  lemma {:induction false} TurnTimes(turns: seq<Turn>, back: seq<Shown>, e: Event)
    requires |back| == |turns| && forall k | 0 <= k < |turns| :: ShownEvents(back[k]) == turns[k].events
    ensures TimesShown(back, e) == multiset(EventsOf(turns))[e]
  {
    if turns != [] {
      TurnTimes(turns[..|turns| - 1], back[..|turns| - 1], e);
    }
  }

  /** History turns show the history without its leading events. */
  lemma HistoryTimes(parse: Parser, thread: Id, events: seq<Event>, turns: seq<Turn>, back: seq<Shown>, e: Event)
    requires AreHistory(parse, thread, events, back, turns)
    ensures TimesShown(back, e) + LeadingTimes(parse, thread, events, e) ==
      if e.thread == thread && e.command.None? then multiset(events)[e] else 0
  {
    var history := Sort(HistoryOf(thread, events));
    HistoryTurnsPartition(parse, thread, events, turns);
    TurnTimes(turns, back, e);
    LeadingComesFirst(parse, history);
    SortSorts(HistoryOf(thread, events), 0, 0);
    assert multiset(history) == multiset(Leading(parse, history)) + multiset(FromFirstMessage(parse, history));
    HistorySelects(thread, events, e);
  }
}
