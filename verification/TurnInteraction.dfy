/** Resolving one turn interaction: operator requests, their retries and the connector may all answer it.
    The state is that of one (command, interaction) pair.  Every access to the store, and the send to the
    connector, is one atomic step; the steps of all requests interleave freely, and a request may stop
    for good at any point. */
module TurnInteraction {
  import opened Common

  const CLAIM_TTL: nat := 60_000
  const DISPATCH_TTL: nat := 300_000

  /** An operator's answer: an approval decision, or answers to questions. */
  datatype Response = Approval(decision: nat) | Input(answers: seq<nat>)

  /** The payload of the event that closes the interaction. */
  datatype Resolution = Decided(decision: nat) | Answered(count: nat)

  function ResolutionOf(r: Response): Resolution {
    match r
    case Approval(d) => Decided(d)
    case Input(answers) => Answered(|answers|)
  }

  datatype Writer = Operator(request: Id) | Connector

  /** The row of `events` of kind approval.resolved or input.received; a unique index allows only one. */
  datatype Event = Event(writer: Writer, resolution: Resolution)

  /** The row of turn_interaction_resolution_claims.  `owner` is the request that inserted it; no
      statement looks at it. */
  datatype Claim = Claim(
    owner: Id, response: Response, createdAt: Time, startedAt: Option<Time>, uncertain: bool, delivered: bool)

  /** Why a request may record a resolution: it sent its own response, it read a claim whose delivery
      may have reached the connector, or it saw that a resolution exists. */
  datatype Basis = Own | Recovered | Resolved

  /** The next thing a request will do. */
  datatype Phase =
    | ReadingClaim
    | Validating
    | Sweeping
    | Inserting
    | Contended
    | Claimed
    | Dispatching
    | AwaitingAck
    | Undelivered
    | Unacknowledged
    | Acknowledged
    | MarkFailed
    | Recording(resolution: Resolution, basis: Basis)
    | Appending(resolution: Resolution, basis: Basis)
    | Accepting(event: Event)
    | Accepted(event: Event)
    | Refused

  datatype Request = Request(response: Response, phase: Phase, claimedAt: Time, startedAt: Option<Time>)

  datatype Proto = Proto(
    now: Time, claim: Option<Claim>, event: Option<Event>, sent: set<Response>, requests: map<Id, Request>)

  /** What the dispatch reports back to the handler. */
  datatype Outcome = Delivered | Rejected | NotSent | SentUnknown | NoState | Thrown

  /** A step of request `r`; the other arguments are what the environment decides. */
  datatype Step =
    | Tick(now: Time)
    | Arrive(r: Id, response: Response)
    | ConnectorReports(resolution: Resolution)
    | ReadClaim(r: Id, usable: bool)
    | Validate(r: Id, valid: bool, active: bool)
    | Sweep(r: Id)
    | Insert(r: Id)
    | Reread(r: Id, usable: bool)
    | MarkStarted(r: Id, ok: bool)
    | Send(r: Id)
    | Hear(r: Id, outcome: Outcome)
    | MarkUncertain(r: Id, ok: bool)
    | MarkDelivered(r: Id, ok: bool)
    | MarkFallback(r: Id, ok: bool)
    | Find(r: Id, ok: bool)
    | Append(r: Id, ok: bool)
    | Release(r: Id, ok: bool)
    | GiveBack(r: Id, ok: bool)

  /** delivered_at or delivery_uncertain_at is set. */
  predicate Marked(c: Option<Claim>) {
    c.Some? && (c.value.delivered || c.value.uncertain)
  }

  /** The claim is one that the sweep deletes. */
  predicate Stale(c: Claim, now: Time) {
    && !c.delivered && !c.uncertain
    && (if c.startedAt.None? then c.createdAt + CLAIM_TTL < now else c.startedAt.value + DISPATCH_TTL < now)
  }

  /** The request works under a claim it inserted. */
  predicate Holding(p: Phase) {
    match p
    case Claimed => true
    case Dispatching => true
    case AwaitingAck => true
    case Undelivered => true
    case Unacknowledged => true
    case Acknowledged => true
    case MarkFailed => true
    case Recording(_, basis) => basis == Own
    case Appending(_, basis) => basis == Own
    case _ => false
  }

  /** The request has not outlived its claim. */
  predicate InTime(q: Request, now: Time) {
    now <= (if q.startedAt.None? then q.claimedAt + CLAIM_TTL else q.startedAt.value + DISPATCH_TTL)
  }

  /** A request's phase becomes `p`. */
  function Move(s: Proto, r: Id, p: Phase): Proto
    requires r in s.requests
  {
    s.(requests := s.requests[r := s.requests[r].(phase := p)])
  }

  function MarkedDelivered(c: Option<Claim>): Option<Claim> {
    if c.Some? then Some(c.value.(delivered := true, uncertain := false)) else None
  }

  function MarkedUncertain(c: Option<Claim>): Option<Claim> {
    if c.Some? && !c.value.delivered then Some(c.value.(uncertain := true)) else c
  }

  /** The request a step belongs to. */
  function Actor(step: Step): Option<Id> {
    match step
    case Tick(_) => None
    case Arrive(_, _) => None
    case ConnectorReports(_) => None
    case _ => Some(step.r)
  }

  /** What a request does when it is its turn; a step that does not fit its phase does nothing. */
  function Act(s: Proto, step: Step, r: Id): Proto
    requires r in s.requests && Actor(step) == Some(r)
  {
    var q := s.requests[r];
    match step
    case ReadClaim(_, usable) =>
      if !q.phase.ReadingClaim? then s
      else if !Marked(s.claim) then Move(s, r, Validating)
      else if usable then Move(s, r, Recording(ResolutionOf(s.claim.value.response), Recovered))
      else Move(s, r, Refused)
    case Validate(_, valid, active) =>
      if !q.phase.Validating? then s
      else if !valid then Move(s, r, Refused)
      else if s.event.Some? then Move(s, r, Recording(ResolutionOf(q.response), Resolved))
      else if !active then Move(s, r, Refused)
      else Move(s, r, Sweeping)
    case Sweep(_) =>
      if !q.phase.Sweeping? then s
      else
        var swept := s.claim.Some? && Stale(s.claim.value, s.now) && s.event.None?;
        Move(if swept then s.(claim := None) else s, r, Inserting)
    case Insert(_) =>
      if !q.phase.Inserting? then s
      else if s.claim.Some? then Move(s, r, Contended)
      else
        s.(claim := Some(Claim(r, q.response, s.now, None, false, false)),
           requests := s.requests[r := q.(phase := Claimed, claimedAt := s.now, startedAt := None)])
    case Reread(_, usable) =>
      if !q.phase.Contended? then s
      else if Marked(s.claim) && usable
      then Move(s, r, Recording(ResolutionOf(s.claim.value.response), Recovered))
      else Move(s, r, Refused)
    case MarkStarted(_, ok) =>
      if !q.phase.Claimed? then s
      else if !ok then Move(s, r, Undelivered)
      else
        var claim := if s.claim.Some? && s.claim.value.startedAt.None?
                     then Some(s.claim.value.(startedAt := Some(s.now))) else s.claim;
        s.(claim := claim, requests := s.requests[r := q.(phase := Dispatching, startedAt := Some(s.now))])
    case Send(_) =>
      if !q.phase.Dispatching? then s
      else Move(s.(sent := s.sent + {q.response}), r, AwaitingAck)
    case Hear(_, outcome) =>
      if q.phase.Dispatching? then
        (match outcome
         case NotSent => Move(s, r, Undelivered)
         case Thrown => Move(s, r, Undelivered)
         case NoState => Move(s, r, Refused)
         case _ => s)
      else if q.phase.AwaitingAck? then
        (match outcome
         case Delivered => Move(s, r, Acknowledged)
         case Rejected => Move(s, r, Undelivered)
         case SentUnknown => Move(s, r, Unacknowledged)
         case NoState => Move(s, r, Refused)
         case Thrown => Move(s, r, Undelivered)
         case NotSent => s)
      else s
    case MarkUncertain(_, ok) =>
      if !q.phase.Unacknowledged? then s
      else if !ok then Move(s, r, Refused)
      else Move(s.(claim := MarkedUncertain(s.claim)), r, Recording(ResolutionOf(q.response), Own))
    case MarkDelivered(_, ok) =>
      if !q.phase.Acknowledged? then s
      else if !ok then Move(s, r, MarkFailed)
      else
        Move(s.(claim := MarkedDelivered(s.claim)), r, Recording(ResolutionOf(q.response), Own))
    case MarkFallback(_, ok) =>
      if !q.phase.MarkFailed? then s
      else
        Move(if ok then s.(claim := MarkedUncertain(s.claim)) else s, r, Recording(ResolutionOf(q.response), Own))
    case Find(_, ok) =>
      if !q.phase.Recording? then s
      else if !ok then Move(s, r, Refused)
      else if s.event.Some? then Move(s, r, Accepting(s.event.value))
      else Move(s, r, Appending(q.phase.resolution, q.phase.basis))
    case Append(_, ok) =>
      if !q.phase.Appending? then s
      else if !ok then Move(s, r, Refused)
      else if s.event.Some? then Move(s, r, Accepting(s.event.value))
      else
        var event := Event(Operator(r), q.phase.resolution);
        Move(s.(event := Some(event)), r, Accepting(event))
    case Release(_, ok) =>
      if !q.phase.Accepting? then s
      else Move(if ok then s.(claim := None) else s, r, Accepted(q.phase.event))
    case GiveBack(_, ok) =>
      if !q.phase.Undelivered? then s
      else Move(if ok then s.(claim := None) else s, r, Refused)
    case _ => s
  }

  function Apply(s: Proto, step: Step): Proto {
    match step
    case Tick(t) => if t > s.now then s.(now := t) else s
    case Arrive(r, response) =>
      if r in s.requests then s
      else s.(requests := s.requests[r := Request(response, ReadingClaim, 0, None)])
    case ConnectorReports(resolution) =>
      if s.event.None? then s.(event := Some(Event(Connector, resolution))) else s
    case _ => if step.r in s.requests then Act(s, step, step.r) else s
  }

  /** The one assumption: a request that works under a claim does not outlive that claim's TTL. */
  predicate Allowed(s: Proto, step: Step) {
    var r := Actor(step);
    r.Some? && r.value in s.requests && Holding(s.requests[r.value].phase) ==> InTime(s.requests[r.value], s.now)
  }

  predicate AllowedRun(s: Proto, steps: seq<Step>)
    decreases |steps|
  {
    steps == [] || (Allowed(s, steps[0]) && AllowedRun(Apply(s, steps[0]), steps[1..]))
  }

  function Run(s: Proto, steps: seq<Step>): Proto
    decreases |steps|
  {
    if steps == [] then s else Run(Apply(s, steps[0]), steps[1..])
  }

  const START := Proto(0, None, None, {}, map[])

  // ---------------------------------------------------------------------------------------------
  // The invariant

  /** The response has been handed to the connector. */
  predicate HasSent(p: Phase) {
    p.AwaitingAck? || p.Unacknowledged? || p.Acknowledged? || p.MarkFailed?
    || (p.Recording? && p.basis == Own) || (p.Appending? && p.basis == Own)
  }

  /** While no event exists, the claim is that of the one request working under it. */
  ghost predicate HoldsClaim(s: Proto, r: Id, q: Request) {
    Holding(q.phase) && InTime(q, s.now) && s.event.None? ==>
      && s.claim.Some?
      && s.claim.value.owner == r && s.claim.value.response == q.response
      && s.claim.value.createdAt == q.claimedAt && s.claim.value.startedAt == q.startedAt
      && (q.phase.Recording? || q.phase.Appending? || !Marked(s.claim))
      && (q.phase.Claimed? ==> q.startedAt.None?)
  }

  /** What a request is about to record is backed by a response that was sent, or by the event. */
  ghost predicate Justified(s: Proto, q: Request) {
    && (HasSent(q.phase) ==> q.response in s.sent)
    && (q.phase.Recording? || q.phase.Appending? ==>
          && (q.phase.basis == Own ==> q.phase.resolution == ResolutionOf(q.response))
          && (q.phase.basis == Recovered && s.event.None? ==>
                Marked(s.claim) && q.phase.resolution == ResolutionOf(s.claim.value.response))
          && (q.phase.basis == Resolved ==> s.event.Some?))
    && (q.phase.Accepting? || q.phase.Accepted? ==> s.event == Some(q.phase.event))
  }

  ghost predicate Coherent(s: Proto, r: Id, q: Request) {
    HoldsClaim(s, r, q) && Justified(s, q)
  }

  ghost predicate WasSent(s: Proto, resolution: Resolution) {
    exists response | response in s.sent :: ResolutionOf(response) == resolution
  }

  ghost predicate Inv(s: Proto) {
    && (forall r | r in s.requests :: Coherent(s, r, s.requests[r]))
    && (s.event.None? && Marked(s.claim) ==> s.claim.value.response in s.sent)
    && (s.event.Some? && s.event.value.writer.Operator? ==> WasSent(s, s.event.value.resolution))
  }

  lemma ActKeepsOthersHolding(s: Proto, step: Step, r: Id, other: Id)
    requires Inv(s) && r in s.requests && Actor(step) == Some(r) && Allowed(s, step)
    requires other in s.requests && other != r
    ensures HoldsClaim(Act(s, step, r), other, s.requests[other])
  {}

  lemma ActKeepsOthersJustified(s: Proto, step: Step, r: Id, other: Id)
    requires Inv(s) && r in s.requests && Actor(step) == Some(r) && Allowed(s, step)
    requires other in s.requests && other != r
    ensures Act(s, step, r).requests[other] == s.requests[other] && Justified(Act(s, step, r), s.requests[other])
  {
    assert Coherent(s, r, s.requests[r]) && Coherent(s, other, s.requests[other]);
  }

  lemma ActKeepsHolding(s: Proto, step: Step, r: Id)
    requires Inv(s) && r in s.requests && Actor(step) == Some(r) && Allowed(s, step)
    ensures HoldsClaim(Act(s, step, r), r, Act(s, step, r).requests[r])
  {
    assert Coherent(s, r, s.requests[r]);
  }

  lemma ActKeepsJustified(s: Proto, step: Step, r: Id)
    requires Inv(s) && r in s.requests && Actor(step) == Some(r) && Allowed(s, step)
    ensures Justified(Act(s, step, r), Act(s, step, r).requests[r])
  {
    assert Coherent(s, r, s.requests[r]);
  }

  lemma ActKeepsEvidence(s: Proto, step: Step, r: Id)
    requires Inv(s) && r in s.requests && Actor(step) == Some(r) && Allowed(s, step)
    ensures var s' := Act(s, step, r);
      && (s'.event.None? && Marked(s'.claim) ==> s'.claim.value.response in s'.sent)
      && (s'.event.Some? && s'.event.value.writer.Operator? ==> WasSent(s', s'.event.value.resolution))
  {}

  lemma ActKeepsInv(s: Proto, step: Step, r: Id)
    requires Inv(s) && r in s.requests && Actor(step) == Some(r) && Allowed(s, step)
    ensures Inv(Act(s, step, r))
  {
    forall other | other in Act(s, step, r).requests
      ensures Coherent(Act(s, step, r), other, Act(s, step, r).requests[other])
    {
      if other == r {
        ActKeepsHolding(s, step, r);
        ActKeepsJustified(s, step, r);
      } else {
        ActKeepsOthersHolding(s, step, r, other);
        ActKeepsOthersJustified(s, step, r, other);
      }
    }
    ActKeepsEvidence(s, step, r);
  }

  lemma StepKeepsInv(s: Proto, step: Step)
    requires Inv(s) && Allowed(s, step)
    ensures Inv(Apply(s, step))
  {
    if Actor(step).Some? && step.r in s.requests {
      ActKeepsInv(s, step, step.r);
    } else {
      var s' := Apply(s, step);
      forall other | other in s'.requests ensures Coherent(s', other, s'.requests[other]) {
        assert other in s.requests ==> Coherent(s, other, s.requests[other]);
      }
      assert s'.sent == s.sent;
    }
  }

  lemma {:induction false} RunKeepsInv(s: Proto, steps: seq<Step>)
    requires Inv(s) && AllowedRun(s, steps)
    ensures Inv(Run(s, steps))
    decreases |steps|
  {
    if steps != [] {
      StepKeepsInv(s, steps[0]);
      RunKeepsInv(Apply(s, steps[0]), steps[1..]);
    }
  }

  // ---------------------------------------------------------------------------------------------
  // Main results

  /** All requests that end accepted return the same event, and it is the one recorded.  If an operator
      request wrote it, it resolves the interaction as some response that was sent to the connector. */
  lemma AcceptedRequestsAgree(steps: seq<Step>, a: Id, b: Id)
    requires AllowedRun(START, steps)
    requires var s := Run(START, steps);
      a in s.requests && b in s.requests && s.requests[a].phase.Accepted? && s.requests[b].phase.Accepted?
    ensures var s := Run(START, steps);
      && s.requests[a].phase.event == s.requests[b].phase.event
      && s.event == Some(s.requests[a].phase.event)
      && (s.event.value.writer.Operator? ==>
            exists response | response in s.sent :: ResolutionOf(response) == s.event.value.resolution)
  {
    RunKeepsInv(START, steps);
    var s := Run(START, steps);
    assert Coherent(s, a, s.requests[a]) && Coherent(s, b, s.requests[b]);
  }

  /** The same claim, apart from its marks and times. */
  ghost predicate SameClaim(c: Option<Claim>, c': Option<Claim>) {
    c.Some? && c'.Some? && c'.value.owner == c.value.owner && c'.value.response == c.value.response
  }

  /** Until an event exists, no step removes a marked claim, replaces it, or sends another response. */
  lemma MarkedClaimStands(s: Proto, step: Step)
    requires Inv(s) && Allowed(s, step) && s.event.None? && Marked(s.claim)
    ensures var s' := Apply(s, step);
      && s'.sent == s.sent
      && (s'.event.None? ==> Marked(s'.claim) && SameClaim(s.claim, s'.claim))
      && (s'.event.Some? && s'.event.value.writer.Operator? ==>
            s'.event.value.resolution == ResolutionOf(s.claim.value.response))
  {
    if Actor(step).Some? && step.r in s.requests {
      assert Coherent(s, step.r, s.requests[step.r]);
    }
  }

  lemma StepKeepsEvent(s: Proto, step: Step)
    requires s.event.Some?
    ensures Apply(s, step).event == s.event
  {}

  lemma {:induction false} RunKeepsEvent(s: Proto, steps: seq<Step>)
    requires s.event.Some?
    ensures Run(s, steps).event == s.event
    decreases |steps|
  {
    if steps != [] {
      StepKeepsEvent(s, steps[0]);
      RunKeepsEvent(Apply(s, steps[0]), steps[1..]);
    }
  }

  /** Once a claim is marked, every later request, whatever it answers, can only record the claimed
      resolution, return the recorded event, or fail; and nothing more is sent until then. */
  lemma {:induction false} MarkedClaimDecides(s: Proto, steps: seq<Step>)
    requires Inv(s) && AllowedRun(s, steps) && s.event.None? && Marked(s.claim)
    ensures var s' := Run(s, steps);
      && (s'.event.Some? && s'.event.value.writer.Operator? ==>
            s'.event.value.resolution == ResolutionOf(s.claim.value.response))
      && (s'.event.None? ==> s'.sent == s.sent && Marked(s'.claim) && SameClaim(s.claim, s'.claim))
    decreases |steps|
  {
    if steps != [] {
      var next := Apply(s, steps[0]);
      MarkedClaimStands(s, steps[0]);
      StepKeepsInv(s, steps[0]);
      if next.event.Some? {
        RunKeepsEvent(next, steps[1..]);
      } else {
        MarkedClaimDecides(next, steps[1..]);
      }
    }
  }

  /** In a reachable state, a response goes out beside a marked claim only if the event is recorded. */
  lemma SendsBesideMarkedClaim(s: Proto, r: Id)
    requires Inv(s) && Allowed(s, Send(r)) && Marked(s.claim)
    requires r in s.requests && s.requests[r].phase.Dispatching?
    ensures s.event.Some?
  {}

  // ---------------------------------------------------------------------------------------------
  // How often a response can be sent before the event

  /** The step removes the claim: it is given back after its response did not arrive, or swept as stale. */
  predicate Removes(s: Proto, step: Step) {
    var r := Actor(step);
    && s.claim.Some? && r.Some? && r.value in s.requests
    && var phase := s.requests[r.value].phase;
       || (step.GiveBack? && step.ok && phase.Undelivered?)
       || (step.Sweep? && phase.Sweeping? && Stale(s.claim.value, s.now) && s.event.None?)
  }

  function Removals(s: Proto, steps: seq<Step>): nat
    decreases |steps|
  {
    if steps == [] then 0 else (if Removes(s, steps[0]) then 1 else 0) + Removals(Apply(s, steps[0]), steps[1..])
  }

  /** The responses sent, and the one that may be sent under the present claim. */
  function Sendable(s: Proto): set<Response> {
    s.sent + if s.claim.Some? then {s.claim.value.response} else {}
  }

  /** Without an event, a claim disappears only by such a step, and only the claimed response is sent. */
  lemma StepSends(s: Proto, step: Step)
    requires Inv(s) && Allowed(s, step) && Apply(s, step).event.None?
    ensures var s' := Apply(s, step);
      && (s.claim.Some? && s'.claim.None? <==> Removes(s, step))
      && Sendable(s') <= SendableWith(s, s'.claim)
  {
    if Actor(step).Some? && step.r in s.requests {
      ActRemoves(s, step, step.r);
      ActSends(s, step, step.r);
    }
  }

  /** What may be sent once a claim is inserted. */
  function SendableWith(s: Proto, claim: Option<Claim>): set<Response> {
    if s.claim.None? && claim.Some? then Sendable(s) + {claim.value.response} else Sendable(s)
  }

  lemma ActRemoves(s: Proto, step: Step, r: Id)
    requires Inv(s) && r in s.requests && Actor(step) == Some(r) && Allowed(s, step) && Act(s, step, r).event.None?
    ensures s.claim.Some? && Act(s, step, r).claim.None? <==> Removes(s, step)
  {}

  lemma ActSends(s: Proto, step: Step, r: Id)
    requires Inv(s) && r in s.requests && Actor(step) == Some(r) && Allowed(s, step) && Act(s, step, r).event.None?
    ensures Sendable(Act(s, step, r)) <= SendableWith(s, Act(s, step, r).claim)
  {}

  function Held(s: Proto): nat { if s.claim.Some? then 1 else 0 }

  /** While the interaction is not resolved, each response after the first needs the removal of a claim. */
  lemma {:induction false} ResponsesNeedRemovals(s: Proto, steps: seq<Step>)
    requires Inv(s) && AllowedRun(s, steps) && Run(s, steps).event.None?
    ensures |Sendable(Run(s, steps))| + Held(s) <= |Sendable(s)| + Held(Run(s, steps)) + Removals(s, steps)
    decreases |steps|
  {
    if steps != [] {
      var next := Apply(s, steps[0]);
      if next.event.Some? {
        RunKeepsEvent(next, steps[1..]);
      }
      StepSends(s, steps[0]);
      StepKeepsInv(s, steps[0]);
      ResponsesNeedRemovals(next, steps[1..]);
      if s.claim.None? && next.claim.Some? {
        SubsetSize(Sendable(next), Sendable(s) + {next.claim.value.response});
        SubsetSize(Sendable(s) + {next.claim.value.response}, Sendable(s) + {next.claim.value.response});
      } else {
        SubsetSize(Sendable(next), Sendable(s));
      }
    }
  }

  lemma {:induction false} SubsetSize<T>(a: set<T>, b: set<T>)
    requires a <= b
    ensures |a| <= |b|
  {
    if a != {} {
      var x :| x in a;
      SubsetSize(a - {x}, b - {x});
    }
  }

  /** Two different responses can only have been sent before the event if a claim was given back or went
      stale in between. */
  lemma SecondResponseNeedsRemoval(steps: seq<Step>)
    requires AllowedRun(START, steps) && Run(START, steps).event.None?
    ensures |Run(START, steps).sent| <= Removals(START, steps) + 1
  {
    ResponsesNeedRemovals(START, steps);
    SubsetSize(Run(START, steps).sent, Sendable(Run(START, steps)));
  }

  // ---------------------------------------------------------------------------------------------
  // Runs that show where the boundaries lie

  lemma {:induction false} RunThen(s: Proto, steps: seq<Step>, step: Step)
    ensures Run(s, steps + [step]) == Apply(Run(s, steps), step)
    ensures AllowedRun(s, steps + [step]) == (AllowedRun(s, steps) && Allowed(Run(s, steps), step))
    decreases |steps|
  {
    if steps == [] {
      assert [] + [step] == [step] && [step][1..] == [];
      assert Run(Apply(s, step), []) == Apply(s, step);
    } else {
      assert (steps + [step])[0] == steps[0] && (steps + [step])[1..] == steps[1..] + [step];
      RunThen(Apply(s, steps[0]), steps[1..], step);
    }
  }

  lemma {:induction false} RemovalsThen(s: Proto, steps: seq<Step>, step: Step)
    ensures Removals(s, steps + [step]) == Removals(s, steps) + if Removes(Run(s, steps), step) then 1 else 0
    decreases |steps|
  {
    if steps == [] {
      assert [] + [step] == [step] && [step][1..] == [];
      assert Removals(Apply(s, step), []) == 0;
    } else {
      assert (steps + [step])[0] == steps[0] && (steps + [step])[1..] == steps[1..] + [step];
      RemovalsThen(Apply(s, steps[0]), steps[1..], step);
    }
  }

  /** Extend a run by one step. */
  lemma Then(steps: seq<Step>, s: Proto, step: Step) returns (steps': seq<Step>, s': Proto)
    requires s == Run(START, steps)
    ensures s' == Apply(s, step) && s' == Run(START, steps')
    ensures Removals(START, steps') == Removals(START, steps) + if Removes(s, step) then 1 else 0
    ensures AllowedRun(START, steps') == (AllowedRun(START, steps) && Allowed(s, step))
  {
    RunThen(START, steps, step);
    RemovalsThen(START, steps, step);
    steps', s' := steps + [step], Apply(s, step);
  }

  /** Request `r` arrives with an answer and gets as far as inserting its claim, past a stale one. */
  lemma Approach(steps: seq<Step>, s: Proto, r: Id, response: Response) returns (steps': seq<Step>, s': Proto)
    requires s == Run(START, steps) && r !in s.requests && s.event.None? && !Marked(s.claim)
    ensures s' == Run(START, steps') && (AllowedRun(START, steps) ==> AllowedRun(START, steps'))
    ensures s' == s.(claim := if s.claim.Some? && Stale(s.claim.value, s.now) then None else s.claim,
                     requests := s.requests[r := Request(response, Inserting, 0, None)])
    ensures s.claim.None? ==> Removals(START, steps') == Removals(START, steps)
  {
    steps', s' := Then(steps, s, Arrive(r, response));
    steps', s' := Then(steps', s', ReadClaim(r, true));
    steps', s' := Then(steps', s', Validate(r, true, true));
    steps', s' := Then(steps', s', Sweep(r));
  }

  /** Request `r`, which inserted a claim, dispatches its response and marks the claim there is. */
  lemma Deliver(steps: seq<Step>, s: Proto, r: Id) returns (steps': seq<Step>, s': Proto)
    requires s == Run(START, steps) && r in s.requests && s.requests[r].phase.Claimed? && s.claim.Some?
    ensures s' == Run(START, steps')
    ensures AllowedRun(START, steps) && InTime(s.requests[r], s.now) ==> AllowedRun(START, steps')
    ensures var c, q := s.claim.value, s.requests[r];
      s' == s.(claim := Some(c.(startedAt := if c.startedAt.None? then Some(s.now) else c.startedAt,
                                delivered := true, uncertain := false)),
               sent := s.sent + {q.response},
               requests := s.requests[r := q.(startedAt := Some(s.now),
                 phase := Recording(ResolutionOf(q.response), Own))])
  {
    steps', s' := Then(steps, s, MarkStarted(r, true));
    steps', s' := Then(steps', s', Send(r));
    steps', s' := Then(steps', s', Hear(r, Delivered));
    steps', s' := Then(steps', s', MarkDelivered(r, true));
  }

  /** Request `r` sees that the interaction is resolved, returns the event and releases any claim. */
  lemma Confirm(steps: seq<Step>, s: Proto, r: Id, response: Response) returns (steps': seq<Step>, s': Proto)
    requires s == Run(START, steps) && AllowedRun(START, steps)
    requires r !in s.requests && s.event.Some? && !Marked(s.claim)
    ensures s' == Run(START, steps') && AllowedRun(START, steps')
    ensures s' == s.(claim := None, requests := s.requests[r := Request(response, Accepted(s.event.value), 0, None)])
  {
    steps', s' := Then(steps, s, Arrive(r, response));
    steps', s' := Then(steps', s', ReadClaim(r, true));
    steps', s' := Then(steps', s', Validate(r, true, true));
    steps', s' := Finish(steps', s', r);
    assert s'.requests == s.requests[r := Request(response, Accepted(s.event.value), 0, None)];
  }

  /** A request that records without a claim of its own runs to its end. */
  lemma Finish(steps: seq<Step>, s: Proto, r: Id) returns (steps': seq<Step>, s': Proto)
    requires s == Run(START, steps) && r in s.requests
    requires s.requests[r].phase.Recording? && s.requests[r].phase.basis != Own
    ensures s' == Run(START, steps') && (AllowedRun(START, steps) ==> AllowedRun(START, steps'))
    ensures var event := if s.event.Some? then s.event.value else Event(Operator(r), s.requests[r].phase.resolution);
      s' == s.(event := Some(event), claim := None,
        requests := s.requests[r := s.requests[r].(phase := Accepted(event))])
  {
    var s1: Proto;
    if s.event.Some? {
      steps', s1 := Then(steps, s, Find(r, true));
    } else {
      steps', s1 := AppendNew(steps, s, r);
    }
    steps', s' := Then(steps', s1, Release(r, true));
  }

  lemma AppendNew(steps: seq<Step>, s: Proto, r: Id) returns (steps': seq<Step>, s': Proto)
    requires s == Run(START, steps) && r in s.requests && s.event.None?
    requires s.requests[r].phase.Recording? && s.requests[r].phase.basis != Own
    ensures s' == Run(START, steps') && (AllowedRun(START, steps) ==> AllowedRun(START, steps'))
    ensures var event := Event(Operator(r), s.requests[r].phase.resolution);
      s' == s.(event := Some(event), requests := s.requests[r := s.requests[r].(phase := Accepting(event))])
  {
    steps', s' := Then(steps, s, Find(r, true));
    steps', s' := Then(steps', s', Append(r, true));
  }

  /** Once the event is recorded a second response can go out beside a marked claim: a request that
      checked before the event still holds a claim of its own that another request has since released.
      With `SendsBesideMarkedClaim`, the recorded event is exactly what makes this possible. */
  lemma SecondResponseAfterTheEvent() returns (steps: seq<Step>)
    ensures AllowedRun(START, steps)
    ensures var s := Run(START, steps);
      Marked(s.claim) && 2 in s.requests && s.requests[2].phase.Dispatching? && Allowed(s, Send(2))
  {
    var s: Proto;
    steps, s := ResolvedMeanwhile();
    steps, s := Confirm(steps, s, 4, Approval(2));
    steps, s := Then(steps, s, Insert(3));
    steps, s := Deliver(steps, s, 3);
  }

  /** Two requests have passed the checks, and one of them is about to dispatch, when the connector reports. */
  lemma ResolvedMeanwhile() returns (steps: seq<Step>, s: Proto)
    ensures s == Run(START, steps) && AllowedRun(START, steps)
    ensures s == Proto(0, Some(Claim(2, Approval(0), 0, Some(0), false, false)), Some(Event(Connector, Decided(0))), {},
      map[2 := Request(Approval(0), Dispatching, 0, Some(0)), 3 := Request(Approval(1), Inserting, 0, None)])
  {
    steps, s := BothApproach();
    steps, s := Then(steps, s, MarkStarted(2, true));
    steps, s := Then(steps, s, ConnectorReports(Decided(0)));
  }

  lemma BothApproach() returns (steps: seq<Step>, s: Proto)
    ensures s == Run(START, steps) && AllowedRun(START, steps)
    ensures s == Proto(0, Some(Claim(2, Approval(0), 0, None, false, false)), None, {},
      map[2 := Request(Approval(0), Claimed, 0, None), 3 := Request(Approval(1), Inserting, 0, None)])
  {
    steps, s := Approach([], START, 2, Approval(0));
    steps, s := Approach(steps, s, 3, Approval(1));
    steps, s := Then(steps, s, Insert(2));
  }

  /** Before the event, a dispatch that fails after the send, or is rejected, is enough for a second response. */
  lemma SecondResponseBeforeTheEvent(outcome: Outcome) returns (steps: seq<Step>)
    requires outcome.Thrown? || outcome.Rejected?
    ensures AllowedRun(START, steps)
    ensures var s := Run(START, steps);
      s.event.None? && s.sent == {Approval(0), Approval(1)} && Removals(START, steps) == 1
  {
    var s: Proto;
    steps, s := SendOnly([], START, 1, Approval(0));
    steps, s := GiveUp(steps, s, 1, outcome);
    steps, s := SendOnly(steps, s, 2, Approval(1));
  }

  /** Request `r` hears that its response did not arrive, or that the dispatch failed. */
  lemma GiveUp(steps: seq<Step>, s: Proto, r: Id, outcome: Outcome) returns (steps': seq<Step>, s': Proto)
    requires s == Run(START, steps) && r in s.requests && s.requests[r].phase.AwaitingAck? && s.claim.Some?
    requires outcome.Thrown? || outcome.Rejected?
    ensures s' == Run(START, steps') && s' == Move(s.(claim := None), r, Refused)
    ensures AllowedRun(START, steps) && InTime(s.requests[r], s.now) ==> AllowedRun(START, steps')
    ensures Removals(START, steps') == Removals(START, steps) + 1
  {
    steps', s' := Then(steps, s, Hear(r, outcome));
    steps', s' := Then(steps', s', GiveBack(r, true));
  }

  /** Request `r` claims the interaction and sends its response. */
  lemma SendOnly(steps: seq<Step>, s: Proto, r: Id, response: Response) returns (steps': seq<Step>, s': Proto)
    requires s == Run(START, steps) && r !in s.requests && s.event.None? && s.claim.None?
    ensures s' == Run(START, steps') && (AllowedRun(START, steps) ==> AllowedRun(START, steps'))
    ensures Removals(START, steps') == Removals(START, steps)
    ensures var claim := Claim(r, response, s.now, Some(s.now), false, false);
      s' == s.(claim := Some(claim), sent := s.sent + {response},
               requests := s.requests[r := Request(response, AwaitingAck, s.now, Some(s.now))])
  {
    steps', s' := Approach(steps, s, r, response);
    steps', s' := Then(steps', s', Insert(r));
    steps', s' := Then(steps', s', MarkStarted(r, true));
    steps', s' := Then(steps', s', Send(r));
  }

  /** The TTL assumption is needed: a request that outlives its claim marks its successor's claim as
      delivered, and a third request then records a resolution that was never sent. */
  lemma OutlivingTheClaimRecordsUnsent() returns (steps: seq<Step>)
    ensures var s := Run(START, steps);
      && 3 in s.requests && s.requests[3].phase.Accepted? && s.event == Some(Event(Operator(3), Decided(1)))
      && s.sent == {Approval(0)} && !WasSent(s, Decided(1))
  {
    var s: Proto;
    steps, s := Approach([], START, 1, Approval(0));
    steps, s := Then(steps, s, Insert(1));
    steps, s := Then(steps, s, Tick(60_001));
    steps, s := Approach(steps, s, 2, Approval(1));
    steps, s := Then(steps, s, Insert(2));
    steps, s := Deliver(steps, s, 1);
    steps, s := Recover(steps, s, 3, Approval(2));
  }

  /** Request `r` finds a marked claim, records the claimed resolution and is accepted. */
  lemma Recover(steps: seq<Step>, s: Proto, r: Id, response: Response) returns (steps': seq<Step>, s': Proto)
    requires s == Run(START, steps) && r !in s.requests && s.event.None? && Marked(s.claim)
    ensures s' == Run(START, steps') && s'.sent == s.sent
    ensures var event := Event(Operator(r), ResolutionOf(s.claim.value.response));
      s'.event == Some(event) && r in s'.requests && s'.requests[r].phase == Accepted(event)
  {
    steps', s' := Then(steps, s, Arrive(r, response));
    steps', s' := Then(steps', s', ReadClaim(r, true));
    steps', s' := Finish(steps', s', r);
  }

  // ---------------------------------------------------------------------------------------------
  // The request handler

  /** What the environment does to one request. */
  datatype Luck = Luck(
    usable: bool, valid: bool, active: bool, started: bool, sends: bool, outcome: Outcome,
    markedUncertain: bool, markedDelivered: bool, fallback: bool, found: bool, appended: bool, released: bool)

  /** The dispatch reports what fits whether the response left for the connector. */
  predicate Plausible(luck: Luck) {
    match luck.outcome
    case Delivered => luck.sends
    case Rejected => luck.sends
    case SentUnknown => luck.sends
    case NotSent => !luck.sends
    case NoState => true
    case Thrown => true
  }

  /** What the handler makes of the claim: a delivery is marked, at least as uncertain; a doubtful one is
      marked uncertain; a response that did not arrive gives the claim back; in doubt about the dispatch
      itself the claim stays. */
  function ClaimAfter(c: Option<Claim>, luck: Luck): Option<Claim> {
    match luck.outcome
    case Delivered => if luck.markedDelivered then MarkedDelivered(c) else if luck.fallback then MarkedUncertain(c)
      else c
    case SentUnknown => if luck.markedUncertain then MarkedUncertain(c) else c
    case NoState => c
    case _ => if luck.released then None else c
  }

  /** A response was delivered, or is marked as perhaps delivered. */
  predicate MayHaveArrived(luck: Luck) {
    luck.outcome.Delivered? || (luck.outcome.SentUnknown? && luck.markedUncertain)
  }

  /** There is no claim, or one that is not marked and older than its limit: a minute before the dispatch
      starts, five minutes after that. */
  predicate Vacant(c: Option<Claim>, now: Time) {
    match c
    case None => true
    case Some(Claim(_, _, createdAt, None, uncertain, delivered)) =>
      !uncertain && !delivered && createdAt + 60_000 < now
    case Some(Claim(_, _, _, Some(startedAt), uncertain, delivered)) =>
      !uncertain && !delivered && startedAt + 300_000 < now
  }

  /** The resolution tells decisions apart, and says how many questions were answered. */
  lemma ResolutionTells(a: Response, b: Response)
    ensures ResolutionOf(a).Decided? <==> a.Approval?
    ensures a.Approval? && b.Approval? ==> (ResolutionOf(a) == ResolutionOf(b) <==> a == b)
    ensures a.Approval? ==> ResolutionOf(a).decision == a.decision
    ensures a.Input? ==> ResolutionOf(a).count == |a.answers|
  {}

  function AfterDispatch(outcome: Outcome): Phase {
    match outcome
    case Delivered => Acknowledged
    case SentUnknown => Unacknowledged
    case NoState => Refused
    case _ => Undelivered
  }

  /** The handler's own view of the state: `trace` is the run that led to it. */
  class Service {
    var s: Proto
    ghost var trace: seq<Step>

    /** Some run of all requests, interleaved in any way, led here. */
    ghost predicate Valid()
      reads this
    {
      AllowedRun(START, trace) && s == Run(START, trace)
    }

    constructor ()
      ensures Valid() && s == START
    {
      s := START;
      trace := [];
    }

    method Do(step: Step)
      requires Valid() && Allowed(s, step)
      modifies this
      ensures Valid() && s == Apply(old(s), step)
    {
      RunThen(START, trace, step);
      trace := trace + [step];
      s := Apply(s, step);
    }

    /** Read, validate, sweep and claim.  `refused`: the handler answers with an error. */
    method Prepare(r: Id, luck: Luck) returns (refused: bool, alreadyDelivered: bool)
      requires Valid() && r in s.requests && s.requests[r].phase.ReadingClaim?
      modifies this
      ensures Valid() && s.sent == old(s.sent) && s.event == old(s.event) && s.now == old(s.now)
      ensures r in s.requests && s.requests[r].response == old(s.requests[r].response)
      ensures refused ==> s.requests[r].phase.Refused?
      ensures !refused && alreadyDelivered ==>
        s.requests[r].phase.Recording? && s.requests[r].phase.basis != Own
      ensures !refused && !alreadyDelivered ==>
        s.requests[r].phase.Claimed? && InTime(s.requests[r], s.now) && s.event.None?
      ensures old(Marked(s.claim)) && !refused ==>
        alreadyDelivered && s.requests[r].phase.resolution == ResolutionOf(old(s.claim.value.response))
      ensures !refused <==>
        if old(Marked(s.claim)) then luck.usable
        else luck.valid && (old(s.event.Some?) || (luck.active && Vacant(old(s.claim), s.now)))
      ensures !refused ==> (alreadyDelivered <==> old(Marked(s.claim)) || old(s.event.Some?))
    {
      Do(ReadClaim(r, luck.usable));
      if s.requests[r].phase.Validating? {
        Do(Validate(r, luck.valid, luck.active));
      }
      if s.requests[r].phase.Sweeping? {
        ClaimResolution(r, luck);
      }
      refused := s.requests[r].phase.Refused?;
      alreadyDelivered := s.requests[r].phase.Recording?;
    }

    /** Sweep a stale claim, insert one, and look again when there is one already. */
    method ClaimResolution(r: Id, luck: Luck)
      requires Valid() && r in s.requests && s.requests[r].phase.Sweeping? && s.event.None? && !Marked(s.claim)
      modifies this
      ensures Valid() && s.sent == old(s.sent) && s.event == old(s.event) && s.now == old(s.now)
      ensures r in s.requests && s.requests[r].response == old(s.requests[r].response)
      ensures s.requests[r].phase.Claimed? ==> InTime(s.requests[r], s.now)
      ensures if Vacant(old(s.claim), s.now) then s.requests[r].phase.Claimed? else s.requests[r].phase.Refused?
    {
      Do(Sweep(r));
      Do(Insert(r));
      if s.requests[r].phase.Contended? {
        Do(Reread(r, luck.usable));
      }
    }

    /** Dispatch the claimed response.  `connectorDelivered`: it was delivered, or may have been. */
    method Dispatch(r: Id, luck: Luck) returns (connectorDelivered: bool)
      requires Valid() && Plausible(luck)
      requires r in s.requests && s.requests[r].phase.Claimed? && InTime(s.requests[r], s.now)
      modifies this
      ensures Valid() && s.event == old(s.event) && r in s.requests
      ensures connectorDelivered ==>
        && s.requests[r].phase == Recording(ResolutionOf(old(s.requests[r].response)), Own)
        && InTime(s.requests[r], s.now) && old(s.requests[r].response) in s.sent
      ensures !connectorDelivered ==> s.requests[r].phase.Refused?
      ensures connectorDelivered <==> luck.started && MayHaveArrived(luck)
      ensures s.sent == old(s.sent) + if luck.started && luck.sends then {old(s.requests[r].response)} else {}
    {
      Do(MarkStarted(r, luck.started));
      if luck.started {
        SendAndHear(r, luck);
        connectorDelivered := React(r, luck);
      } else {
        Do(GiveBack(r, luck.released));
        connectorDelivered := false;
      }
    }

    /** Mark or release the claim, as the outcome of the dispatch requires. */
    method React(r: Id, luck: Luck) returns (connectorDelivered: bool)
      requires Valid() && r in s.requests && s.requests[r].phase == AfterDispatch(luck.outcome)
        && InTime(s.requests[r], s.now)
      modifies this
      ensures Valid() && s.event == old(s.event) && s.sent == old(s.sent) && r in s.requests
      ensures connectorDelivered ==>
        && s.requests[r].phase == Recording(ResolutionOf(old(s.requests[r].response)), Own)
        && InTime(s.requests[r], s.now)
      ensures !connectorDelivered ==> s.requests[r].phase.Refused?
      ensures connectorDelivered <==> MayHaveArrived(luck)
      ensures s.claim == ClaimAfter(old(s.claim), luck)
    {
      var confirmedConnectorDelivery := luck.outcome.Delivered?;
      if confirmedConnectorDelivery {
        connectorDelivered := true;
        MarkConfirmedBestEffort(r, luck);
      } else {
        connectorDelivered := ReactToError(r, luck);
      }
    }

    /** The dispatch did not confirm a delivery. */
    method ReactToError(r: Id, luck: Luck) returns (connectorDelivered: bool)
      requires Valid() && r in s.requests && s.requests[r].phase == AfterDispatch(luck.outcome)
        && InTime(s.requests[r], s.now) && !luck.outcome.Delivered?
      modifies this
      ensures Valid() && s.event == old(s.event) && s.sent == old(s.sent) && s.now == old(s.now) && r in s.requests
      ensures s.claim == ClaimAfter(old(s.claim), luck) && connectorDelivered == MayHaveArrived(luck)
      ensures s.requests[r] == old(s.requests[r]).(phase :=
        if connectorDelivered then Recording(ResolutionOf(old(s.requests[r].response)), Own) else Refused)
    {
      connectorDelivered := false;
      if luck.outcome.SentUnknown? {
        Do(MarkUncertain(r, luck.markedUncertain));
        connectorDelivered := luck.markedUncertain;
      } else if !luck.outcome.NoState? {
        Do(GiveBack(r, luck.released));
      }
    }

    method SendAndHear(r: Id, luck: Luck)
      requires Valid() && Plausible(luck)
      requires r in s.requests && s.requests[r].phase.Dispatching? && InTime(s.requests[r], s.now)
      modifies this
      ensures Valid() && s.event == old(s.event) && s.now == old(s.now)
      ensures s.sent == old(s.sent) + (if luck.sends then {old(s.requests[r].response)} else {})
      ensures r in s.requests && s.requests[r] == old(s.requests[r]).(phase := AfterDispatch(luck.outcome))
    {
      if luck.sends {
        Do(Send(r));
      }
      Do(Hear(r, luck.outcome));
    }

    method MarkConfirmedBestEffort(r: Id, luck: Luck)
      requires Valid() && r in s.requests && s.requests[r].phase.Acknowledged? && InTime(s.requests[r], s.now)
      modifies this
      ensures Valid() && s.event == old(s.event) && s.sent == old(s.sent) && s.now == old(s.now)
      ensures s.claim == ClaimAfter(old(s.claim), luck.(outcome := Delivered))
      ensures r in s.requests && s.requests[r] ==
        old(s.requests[r]).(phase := Recording(ResolutionOf(old(s.requests[r].response)), Own))
    {
      Do(MarkDelivered(r, luck.markedDelivered));
      if !luck.markedDelivered {
        Do(MarkFallback(r, luck.fallback));
      }
    }

    /** Return the recorded event, or record the resolution this request stands for. */
    method Record(r: Id, luck: Luck) returns (answer: Option<Event>)
      requires Valid() && r in s.requests && s.requests[r].phase.Recording?
      requires s.requests[r].phase.basis == Own ==> InTime(s.requests[r], s.now)
      modifies this
      ensures Valid() && r in s.requests && s.sent == old(s.sent)
      ensures answer.None? ==> s.requests[r].phase.Refused? && s.event == old(s.event)
      ensures answer.Some? ==> s.requests[r].phase == Accepted(answer.value) && s.event == answer
      ensures answer.Some? && old(s.event.Some?) ==> answer == old(s.event)
      ensures answer.Some? && old(s.event.None?) ==>
        answer.value == Event(Operator(r), old(s.requests[r].phase.resolution))
      ensures answer.Some? <==> luck.found && (old(s.event.Some?) || luck.appended)
    {
      FindOrAppend(r, luck);
      answer := None;
      if s.requests[r].phase.Accepting? {
        answer := Some(s.requests[r].phase.event);
        Do(Release(r, luck.released));
      }
    }

    method FindOrAppend(r: Id, luck: Luck)
      requires Valid() && r in s.requests && s.requests[r].phase.Recording?
      requires s.requests[r].phase.basis == Own ==> InTime(s.requests[r], s.now)
      modifies this
      ensures Valid() && r in s.requests && s.sent == old(s.sent)
      ensures s.requests[r].phase.Refused? || s.requests[r].phase.Accepting?
      ensures s.requests[r].phase.Refused? ==> s.event == old(s.event)
      ensures s.requests[r].phase.Accepting? <==> luck.found && (old(s.event.Some?) || luck.appended)
      ensures s.requests[r].phase.Accepting? ==>
        && s.event == Some(s.requests[r].phase.event)
        && s.event == if old(s.event.Some?) then old(s.event)
                      else Some(Event(Operator(r), old(s.requests[r].phase.resolution)))
    {
      Do(Find(r, luck.found));
      if s.requests[r].phase.Appending? {
        Do(Append(r, luck.appended));
      }
    }

    /** The POST handler, run to its end; other requests may be at any point of theirs. */
    method Resolve(r: Id, luck: Luck) returns (answer: Option<Event>)
      requires Valid() && Plausible(luck) && r in s.requests && s.requests[r].phase.ReadingClaim?
      modifies this
      ensures Valid() && r in s.requests
      ensures answer.Some? ==> s.requests[r].phase == Accepted(answer.value) && s.event == answer
      ensures answer.None? ==> s.requests[r].phase.Refused? && s.event == old(s.event)
      // the event is there already
      ensures old(s.event.Some?) ==>
        && (answer.Some? <==> luck.found && if old(Marked(s.claim)) then luck.usable else luck.valid)
        && (answer.Some? ==> answer == old(s.event)) && s.sent == old(s.sent)
      // a delivery is marked: the claimed resolution is recorded, and nothing is sent
      ensures old(s.event.None?) && old(Marked(s.claim)) ==>
        && (answer.Some? <==> luck.usable && luck.found && luck.appended) && s.sent == old(s.sent)
        && (answer.Some? ==> answer.value == Event(Operator(r), ResolutionOf(old(s.claim.value.response))))
      // the request claims the interaction: its own response is sent and recorded
      ensures old(s.event.None?) && !old(Marked(s.claim)) && Vacant(old(s.claim), old(s.now)) ==>
        var claims := luck.valid && luck.active;
        && (answer.Some? <==> claims && luck.started && MayHaveArrived(luck) && luck.found && luck.appended)
        && s.sent == old(s.sent) + (if claims && luck.started && luck.sends then {old(s.requests[r].response)} else {})
        && (answer.Some? ==> answer.value == Event(Operator(r), ResolutionOf(old(s.requests[r].response))))
      // another request is at work
      ensures old(s.event.None?) && !old(Marked(s.claim)) && !Vacant(old(s.claim), old(s.now)) ==>
        answer.None? && s.sent == old(s.sent)
    {
      var refused, connectorDelivered := Prepare(r, luck);
      if refused {
        return None;
      }
      if !connectorDelivered {
        connectorDelivered := Dispatch(r, luck);
        if !connectorDelivered {
          return None;
        }
      }
      answer := Record(r, luck);
    }
  }
}
