/** The lifecycle of one admitted operation and the cancellation that runs beside it. */
module Lifecycle {
  import opened Basics
  import opened Command

  datatype Actor = WATCHDOG | FETCHER | COACH
  datatype Stage =
    | QUEUED | WAITING_HOST | WAITING_FETCHER | CLAIMED | EXECUTING | WAITING_RESULT
    | RETURNING | AWAITING_CONSUMPTION | RECYCLING | READY
  datatype Execution = NotStarted | Claimed | Running | Unsure | Ended(how: Ending)
  datatype Publication = NONE | PENDING | CONFIRMED
  datatype Consumption = NOT_READY | AWAITED | ACKNOWLEDGED
  datatype Wait = NOTHING | HOST | FETCHER_WAIT | EXECUTION | EXECUTION_UNKNOWN | PUBLICATION | RESULT_ACK | RECYCLE

  datatype CancelState = REQUESTED | CANCEL_ACKNOWLEDGED | SIGNALLED | ALREADY_FINISHED | CANCEL_UNKNOWN
  datatype Cancellation = Cancellation(binding: Binding, id: nat, requestedAt: int, state: CancelState)

  datatype Ack = Ack(binding: Binding, result: Facts, consumedAt: int)

  datatype Life = Life(
    revision: nat, binding: Binding, execution: Execution, publication: Publication, consumption: Consumption,
    stage: Stage, responsible: Actor, stageAt: int, lastProgressAt: int, waitReason: Wait,
    nextCheckAt: Option<int>, deadlineAt: Option<int>, terminal: bool, resultSha: Option<Facts>,
    result: Option<Verdict>, cancellation: Option<Cancellation>, consumed: bool)

  function Initial(r: Request): Life {
    Life(0, BindingOf(r), NotStarted, Publication.NONE, NOT_READY, QUEUED, WATCHDOG, r.givenAt, r.givenAt, FETCHER_WAIT,
         Some(r.givenAt), Some(r.claimDeadline), false, None, None, None, false)
  }

  datatype Kind =
    | WaitHost | WaitFetcher | Claim | Start | Expire | Withdraw | LoseTrack | Result | Publish | PublishExpiry
    | Acknowledge | Recycle

  function Writer(k: Kind): Actor {
    match k
    case WaitHost | WaitFetcher | Expire | Withdraw | LoseTrack | PublishExpiry | Recycle => WATCHDOG
    case Claim | Start | Result | Publish => FETCHER
    case Acknowledge => COACH
  }

  predicate Waiting(s: Stage) { s.QUEUED? || s.WAITING_HOST? || s.WAITING_FETCHER? }

  predicate Allowed(k: Kind, s: Stage) {
    match k
    case WaitHost | WaitFetcher | Claim | Expire | Withdraw => Waiting(s)
    case Start => s.CLAIMED?
    case LoseTrack => s.CLAIMED? || s.EXECUTING?
    case Result => s.CLAIMED? || s.EXECUTING? || s.WAITING_RESULT?
    case Publish | PublishExpiry => s.RETURNING?
    case Acknowledge => s.AWAITING_CONSUMPTION?
    case Recycle => s.RECYCLING?
  }

  /** What an event carries besides its kind. */
  datatype Event = Event(kind: Kind, actor: Actor, now: int, verdict: Option<Verdict>, ack: Option<Ack>, readback: Option<Facts>)

  /** An event is refused with a reason, declined without one, or applied. */
  datatype Answer = Refused(reason: Reason) | Declined | Applied

  function Unexecuted(r: Request, k: Kind): Verdict {
    var f := Facts(BindingOf(r), if k.Withdraw? then CANCELLED else FAILED, NOT_EXECUTED, None, false, Effects.NONE,
                   if k.Withdraw? then WITHDRAWN else CLAIM_EXPIRED);
    Verdict(f, f)
  }

  /** The checks of one event kind, in the program's order; `Applied` lets it proceed. */
  function Checked(r: Request, s: Life, e: Event): Answer {
    match e.kind
    case WaitHost | WaitFetcher => Applied
    case Claim => if e.now >= r.claimDeadline || s.cancellation.Some? then Declined else Applied
    case Start => if s.deadlineAt.Some? && e.now >= s.deadlineAt.value then Declined else Applied
    case Expire => if e.now < r.claimDeadline then Declined else Applied
    case Withdraw => if s.cancellation.None? then Refused(CANCEL_REQUIRED) else Applied
    case LoseTrack => Applied
    case Result =>
      if e.verdict.None? then Refused(SCHEMA)
      else
        (match ResultFault(e.verdict.value, s.binding)
         case Some(reason) => Refused(reason)
         case None => if e.verdict.value.facts.execution.NOT_EXECUTED? then Refused(RESULT_SEMANTICS) else Applied)
    case Publish | PublishExpiry =>
      if e.kind.PublishExpiry? != (s.execution == Ended(NOT_EXECUTED)) then Refused(TRANSITION)
      else if e.readback.None? || e.readback != s.resultSha then Refused(PUBLICATION_UNCONFIRMED)
      else Applied
    case Acknowledge =>
      if e.ack.None? || !Clock(e.ack.value.consumedAt) then Refused(SCHEMA)
      else if e.ack.value.binding != s.binding || Some(e.ack.value.result) != s.resultSha then Refused(ACK_MISMATCH)
      else if !(s.stageAt <= e.ack.value.consumedAt <= e.now) then Refused(TIME_RANGE)
      else Applied
    case Recycle => if !s.consumption.ACKNOWLEDGED? || !s.publication.CONFIRMED? then Refused(UNCONSUMED) else Applied
  }

  function Changed(r: Request, s: Life, e: Event): Life {
    match e.kind
    case WaitHost => s.(stage := WAITING_HOST, waitReason := HOST)
    case WaitFetcher => s.(stage := WAITING_FETCHER, waitReason := FETCHER_WAIT)
    case Claim => s.(execution := Claimed, stage := CLAIMED, responsible := FETCHER, waitReason := EXECUTION,
                     deadlineAt := Some(e.now + r.runLimit))
    case Start => s.(execution := Running, stage := EXECUTING, waitReason := EXECUTION, deadlineAt := Some(e.now + r.runLimit))
    case Expire | Withdraw =>
      var v := Unexecuted(r, e.kind);
      s.(execution := Ended(NOT_EXECUTED), result := Some(v), resultSha := Some(v.sha), publication := PENDING,
         stage := RETURNING, waitReason := PUBLICATION, deadlineAt := None)
    case LoseTrack => s.(execution := Unsure, stage := WAITING_RESULT, waitReason := EXECUTION_UNKNOWN, deadlineAt := None)
    case Result =>
      if e.verdict.None? then s
      else s.(execution := Ended(e.verdict.value.facts.execution), result := e.verdict,
              resultSha := Some(e.verdict.value.sha), publication := PENDING, stage := RETURNING,
              responsible := FETCHER, waitReason := PUBLICATION, deadlineAt := None)
    case Publish | PublishExpiry =>
      s.(publication := CONFIRMED, consumption := AWAITED, terminal := true, stage := AWAITING_CONSUMPTION,
         responsible := COACH, waitReason := RESULT_ACK, deadlineAt := None)
    case Acknowledge =>
      s.(consumption := ACKNOWLEDGED, stage := RECYCLING, responsible := WATCHDOG, waitReason := RECYCLE)
    case Recycle => s.(consumed := true, stage := READY, waitReason := NOTHING, result := None, cancellation := None)
  }

  function Stamped(s: Life, now: int): Life {
    s.(revision := s.revision + 1, stageAt := now, lastProgressAt := now,
       nextCheckAt := if s.stage.READY? then None else Some(if now + 5 <= MAX_TIME then now + 5 else MAX_TIME))
  }

  /** The answer to an event seen against the present state, and the state after it. */
  function Step(r: Request, s: Life, e: Event): (Answer, Life) {
    if !Clock(e.now) then (Refused(TIME_RANGE), s)
    else if e.actor != Writer(e.kind) || !Allowed(e.kind, s.stage) then (Refused(TRANSITION), s)
    else if e.now < s.lastProgressAt then (Refused(TIME_RANGE), s)
    else
      var checked := Checked(r, s, e);
      if checked != Applied then (checked, s)
      else
        var next := Stamped(Changed(r, s, e), e.now);
        if next.deadlineAt.Some? && !Clock(next.deadlineAt.value) then (Refused(SCHEMA), s) else (Applied, next)
  }

  // ---- Cancellation ------------------------------------------------------------------------------

  predicate Edge(a: CancelState, b: CancelState) {
    match a
    case REQUESTED => b.CANCEL_ACKNOWLEDGED? || b.ALREADY_FINISHED? || b.CANCEL_UNKNOWN?
    case CANCEL_ACKNOWLEDGED => b.SIGNALLED? || b.ALREADY_FINISHED? || b.CANCEL_UNKNOWN?
    case SIGNALLED => b.ALREADY_FINISHED? || b.CANCEL_UNKNOWN?
    case CANCEL_UNKNOWN => b.CANCEL_ACKNOWLEDGED? || b.ALREADY_FINISHED?
    case ALREADY_FINISHED => false
  }

  predicate SameIdentity(a: Cancellation, b: Cancellation) {
    a.binding == b.binding && a.id == b.id && a.requestedAt == b.requestedAt
  }

  function CancelAnswer(s: Life, q: Cancellation, actor: Actor): Answer {
    var p := s.cancellation;
    if actor.WATCHDOG? then Refused(CANCEL_ACTOR)
    else if q.binding != s.binding then Declined
    else if s.stage.READY? then Refused(CANCEL_FINISHED)
    else if p == Some(q) then Applied
    else if p.Some? && !SameIdentity(p.value, q) then Refused(CANCEL_IDENTITY)
    else if actor.COACH? then
      if !q.state.REQUESTED? then Refused(CANCEL_ACTOR) else if p.Some? then Refused(CANCEL_TRANSITION) else Applied
    else if p.None? then Refused(CANCEL_ACTOR)
    else if !Edge(p.value.state, q.state) then Refused(CANCEL_TRANSITION)
    else if q.state.SIGNALLED? && !(s.execution.Claimed? || s.execution.Running? || s.execution.Unsure?) then Refused(CANCEL_TRANSITION)
    else if q.state.ALREADY_FINISHED? && !s.execution.Ended? then Refused(CANCEL_TRANSITION)
    else Applied
  }

  function CancelStep(s: Life, q: Cancellation, actor: Actor): (Answer, Life) {
    var a := CancelAnswer(s, q, actor);
    (a, if a.Applied? && s.cancellation != Some(q) then s.(cancellation := Some(q), revision := s.revision + 1) else s)
  }

  // ---- The joint invariant -----------------------------------------------------------------------

  /** The stage fixes every other axis. */
  predicate Axes(s: Life) {
    match s.stage
    case QUEUED | WAITING_HOST | WAITING_FETCHER =>
      s.execution.NotStarted? && s.publication.NONE? && s.consumption.NOT_READY? && !s.terminal && s.responsible.WATCHDOG?
    case CLAIMED =>
      s.execution.Claimed? && s.publication.NONE? && s.consumption.NOT_READY? && !s.terminal && s.responsible.FETCHER?
    case EXECUTING =>
      s.execution.Running? && s.publication.NONE? && s.consumption.NOT_READY? && !s.terminal && s.responsible.FETCHER?
    case WAITING_RESULT =>
      s.execution.Unsure? && s.publication.NONE? && s.consumption.NOT_READY? && !s.terminal && s.responsible.FETCHER?
    case RETURNING =>
      s.execution.Ended? && s.publication.PENDING? && s.consumption.NOT_READY? && !s.terminal
      && s.responsible == if s.execution.how.NOT_EXECUTED? then WATCHDOG else FETCHER
    case AWAITING_CONSUMPTION =>
      s.execution.Ended? && s.publication.CONFIRMED? && s.consumption.AWAITED? && s.terminal && s.responsible.COACH?
    case RECYCLING =>
      s.execution.Ended? && s.publication.CONFIRMED? && s.consumption.ACKNOWLEDGED? && s.terminal && s.responsible.WATCHDOG?
    case READY =>
      s.execution.Ended? && s.publication.CONFIRMED? && s.consumption.ACKNOWLEDGED? && s.terminal && s.responsible.WATCHDOG?
  }

  /** A result exists exactly from RETURNING to RECYCLING, its digest from RETURNING on, and
      it is a coherent result of this binding that says how execution ended. */
  predicate Results(s: Life) {
    && (s.execution.Ended? <==> s.resultSha.Some?)
    && (s.resultSha.Some? ==> s.resultSha.value.binding == s.binding && Coherent(s.resultSha.value)
                              && s.resultSha.value.execution == s.execution.how)
    && (s.result.Some? <==> s.execution.Ended? && !s.stage.READY?)
    && (s.result.Some? ==> s.result.value.facts == s.result.value.sha == s.resultSha.value)
  }

  predicate Times(r: Request, s: Life) {
    && Clock(s.lastProgressAt) && s.stageAt == s.lastProgressAt && Clock(r.claimDeadline)
    && (s.deadlineAt.Some? <==> Waiting(s.stage) || s.stage.CLAIMED? || s.stage.EXECUTING?)
    && (s.deadlineAt.Some? ==> Clock(s.deadlineAt.value))
  }

  predicate CancelOk(s: Life) {
    && (s.cancellation.Some? ==> s.cancellation.value.binding == s.binding)
    && (s.cancellation.Some? && s.cancellation.value.state.ALREADY_FINISHED? ==> s.execution.Ended?)
    && (s.consumed <==> s.stage.READY?) && (s.stage.READY? ==> s.cancellation.None?)
  }

  predicate LifeOk(r: Request, s: Life) {
    s.binding == BindingOf(r) && Axes(s) && Results(s) && Times(r, s) && CancelOk(s)
  }

  lemma InitialOk(r: Request)
    requires WellShaped(r)
    ensures LifeOk(r, Initial(r))
  {}

  predicate Accepted(r: Request, s: Life, e: Event) {
    && Clock(e.now) && e.actor == Writer(e.kind) && Allowed(e.kind, s.stage) && s.lastProgressAt <= e.now
    && Checked(r, s, e).Applied?
    && var next := Changed(r, s, e); (next.deadlineAt.Some? ==> Clock(next.deadlineAt.value))
  }

  lemma StepIs(r: Request, s: Life, e: Event)
    ensures Step(r, s, e).0.Applied? <==> Accepted(r, s, e)
    ensures Step(r, s, e).1 == if Accepted(r, s, e) then Stamped(Changed(r, s, e), e.now) else s
  {}

  predicate Early(k: Kind) { k.WaitHost? || k.WaitFetcher? || k.Claim? || k.Start? || k.LoseTrack? }

  lemma EarlyOk(r: Request, s: Life, e: Event)
    requires LifeOk(r, s) && Accepted(r, s, e) && Early(e.kind)
    ensures LifeOk(r, Stamped(Changed(r, s, e), e.now))
  {}

  lemma EndingOk(r: Request, s: Life, e: Event)
    requires LifeOk(r, s) && Accepted(r, s, e) && (e.kind.Expire? || e.kind.Withdraw? || e.kind.Result?)
    ensures LifeOk(r, Stamped(Changed(r, s, e), e.now))
  {}

  lemma ClosingOk(r: Request, s: Life, e: Event)
    requires LifeOk(r, s) && Accepted(r, s, e)
    requires e.kind.Publish? || e.kind.PublishExpiry? || e.kind.Acknowledge? || e.kind.Recycle?
    ensures LifeOk(r, Stamped(Changed(r, s, e), e.now))
  {}

  lemma StepOk(r: Request, s: Life, e: Event)
    requires LifeOk(r, s)
    ensures LifeOk(r, Step(r, s, e).1)
  {
    StepIs(r, s, e);
    if Accepted(r, s, e) {
      if Early(e.kind) {
        EarlyOk(r, s, e);
      } else if e.kind.Expire? || e.kind.Withdraw? || e.kind.Result? {
        EndingOk(r, s, e);
      } else {
        ClosingOk(r, s, e);
      }
    }
  }

  lemma CancelStepOk(r: Request, s: Life, q: Cancellation, actor: Actor)
    requires LifeOk(r, s)
    ensures LifeOk(r, CancelStep(s, q, actor).1)
  {}

  // ---- Runs ----------------------------------------------------------------------------------------

  datatype Move = Does(event: Event) | Cancels(request: Cancellation, actor: Actor)

  function After(r: Request, s: Life, m: Move): Life {
    match m
    case Does(e) => Step(r, s, e).1
    case Cancels(q, actor) => CancelStep(s, q, actor).1
  }

  function Run(r: Request, s: Life, moves: seq<Move>): Life
    decreases |moves|
  {
    if moves == [] then s else Run(r, After(r, s, moves[0]), moves[1..])
  }

  /** How far a stage still is from READY; zero before a claim or an expiry decides. */
  function Rank(s: Stage): nat {
    match s
    case QUEUED | WAITING_HOST | WAITING_FETCHER => 7
    case CLAIMED => 6 case EXECUTING => 5 case WAITING_RESULT => 4 case RETURNING => 3
    case AWAITING_CONSUMPTION => 2 case RECYCLING => 1 case READY => 0
  }

  /** How many events of a run were applied. */
  function Applications(r: Request, s: Life, moves: seq<Move>): nat
    decreases |moves|
  {
    if moves == [] then 0
    else (if moves[0].Does? && Step(r, s, moves[0].event).0.Applied? then 1 else 0)
         + Applications(r, After(r, s, moves[0]), moves[1..])
  }

  /** What no later move undoes, once `s` has it. */
  predicate Persists(s: Life, t: Life) {
    && t.binding == s.binding && s.revision <= t.revision && s.lastProgressAt <= t.lastProgressAt
    && (s.resultSha.Some? ==> t.resultSha == s.resultSha && t.execution == s.execution)
    && (s.publication.CONFIRMED? ==> t.publication.CONFIRMED?)
    && (s.consumption.ACKNOWLEDGED? ==> t.consumption.ACKNOWLEDGED?)
    && (!Waiting(s.stage) ==> !Waiting(t.stage))
    && Rank(t.stage) <= Rank(s.stage)
    && (s.cancellation.Some? && !t.stage.READY? ==>
          t.cancellation.Some? && SameIdentity(s.cancellation.value, t.cancellation.value))
    && (s.cancellation.Some? && s.cancellation.value.state.ALREADY_FINISHED? && !t.stage.READY? ==>
          t.cancellation == s.cancellation)
    && (s.stage.READY? ==> t == s)
  }

  lemma StepPersists(r: Request, s: Life, e: Event)
    requires LifeOk(r, s) && Accepted(r, s, e)
    ensures Persists(s, Stamped(Changed(r, s, e), e.now))
    ensures !Waiting(s.stage) ==> Rank(Changed(r, s, e).stage) < Rank(s.stage)
  {}

  lemma MovePersists(r: Request, s: Life, m: Move)
    requires LifeOk(r, s)
    ensures LifeOk(r, After(r, s, m)) && Persists(s, After(r, s, m))
    ensures m.Does? && Step(r, s, m.event).0.Applied? && !Waiting(s.stage) ==> Rank(After(r, s, m).stage) < Rank(s.stage)
    ensures m.Cancels? || !Step(r, s, m.event).0.Applied? ==> After(r, s, m).stage == s.stage
    ensures After(r, s, m) == s || After(r, s, m).revision == s.revision + 1
  {
    match m
    case Does(e) =>
      StepOk(r, s, e);
      StepIs(r, s, e);
      if Accepted(r, s, e) { StepPersists(r, s, e); }
    case Cancels(q, actor) => CancelStepOk(r, s, q, actor);
  }

  /** Every run keeps the joint invariant and what was decided; after the waiting stages at most
      `Rank` more events apply, whatever cancellation does. */
  lemma {:induction false} RunPersists(r: Request, s: Life, moves: seq<Move>)
    requires LifeOk(r, s)
    ensures LifeOk(r, Run(r, s, moves)) && Persists(s, Run(r, s, moves))
    ensures !Waiting(s.stage) ==> Applications(r, s, moves) <= Rank(s.stage)
    ensures !Waiting(s.stage) ==> Applications(r, s, moves) + Rank(Run(r, s, moves).stage) <= Rank(s.stage)
    decreases |moves|
  {
    if moves != [] {
      MovePersists(r, s, moves[0]);
      RunPersists(r, After(r, s, moves[0]), moves[1..]);
    }
  }

  // ---- Claim against expiry --------------------------------------------------------------------------

  predicate Applies(r: Request, s: Life, m: Move, k: Kind) {
    m.Does? && m.event.kind == k && Step(r, s, m.event).0.Applied?
  }

  /** The times at which events of one kind were applied. */
  function TimesOf(r: Request, s: Life, moves: seq<Move>, k: Kind): seq<int>
    decreases |moves|
  {
    if moves == [] then []
    else (if Applies(r, s, moves[0], k) then [moves[0].event.now] else [])
         + TimesOf(r, After(r, s, moves[0]), moves[1..], k)
  }

  /** In every run at most one of claim, expiry and withdrawal ever applies; a claim is before
      the deadline and never after a cancellation was recorded; an expiry is not before it. */
  lemma {:induction false} OneDecision(r: Request, s: Life, moves: seq<Move>)
    requires LifeOk(r, s)
    ensures |TimesOf(r, s, moves, Claim)| + |TimesOf(r, s, moves, Expire)| + |TimesOf(r, s, moves, Withdraw)|
      <= if Waiting(s.stage) then 1 else 0
    ensures forall x | x in TimesOf(r, s, moves, Claim) :: x < r.claimDeadline
    ensures forall x | x in TimesOf(r, s, moves, Expire) :: r.claimDeadline <= x
    ensures s.cancellation.Some? ==> TimesOf(r, s, moves, Claim) == []
    decreases |moves|
  {
    if moves != [] {
      MovePersists(r, s, moves[0]);
      OneDecision(r, After(r, s, moves[0]), moves[1..]);
      Decides(r, s, moves[0]);
    }
  }

  lemma Decides(r: Request, s: Life, m: Move)
    requires LifeOk(r, s)
    ensures Applies(r, s, m, Claim) || Applies(r, s, m, Expire) || Applies(r, s, m, Withdraw) ==>
      Waiting(s.stage) && !Waiting(After(r, s, m).stage)
    ensures Applies(r, s, m, Claim) ==> m.event.now < r.claimDeadline && s.cancellation.None?
    ensures Applies(r, s, m, Expire) ==> r.claimDeadline <= m.event.now
  {}

  // ---- Progress --------------------------------------------------------------------------------------

  /** An event that moves the operation on: from a claim onward it is for the responsible actor. */
  function Onward(r: Request, s: Life): Event {
    var now := s.lastProgressAt;
    var late := if now < r.claimDeadline then r.claimDeadline else now;
    var f := Facts(s.binding, Outcome.DONE, EXITED, Some(0), false, Effects.NONE, EXIT_ZERO);
    match s.stage
    case QUEUED | WAITING_HOST | WAITING_FETCHER => Event(Expire, WATCHDOG, late, None, None, None)
    case CLAIMED | EXECUTING | WAITING_RESULT => Event(Result, FETCHER, now, Some(Verdict(f, f)), None, None)
    case RETURNING =>
      if s.execution == Ended(NOT_EXECUTED) then Event(PublishExpiry, WATCHDOG, now, None, None, s.resultSha)
      else Event(Publish, FETCHER, now, None, None, s.resultSha)
    case AWAITING_CONSUMPTION =>
      Event(Acknowledge, COACH, now, None,
            if s.resultSha.Some? then Some(Ack(s.binding, s.resultSha.value, now)) else None, None)
    case RECYCLING | READY => Event(Recycle, WATCHDOG, now, None, None, None)
  }

  lemma OnwardApplies(r: Request, s: Life)
    requires LifeOk(r, s) && !s.stage.READY?
    ensures Step(r, s, Onward(r, s)).0.Applied?
    ensures !Waiting(s.stage) ==> Onward(r, s).actor == s.responsible
    ensures Rank(Step(r, s, Onward(r, s)).1.stage) < Rank(s.stage)
  {}

  /** No reachable state is stuck: suitable events lead it to READY. */
  lemma {:induction false} ReachesReady(r: Request, s: Life) returns (moves: seq<Move>)
    requires LifeOk(r, s)
    ensures Run(r, s, moves).stage.READY? && |moves| <= Rank(s.stage)
    decreases Rank(s.stage)
  {
    if s.stage.READY? {
      moves := [];
    } else {
      OnwardApplies(r, s);
      var m := Does(Onward(r, s));
      MovePersists(r, s, m);
      var rest := ReachesReady(r, After(r, s, m));
      moves := [m] + rest;
    }
  }

  // ---- The model as the program writes it --------------------------------------------------------------

  class LifecycleModel {
    const request: Request
    var state: Life

    constructor (r: Request)
      ensures request == r && state == Initial(r)
    {
      request, state := r, Initial(r);
    }

    /** One event against the state its sender observed. */
    method Apply(observed: Life, e: Event) returns (answer: Answer)
      modifies this
      ensures Clock(e.now) && observed == old(state) ==> (answer, state) == Step(request, old(state), e)
      ensures !Clock(e.now) ==> answer == Refused(TIME_RANGE) && state == old(state)
      ensures Clock(e.now) && observed != old(state) ==> answer == Declined && state == old(state)
    {
      if !Clock(e.now) { return Refused(TIME_RANGE); }
      if observed != state { return Declined; }
      if e.actor != Writer(e.kind) || !Allowed(e.kind, state.stage) { return Refused(TRANSITION); }
      if e.now < state.lastProgressAt { return Refused(TIME_RANGE); }
      var checked := Checked(request, state, e);
      if checked != Applied { return checked; }
      var next := state;
      if e.kind.WaitHost? || e.kind.WaitFetcher? {
        next := next.(stage := if e.kind.WaitHost? then WAITING_HOST else WAITING_FETCHER,
                      waitReason := if e.kind.WaitHost? then HOST else FETCHER_WAIT);
      } else if e.kind.Claim? {
        next := next.(execution := Claimed, stage := CLAIMED, responsible := FETCHER, waitReason := EXECUTION,
                      deadlineAt := Some(e.now + request.runLimit));
      } else if e.kind.Start? {
        next := next.(execution := Running, stage := EXECUTING, waitReason := EXECUTION,
                      deadlineAt := Some(e.now + request.runLimit));
      } else if e.kind.Expire? || e.kind.Withdraw? {
        var v := Unexecuted(request, e.kind);
        next := next.(execution := Ended(NOT_EXECUTED), result := Some(v), resultSha := Some(v.sha),
                      publication := PENDING, stage := RETURNING, waitReason := PUBLICATION, deadlineAt := None);
      } else if e.kind.LoseTrack? {
        next := next.(execution := Unsure, stage := WAITING_RESULT, waitReason := EXECUTION_UNKNOWN, deadlineAt := None);
      } else if e.kind.Result? {
        next := next.(execution := Ended(e.verdict.value.facts.execution), result := e.verdict,
                      resultSha := Some(e.verdict.value.sha), publication := PENDING, stage := RETURNING,
                      responsible := FETCHER, waitReason := PUBLICATION, deadlineAt := None);
      } else if e.kind.Publish? || e.kind.PublishExpiry? {
        next := next.(publication := CONFIRMED, consumption := AWAITED, terminal := true, stage := AWAITING_CONSUMPTION,
                      responsible := COACH, waitReason := RESULT_ACK, deadlineAt := None);
      } else if e.kind.Acknowledge? {
        next := next.(consumption := ACKNOWLEDGED, stage := RECYCLING, responsible := WATCHDOG, waitReason := RECYCLE);
      } else {
        next := next.(consumed := true, stage := READY, waitReason := NOTHING, result := None, cancellation := None);
      }
      next := Stamped(next, e.now);
      if next.deadlineAt.Some? && !Clock(next.deadlineAt.value) { return Refused(SCHEMA); }
      state := next;
      return Applied;
    }

    method Cancel(observed: Life, q: Cancellation, actor: Actor) returns (answer: Answer)
      modifies this
      ensures !actor.WATCHDOG? && observed != old(state) ==> answer == Declined && state == old(state)
      ensures actor.WATCHDOG? || observed == old(state) ==> (answer, state) == CancelStep(old(state), q, actor)
    {
      if actor.WATCHDOG? { return Refused(CANCEL_ACTOR); }
      if observed != state { return Declined; }
      answer := CancelAnswer(state, q, actor);
      if answer.Applied? && state.cancellation != Some(q) {
        state := state.(cancellation := Some(q), revision := state.revision + 1);
      }
    }
  }
}
