/**
  When each event and each cancellation applies and what it does, stated on the axes of the
  lifecycle: execution, publication, consumption, cancellation and time.  Stage, time, result,
  cancellation and revision fix everything else, and every withdrawal was asked for.
 */
module LifecycleRules {
  import opened Basics
  import opened Command
  import opened Lifecycle

  // ---- What the stage says besides the axes -----------------------------------------------------------

  function WaitsFor(s: Stage): Wait {
    match s
    case QUEUED | WAITING_FETCHER => FETCHER_WAIT case WAITING_HOST => HOST case CLAIMED | EXECUTING => Wait.EXECUTION
    case WAITING_RESULT => EXECUTION_UNKNOWN case RETURNING => Wait.PUBLICATION case AWAITING_CONSUMPTION => RESULT_ACK
    case RECYCLING => Wait.RECYCLE case READY => NOTHING
  }

  function Soon(now: int): int { if now <= MAX_TIME - 5 then now + 5 else MAX_TIME }

  /** What an operation waits for and until when, and when it is looked at next. */
  predicate Details(r: Request, s: Life) {
    && s.waitReason == WaitsFor(s.stage)
    && s.deadlineAt == (if Waiting(s.stage) then Some(r.claimDeadline)
                        else if s.stage.CLAIMED? || s.stage.EXECUTING? then Some(s.stageAt + r.runLimit) else None)
    && s.nextCheckAt == (if s.stage.READY? then None else if s.stage.QUEUED? then Some(r.givenAt) else Some(Soon(s.stageAt)))
    && (s.stage.QUEUED? ==> s.stageAt == r.givenAt)
  }

  lemma InitialDetails(r: Request)
    ensures Details(r, Initial(r))
  {}

  lemma StepDetails(r: Request, s: Life, e: Event)
    requires LifeOk(r, s) && Details(r, s)
    ensures Details(r, Step(r, s, e).1)
  {
    StepIs(r, s, e);
  }

  lemma MoveDetails(r: Request, s: Life, m: Move)
    requires LifeOk(r, s) && Details(r, s)
    ensures Details(r, After(r, s, m))
  {
    if m.Does? { StepDetails(r, s, m.event); }
  }

  /** In every run, deadline, wait and next look follow from the stage and when it began. */
  lemma {:induction false} RunDetails(r: Request, s: Life, moves: seq<Move>)
    requires LifeOk(r, s) && Details(r, s)
    ensures LifeOk(r, Run(r, s, moves)) && Details(r, Run(r, s, moves))
    decreases |moves|
  {
    if moves != [] {
      MoveDetails(r, s, moves[0]);
      MovePersists(r, s, moves[0]);
      RunDetails(r, After(r, s, moves[0]), moves[1..]);
    }
  }

  // ---- What a result may say ---------------------------------------------------------------------------

  /** The results there are, by what became of the operation. */
  predicate Plausible(f: Facts) {
    var exited := f.execution == EXITED && f.exitCode.Some? && !f.interruptionProven;
    var stopped := f.execution == INTERRUPTED && f.interruptionProven && f.reason == WAS_INTERRUPTED;
    var never := f.execution == NOT_EXECUTED && f.exitCode == None && f.effects == Effects.NONE && !f.interruptionProven;
    match f.outcome
    case DONE => exited && f.exitCode == Some(0) && f.reason == EXIT_ZERO
    case PARTIAL => stopped || (exited && f.exitCode != Some(0) && f.effects == KNOWN && f.reason == EXIT_NONZERO)
    case FAILED => (never && f.reason == CLAIM_EXPIRED) || (exited && f.exitCode != Some(0) && f.effects != KNOWN && f.reason == EXIT_NONZERO)
    case CANCELLED => stopped || (never && f.reason == WITHDRAWN)
  }

  /** A result is accepted exactly when it is this operation's, is what its digest names, and is
      one of those; the first of these that fails is the fault. */
  lemma VerdictExactly(v: Verdict, expected: Binding)
    ensures ResultFault(v, expected) == None <==> v.facts.binding == expected && v.sha == v.facts && Plausible(v.facts)
    ensures ResultFault(v, expected) == Some(Reason.BINDING) <==> v.facts.binding != expected
    ensures ResultFault(v, expected) == Some(RESULT_INTEGRITY) <==> v.facts.binding == expected && v.sha != v.facts
    ensures Coherent(v.facts) <==> Plausible(v.facts)
  {}

  // ---- Which events apply ------------------------------------------------------------------------------

  predicate Underway(x: Execution) { x.Claimed? || x.Running? || x.Unsure? }

  /** Whose event it is, and what execution, publication, consumption and cancellation must be for it. */
  predicate Due(r: Request, s: Life, e: Event) {
    match e.kind
    case WaitHost => e.actor == WATCHDOG && s.execution == NotStarted
    case WaitFetcher => e.actor == WATCHDOG && s.execution == NotStarted
    case Claim =>
      && e.actor == FETCHER && s.execution == NotStarted && s.cancellation == None
      && e.now < r.claimDeadline && e.now + r.runLimit <= MAX_TIME
    case Start =>
      e.actor == FETCHER && s.execution == Claimed && e.now < s.stageAt + r.runLimit && e.now + r.runLimit <= MAX_TIME
    case Expire => e.actor == WATCHDOG && s.execution == NotStarted && r.claimDeadline <= e.now
    case Withdraw => e.actor == WATCHDOG && s.execution == NotStarted && s.cancellation != None
    case LoseTrack => e.actor == WATCHDOG && (s.execution == Claimed || s.execution == Running)
    case Result =>
      && e.actor == FETCHER && Underway(s.execution) && e.verdict.Some?
      && var v := e.verdict.value;
         v.facts.binding == BindingOf(r) && v.sha == v.facts && Plausible(v.facts) && v.facts.execution != NOT_EXECUTED
    case Publish =>
      && e.actor == FETCHER && s.publication == PENDING && s.execution != Ended(NOT_EXECUTED)
      && e.readback.Some? && e.readback == s.resultSha
    case PublishExpiry =>
      && e.actor == WATCHDOG && s.publication == PENDING && s.execution == Ended(NOT_EXECUTED)
      && e.readback.Some? && e.readback == s.resultSha
    case Acknowledge =>
      && e.actor == COACH && s.consumption == AWAITED && e.ack.Some?
      && var a := e.ack.value;
         a.binding == BindingOf(r) && s.resultSha == Some(a.result) && 0 <= a.consumedAt <= MAX_TIME && s.stageAt <= a.consumedAt <= e.now
    case Recycle => e.actor == WATCHDOG && s.consumption == ACKNOWLEDGED && !s.consumed
  }

  /** An event applies exactly when it is due and time has not gone back. */
  lemma AppliesExactly(r: Request, s: Life, e: Event)
    requires LifeOk(r, s) && Details(r, s) && 1 <= r.runLimit
    ensures Step(r, s, e).0 == Applied <==> Due(r, s, e) && s.lastProgressAt <= e.now <= MAX_TIME
  {
    StepIs(r, s, e);
  }

  /** It is declined exactly when only the clock, or a recorded cancellation, has decided against it. */
  lemma DeclinedExactly(r: Request, s: Life, e: Event)
    requires LifeOk(r, s) && Details(r, s)
    ensures Step(r, s, e).0 == Declined <==>
      && s.lastProgressAt <= e.now <= MAX_TIME
      && (|| (e.kind == Claim && e.actor == FETCHER && s.execution == NotStarted && (r.claimDeadline <= e.now || s.cancellation != None))
          || (e.kind == Start && e.actor == FETCHER && s.execution == Claimed && s.stageAt + r.runLimit <= e.now)
          || (e.kind == Expire && e.actor == WATCHDOG && s.execution == NotStarted && e.now < r.claimDeadline))
  {}

  /** The reasons of refusal. */
  lemma RefusedExactly(r: Request, s: Life, e: Event)
    requires LifeOk(r, s) && Details(r, s)
    ensures var a := Step(r, s, e).0;
      && (a == Refused(CANCEL_REQUIRED) <==>
            e.kind == Withdraw && e.actor == WATCHDOG && s.execution == NotStarted && s.cancellation == None && s.lastProgressAt <= e.now <= MAX_TIME)
      && (a == Refused(UNCONSUMED) ==> false)
      && (a == Refused(PUBLICATION_UNCONFIRMED) ==>
            (e.kind == Publish || e.kind == PublishExpiry) && s.publication == PENDING && (e.readback == None || e.readback != s.resultSha))
      && (a == Refused(ACK_MISMATCH) ==>
            e.kind == Acknowledge && e.ack.Some? && (e.ack.value.binding != BindingOf(r) || s.resultSha != Some(e.ack.value.result)))
      && (a == Refused(Reason.BINDING) ==> e.kind == Result && e.verdict.Some? && e.verdict.value.facts.binding != BindingOf(r))
      && (a == Refused(RESULT_INTEGRITY) ==> e.kind == Result && e.verdict.Some? && e.verdict.value.sha != e.verdict.value.facts)
      && (a == Refused(TIME_RANGE) ==>
            !Clock(e.now) || e.now < s.lastProgressAt
            || (e.kind == Acknowledge && e.ack.Some? && !(s.stageAt <= e.ack.value.consumedAt <= e.now)))
  {}

  // ---- What an event does --------------------------------------------------------------------------------

  function Leads(k: Kind): Stage {
    match k
    case WaitHost => WAITING_HOST case WaitFetcher => WAITING_FETCHER case Claim => CLAIMED case Start => EXECUTING
    case LoseTrack => WAITING_RESULT case Expire | Withdraw | Result => RETURNING
    case Publish | PublishExpiry => AWAITING_CONSUMPTION case Acknowledge => RECYCLING case Recycle => READY
  }

  /** What stands as the result after it. */
  function Produces(r: Request, s: Life, e: Event): Option<Facts> {
    match e.kind
    case Expire =>
      Some(Facts(BindingOf(r), FAILED, NOT_EXECUTED, None, false, Effects.NONE, CLAIM_EXPIRED))
    case Withdraw =>
      Some(Facts(BindingOf(r), CANCELLED, NOT_EXECUTED, None, false, Effects.NONE, WITHDRAWN))
    case Result => if e.verdict.Some? then Some(e.verdict.value.facts) else s.resultSha
    case _ => s.resultSha
  }

  /** An applied event leads to its stage at its time and produces its result; the invariants fix the
      rest, and nothing else changes: a cancellation stands until the operation is recycled. */
  lemma AppliedDoes(r: Request, s: Life, e: Event)
    requires LifeOk(r, s) && Details(r, s) && Step(r, s, e).0 == Applied
    ensures var t := Step(r, s, e).1;
      && t.stage == Leads(e.kind) && t.stageAt == t.lastProgressAt == e.now && t.revision == s.revision + 1
      && t.resultSha == Produces(r, s, e) && t.cancellation == (if e.kind == Recycle then None else s.cancellation)
      && LifeOk(r, t) && Details(r, t)
  {
    StepOk(r, s, e);
    StepIs(r, s, e);
    StepDetails(r, s, e);
  }

  /** Two states with the same stage, time, result, cancellation and revision are the same. */
  lemma NothingElse(r: Request, s: Life, t: Life)
    requires LifeOk(r, s) && Details(r, s) && LifeOk(r, t) && Details(r, t)
    requires s.stage == t.stage && s.stageAt == t.stageAt && s.resultSha == t.resultSha
    requires s.cancellation == t.cancellation && s.revision == t.revision
    ensures s == t
  {}

  // ---- Cancellation -----------------------------------------------------------------------------------------

  /** Who may record which state over which. */
  predicate Steps(p: Option<Cancellation>, q: CancelState, actor: Actor, x: Execution) {
    match q
    case REQUESTED => actor == COACH && p == None
    case CANCEL_ACKNOWLEDGED => actor == FETCHER && p.Some? && (p.value.state == REQUESTED || p.value.state == CANCEL_UNKNOWN)
    case SIGNALLED => actor == FETCHER && p.Some? && p.value.state == CANCEL_ACKNOWLEDGED && Underway(x)
    case ALREADY_FINISHED => actor == FETCHER && p.Some? && p.value.state != ALREADY_FINISHED && x.Ended?
    case CANCEL_UNKNOWN => actor == FETCHER && p.Some? && p.value.state != ALREADY_FINISHED && p.value.state != CANCEL_UNKNOWN
  }

  /** A cancellation is recorded exactly for this binding, before the operation is READY, under one
      identity, and by the actor whose next step it is; recording it again changes nothing. */
  lemma CancelsExactly(r: Request, s: Life, q: Cancellation, actor: Actor)
    requires LifeOk(r, s)
    ensures var (a, t) := CancelStep(s, q, actor);
      && (a == Applied <==>
            && actor != WATCHDOG && q.binding == BindingOf(r) && s.stage != READY
            && (|| s.cancellation == Some(q)
                || (Steps(s.cancellation, q.state, actor, s.execution)
                    && (s.cancellation.Some? ==> q.id == s.cancellation.value.id && q.requestedAt == s.cancellation.value.requestedAt))))
      && (a == Declined <==> actor != WATCHDOG && q.binding != BindingOf(r))
      && (a == Refused(CANCEL_FINISHED) <==> actor != WATCHDOG && q.binding == BindingOf(r) && s.stage == READY)
      && (a == Refused(CANCEL_IDENTITY) <==>
            && actor != WATCHDOG && q.binding == BindingOf(r) && s.stage != READY && s.cancellation.Some?
            && (q.id != s.cancellation.value.id || q.requestedAt != s.cancellation.value.requestedAt))
      && t == if a == Applied && s.cancellation != Some(q) then s.(cancellation := Some(q), revision := s.revision + 1) else s
  {}

  // ---- Over runs ----------------------------------------------------------------------------------------------

  /** The state after the first n moves. */
  function At(r: Request, s: Life, moves: seq<Move>, n: nat): Life
    requires n <= |moves|
    decreases n
  {
    if n == 0 then s else After(r, At(r, s, moves, n - 1), moves[n - 1])
  }

  lemma {:induction false} AtOk(r: Request, s: Life, moves: seq<Move>, n: nat)
    requires LifeOk(r, s) && Details(r, s) && n <= |moves|
    ensures LifeOk(r, At(r, s, moves, n)) && Details(r, At(r, s, moves, n))
    decreases n
  {
    if n > 0 {
      AtOk(r, s, moves, n - 1);
      MoveDetails(r, At(r, s, moves, n - 1), moves[n - 1]);
      MovePersists(r, At(r, s, moves, n - 1), moves[n - 1]);
    }
  }

  /** This move records that the coach asked to cancel this very operation. */
  predicate Asks(r: Request, m: Move) {
    m.Cancels? && m.actor == COACH && m.request.state == REQUESTED && m.request.binding == BindingOf(r)
  }

  lemma {:induction false} AskedBefore(r: Request, s: Life, moves: seq<Move>, n: nat) returns (i: nat)
    requires LifeOk(r, s) && Details(r, s) && n <= |moves| && s.cancellation == None && At(r, s, moves, n).cancellation != None
    ensures i < n && Asks(r, moves[i]) && At(r, s, moves, i).cancellation == None
    ensures At(r, s, moves, i + 1).cancellation == Some(moves[i].request)
    decreases n
  {
    var u := At(r, s, moves, n - 1);
    AtOk(r, s, moves, n - 1);
    if u.cancellation != None {
      i := AskedBefore(r, s, moves, n - 1);
    } else {
      i := n - 1;
      match moves[i]
      case Cancels(q, actor) => CancelsExactly(r, u, q, actor);
      case Does(e) => if Step(r, u, e).0 == Applied { AppliedDoes(r, u, e); } else { StepIs(r, u, e); }
    }
  }

  /** Every withdrawal follows a cancellation that the coach recorded for this operation while there was none. */
  lemma WithdrawalsWereAsked(r: Request, moves: seq<Move>, n: nat) returns (i: nat)
    requires WellShaped(r) && n < |moves| && Applies(r, At(r, Initial(r), moves, n), moves[n], Withdraw)
    ensures i < n && Asks(r, moves[i]) && At(r, Initial(r), moves, i + 1).cancellation == Some(moves[i].request)
  {
    InitialOk(r);
    InitialDetails(r);
    AtOk(r, Initial(r), moves, n);
    AppliesExactly(r, At(r, Initial(r), moves, n), moves[n].event);
    i := AskedBefore(r, Initial(r), moves, n);
  }
}
