/** Requests, bindings and results of the command contract.  Digests are injective, so a
    digest is modelled by what it digests. */
module Command {
  import opened Basics

  const MAX_GENERATION := 0x7fff_ffff_ffff_ffff
  const MAX_TIME := 1_000_000_000_000

  /** The digest of (domain, target, generation), or any other 64 hex digits. */
  datatype OperationId = OperationId(domain: nat, target: nat, generation: nat) | Arbitrary(id: nat)

  datatype Payload =
    | Inline(bytes: seq<nat>, size: nat)
    | Artifact(slot: nat, generation: nat, size: nat)

  datatype Request = Request(
    domain: nat, target: nat, operation: OperationId, generation: nat, payloadSha: seq<nat>,
    givenAt: int, claimDeadline: int, runLimit: int, payload: Payload)

  datatype Binding = Binding(domain: nat, target: nat, operation: OperationId, generation: nat, payloadSha: seq<nat>)

  function BindingOf(r: Request): Binding {
    Binding(r.domain, r.target, r.operation, r.generation, r.payloadSha)
  }

  /** A staged artifact as the document describes it. */
  datatype Descriptor = Descriptor(generation: nat, size: nat, sha: seq<nat>, target: nat, complete: bool)

  datatype Reason =
    | MALFORMED | SCHEMA | WRONG_DOMAIN | UNKNOWN_TARGET | IDENTITY | PAYLOAD_INTEGRITY | ARTIFACT_UNVERIFIED
    | TIME_RANGE | EXPIRED | FUTURE_REQUEST | TOO_LARGE | ID_CONFLICT | BUSY | STALE_GENERATION | GENERATION_GAP
    | CAPACITY | UNCONSUMED | TRANSITION | CANCEL_REQUIRED | CANCEL_ACTOR | CANCEL_FINISHED | CANCEL_IDENTITY
    | CANCEL_TRANSITION | BINDING | RESULT_INTEGRITY | RESULT_SEMANTICS | PUBLICATION_UNCONFIRMED | ACK_MISMATCH

  predicate Clock(now: int) { 0 <= now <= MAX_TIME }

  predicate WellShaped(r: Request) {
    && 1 <= r.generation <= MAX_GENERATION && Clock(r.givenAt) && Clock(r.claimDeadline) && 1 <= r.runLimit <= 86400
    && match r.payload
       case Inline(_, size) => 1 <= size <= 256
       case Artifact(_, generation, size) => 1 <= generation <= MAX_GENERATION && 1 <= size <= 8388608
  }

  predicate PayloadOk(r: Request, artifacts: map<nat, Descriptor>) {
    match r.payload
    case Inline(bytes, size) => |bytes| == size <= 256 && bytes == r.payloadSha
    case Artifact(slot, generation, size) =>
      slot in artifacts && artifacts[slot] == Descriptor(generation, size, r.payloadSha, r.target, true)
  }

  /** `validate_request`: the first check that fails, in order; `fits` is the record's byte budget. */
  function Refusal(r: Request, domain: nat, targets: set<nat>, now: int, artifacts: map<nat, Descriptor>, fits: bool): Option<Reason> {
    if !Clock(now) then Some(TIME_RANGE)
    else if !WellShaped(r) then Some(SCHEMA)
    else if r.domain != domain then Some(WRONG_DOMAIN)
    else if r.target !in targets then Some(UNKNOWN_TARGET)
    else if r.operation != OperationId(domain, r.target, r.generation) then Some(IDENTITY)
    else if r.givenAt >= r.claimDeadline then Some(TIME_RANGE)
    else if r.givenAt > now then Some(FUTURE_REQUEST)
    else if !PayloadOk(r, artifacts) then Some(if r.payload.Inline? then PAYLOAD_INTEGRITY else ARTIFACT_UNVERIFIED)
    else if !fits then Some(TOO_LARGE)
    else None
  }

  // ---- Results ------------------------------------------------------------------------------

  datatype Outcome = DONE | PARTIAL | FAILED | CANCELLED
  datatype Ending = EXITED | INTERRUPTED | NOT_EXECUTED
  datatype Effects = NONE | KNOWN | UNKNOWN
  datatype Why = EXIT_ZERO | EXIT_NONZERO | WAS_INTERRUPTED | CLAIM_EXPIRED | WITHDRAWN

  datatype Facts = Facts(binding: Binding, outcome: Outcome, execution: Ending, exitCode: Option<int>,
                         interruptionProven: bool, effects: Effects, reason: Why)

  /** `sha` is the digest of the other fields. */
  datatype Verdict = Verdict(facts: Facts, sha: Facts)

  /** `validate_result`, first failing check. */
  function ResultFault(v: Verdict, expected: Binding): Option<Reason> {
    var f := v.facts;
    if f.binding != expected then Some(Reason.BINDING)
    else if v.sha != f then Some(RESULT_INTEGRITY)
    else if !Coherent(f) then Some(RESULT_SEMANTICS)
    else None
  }

  predicate Coherent(f: Facts) {
    match f.execution
    case EXITED =>
      && f.exitCode.Some? && !f.interruptionProven
      && f.outcome == (if f.exitCode.value == 0 then DONE else if f.effects.KNOWN? then PARTIAL else FAILED)
      && f.reason == (if f.exitCode.value == 0 then EXIT_ZERO else EXIT_NONZERO)
    case NOT_EXECUTED =>
      && ((f.outcome.FAILED? && f.reason.CLAIM_EXPIRED?) || (f.outcome.CANCELLED? && f.reason.WITHDRAWN?))
      && f.exitCode.None? && f.effects.NONE? && !f.interruptionProven
    case INTERRUPTED =>
      f.interruptionProven && (f.outcome.CANCELLED? || f.outcome.PARTIAL?) && f.reason.WAS_INTERRUPTED?
  }
}
