/**
  The bounded loop that brings one frozen plan to the shared document.  Others may replace it between
  any two accesses, and a write whose reply was lost may arrive at any later moment.
 */
module Reconciliation {
  import opened Basics
  import opened Plans

  datatype Reading = Unavailable | Read(revision: nat, document: Document)
  datatype Answer = APPLIED | REJECTED | LOST | UNAVAILABLE_WRITE

  datatype Report = Report(outcome: Outcome, seen: nat, written: nat, inspect: bool)
  datatype Outcome = IS_CONFIRMED | IS_SUPERSEDED | IS_CONFLICT | IS_UNKNOWN | IS_UNAVAILABLE | IS_REJECTED

  /** What happens to the document before an access. */
  datatype Nudge = Quiet | Others(document: Document) | Arrives

  /** What becomes of a write: it takes effect, its reply lost or not; it hangs, its reply lost; the
      backend refuses it; or it is known not to have been sent. */
  datatype Fate = Applies(replied: bool) | Hangs | Refuses | Unsent

  datatype Request = Request(revision: nat, desired: Document)

  /** One document before and after a write of this plan. */
  datatype Change = Change(before: Document, after: Document)

  function OutcomeOf(v: Verdict): Outcome
    requires !v.READY?
  {
    match v case CONFIRMED => IS_CONFIRMED case SUPERSEDED => IS_SUPERSEDED case CONFLICT => IS_CONFLICT
  }

  /** The shared document with its revision, and the one write that may still be on its way.
      `made` lists the changes that writes of this plan have made. */
  class Backend {
    var revision: nat
    var document: Document
    var inFlight: Option<Request>
    ghost var made: seq<Change>

    constructor (d: Document)
      ensures revision == 0 && document == d && inFlight.None? && made == []
    {
      revision, document, inFlight, made := 0, d, None, [];
    }

    /** Nothing is applied, or on its way, but what evaluating the plan made READY. */
    ghost predicate Faithful(p: Plan)
      reads this
    {
      && (forall c | c in made :: Evaluate(p, c.before) == READY(c.after))
      && (inFlight.Some? ==> inFlight.value.revision <= revision
                             && (inFlight.value.revision == revision ==> Evaluate(p, document) == READY(inFlight.value.desired)))
    }

    method Happens(n: Nudge, ghost p: Plan)
      requires Faithful(p)
      modifies this
      ensures Faithful(p) && old(revision) <= revision && (revision == old(revision) ==> document == old(document))
      ensures n.Quiet? ==> (revision, document, inFlight) == old((revision, document, inFlight))
      ensures if inFlight == old(inFlight) then made == old(made)
              else old(inFlight).Some? && inFlight.None? && |made| == |old(made)| + 1
    {
      if n.Others? {
        revision, document := revision + 1, n.document;
      } else if n.Arrives? && inFlight.Some? && inFlight.value.revision == revision {
        made := made + [Change(document, inFlight.value.desired)];
        revision, document, inFlight := revision + 1, inFlight.value.desired, None;
      }
    }

    method Get(available: bool) returns (r: Reading)
      ensures r == if available then Read(revision, document) else Unavailable
    {
      r := if available then Read(revision, document) else Unavailable;
    }

    /** `seen` is the reading that the new document was made from. */
    method CompareReplace(seen: Reading, desired: Document, fate: Fate, ghost p: Plan) returns (a: Answer)
      requires Faithful(p) && inFlight.None? && seen.Read? && seen.revision <= revision
      requires seen.revision == revision ==> seen.document == document
      requires Evaluate(p, seen.document) == READY(desired)
      modifies this
      ensures Faithful(p) && old(revision) <= revision && (revision == old(revision) ==> document == old(document))
      ensures a == match fate
                   case Unsent => UNAVAILABLE_WRITE
                   case Hangs => LOST
                   case Refuses => REJECTED
                   case Applies(replied) => if seen.revision != old(revision) then REJECTED else if replied then APPLIED else LOST
      ensures inFlight == if fate.Hangs? then Some(Request(seen.revision, desired)) else None
      ensures (revision, document) ==
        if fate.Applies? && seen.revision == old(revision) then (old(revision) + 1, desired) else old((revision, document))
      ensures made == if revision == old(revision) then old(made) else old(made) + [Change(old(document), desired)]
      ensures |made| + (if inFlight.Some? then 1 else 0) <= |old(made)| + 1
    {
      if fate.Unsent? { return UNAVAILABLE_WRITE; }
      if fate.Hangs? {
        inFlight := Some(Request(seen.revision, desired));
        return LOST;
      }
      if seen.revision != revision || fate.Refuses? { return REJECTED; }
      made := made + [Change(document, desired)];
      revision, document := revision + 1, desired;
      return if fate.replied then APPLIED else LOST;
    }
  }

  /** Nobody else writes, every access succeeds, and the plan is ready; once applied it is confirmed,
      as `ReadyIsExact` says of every valid plan. */
  ghost predicate Undisturbed(d: Document, p: Plan, before: seq<Nudge>, available: seq<bool>, fates: seq<Fate>) {
    && Evaluate(p, d).READY? && Evaluate(p, Evaluate(p, d).document) == CONFIRMED && fates != [] && fates[0].Applies?
    && (forall i | 0 <= i < |before| :: before[i] == Quiet) && (forall i | 0 <= i < |available| :: available[i])
  }

  /** The last reading rules the plan out. */
  predicate Refuted(r: Report, last: Reading, p: Plan) {
    && last.Read?
    && ((r.outcome == IS_SUPERSEDED && Evaluate(p, last.document) == SUPERSEDED)
        || (r.outcome == IS_CONFLICT && Evaluate(p, last.document) == CONFLICT))
  }

  /** Why the loop ended otherwise: the document says so; a write, or an inspection, is left in doubt; the
      document could not be read, or the write not be sent; the same revision would be refused twice; or
      the budget is spent. */
  predicate Explains(r: Report, last: Reading, p: Plan, maxReads: nat, maxWrites: nat) {
    || Refuted(r, last, p)
    || (r.outcome == IS_UNKNOWN && (last.Unavailable? || (r.seen == maxReads && Evaluate(p, last.document).READY?)))
    || (r.outcome == IS_UNAVAILABLE && !r.inspect && (last.Unavailable? || (Evaluate(p, last.document).READY? && 0 < r.written)))
    || (r.outcome == IS_REJECTED && !r.inspect && last.Read? && Evaluate(p, last.document).READY? && 1 < r.seen && 0 < r.written)
    || (r.outcome == IS_CONFLICT && !r.inspect && last.Read? && Evaluate(p, last.document).READY?
        && (r.written == maxWrites || r.seen == maxReads))
  }

  /** The loop.  At most one write of it ever takes effect, and then makes exactly the change that
      was evaluated; CONFIRMED is what the document says on return; any other answer that does not
      ask for inspection means that nothing was changed and nothing is on its way; undisturbed, it
      confirms the plan with one write. */
  method Reconcile(b: Backend, p: Plan, inspection: bool, before: seq<Nudge>, available: seq<bool>, fates: seq<Fate>,
                   maxReads: nat, maxWrites: nat)
    returns (report: Report, ghost last: Reading)
    requires 2 <= maxReads <= 12 && 1 <= maxWrites <= 4
    requires |before| == 2 * maxReads && |available| == maxReads && |fates| == maxWrites
    requires b.Faithful(p) && (!inspection ==> b.inFlight.None?)
    modifies b
    ensures b.Faithful(p) && report.seen <= maxReads && report.written <= maxWrites && (inspection ==> report.written == 0)
    ensures |b.made| + (if b.inFlight.Some? then 1 else 0)
      <= |old(b.made)| + if inspection && old(b.inFlight).None? then 0 else 1
    ensures report.outcome.IS_CONFIRMED? <==> 0 < report.seen && last.Read? && Evaluate(p, last.document) == CONFIRMED
    ensures report.outcome.IS_CONFIRMED? ==> b.document == last.document
    ensures !inspection && !report.inspect && !report.outcome.IS_CONFIRMED? ==> b.made == old(b.made) && b.inFlight.None?
    ensures report.inspect ==> inspection || 0 < report.written
    ensures report.inspect ==> report.outcome.IS_UNKNOWN? || Refuted(report, last, p)
    ensures inspection && Refuted(report, last, p) ==> report.inspect
    ensures !report.outcome.IS_CONFIRMED? ==> Explains(report, last, p, maxReads, maxWrites)
    ensures !inspection && Undisturbed(old(b.document), p, before, available, fates) ==>
      report == Report(IS_CONFIRMED, 2, 1, false) && READY(b.document) == Evaluate(p, old(b.document))
  {
    var pending := inspection;
    var rejected: Option<nat> := None;
    var seen, written := 0, 0;
    last := Unavailable;
    ghost var undisturbed := !inspection && Undisturbed(b.document, p, before, available, fates);
    while seen < maxReads
      invariant 0 <= seen <= maxReads && 0 <= written <= maxWrites && written <= seen && b.Faithful(p)
      invariant inspection ==> pending && written == 0
      invariant |b.made| + (if b.inFlight.Some? then 1 else 0) <= |old(b.made)| + if inspection && old(b.inFlight).None? then 0 else 1
      invariant !pending ==> b.made == old(b.made) && b.inFlight.None?
      invariant pending ==> inspection || 0 < written
      invariant seen == maxReads ==> pending
      invariant pending && !inspection ==> last.Read?
      invariant rejected.Some? ==> 0 < written
      invariant undisturbed ==>
        if seen == 0 then !pending && written == 0 && rejected.None? && b.document == old(b.document)
        else seen == 1 && pending && written == 1 && READY(b.document) == Evaluate(p, old(b.document))
      invariant 0 < seen && last.Read? ==> Evaluate(p, last.document).READY?
    {
      b.Happens(before[2 * seen], p);
      var reading := b.Get(available[seen]);
      last := reading;
      seen := seen + 1;
      if reading.Unavailable? {
        return Report(if pending then IS_UNKNOWN else IS_UNAVAILABLE, seen, written, pending), last;
      }
      var verdict := Evaluate(p, reading.document);
      if !verdict.READY? {
        return Report(OutcomeOf(verdict), seen, written, pending && verdict != CONFIRMED), last;
      }
      if !pending {
        if rejected == Some(reading.revision) { return Report(IS_REJECTED, seen, written, false), last; }
        if written == maxWrites || seen == maxReads { return Report(IS_CONFLICT, seen, written, false), last; }
        b.Happens(before[2 * seen - 1], p);
        var answer := b.CompareReplace(reading, verdict.document, fates[written], p);
        written := written + 1;
        if answer.REJECTED? {
          rejected := Some(reading.revision);
        } else if answer.UNAVAILABLE_WRITE? {
          return Report(IS_UNAVAILABLE, seen, written, false), last;
        } else {
          pending := true;
        }
      }
    }
    return Report(IS_UNKNOWN, maxReads, written, true), last;
  }
}
