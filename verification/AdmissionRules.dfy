/** On which terms a request is admitted, called a duplicate or refused, stated on the request,
    the clock, the staged artifacts and the rows; and that every recorded request met them. */
module AdmissionRules {
  import opened Basics
  import opened Command
  import opened Admission

  // ---- What a request must be ---------------------------------------------------------------------

  /** The bytes, or the staged artifact, are those the request's digest names. */
  predicate Intact(r: Request, artifacts: map<nat, Descriptor>) {
    && (r.payload.Inline? ==> r.payloadSha == r.payload.bytes && r.payload.size == |r.payload.bytes|)
    && (r.payload.Artifact? ==>
          && r.payload.slot in artifacts
          && var d := artifacts[r.payload.slot];
             d.complete && d.sha == r.payloadSha && d.size == r.payload.size && d.generation == r.payload.generation && d.target == r.target)
  }

  /** The checks of a request, in the order they are made. */
  datatype Check = TIME | SHAPE | HOME | KNOWN_TARGET | NAME | DEADLINE | GIVEN | PAYLOAD | ROOM

  function Order(c: Check): nat {
    match c
    case TIME => 0 case SHAPE => 1 case HOME => 2 case KNOWN_TARGET => 3 case NAME => 4
    case DEADLINE => 5 case GIVEN => 6 case PAYLOAD => 7 case ROOM => 8
  }

  /** What each check finds wrong, by itself. */
  predicate Fails(c: Check, r: Request, domain: nat, targets: set<nat>, s: Setting) {
    match c
    case TIME => s.now < 0 || s.now > 1_000_000_000_000
    case SHAPE =>
      || r.generation == 0 || r.generation > 9_223_372_036_854_775_807
      || r.givenAt < 0 || r.givenAt > 1_000_000_000_000 || r.claimDeadline < 0 || r.claimDeadline > 1_000_000_000_000
      || r.runLimit < 1 || r.runLimit > 86_400 || r.payload.size == 0
      || r.payload.size > (if r.payload.Inline? then 256 else 8 * 1024 * 1024)
      || (r.payload.Artifact? && (r.payload.generation == 0 || r.payload.generation > 9_223_372_036_854_775_807))
    case HOME => domain != r.domain
    case KNOWN_TARGET => r.target !in targets
    case NAME => !(r.operation.OperationId? && r.operation.domain == domain && r.operation.target == r.target && r.operation.generation == r.generation)
    case DEADLINE => r.claimDeadline <= r.givenAt
    case GIVEN => s.now < r.givenAt
    case PAYLOAD => !Intact(r, s.artifacts)
    case ROOM => !s.fits
  }

  function Tells(c: Check, r: Request): Reason {
    match c
    case TIME | DEADLINE => TIME_RANGE case SHAPE => SCHEMA case HOME => WRONG_DOMAIN case KNOWN_TARGET => UNKNOWN_TARGET
    case NAME => IDENTITY case GIVEN => FUTURE_REQUEST case ROOM => TOO_LARGE
    case PAYLOAD => if r.payload.Inline? then PAYLOAD_INTEGRITY else ARTIFACT_UNVERIFIED
  }

  ghost predicate Sound(r: Request, domain: nat, targets: set<nat>, s: Setting) {
    forall c: Check :: !Fails(c, r, domain, targets, s)
  }

  ghost predicate First(c: Check, r: Request, domain: nat, targets: set<nat>, s: Setting) {
    Fails(c, r, domain, targets, s) && forall d: Check | Fails(d, r, domain, targets, s) :: Order(c) <= Order(d)
  }

  lemma {:induction false} FirstFault(c: Check, r: Request, domain: nat, targets: set<nat>, s: Setting) returns (first: Check)
    requires Fails(c, r, domain, targets, s)
    ensures First(first, r, domain, targets, s)
    decreases Order(c)
  {
    if d: Check :| Fails(d, r, domain, targets, s) && Order(d) < Order(c) {
      first := FirstFault(d, r, domain, targets, s);
    } else {
      first := c;
    }
  }

  lemma FirstIsTold(c: Check, r: Request, domain: nat, targets: set<nat>, s: Setting)
    requires First(c, r, domain, targets, s)
    ensures Refusal(r, domain, targets, s.now, s.artifacts, s.fits) == Some(Tells(c, r))
  {
    forall d: Check | Order(d) < Order(c) ensures !Fails(d, r, domain, targets, s) {}
    FirstIs(c, r, domain, targets, s);
  }

  /** What passes the checks before one that fails. */
  lemma FirstIs(c: Check, r: Request, domain: nat, targets: set<nat>, s: Setting)
    requires Fails(c, r, domain, targets, s)
    requires forall d: Check | Order(d) < Order(c) :: !Fails(d, r, domain, targets, s)
    ensures Refusal(r, domain, targets, s.now, s.artifacts, s.fits) == Some(Tells(c, r))
  {
    assert 0 < Order(c) ==> !Fails(TIME, r, domain, targets, s);
    assert 1 < Order(c) ==> !Fails(SHAPE, r, domain, targets, s);
    assert 2 < Order(c) ==> !Fails(HOME, r, domain, targets, s);
    assert 3 < Order(c) ==> !Fails(KNOWN_TARGET, r, domain, targets, s);
    assert 4 < Order(c) ==> !Fails(NAME, r, domain, targets, s);
    assert 5 < Order(c) ==> !Fails(DEADLINE, r, domain, targets, s);
    assert 6 < Order(c) ==> !Fails(GIVEN, r, domain, targets, s);
    assert 7 < Order(c) ==> !Fails(PAYLOAD, r, domain, targets, s);
  }

  lemma SoundIsUntold(r: Request, domain: nat, targets: set<nat>, s: Setting)
    requires Sound(r, domain, targets, s)
    ensures Refusal(r, domain, targets, s.now, s.artifacts, s.fits) == None
  {
    assert !Fails(TIME, r, domain, targets, s) && !Fails(SHAPE, r, domain, targets, s) && !Fails(HOME, r, domain, targets, s);
    assert !Fails(KNOWN_TARGET, r, domain, targets, s) && !Fails(NAME, r, domain, targets, s);
    assert !Fails(DEADLINE, r, domain, targets, s) && !Fails(GIVEN, r, domain, targets, s);
    assert !Fails(PAYLOAD, r, domain, targets, s) && !Fails(ROOM, r, domain, targets, s);
  }

  /** A request passes exactly when no check finds anything wrong, and otherwise is told the
      first thing that is. */
  lemma RefusalExactly(r: Request, domain: nat, targets: set<nat>, s: Setting)
    ensures var told := Refusal(r, domain, targets, s.now, s.artifacts, s.fits);
      && (told == None <==> Sound(r, domain, targets, s))
      && (forall c: Check | First(c, r, domain, targets, s) :: told == Some(Tells(c, r)))
      && (told.Some? ==> exists c: Check :: First(c, r, domain, targets, s))
  {
    forall c: Check | First(c, r, domain, targets, s)
      ensures Refusal(r, domain, targets, s.now, s.artifacts, s.fits) == Some(Tells(c, r))
    {
      FirstIsTold(c, r, domain, targets, s);
    }
    if c: Check :| Fails(c, r, domain, targets, s) {
      var first := FirstFault(c, r, domain, targets, s);
    } else {
      SoundIsUntold(r, domain, targets, s);
    }
  }

  // ---- What is admitted ------------------------------------------------------------------------------

  /** The request in progress, or one whose receipt is kept. */
  predicate Recorded(row: Row, r: Request) {
    || (row.current.Some? && row.current.value.fingerprint == r)
    || (exists i :: 0 <= i < |row.history| && row.history[i].fingerprint == r)
  }

  /** Another request of the same name is recorded. */
  predicate Contradicted(row: Row, r: Request) {
    || (row.current.Some? && row.current.value.fingerprint.operation == r.operation && row.current.value.fingerprint != r)
    || (exists i :: 0 <= i < |row.history| && row.history[i].fingerprint.operation == r.operation && row.history[i].fingerprint != r)
  }

  /** A sound request of the next generation, in time, for an idle target that has room. */
  ghost predicate Admissible(domain: nat, rows: map<nat, Row>, r: Request, s: Setting) {
    && Sound(r, domain, rows.Keys, s) && s.hasCapacity && s.now < r.claimDeadline
    && r.target in rows && rows[r.target].current == None && r.generation == rows[r.target].generation + 1
  }

  /** A request is answered DUPLICATE exactly when that very request is recorded, and ADMITTED
      exactly when it is admissible; what does not decode is neither. */
  lemma AnsweredExactly(domain: nat, rows: map<nat, Row>, wire: Wire, s: Setting)
    requires forall t | t in rows :: RowOk(rows[t], domain, t)
    ensures var a := Judged(domain, rows, wire, s);
      && (a.disposition == ADMITTED <==> wire.Decoded? && Admissible(domain, rows, wire.request, s))
      && (a.disposition == DUPLICATE <==>
            && wire.Decoded? && Sound(wire.request, domain, rows.Keys, s)
            && wire.request.target in rows && Recorded(rows[wire.request.target], wire.request))
      && (a.disposition == REJECTED <==> a.reason != None)
      && (wire.Undecodable? ==> a.reason == Some(wire.reason))
      && (a.operation == if wire.Decoded? && Sound(wire.request, domain, rows.Keys, s) then Some(wire.request.operation) else None)
  {
    if wire.Decoded? {
      var r := wire.request;
      RefusalExactly(r, domain, rows.Keys, s);
      if Sound(r, domain, rows.Keys, s) {
        SoundIsHere(r, domain, rows.Keys, s);
        AnswersByGeneration(domain, rows, r, s);
        RecordedByGeneration(rows[r.target], r, domain);
      }
    }
  }

  lemma SoundIsHere(r: Request, domain: nat, targets: set<nat>, s: Setting)
    requires Sound(r, domain, targets, s)
    ensures r.target in targets && r.operation == OperationId(domain, r.target, r.generation) && r.domain == domain
  {
    assert !Fails(HOME, r, domain, targets, s) && !Fails(KNOWN_TARGET, r, domain, targets, s) && !Fails(NAME, r, domain, targets, s);
  }

  lemma RecordedByGeneration(row: Row, r: Request, domain: nat)
    requires RowOk(row, domain, r.target) && r.operation == OperationId(domain, r.target, r.generation)
    ensures Recorded(row, r) <==> ByGeneration(row, r.generation) == Some(r)
    ensures Contradicted(row, r) <==> ByGeneration(row, r.generation).Some? && ByGeneration(row, r.generation) != Some(r)
  {
    var low := Finished(row) - |row.history|;
    if low < r.generation <= Finished(row) {
      var i := r.generation - 1 - low;
      assert Names(row.history[i].operation, row.history[i].fingerprint, domain, r.target, low + 1 + i);
    }
  }

  /** Why a sound request is neither. */
  lemma RejectedExactly(domain: nat, rows: map<nat, Row>, r: Request, s: Setting)
    requires (forall t | t in rows :: RowOk(rows[t], domain, t)) && Sound(r, domain, rows.Keys, s) && r.target in rows
    ensures var (reason, row) := (Judged(domain, rows, Decoded(r), s).reason, rows[r.target]);
      var unknown := !Recorded(row, r) && !Contradicted(row, r);
      && (reason == Some(ID_CONFLICT) <==> Contradicted(row, r))
      && (reason == Some(BUSY) <==> unknown && row.current != None)
      && (reason == Some(STALE_GENERATION) <==> unknown && row.current == None && r.generation <= row.generation)
      && (reason == Some(GENERATION_GAP) <==> unknown && row.current == None && row.generation + 1 < r.generation)
      && (reason == Some(Reason.EXPIRED) <==> row.current == None && r.generation == row.generation + 1 && r.claimDeadline <= s.now)
      && (reason == Some(CAPACITY) <==>
            row.current == None && r.generation == row.generation + 1 && s.now < r.claimDeadline && !s.hasCapacity)
  {
    RefusalExactly(r, domain, rows.Keys, s);
    SoundIsHere(r, domain, rows.Keys, s);
    AnswersByGeneration(domain, rows, r, s);
    RecordedByGeneration(rows[r.target], r, domain);
  }

  /** An admissible request becomes its target's current one under the next generation; nothing else changes. */
  lemma SubmittedExactly(domain: nat, rows: map<nat, Row>, wire: Wire, s: Setting)
    requires forall t | t in rows :: RowOk(rows[t], domain, t)
    ensures var after := Next(domain, rows, Event.Submit(wire, s));
      && after.Keys == rows.Keys
      && (forall t | t in rows && (wire.Undecodable? || t != wire.request.target || !Admissible(domain, rows, wire.request, s)) ::
            after[t] == rows[t])
      && (wire.Decoded? && Admissible(domain, rows, wire.request, s) ==>
            var row := after[wire.request.target];
            && row.generation == rows[wire.request.target].generation + 1 && row.history == rows[wire.request.target].history
            && row.current == Some(Active(wire.request.operation, wire.request)))
  {
    AnsweredExactly(domain, rows, wire, s);
    if wire.Decoded? && Admissible(domain, rows, wire.request, s) { assert !Fails(TIME, wire.request, domain, rows.Keys, s); }
  }

  /** The request in progress is recycled exactly when its own lifecycle has been published,
      acknowledged and is READY; its receipt joins the newest ones, of which `retain` are kept. */
  lemma RecycledExactly(domain: nat, rows: map<nat, Row>, t: nat, c: Closing, retain: int)
    requires (forall u | u in rows :: RowOk(rows[u], domain, u)) && t in rows
    ensures var (row, after) := (rows[t], Next(domain, rows, Recycle(t, c, retain)));
      var closes := c.ready && c.confirmed && c.acknowledged && row.current != None && c.binding == BindingOf(row.current.value.fingerprint);
      && after == rows[t := after[t]] && after[t].generation == row.generation
      && RecycleFault(row, c, retain) == (if retain < 1 || retain > 128 then Some(CAPACITY) else if closes then None else Some(UNCONSUMED))
      && if closes && 1 <= retain <= 128 then
           var all := row.history + [Receipt(row.current.value.operation, row.current.value.fingerprint, c.result)];
           && after[t].current == None
           && after[t].history == all[if |all| <= retain then 0 else |all| - retain..]
         else after[t] == row
  {
    var row := rows[t];
    if RecycleFault(row, c, retain) == None {
      RecycledIs(row, c, retain, domain, t);
    }
  }

  // ---- Over runs ----------------------------------------------------------------------------------------

  /** The rows after the first n events. */
  function At(domain: nat, rows: map<nat, Row>, events: seq<Event>, n: nat): map<nat, Row>
    requires n <= |events|
    decreases n
  {
    if n == 0 then rows else Next(domain, At(domain, rows, events, n - 1), events[n - 1])
  }

  lemma {:induction false} AtOk(domain: nat, rows: map<nat, Row>, events: seq<Event>, n: nat)
    requires n <= |events| && forall t | t in rows :: RowOk(rows[t], domain, t)
    ensures At(domain, rows, events, n).Keys == rows.Keys
    ensures forall t | t in rows :: RowOk(At(domain, rows, events, n)[t], domain, t)
    decreases n
  {
    if n > 0 {
      AtOk(domain, rows, events, n - 1);
      NextOk(domain, At(domain, rows, events, n - 1), events[n - 1]);
    }
  }

  /** This event submits the request, sound and next in line, to these rows. */
  ghost predicate Submits(domain: nat, rows: map<nat, Row>, e: Event, r: Request) {
    e.Submit? && e.wire == Decoded(r) && Admissible(domain, rows, r, e.setting)
  }

  /** What one event adds to the record of a target, and what it drops. */
  lemma RecordsExactly(domain: nat, rows: map<nat, Row>, e: Event, t: nat, r: Request)
    requires (forall u | u in rows :: RowOk(rows[u], domain, u)) && t in rows && t in Next(domain, rows, e)
    requires Recorded(Next(domain, rows, e)[t], r) && !Recorded(rows[t], r)
    ensures r.target == t && Submits(domain, rows, e, r)
  {
    match e
    case Submit(wire, s) =>
      AnsweredExactly(domain, rows, wire, s);
      if Judged(domain, rows, wire, s).disposition == ADMITTED && Clock(s.now) && wire.request.target == t {
        var i: nat :| (i < |rows[t].history| && rows[t].history[i].fingerprint == r) || wire.request == r;
      }
    case Recycle(u, c, retain) =>
      if u == t && RecycleFault(rows[t], c, retain) == None { RecycledKeeps(rows[t], c, retain, r, domain, t); }
  }

  lemma RecycledKeeps(row: Row, c: Closing, retain: nat, r: Request, domain: nat, t: nat)
    requires RowOk(row, domain, t) && RecycleFault(row, c, retain) == None && Recorded(Recycled(row, c, retain), r)
    ensures Recorded(row, r)
  {
    RecycledIs(row, c, retain, domain, t);
    var all := row.history + [Receipt(row.current.value.operation, row.current.value.fingerprint, c.result)];
    var h := Newest(all, retain);
    var i :| 0 <= i < |h| && h[i].fingerprint == r;
    var j := |all| - |h| + i;
    assert all[j] == h[i];
    if j < |row.history| { assert row.history[j] == all[j]; }
  }

  /** The n-th event recorded this request, or it was recorded before. */
  lemma RecordedSince(domain: nat, targets: set<nat>, events: seq<Event>, n: nat, t: nat, r: Request)
    requires 0 < n <= |events| && t in At(domain, Fresh(targets), events, n) && Recorded(At(domain, Fresh(targets), events, n)[t], r)
    ensures var before := At(domain, Fresh(targets), events, n - 1);
      && t in before
      && (Recorded(before[t], r) || (r.target == t && Submits(domain, before, events[n - 1], r)))
  {
    AtOk(domain, Fresh(targets), events, n - 1);
    var before := At(domain, Fresh(targets), events, n - 1);
    NextOk(domain, before, events[n - 1]);
    if !Recorded(before[t], r) { RecordsExactly(domain, before, events[n - 1], t, r); }
  }

  /** In every run, each request in progress or on record was submitted, and then it was sound
      and next in line: its payload was the one its digest names, its time had not passed, and its
      target was idle. */
  lemma {:induction false} RecordedWasAdmissible(domain: nat, targets: set<nat>, events: seq<Event>, n: nat, t: nat, r: Request) returns (i: nat)
    requires n <= |events| && t in At(domain, Fresh(targets), events, n) && Recorded(At(domain, Fresh(targets), events, n)[t], r)
    ensures i < n && r.target == t && Submits(domain, At(domain, Fresh(targets), events, i), events[i], r)
    decreases n
  {
    RecordedSince(domain, targets, events, n, t, r);
    if Recorded(At(domain, Fresh(targets), events, n - 1)[t], r) {
      i := RecordedWasAdmissible(domain, targets, events, n - 1, t, r);
    } else {
      i := n - 1;
    }
  }
}
