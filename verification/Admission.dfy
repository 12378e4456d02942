/**
  Admission of requests and recycling of finished ones.  Histories are bounded, and the bound
  may differ from call to call; generations make duplicates detectable all the same.
 */
module Admission {
  import opened Basics
  import opened Command

  /** The request in progress; its fingerprint digests the whole request. */
  datatype Active = Active(operation: OperationId, fingerprint: Request)

  datatype Receipt = Receipt(operation: OperationId, fingerprint: Request, result: Option<Facts>)

  /** `history` is the insertion-ordered table of retained receipts, oldest first. */
  datatype Row = Row(generation: nat, current: Option<Active>, history: seq<Receipt>)

  datatype Disposition = ADMITTED | DUPLICATE | REJECTED
  datatype Ingress = Ingress(disposition: Disposition, reason: Option<Reason>, operation: Option<OperationId>)

  /** What `decode_request` makes of the raw bytes. */
  datatype Wire = Undecodable(reason: Reason) | Decoded(request: Request)

  predicate Retains(h: seq<Receipt>, op: OperationId) { exists i :: 0 <= i < |h| && h[i].operation == op }

  function Retained(h: seq<Receipt>, op: OperationId): (r: Receipt)
    requires Retains(h, op)
    ensures r in h && r.operation == op
  {
    if h[0].operation == op then h[0] else Retained(h[1..], op)
  }

  /** The fingerprint already known for this operation, current or retained. */
  function Known(row: Row, op: OperationId): Option<Request> {
    if row.current.Some? && row.current.value.operation == op then Some(row.current.value.fingerprint)
    else if Retains(row.history, op) then Some(Retained(row.history, op).fingerprint)
    else None
  }

  /** Why a valid request that is not known is not admitted. */
  function Obstacle(row: Row, r: Request, now: int, hasCapacity: bool): Option<Reason> {
    if row.current.Some? then Some(BUSY)
    else if r.generation <= row.generation then Some(STALE_GENERATION)
    else if r.generation != row.generation + 1 then Some(GENERATION_GAP)
    else if now >= r.claimDeadline then Some(EXPIRED)
    else if !hasCapacity then Some(CAPACITY)
    else None
  }

  /** What surrounds one submit. */
  datatype Setting = Setting(now: int, artifacts: map<nat, Descriptor>, fits: bool, hasCapacity: bool)

  function Judged(domain: nat, rows: map<nat, Row>, wire: Wire, s: Setting): Ingress {
    match wire
    case Undecodable(reason) => Ingress(REJECTED, Some(reason), None)
    case Decoded(r) =>
      match Refusal(r, domain, rows.Keys, s.now, s.artifacts, s.fits)
      case Some(reason) => Ingress(REJECTED, Some(reason), None)
      case None =>
        var row := rows[r.target];
        match Known(row, r.operation)
        case Some(fingerprint) =>
          if fingerprint == r then Ingress(DUPLICATE, None, Some(r.operation))
          else Ingress(REJECTED, Some(ID_CONFLICT), Some(r.operation))
        case None =>
          match Obstacle(row, r, s.now, s.hasCapacity)
          case Some(reason) => Ingress(REJECTED, Some(reason), Some(r.operation))
          case None => Ingress(ADMITTED, None, Some(r.operation))
  }

  function Admitted(rows: map<nat, Row>, r: Request): map<nat, Row>
    requires r.target in rows
  {
    rows[r.target := Row(r.generation, Some(Active(r.operation, r)), rows[r.target].history)]
  }

  /** What recycling needs to know of the lifecycle it is handed. */
  datatype Closing = Closing(ready: bool, acknowledged: bool, confirmed: bool, binding: Binding, result: Option<Facts>)

  function RecycleFault(row: Row, c: Closing, retain: int): Option<Reason> {
    if !(1 <= retain <= 128) then Some(CAPACITY)
    else if row.current.None? || !c.ready || !c.acknowledged || !c.confirmed
         || c.binding != BindingOf(row.current.value.fingerprint) then Some(UNCONSUMED)
    else None
  }

  /** Storing under a key that is present keeps its place; a new key goes last. */
  function Stored(h: seq<Receipt>, r: Receipt): seq<Receipt> {
    if h == [] then [r]
    else if h[0].operation == r.operation then [r] + h[1..]
    else [h[0]] + Stored(h[1..], r)
  }

  function Newest(h: seq<Receipt>, retain: nat): seq<Receipt> {
    if |h| <= retain then h else h[|h| - retain..]
  }

  function Recycled(row: Row, c: Closing, retain: nat): Row
    requires row.current.Some?
  {
    var a := row.current.value;
    Row(row.generation, None, Newest(Stored(row.history, Receipt(a.operation, a.fingerprint, c.result)), retain))
  }

  // ---- The invariant of one row -----------------------------------------------------------------

  function Finished(row: Row): nat {
    if row.current.Some? && row.generation > 0 then row.generation - 1 else row.generation
  }

  /** This identity and its fingerprint are those of one generation of the target. */
  predicate Names(op: OperationId, r: Request, domain: nat, target: nat, generation: nat) {
    && op == OperationId(domain, target, generation) == r.operation && r.generation == generation
    && r.target == target && r.domain == domain
  }

  /** A run of generations in order that ends with `last`. */
  predicate RunTo(h: seq<Receipt>, domain: nat, target: nat, last: nat) {
    |h| <= last && forall i | 0 <= i < |h| :: Names(h[i].operation, h[i].fingerprint, domain, target, last - |h| + 1 + i)
  }

  /** The history is the contiguous run of the generations recycled last. */
  predicate Contiguous(row: Row, domain: nat, target: nat) {
    RunTo(row.history, domain, target, Finished(row))
  }

  predicate RowOk(row: Row, domain: nat, target: nat) {
    && Contiguous(row, domain, target)
    && (row.current.None? || (row.generation > 0
          && Names(row.current.value.operation, row.current.value.fingerprint, domain, target, row.generation)))
  }

  lemma {:induction false} StoredNew(h: seq<Receipt>, r: Receipt)
    requires !Retains(h, r.operation)
    ensures Stored(h, r) == h + [r]
    decreases |h|
  {
    if h != [] {
      forall i | 0 <= i < |h[1..]| ensures h[1..][i].operation != r.operation {
        assert h[1..][i] == h[i + 1];
      }
      StoredNew(h[1..], r);
    }
  }

  /** The closing receipt is new, so it goes last. */
  lemma RecycledIs(row: Row, c: Closing, retain: nat, domain: nat, target: nat)
    requires RowOk(row, domain, target) && row.current.Some?
    ensures var a := row.current.value;
      Recycled(row, c, retain) == Row(row.generation, None, Newest(row.history + [Receipt(a.operation, a.fingerprint, c.result)], retain))
  {
    forall i | 0 <= i < |row.history| ensures row.history[i].operation != row.current.value.operation {}
    StoredNew(row.history, Receipt(row.current.value.operation, row.current.value.fingerprint, c.result));
  }

  lemma RunAppends(h: seq<Receipt>, x: Receipt, domain: nat, target: nat, last: nat)
    requires RunTo(h, domain, target, last) && Names(x.operation, x.fingerprint, domain, target, last + 1)
    ensures RunTo(h + [x], domain, target, last + 1)
  {}

  lemma RunSuffix(h: seq<Receipt>, k: nat, domain: nat, target: nat, last: nat)
    requires RunTo(h, domain, target, last) && k <= |h|
    ensures RunTo(h[k..], domain, target, last)
  {}

  lemma RecycledOk(row: Row, c: Closing, retain: nat, domain: nat, target: nat)
    requires RowOk(row, domain, target) && RecycleFault(row, c, retain).None?
    ensures RowOk(Recycled(row, c, retain), domain, target)
    ensures |Recycled(row, c, retain).history| == if |row.history| < retain then |row.history| + 1 else retain
    ensures var last := Recycled(row, c, retain).history;
      last != [] && last[|last| - 1] == Receipt(row.current.value.operation, row.current.value.fingerprint, c.result)
  {
    RecycledIs(row, c, retain, domain, target);
    var x := Receipt(row.current.value.operation, row.current.value.fingerprint, c.result);
    RunAppends(row.history, x, domain, target, Finished(row));
    var all := row.history + [x];
    RunSuffix(all, if |all| <= retain then 0 else |all| - retain, domain, target, row.generation);
    assert Recycled(row, c, retain).history == all[if |all| <= retain then 0 else |all| - retain..];
  }

  /** The fingerprint of a generation, by arithmetic alone. */
  function ByGeneration(row: Row, g: nat): Option<Request>
    requires |row.history| <= Finished(row)
  {
    var low := Finished(row) - |row.history|;
    if row.current.Some? && g == row.generation then Some(row.current.value.fingerprint)
    else if low < g <= Finished(row) then Some(row.history[g - 1 - low].fingerprint)
    else None
  }

  /** What a valid request is answered, from generations alone: a bounded history loses no
      duplicate, because a forgotten generation is stale, or arrives while the target is busy. */
  function Reference(row: Row, r: Request, now: int, hasCapacity: bool): Ingress
    requires |row.history| <= Finished(row)
  {
    var known := ByGeneration(row, r.generation);
    if known == Some(r) then Ingress(DUPLICATE, None, Some(r.operation))
    else
      var reason :=
        if known.Some? then Some(ID_CONFLICT)
        else if row.current.Some? then Some(BUSY)
        else if r.generation <= row.generation then Some(STALE_GENERATION)
        else if r.generation > row.generation + 1 then Some(GENERATION_GAP)
        else if now >= r.claimDeadline then Some(EXPIRED)
        else if !hasCapacity then Some(CAPACITY)
        else None;
      Ingress(if reason.Some? then REJECTED else ADMITTED, reason, Some(r.operation))
  }

  lemma RetainedAt(row: Row, domain: nat, target: nat, i: nat)
    requires Contiguous(row, domain, target) && i < |row.history|
    ensures Retains(row.history, row.history[i].operation)
    ensures Retained(row.history, row.history[i].operation) == row.history[i]
  {
    var x := Retained(row.history, row.history[i].operation);
    var j :| 0 <= j < |row.history| && row.history[j] == x;
  }

  /** The table lookup agrees with arithmetic on generations. */
  lemma AnswersByGeneration(domain: nat, rows: map<nat, Row>, r: Request, s: Setting)
    requires Refusal(r, domain, rows.Keys, s.now, s.artifacts, s.fits).None?
    requires RowOk(rows[r.target], domain, r.target)
    ensures Judged(domain, rows, Decoded(r), s) == Reference(rows[r.target], r, s.now, s.hasCapacity)
  {
    var row := rows[r.target];
    var low := Finished(row) - |row.history|;
    if low < r.generation <= Finished(row) {
      RetainedAt(row, domain, r.target, r.generation - 1 - low);
    } else {
      forall i | 0 <= i < |row.history| ensures row.history[i].operation != r.operation {}
    }
  }

  /** What an admission says of its request and of the row it finds. */
  lemma AdmittedMeans(domain: nat, rows: map<nat, Row>, wire: Wire, s: Setting)
    requires Judged(domain, rows, wire, s).disposition.ADMITTED?
    ensures wire.Decoded? && wire.request.target in rows && WellShaped(wire.request)
    ensures var r, row := wire.request, rows[wire.request.target];
      row.current.None? && r.generation == row.generation + 1 && s.now < r.claimDeadline && s.hasCapacity
      && Names(r.operation, r, domain, r.target, r.generation)
  {}

  lemma AdmittedOk(domain: nat, rows: map<nat, Row>, wire: Wire, s: Setting)
    requires forall t | t in rows :: RowOk(rows[t], domain, t)
    requires Judged(domain, rows, wire, s).disposition.ADMITTED?
    ensures wire.Decoded? && wire.request.target in rows
    ensures wire.request.operation == OperationId(domain, wire.request.target, rows[wire.request.target].generation + 1)
    ensures forall t | t in rows :: RowOk(Admitted(rows, wire.request)[t], domain, t)
  {}

  // ---- Runs ---------------------------------------------------------------------------------------

  datatype Event = Submit(wire: Wire, setting: Setting) | Recycle(target: nat, closing: Closing, retain: int)

  function Next(domain: nat, rows: map<nat, Row>, e: Event): map<nat, Row> {
    match e
    case Submit(wire, s) =>
      if Clock(s.now) && Judged(domain, rows, wire, s).disposition.ADMITTED? then Admitted(rows, wire.request) else rows
    case Recycle(t, c, retain) =>
      if t in rows && RecycleFault(rows[t], c, retain).None? then rows[t := Recycled(rows[t], c, retain)] else rows
  }

  function Run(domain: nat, rows: map<nat, Row>, events: seq<Event>): map<nat, Row> {
    if events == [] then rows else Run(domain, Next(domain, rows, events[0]), events[1..])
  }

  function Admits(domain: nat, rows: map<nat, Row>, e: Event, t: nat): seq<OperationId> {
    if e.Submit? && Clock(e.setting.now) && Judged(domain, rows, e.wire, e.setting).disposition.ADMITTED?
       && e.wire.request.target == t
    then [e.wire.request.operation] else []
  }

  /** The operations admitted for one target, in order. */
  function Admissions(domain: nat, rows: map<nat, Row>, events: seq<Event>, t: nat): seq<OperationId> {
    if events == [] then []
    else Admits(domain, rows, events[0], t) + Admissions(domain, Next(domain, rows, events[0]), events[1..], t)
  }

  /** The operations of one target whose generations follow `before`, up to `last`. */
  function Generations(domain: nat, t: nat, before: nat, last: nat): seq<OperationId>
    requires before <= last
  {
    if last == before then [] else Generations(domain, t, before, last - 1) + [OperationId(domain, t, last)]
  }

  lemma {:induction false} GenerationsJoin(domain: nat, t: nat, a: nat, b: nat, c: nat)
    requires a <= b <= c
    ensures Generations(domain, t, a, b) + Generations(domain, t, b, c) == Generations(domain, t, a, c)
    decreases c
  {
    if b < c { GenerationsJoin(domain, t, a, b, c - 1); }
  }

  lemma {:induction false} GenerationAt(domain: nat, t: nat, a: nat, b: nat, i: nat)
    requires a <= b && i < b - a
    ensures |Generations(domain, t, a, b)| == b - a
    ensures Generations(domain, t, a, b)[i] == OperationId(domain, t, a + i + 1)
    decreases b
  {
    GenerationsSize(domain, t, a, b - 1);
    if i < b - 1 - a { GenerationAt(domain, t, a, b - 1, i); }
  }

  lemma {:induction false} GenerationsSize(domain: nat, t: nat, a: nat, b: nat)
    requires a <= b
    ensures |Generations(domain, t, a, b)| == b - a
    decreases b
  {
    if a < b { GenerationsSize(domain, t, a, b - 1); }
  }

  lemma NextOk(domain: nat, rows: map<nat, Row>, e: Event)
    requires forall t | t in rows :: RowOk(rows[t], domain, t)
    ensures Next(domain, rows, e).Keys == rows.Keys
    ensures forall t | t in rows :: RowOk(Next(domain, rows, e)[t], domain, t)
    ensures forall t | t in rows ::
      rows[t].generation <= Next(domain, rows, e)[t].generation
      && Admits(domain, rows, e, t) == Generations(domain, t, rows[t].generation, Next(domain, rows, e)[t].generation)
  {
    match e
    case Submit(wire, s) =>
      if Clock(s.now) && Judged(domain, rows, wire, s).disposition.ADMITTED? { AdmittedOk(domain, rows, wire, s); }
    case Recycle(t, c, retain) =>
      if t in rows && RecycleFault(rows[t], c, retain).None? { RecycledOk(rows[t], c, retain, domain, t); }
  }

  /** Over any run the operations admitted for a target are exactly its next generations, in
      order and without gaps; so none is ever admitted twice. */
  lemma {:induction false} AdmitsEachGenerationOnce(domain: nat, rows: map<nat, Row>, events: seq<Event>, t: nat)
    requires (forall u | u in rows :: RowOk(rows[u], domain, u)) && t in rows
    ensures var last := Run(domain, rows, events);
      && last.Keys == rows.Keys && (forall u | u in last :: RowOk(last[u], domain, u))
      && rows[t].generation <= last[t].generation
      && Admissions(domain, rows, events, t) == Generations(domain, t, rows[t].generation, last[t].generation)
    decreases |events|
  {
    if events != [] {
      var next := Next(domain, rows, events[0]);
      NextOk(domain, rows, events[0]);
      AdmitsEachGenerationOnce(domain, next, events[1..], t);
      GenerationsJoin(domain, t, rows[t].generation, next[t].generation, Run(domain, next, events[1..])[t].generation);
    }
  }

  function Fresh(targets: set<nat>): map<nat, Row> { map t | t in targets :: Row(0, None, []) }

  lemma NoOperationTwice(domain: nat, targets: set<nat>, events: seq<Event>, t: nat, i: nat, j: nat)
    requires t in targets && i < j < |Admissions(domain, Fresh(targets), events, t)|
    ensures Admissions(domain, Fresh(targets), events, t)[i] == OperationId(domain, t, i + 1)
    ensures Admissions(domain, Fresh(targets), events, t)[i] != Admissions(domain, Fresh(targets), events, t)[j]
  {
    AdmitsEachGenerationOnce(domain, Fresh(targets), events, t);
    var last := Run(domain, Fresh(targets), events)[t].generation;
    GenerationsSize(domain, t, 0, last);
    GenerationAt(domain, t, 0, last, i);
    GenerationAt(domain, t, 0, last, j);
  }

  // ---- The model as the program writes it ------------------------------------------------------------

  class AdmissionModel {
    const domain: nat
    var rows: map<nat, Row>

    constructor (d: nat, targets: set<nat>)
      ensures domain == d && rows == Fresh(targets)
    {
      domain := d;
      rows := Fresh(targets);
    }

    method Submit(wire: Wire, s: Setting) returns (receipt: Result<Ingress, Reason>)
      modifies this
      ensures rows == Next(domain, old(rows), Event.Submit(wire, s))
      ensures receipt == if Clock(s.now) then Ok(Judged(domain, old(rows), wire, s)) else Err(TIME_RANGE)
      ensures receipt.Err? || !receipt.value.disposition.ADMITTED? ==> rows == old(rows)
    {
      if !Clock(s.now) { return Err(TIME_RANGE); }
      if wire.Undecodable? { return Ok(Ingress(REJECTED, Some(wire.reason), None)); }
      var r := wire.request;
      var refusal := Refusal(r, domain, rows.Keys, s.now, s.artifacts, s.fits);
      if refusal.Some? { return Ok(Ingress(REJECTED, refusal, None)); }
      var row := rows[r.target];
      var known := Known(row, r.operation);
      if known.Some? {
        if known.value != r { return Ok(Ingress(REJECTED, Some(ID_CONFLICT), Some(r.operation))); }
        return Ok(Ingress(DUPLICATE, None, Some(r.operation)));
      }
      var obstacle := Obstacle(row, r, s.now, s.hasCapacity);
      if obstacle.Some? { return Ok(Ingress(REJECTED, obstacle, Some(r.operation))); }
      rows := rows[r.target := row.(generation := r.generation, current := Some(Active(r.operation, r)))];
      return Ok(Ingress(ADMITTED, None, Some(r.operation)));
    }

    /** The eviction drops the oldest receipts until the bound of this call is met. */
    method Recycle(target: nat, c: Closing, retain: int) returns (fault: Option<Reason>)
      requires target in rows
      modifies this
      ensures fault == RecycleFault(old(rows)[target], c, retain)
      ensures rows == Next(domain, old(rows), Event.Recycle(target, c, retain))
    {
      var row := rows[target];
      fault := RecycleFault(row, c, retain);
      if fault.Some? { return; }
      var a := row.current.value;
      var all := Stored(row.history, Receipt(a.operation, a.fingerprint, c.result));
      var h := all;
      while |h| > retain
        invariant |h| <= |all| && h == all[|all| - |h|..] && (|h| == |all| || |h| >= retain)
      {
        h := h[1..];
      }
      rows := rows[target := Row(row.generation, None, h)];
    }
  }
}
