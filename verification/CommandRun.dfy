/** Admission, lifecycle and recycling together: what the next generation of a target proves
    about the one before it. */
module CommandRun {
  import opened Basics
  import opened Command
  import A = Admission
  import L = Lifecycle

  /** `acked` records, for each operation, the result its accepted acknowledgement named. */
  datatype World = World(rows: map<nat, A.Row>, lives: map<OperationId, L.Life>,
                         requests: map<OperationId, Request>, acked: map<OperationId, Facts>)

  /** `Finish` recycles a target with the lifecycle kept for some operation. */
  datatype Act =
    | Send(wire: A.Wire, setting: A.Setting)
    | Drive(operation: OperationId, move: L.Move)
    | Finish(target: nat, operation: OperationId, retain: int)

  function ClosingOf(s: L.Life): A.Closing {
    A.Closing(s.stage.READY?, s.consumption.ACKNOWLEDGED?, s.publication.CONFIRMED?, s.binding, s.resultSha)
  }

  function Entered(w: World, r: Request): World
    requires r.target in w.rows
  {
    w.(rows := A.Admitted(w.rows, r), lives := w.lives[r.operation := L.Initial(r)], requests := w.requests[r.operation := r])
  }

  function Sent(domain: nat, w: World, wire: A.Wire, s: A.Setting): World {
    if Clock(s.now) && A.Judged(domain, w.rows, wire, s).disposition.ADMITTED? then Entered(w, wire.request) else w
  }

  function Updated(w: World, op: OperationId, life: L.Life, ack: Option<Facts>): World {
    w.(lives := w.lives[op := life], acked := if ack.Some? then w.acked[op := ack.value] else w.acked)
  }

  /** The result an accepted acknowledgement names. */
  function AckOf(r: Request, s: L.Life, m: L.Move): Option<Facts> {
    if L.Applies(r, s, m, L.Acknowledge) && m.event.ack.Some? then Some(m.event.ack.value.result) else None
  }

  function Driven(w: World, op: OperationId, m: L.Move): World {
    if op in w.lives && op in w.requests then
      Updated(w, op, L.After(w.requests[op], w.lives[op], m), AckOf(w.requests[op], w.lives[op], m))
    else w
  }

  function Finished(w: World, t: nat, op: OperationId, retain: int): World {
    if t in w.rows && op in w.lives && A.RecycleFault(w.rows[t], ClosingOf(w.lives[op]), retain).None?
    then w.(rows := w.rows[t := A.Recycled(w.rows[t], ClosingOf(w.lives[op]), retain)])
    else w
  }

  function Next(domain: nat, w: World, a: Act): World {
    match a
    case Send(wire, s) => Sent(domain, w, wire, s)
    case Drive(op, m) => Driven(w, op, m)
    case Finish(t, op, retain) => Finished(w, t, op, retain)
  }

  function Run(domain: nat, w: World, acts: seq<Act>): World
    decreases |acts|
  {
    if acts == [] then w else Run(domain, Next(domain, w, acts[0]), acts[1..])
  }

  function Empty(targets: set<nat>): World { World(A.Fresh(targets), map[], map[], map[]) }

  // ---- The invariant ------------------------------------------------------------------------------

  /** The operation's lifecycle is that of its request, and its acknowledgement named its result. */
  predicate Followed(w: World, op: OperationId, domain: nat, t: nat, g: nat) {
    && op in w.lives && op in w.requests && L.LifeOk(w.requests[op], w.lives[op])
    && A.Names(op, w.requests[op], domain, t, g)
    && (w.lives[op].consumption.ACKNOWLEDGED? ==> op in w.acked && Some(w.acked[op]) == w.lives[op].resultSha)
  }

  /** Published, consumed with the exact digest of its result, and recycled. */
  predicate Closed(w: World, op: OperationId) {
    && op in w.lives && op in w.acked && w.lives[op].stage.READY? && w.lives[op].publication.CONFIRMED?
    && w.lives[op].resultSha == Some(w.acked[op])
  }

  predicate ReceiptOk(w: World, x: A.Receipt) {
    x.operation in w.requests && x.operation in w.acked && x.fingerprint == w.requests[x.operation]
    && x.result == Some(w.acked[x.operation])
  }

  ghost predicate TargetOk(domain: nat, w: World, t: nat)
    requires t in w.rows
  {
    var row := w.rows[t];
    && A.RowOk(row, domain, t)
    && (forall g: nat | 1 <= g <= row.generation :: Followed(w, OperationId(domain, t, g), domain, t, g))
    && (forall g: nat | 1 <= g <= A.Finished(row) :: Closed(w, OperationId(domain, t, g)))
    && (forall x | x in row.history :: ReceiptOk(w, x))
    && (row.current.None? || (row.current.value.operation in w.requests
          && row.current.value.fingerprint == w.requests[row.current.value.operation]))
  }

  ghost predicate WorldOk(domain: nat, w: World) {
    && (forall t | t in w.rows :: TargetOk(domain, w, t))
    && (forall op | op in w.lives :: op.OperationId? && op.domain == domain && op.target in w.rows
                                     && 1 <= op.generation <= w.rows[op.target].generation)
  }

  predicate Agree(w: World, v: World, op: OperationId) {
    && (op in w.lives ==> op in v.lives && v.lives[op] == w.lives[op])
    && (op in w.requests ==> op in v.requests && v.requests[op] == w.requests[op])
    && (op in w.acked ==> op in v.acked && v.acked[op] == w.acked[op])
  }

  lemma FollowedStays(w: World, v: World, op: OperationId, domain: nat, t: nat, g: nat)
    requires Agree(w, v, op) && Followed(w, op, domain, t, g)
    ensures Followed(v, op, domain, t, g) && (Closed(w, op) ==> Closed(v, op))
  {}

  /** A target none of whose operations is touched. */
  lemma TargetStays(domain: nat, w: World, v: World, t: nat)
    requires t in w.rows && t in v.rows && v.rows[t] == w.rows[t] && TargetOk(domain, w, t)
    requires forall g: nat | 1 <= g <= w.rows[t].generation :: Agree(w, v, OperationId(domain, t, g))
    ensures TargetOk(domain, v, t)
  {
    var row := w.rows[t];
    forall g: nat | 1 <= g <= row.generation
      ensures Followed(v, OperationId(domain, t, g), domain, t, g)
      ensures g <= A.Finished(row) ==> Closed(v, OperationId(domain, t, g))
    {
      FollowedStays(w, v, OperationId(domain, t, g), domain, t, g);
    }
    forall x | x in row.history ensures ReceiptOk(v, x) {
      var i :| 0 <= i < |row.history| && row.history[i] == x;
      assert Agree(w, v, OperationId(domain, t, A.Finished(row) - |row.history| + 1 + i));
    }
  }

  /** The request is the next generation of an idle target. */
  predicate NextUp(domain: nat, w: World, r: Request) {
    && r.target in w.rows && w.rows[r.target].current.None? && r.generation == w.rows[r.target].generation + 1
    && A.Names(r.operation, r, domain, r.target, r.generation) && WellShaped(r)
  }

  lemma EnteredTarget(domain: nat, w: World, r: Request)
    requires NextUp(domain, w, r) && TargetOk(domain, w, r.target) && r.operation !in w.lives
    ensures TargetOk(domain, Entered(w, r), r.target)
  {
    var t, v := r.target, Entered(w, r);
    L.InitialOk(r);
    var row := w.rows[t];
    forall g: nat | 1 <= g <= row.generation
      ensures Followed(v, OperationId(domain, t, g), domain, t, g) && Closed(v, OperationId(domain, t, g))
    {
      FollowedStays(w, v, OperationId(domain, t, g), domain, t, g);
    }
    forall x | x in row.history ensures ReceiptOk(v, x) { assert ReceiptOk(w, x); }
  }

  lemma EnteredOk(domain: nat, w: World, r: Request)
    requires WorldOk(domain, w) && NextUp(domain, w, r)
    ensures WorldOk(domain, Entered(w, r))
  {
    var v := Entered(w, r);
    assert r.operation !in w.lives;
    assert TargetOk(domain, w, r.target);
    EnteredTarget(domain, w, r);
    forall t | t in v.rows && t != r.target ensures TargetOk(domain, v, t) { EnteredElsewhere(domain, w, r, t); }
  }

  lemma EnteredElsewhere(domain: nat, w: World, r: Request, t: nat)
    requires WorldOk(domain, w) && NextUp(domain, w, r) && t in w.rows && t != r.target
    ensures t in Entered(w, r).rows && TargetOk(domain, Entered(w, r), t)
  {
    assert TargetOk(domain, w, t);
    TargetStays(domain, w, Entered(w, r), t);
  }

  lemma SentOk(domain: nat, w: World, wire: A.Wire, s: A.Setting)
    requires WorldOk(domain, w)
    ensures WorldOk(domain, Sent(domain, w, wire, s))
  {
    if Clock(s.now) && A.Judged(domain, w.rows, wire, s).disposition.ADMITTED? {
      A.AdmittedMeans(domain, w.rows, wire, s);
      EnteredOk(domain, w, wire.request);
    }
  }

  lemma AckNamesResult(r: Request, s: L.Life, m: L.Move)
    requires L.LifeOk(r, s)
    ensures AckOf(r, s, m).Some? ==> AckOf(r, s, m) == L.After(r, s, m).resultSha
    ensures L.After(r, s, m).consumption.ACKNOWLEDGED? && !s.consumption.ACKNOWLEDGED? ==> AckOf(r, s, m).Some?
    ensures s.stage.READY? ==> AckOf(r, s, m).None?
  {}

  lemma DrivenFollowed(w: World, op: OperationId, m: L.Move, domain: nat, t: nat, g: nat)
    requires Followed(w, op, domain, t, g)
    ensures Followed(Driven(w, op, m), op, domain, t, g)
    ensures Closed(w, op) ==> L.After(w.requests[op], w.lives[op], m) == w.lives[op]
    ensures Closed(w, op) ==> AckOf(w.requests[op], w.lives[op], m).None?
  {
    L.MovePersists(w.requests[op], w.lives[op], m);
    AckNamesResult(w.requests[op], w.lives[op], m);
  }

  /** Only one operation changes, and a closed one does not. */
  ghost predicate Touches(w: World, v: World, op: OperationId) {
    && v.rows == w.rows && v.requests == w.requests && v.lives.Keys == w.lives.Keys
    && (forall o | o != op :: Agree(w, v, o))
    && (Closed(w, op) ==> Agree(w, v, op))
  }

  /** A receipt in the history is that of a closed operation, which stays as it is. */
  lemma TouchedReceipt(domain: nat, w: World, v: World, op: OperationId, t: nat, i: nat)
    requires t in w.rows && TargetOk(domain, w, t) && Touches(w, v, op) && i < |w.rows[t].history|
    ensures ReceiptOk(v, w.rows[t].history[i])
  {
    var row := w.rows[t];
    var x := row.history[i];
    assert ReceiptOk(w, x);
    assert A.Names(x.operation, x.fingerprint, domain, t, A.Finished(row) - |row.history| + 1 + i);
    assert Closed(w, OperationId(domain, t, A.Finished(row) - |row.history| + 1 + i));
    assert Agree(w, v, x.operation);
  }

  lemma TouchedGeneration(domain: nat, w: World, v: World, op: OperationId, t: nat, g: nat)
    requires t in w.rows && TargetOk(domain, w, t) && Touches(w, v, op) && 1 <= g <= w.rows[t].generation
    requires Followed(w, op, domain, t, g) ==> Followed(v, op, domain, t, g)
    ensures Followed(v, OperationId(domain, t, g), domain, t, g)
    ensures g <= A.Finished(w.rows[t]) ==> Closed(v, OperationId(domain, t, g))
  {
    var o := OperationId(domain, t, g);
    assert Followed(w, o, domain, t, g);
    if o != op { FollowedStays(w, v, o, domain, t, g); }
  }

  lemma TouchedTarget(domain: nat, w: World, v: World, op: OperationId, t: nat)
    requires t in w.rows && TargetOk(domain, w, t) && Touches(w, v, op)
    requires forall g: nat | Followed(w, op, domain, t, g) :: Followed(v, op, domain, t, g)
    ensures TargetOk(domain, v, t)
  {
    var row := w.rows[t];
    forall g: nat | 1 <= g <= row.generation
      ensures Followed(v, OperationId(domain, t, g), domain, t, g)
      ensures g <= A.Finished(row) ==> Closed(v, OperationId(domain, t, g))
    {
      TouchedGeneration(domain, w, v, op, t, g);
    }
    forall x | x in row.history ensures ReceiptOk(v, x) {
      var i :| 0 <= i < |row.history| && row.history[i] == x;
      TouchedReceipt(domain, w, v, op, t, i);
    }
    if row.current.Some? { TouchedGeneration(domain, w, v, op, t, row.generation); }
  }

  lemma UpdatedTouches(w: World, op: OperationId, life: L.Life, ack: Option<Facts>)
    requires op in w.lives && (Closed(w, op) ==> life == w.lives[op] && ack.None?)
    ensures Touches(w, Updated(w, op, life, ack), op)
  {
    assert Updated(w, op, life, ack).lives.Keys == w.lives.Keys;
  }

  lemma FollowedAsNamed(w: World, op: OperationId, domain: nat, t: nat, g: nat)
    requires op.OperationId? && Followed(w, op, domain, t, g)
    ensures t == op.target && g == op.generation
  {}

  lemma UpdatedOk(domain: nat, w: World, op: OperationId, life: L.Life, ack: Option<Facts>)
    requires WorldOk(domain, w) && op in w.lives && op.OperationId?
    requires Closed(w, op) ==> life == w.lives[op] && ack.None?
    requires Followed(w, op, domain, op.target, op.generation) ==>
      Followed(Updated(w, op, life, ack), op, domain, op.target, op.generation)
    ensures WorldOk(domain, Updated(w, op, life, ack))
  {
    var v := Updated(w, op, life, ack);
    UpdatedTouches(w, op, life, ack);
    forall t | t in w.rows ensures TargetOk(domain, v, t) {
      assert TargetOk(domain, w, t);
      forall g: nat | Followed(w, op, domain, t, g) ensures Followed(v, op, domain, t, g) {
        FollowedAsNamed(w, op, domain, t, g);
      }
      TouchedTarget(domain, w, v, op, t);
    }
  }

  lemma DrivenOk(domain: nat, w: World, op: OperationId, m: L.Move)
    requires WorldOk(domain, w)
    ensures WorldOk(domain, Driven(w, op, m))
  {
    if op in w.lives && op in w.requests {
      assert TargetOk(domain, w, op.target);
      assert Followed(w, op, domain, op.target, op.generation);
      DrivenFollowed(w, op, m, domain, op.target, op.generation);
      UpdatedOk(domain, w, op, L.After(w.requests[op], w.lives[op], m), AckOf(w.requests[op], w.lives[op], m));
    }
  }

  lemma FinishedTarget(domain: nat, w: World, t: nat, op: OperationId, retain: int)
    requires t in w.rows && TargetOk(domain, w, t) && op in w.lives
    requires op.OperationId? && Followed(w, op, domain, op.target, op.generation)
    requires A.RecycleFault(w.rows[t], ClosingOf(w.lives[op]), retain).None?
    ensures TargetOk(domain, Finished(w, t, op, retain), t)
  {
    var row, v := w.rows[t], Finished(w, t, op, retain);
    A.RecycledOk(row, ClosingOf(w.lives[op]), retain, domain, t);
    var last := OperationId(domain, t, row.generation);
    assert Followed(w, last, domain, t, row.generation);
    assert op == last;
    forall g: nat | 1 <= g <= row.generation
      ensures Followed(v, OperationId(domain, t, g), domain, t, g) && Closed(v, OperationId(domain, t, g))
    {
      FollowedStays(w, v, OperationId(domain, t, g), domain, t, g);
      if g < row.generation { assert Closed(w, OperationId(domain, t, g)); }
    }
    var a := row.current.value;
    A.StoredNew(row.history, A.Receipt(a.operation, a.fingerprint, w.lives[op].resultSha));
    forall x | x in v.rows[t].history ensures ReceiptOk(v, x) {
      if x in row.history { assert ReceiptOk(w, x); }
    }
  }

  lemma RowReplaced(domain: nat, w: World, v: World, t: nat)
    requires WorldOk(domain, w) && t in w.rows && t in v.rows && v == w.(rows := w.rows[t := v.rows[t]])
    requires v.rows[t].generation == w.rows[t].generation && TargetOk(domain, v, t)
    ensures WorldOk(domain, v)
  {
    forall u | u in v.rows && u != t ensures TargetOk(domain, v, u) {
      assert TargetOk(domain, w, u);
      TargetStays(domain, w, v, u);
    }
  }

  lemma FinishedOk(domain: nat, w: World, t: nat, op: OperationId, retain: int)
    requires WorldOk(domain, w)
    ensures WorldOk(domain, Finished(w, t, op, retain))
  {
    if t in w.rows && op in w.lives && A.RecycleFault(w.rows[t], ClosingOf(w.lives[op]), retain).None? {
      assert TargetOk(domain, w, t) && TargetOk(domain, w, op.target);
      assert Followed(w, op, domain, op.target, op.generation);
      FinishedTarget(domain, w, t, op, retain);
      RowReplaced(domain, w, Finished(w, t, op, retain), t);
    }
  }

  lemma NextOk(domain: nat, w: World, a: Act)
    requires WorldOk(domain, w)
    ensures WorldOk(domain, Next(domain, w, a))
  {
    match a
    case Send(wire, s) => SentOk(domain, w, wire, s);
    case Drive(op, m) => DrivenOk(domain, w, op, m);
    case Finish(t, op, retain) => FinishedOk(domain, w, t, op, retain);
  }

  lemma {:induction false} RunOk(domain: nat, w: World, acts: seq<Act>)
    requires WorldOk(domain, w)
    ensures WorldOk(domain, Run(domain, w, acts))
    decreases |acts|
  {
    if acts != [] {
      NextOk(domain, w, acts[0]);
      RunOk(domain, Next(domain, w, acts[0]), acts[1..]);
    }
  }

  /** In every run, admitting generation g+1 of a target means that generation g was published,
      acknowledged with the digest of its own result, and recycled; the receipt that is kept
      for it, while one is kept, carries that digest. */
  lemma NextGenerationAfterConsumption(domain: nat, targets: set<nat>, acts: seq<Act>, wire: A.Wire, s: A.Setting, g: nat)
    requires var w := Run(domain, Empty(targets), acts); A.Judged(domain, w.rows, wire, s).disposition.ADMITTED?
    requires wire.Decoded? && wire.request.generation == g + 1 && 0 < g
    ensures var w := Run(domain, Empty(targets), acts);
      var before := OperationId(domain, wire.request.target, g);
      && Closed(w, before)
      && (forall x | wire.request.target in w.rows && x in w.rows[wire.request.target].history && x.operation == before ::
            x.result == w.lives[before].resultSha)
  {
    var w := Run(domain, Empty(targets), acts);
    RunOk(domain, Empty(targets), acts);
    var t := wire.request.target;
    A.AdmittedMeans(domain, w.rows, wire, s);
    assert TargetOk(domain, w, t);
    assert Closed(w, OperationId(domain, t, g));
    forall x | x in w.rows[t].history && x.operation == OperationId(domain, t, g)
      ensures x.result == w.lives[x.operation].resultSha
    {
      assert ReceiptOk(w, x);
    }
  }

  /** The composed machine moves its parts exactly as they move by themselves: the rows by one event of
      admission, the operation's life by one of its moves; only an admission begins a life. */
  lemma Components(domain: nat, w: World, a: Act)
    ensures var v := Next(domain, w, a);
      match a
      case Send(wire, s) =>
        && v.rows == A.Next(domain, w.rows, A.Submit(wire, s)) && v.acked == w.acked
        && if Clock(s.now) && A.Judged(domain, w.rows, wire, s).disposition.ADMITTED? then
             var r := wire.request;
             v.lives == w.lives[r.operation := L.Initial(r)] && v.requests == w.requests[r.operation := r]
           else v == w
      case Drive(op, m) =>
        && v.rows == w.rows && v.requests == w.requests && v.lives.Keys == w.lives.Keys
        && (forall o | o in w.lives :: v.lives[o] == if o == op && op in w.requests then L.After(w.requests[o], w.lives[o], m) else w.lives[o])
        && (forall o | o in v.acked && (o !in w.acked || v.acked[o] != w.acked[o]) ::
              o == op && op in w.requests && op in w.lives && L.Applies(w.requests[op], w.lives[op], m, L.Acknowledge)
              && m.event.ack.Some? && v.acked[op] == m.event.ack.value.result)
      case Finish(t, op, retain) =>
        && v.lives == w.lives && v.requests == w.requests && v.acked == w.acked
        && v.rows == if op in w.lives then A.Next(domain, w.rows, A.Recycle(t, ClosingOf(w.lives[op]), retain)) else w.rows
  {
    match a
    case Send(_, _) =>
    case Drive(op, m) => if op in w.lives && op in w.requests { assert Next(domain, w, a).lives.Keys == w.lives.Keys; }
    case Finish(_, _, _) =>
  }
}
