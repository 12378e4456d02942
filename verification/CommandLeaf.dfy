/** Compact leaves of one operation: they leave out the binding, which their reader takes from the
    work record beside them. */
module CommandLeaf {
  import opened Basics
  import opened Command
  import L = Lifecycle

  /** A leaf's own identity and a body without its binding. */
  datatype Leaf<T> = Leaf(operation: OperationId, generation: nat, body: T)

  datatype ResultBody = ResultBody(outcome: Outcome, execution: Ending, exitCode: Option<int>, interruptionProven: bool,
                                   effects: Effects, reason: Why, sha: Facts)
  datatype CancelBody = CancelBody(id: nat, requestedAt: int, state: L.CancelState)
  datatype AckBody = AckBody(result: Facts, consumedAt: int)

  predicate Beside<T>(leaf: Leaf<T>, b: Binding) { leaf.operation == b.operation && leaf.generation == b.generation }

  function CompactResult(v: Verdict, b: Binding): Result<Leaf<ResultBody>, Reason> {
    if v.facts.binding != b then Err(Reason.BINDING)
    else
      match ResultFault(v, b)
      case Some(e) => Err(e)
      case None =>
        var f := v.facts;
        Ok(Leaf(b.operation, b.generation,
                ResultBody(f.outcome, f.execution, f.exitCode, f.interruptionProven, f.effects, f.reason, v.sha)))
  }

  function ExpandResult(leaf: Leaf<ResultBody>, b: Binding): Result<Verdict, Reason> {
    if !Beside(leaf, b) then Err(Reason.BINDING)
    else
      var x := leaf.body;
      var v := Verdict(Facts(b, x.outcome, x.execution, x.exitCode, x.interruptionProven, x.effects, x.reason), x.sha);
      match ResultFault(v, b) case Some(e) => Err(e) case None => Ok(v)
  }

  function CompactCancel(c: L.Cancellation, b: Binding): Result<Leaf<CancelBody>, Reason> {
    if c.binding != b then Err(Reason.BINDING) else Ok(Leaf(b.operation, b.generation, CancelBody(c.id, c.requestedAt, c.state)))
  }

  function ExpandCancel(leaf: Leaf<CancelBody>, b: Binding): Result<L.Cancellation, Reason> {
    if !Beside(leaf, b) then Err(Reason.BINDING)
    else Ok(L.Cancellation(b, leaf.body.id, leaf.body.requestedAt, leaf.body.state))
  }

  function CompactAck(a: L.Ack, b: Binding): Result<Leaf<AckBody>, Reason> {
    if a.binding != b then Err(Reason.BINDING) else Ok(Leaf(b.operation, b.generation, AckBody(a.result, a.consumedAt)))
  }

  function ExpandAck(leaf: Leaf<AckBody>, b: Binding): Result<L.Ack, Reason> {
    if !Beside(leaf, b) then Err(Reason.BINDING) else Ok(L.Ack(b, leaf.body.result, leaf.body.consumedAt))
  }

  /** A result leaf is read back exactly against the work it was written for, and refused against
      any other, because its digest covers the binding. */
  lemma ResultLeafIsBound(v: Verdict, b: Binding, other: Binding)
    requires CompactResult(v, b).Ok?
    ensures ExpandResult(CompactResult(v, b).value, b) == Ok(v)
    ensures ExpandResult(CompactResult(v, b).value, other).Ok? <==> other == b
  {}

  /** Cancellation and acknowledgement leaves carry no digest: they are refused against another
      operation or generation, but read against another payload of the same operation they decode
      to something that was never written. */
  lemma OtherLeavesAreBoundToOperation(c: L.Cancellation, a: L.Ack, b: Binding, other: Binding)
    requires c.binding == b && a.binding == b
    ensures ExpandCancel(CompactCancel(c, b).value, b) == Ok(c) && ExpandAck(CompactAck(a, b).value, b) == Ok(a)
    ensures ExpandCancel(CompactCancel(c, b).value, other).Ok?
      <==> other.operation == b.operation && other.generation == b.generation
    ensures ExpandCancel(CompactCancel(c, b).value, other) == Ok(c) <==> other == b
    ensures ExpandAck(CompactAck(a, b).value, other) == Ok(a) <==> other == b
    ensures ExpandAck(CompactAck(a, b).value, other).Ok?
      <==> other.operation == b.operation && other.generation == b.generation
  {}

  /** A leaf is written exactly for its own binding, and a result only if it is an acceptable one. */
  lemma WrittenExactly(v: Verdict, c: L.Cancellation, a: L.Ack, b: Binding)
    ensures CompactCancel(c, b) == Err(Reason.BINDING) <==> c.binding != b
    ensures CompactAck(a, b) == Err(Reason.BINDING) <==> a.binding != b
    ensures CompactResult(v, b) == Err(Reason.BINDING) <==> v.facts.binding != b
    ensures CompactResult(v, b).Ok? <==> v.facts.binding == b && v.sha == v.facts && Coherent(v.facts)
    ensures CompactCancel(c, b).Ok? <==> c.binding == b
    ensures CompactAck(a, b).Ok? <==> a.binding == b
  {}

  /** And it is read, against some work, exactly as what would be written for that work. */
  lemma ReadExactly(r: Leaf<ResultBody>, x: Leaf<CancelBody>, y: Leaf<AckBody>, v: Verdict, c: L.Cancellation, a: L.Ack, b: Binding)
    ensures ExpandResult(r, b) == Ok(v) <==> CompactResult(v, b) == Ok(r)
    ensures ExpandCancel(x, b) == Ok(c) <==> CompactCancel(c, b) == Ok(x)
    ensures ExpandAck(y, b) == Ok(a) <==> CompactAck(a, b) == Ok(y)
  {}
}
