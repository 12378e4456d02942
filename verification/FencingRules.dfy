/** Who is granted the fenced domain, which writes it takes, and where its value came from. */
module FencingRules {
  import opened Basics
  import opened Fencing

  predicate Working(d: Domain) { d.reachable && d.clockCertain }

  /** Somebody holds an unexpired lease. */
  predicate Leased(d: Domain, actor: nat) { d.state.owner == Some(actor) && d.now < d.state.expires }

  /** The domain is granted exactly to an actor that saw it as it is, for a positive time, when nobody
      else holds an unexpired lease, and for the first time only with a commission.  The epoch stays
      exactly for a holder that renews in time. */
  lemma GrantedExactly(d: Domain, seen: Snapshot, actor: nat, ttl: int, commissioned: bool)
    ensures var t := After(d, Acquire(seen, actor, ttl, commissioned));
      var granted := Working(d) && seen == d.state && ttl > 0 && (commissioned || d.state.owner != None)
                     && !exists other :: other != actor && Leased(d, other);
      && (Accepts(d, Acquire(seen, actor, ttl, commissioned)) <==> granted)
      && (!granted ==> t == d)
      && (granted ==>
            && t.state == Snapshot(d.state.revision + 1, Some(actor), t.state.epoch, d.now + ttl, d.state.value)
            && t.state.epoch == (if Leased(d, actor) then d.state.epoch else d.state.epoch + 1)
            && t.trace == d.trace + [Grant(actor, t.state.epoch)]
            && (t.now, t.reachable, t.clockCertain) == (d.now, d.reachable, d.clockCertain))
  {
    if d.state.owner.Some? { assert Leased(d, d.state.owner.value) <==> d.now < d.state.expires; }
  }

  /** A write is taken exactly from the holder of an unexpired lease, in its epoch, on the domain as
      it is; any other is logged and changes nothing. */
  lemma WrittenExactly(d: Domain, seen: Snapshot, actor: nat, epoch: nat, value: nat)
    ensures var t := After(d, Mutate(seen, actor, epoch, value));
      var taken := Working(d) && seen == d.state && Leased(d, actor) && epoch == d.state.epoch;
      && (Accepts(d, Mutate(seen, actor, epoch, value)) <==> taken)
      && t.state == (if taken then d.state.(revision := d.state.revision + 1, value := value) else d.state)
      && t.trace == d.trace + [if taken then Write(actor, epoch) else Refused(actor, epoch)]
      && (t.now, t.reachable, t.clockCertain) == (d.now, d.reachable, d.clockCertain)
  {}

  /** Time, reach and certainty change by themselves, and nothing else does. */
  lemma EnvironmentOnly(d: Domain, now: int, reachable: bool, certain: bool)
    ensures After(d, Environment(now, reachable, certain)) == Domain(d.state, now, reachable, certain, d.trace)
  {}

  /** The domain after the first n operations. */
  function At(d: Domain, ops: seq<Op>, n: nat): Domain
    requires n <= |ops|
    decreases n
  {
    if n == 0 then d else After(At(d, ops, n - 1), ops[n - 1])
  }

  /** The j-th operation is a write that is taken. */
  predicate Writes(d: Domain, ops: seq<Op>, j: nat)
    requires j < |ops|
  {
    ops[j].Mutate? && Accepts(At(d, ops, j), ops[j])
  }

  lemma StepValue(d: Domain, op: Op)
    ensures After(d, op).state.value == if op.Mutate? && Accepts(d, op) then op.value else d.state.value
  {}

  /** The value is the one written last, or nobody has written any. */
  lemma {:induction false} ValueWasWritten(d: Domain, ops: seq<Op>, n: nat) returns (i: nat)
    requires n <= |ops|
    ensures i <= n && forall j | i <= j < n :: !Writes(d, ops, j)
    ensures if i == 0 then At(d, ops, n).state.value == d.state.value
            else Writes(d, ops, i - 1) && ops[i - 1].value == At(d, ops, n).state.value
    decreases n
  {
    if n == 0 {
      i := 0;
    } else {
      i := ValueWasWritten(d, ops, n - 1);
      StepValue(At(d, ops, n - 1), ops[n - 1]);
      if Writes(d, ops, n - 1) { i := n; }
    }
  }
}
