/** One domain guarded by compare-and-swap, a lease and an epoch: the fencing hypothesis. */
module Fencing {
  import opened Basics

  datatype Snapshot = Snapshot(revision: nat, owner: Option<nat>, epoch: nat, expires: int, value: nat)

  datatype Event = Grant(actor: nat, epoch: nat) | Write(actor: nat, epoch: nat) | Refused(actor: nat, epoch: nat)

  datatype Domain = Domain(state: Snapshot, now: int, reachable: bool, clockCertain: bool, trace: seq<Event>)

  function New(value: nat): Domain { Domain(Snapshot(0, None, 0, 0, value), 0, true, true, []) }

  // ---- The operations -----------------------------------------------------------------------------

  predicate MayAcquire(d: Domain, observed: Snapshot, actor: nat, ttl: int, commissioned: bool) {
    && d.reachable && d.clockCertain && observed == d.state && 0 < ttl
    && (d.state.owner.None? ==> commissioned)
    && (d.state.owner.Some? && d.state.owner.value != actor ==> d.state.expires <= d.now)
  }

  function Renewal(d: Domain, actor: nat): bool { d.state.owner == Some(actor) && d.state.expires > d.now }

  function Acquired(d: Domain, actor: nat, ttl: int): Domain {
    var epoch := if Renewal(d, actor) then d.state.epoch else d.state.epoch + 1;
    d.(state := d.state.(owner := Some(actor), revision := d.state.revision + 1, epoch := epoch, expires := d.now + ttl),
       trace := d.trace + [Grant(actor, epoch)])
  }

  predicate Authorized(d: Domain, actor: nat, epoch: nat) {
    d.reachable && d.clockCertain && d.state.owner == Some(actor) && d.state.epoch == epoch && d.now < d.state.expires
  }

  function Mutated(d: Domain, actor: nat, epoch: nat, value: nat): Domain {
    d.(state := d.state.(revision := d.state.revision + 1, value := value), trace := d.trace + [Write(actor, epoch)])
  }

  datatype Op =
    | Acquire(observed: Snapshot, actor: nat, ttl: int, commissioned: bool)
    | Mutate(observed: Snapshot, actor: nat, epoch: nat, value: nat)
    | Environment(now: int, reachable: bool, clockCertain: bool)

  predicate Accepts(d: Domain, op: Op) {
    match op
    case Acquire(o, actor, ttl, c) => MayAcquire(d, o, actor, ttl, c)
    case Mutate(o, actor, epoch, _) => o == d.state && Authorized(d, actor, epoch)
    case Environment(_, _, _) => true
  }

  function After(d: Domain, op: Op): Domain {
    match op
    case Acquire(_, actor, ttl, _) => if Accepts(d, op) then Acquired(d, actor, ttl) else d
    case Mutate(_, actor, epoch, value) =>
      if Accepts(d, op) then Mutated(d, actor, epoch, value) else d.(trace := d.trace + [Refused(actor, epoch)])
    case Environment(now, reachable, certain) => d.(now := now, reachable := reachable, clockCertain := certain)
  }

  class AtomicDomain {
    var domain: Domain

    constructor (value: nat)
      ensures domain == New(value)
    {
      domain := New(value);
    }

    method Read() returns (s: Option<Snapshot>)
      ensures s == if domain.reachable then Some(domain.state) else None
    {
      if domain.reachable { return Some(domain.state); }
      return None;
    }

    method AcquireLease(observed: Snapshot, actor: nat, ttl: int, commissioned: bool) returns (s: Option<Snapshot>)
      modifies this
      ensures domain == After(old(domain), Acquire(observed, actor, ttl, commissioned))
      ensures s == if MayAcquire(old(domain), observed, actor, ttl, commissioned) then Some(domain.state) else None
    {
      if !domain.reachable || !domain.clockCertain || observed != domain.state || ttl <= 0 { return None; }
      var current := domain.state;
      if current.owner.None? && !commissioned { return None; }
      if current.owner.Some? && current.owner.value != actor && current.expires > domain.now { return None; }
      var epoch := if current.owner == Some(actor) && current.expires > domain.now then current.epoch else current.epoch + 1;
      domain := domain.(state := Snapshot(current.revision + 1, Some(actor), epoch, domain.now + ttl, current.value),
                        trace := domain.trace + [Grant(actor, epoch)]);
      return Some(domain.state);
    }

    method MutateValue(observed: Snapshot, actor: nat, epoch: nat, value: nat) returns (ok: bool)
      modifies this
      ensures domain == After(old(domain), Mutate(observed, actor, epoch, value))
      ensures ok == Accepts(old(domain), Mutate(observed, actor, epoch, value))
    {
      if observed != domain.state || !Authorized(domain, actor, epoch) {
        domain := domain.(trace := domain.trace + [Refused(actor, epoch)]);
        return false;
      }
      domain := domain.(state := domain.state.(revision := domain.state.revision + 1, value := value),
                        trace := domain.trace + [Write(actor, epoch)]);
      return true;
    }
  }

  // ---- Traces ----------------------------------------------------------------------------------------

  predicate Took(e: Event) { !e.Refused? }

  /** Accepted events never go back an epoch, and an epoch has one owner. */
  predicate Fenced(trace: seq<Event>) {
    forall i, j | 0 <= i < j < |trace| && Took(trace[i]) && Took(trace[j]) ::
      trace[i].epoch <= trace[j].epoch && (trace[i].epoch == trace[j].epoch ==> trace[i].actor == trace[j].actor)
  }

  /** Every accepted write comes after the grant of its epoch to its writer. */
  predicate Granted(trace: seq<Event>) {
    forall j | 0 <= j < |trace| && trace[j].Write? :: GrantBefore(trace, j)
  }

  predicate GrantBefore(trace: seq<Event>, j: nat)
    requires j < |trace|
  {
    exists i :: 0 <= i < j && trace[i] == Grant(trace[j].actor, trace[j].epoch)
  }

  predicate DomainOk(d: Domain) {
    && Fenced(d.trace) && Granted(d.trace)
    && (forall i | 0 <= i < |d.trace| && Took(d.trace[i]) ::
          d.trace[i].epoch <= d.state.epoch
          && (d.trace[i].epoch == d.state.epoch ==> d.state.owner == Some(d.trace[i].actor)))
    && (d.state.owner.Some? ==> exists i :: 0 <= i < |d.trace| && d.trace[i] == Grant(d.state.owner.value, d.state.epoch))
  }

  lemma AppendKeeps(trace: seq<Event>, e: Event, epoch: nat)
    requires Fenced(trace) && Granted(trace)
    requires Took(e) ==> forall i | 0 <= i < |trace| && Took(trace[i]) ::
      trace[i].epoch <= e.epoch && (trace[i].epoch == e.epoch ==> trace[i].actor == e.actor)
    requires e.Write? ==> exists i :: 0 <= i < |trace| && trace[i] == Grant(e.actor, e.epoch)
    ensures Fenced(trace + [e]) && Granted(trace + [e])
  {
    var all := trace + [e];
    forall j | 0 <= j < |all| && all[j].Write? ensures GrantBefore(all, j) {
      if j < |trace| {
        assert GrantBefore(trace, j);
        var i :| 0 <= i < j && trace[i] == Grant(trace[j].actor, trace[j].epoch);
        assert all[i] == Grant(all[j].actor, all[j].epoch);
      } else {
        var i :| 0 <= i < |trace| && trace[i] == Grant(e.actor, e.epoch);
        assert all[i] == Grant(all[j].actor, all[j].epoch);
      }
    }
  }

  lemma GrantOk(d: Domain, actor: nat, ttl: int)
    requires DomainOk(d) && (d.state.owner == Some(actor) || !Renewal(d, actor))
    ensures DomainOk(Acquired(d, actor, ttl))
  {
    var t := Acquired(d, actor, ttl);
    AppendKeeps(d.trace, Grant(actor, t.state.epoch), t.state.epoch);
    assert t.trace[|d.trace|] == Grant(actor, t.state.epoch);
  }

  lemma LogOk(d: Domain, e: Event, state: Snapshot)
    requires DomainOk(d) && state.owner == d.state.owner && state.epoch == d.state.epoch && !e.Grant?
    requires e.Write? ==> d.state.owner == Some(e.actor) && d.state.epoch == e.epoch
    ensures DomainOk(d.(state := state, trace := d.trace + [e]))
  {
    var t := d.(state := state, trace := d.trace + [e]);
    AppendKeeps(d.trace, e, state.epoch);
    if t.state.owner.Some? {
      var i :| 0 <= i < |d.trace| && d.trace[i] == Grant(d.state.owner.value, d.state.epoch);
      assert t.trace[i] == Grant(t.state.owner.value, t.state.epoch);
    }
  }

  lemma AfterOk(d: Domain, op: Op)
    requires DomainOk(d)
    ensures DomainOk(After(d, op)) && |d.trace| <= |After(d, op).trace|
    ensures d.state.revision <= After(d, op).state.revision && d.state.epoch <= After(d, op).state.epoch
    ensures d.state.revision == After(d, op).state.revision ==> After(d, op).state == d.state
  {
    match op
    case Acquire(_, actor, ttl, _) => if Accepts(d, op) { GrantOk(d, actor, ttl); }
    case Mutate(_, actor, epoch, value) =>
      if Accepts(d, op) {
        LogOk(d, Write(actor, epoch), Mutated(d, actor, epoch, value).state);
      } else {
        LogOk(d, Refused(actor, epoch), d.state);
      }
    case Environment(_, _, _) =>
  }

  // ---- Runs --------------------------------------------------------------------------------------------

  function Run(d: Domain, ops: seq<Op>): Domain
    decreases |ops|
  {
    if ops == [] then d else Run(After(d, ops[0]), ops[1..])
  }

  lemma NewOk(value: nat)
    ensures DomainOk(New(value))
  {}

  /** In every run, whatever the clock does: epochs of accepted events never fall, each epoch has
      one owner, each write follows the grant of its epoch and precedes every later one; and a
      snapshot, once replaced, never comes back. */
  lemma {:induction false} RunFenced(d: Domain, ops: seq<Op>)
    requires DomainOk(d)
    ensures var t := Run(d, ops);
      && DomainOk(t) && |d.trace| <= |t.trace| && d.state.revision <= t.state.revision && d.state.epoch <= t.state.epoch
      && (d.state.revision == t.state.revision ==> t.state == d.state)
    decreases |ops|
  {
    if ops != [] {
      AfterOk(d, ops[0]);
      RunFenced(After(d, ops[0]), ops[1..]);
    }
  }

  lemma WriteBetweenGrants(value: nat, ops: seq<Op>, i: nat, j: nat)
    requires i < |Run(New(value), ops).trace| && j < |Run(New(value), ops).trace|
    requires Run(New(value), ops).trace[i].Grant? && Run(New(value), ops).trace[j].Write?
    requires Run(New(value), ops).trace[i].epoch > Run(New(value), ops).trace[j].epoch
    ensures j < i && GrantBefore(Run(New(value), ops).trace, j)
  {
    NewOk(value);
    RunFenced(New(value), ops);
  }

  /** A holder that observed the domain before any later accepted operation is refused, by
      snapshot and by epoch. */
  lemma StaleWriteRefused(d: Domain, op: Op, ops: seq<Op>, actor: nat, epoch: nat, value: nat)
    requires DomainOk(d) && After(d, op).state != d.state
    ensures !Accepts(Run(After(d, op), ops), Mutate(d.state, actor, epoch, value))
    ensures var t := Run(After(d, op), ops);
      epoch < t.state.epoch ==> forall observed :: !Accepts(t, Mutate(observed, actor, epoch, value))
  {
    AfterOk(d, op);
    RunFenced(After(d, op), ops);
  }

  // ---- Time ----------------------------------------------------------------------------------------------

  /** Clock readings do not go back. */
  predicate ClockMonotone(d: Domain, ops: seq<Op>)
    decreases |ops|
  {
    ops == [] || ((ops[0].Environment? ==> d.now <= ops[0].now) && ClockMonotone(After(d, ops[0]), ops[1..]))
  }

  /** Every lease that the holder is granted in this run lasts at least until `b`; a caller can see
      this before each call, from the clock and its own `ttl`. */
  predicate RenewsUntil(d: Domain, ops: seq<Op>, actor: nat, b: int)
    decreases |ops|
  {
    ops == [] || ((ops[0].Acquire? && ops[0].actor == actor && Accepts(d, ops[0]) ==> b <= d.now + ops[0].ttl)
                  && RenewsUntil(After(d, ops[0]), ops[1..], actor, b))
  }

  predicate KeepsUntil(d: Domain, t: Domain, actor: nat, b: int) {
    t.now < b ==> t.state.owner == Some(actor) && t.state.epoch == d.state.epoch && b <= t.state.expires
  }

  /** A holder keeps its domain and epoch until `b` if its lease, and every renewal it is granted,
      lasts that long. */
  lemma {:induction false} LeaseProtects(d: Domain, ops: seq<Op>, actor: nat, b: int)
    requires ClockMonotone(d, ops) && d.state.owner == Some(actor) && b <= d.state.expires
    requires RenewsUntil(d, ops, actor, b)
    ensures KeepsUntil(d, Run(d, ops), actor, b)
    decreases |ops|
  {
    if ops != [] {
      var t := After(d, ops[0]);
      TimePasses(t, ops[1..]);
      if t.now < b { LeaseProtects(t, ops[1..], actor, b); }
    }
  }

  /** A renewal for less loses it: once it has run out, another actor is granted the domain. */
  lemma ShortRenewalLoses(d: Domain, op: Op, other: nat, b: int) returns (ops: seq<Op>)
    requires op.Acquire? && Accepts(d, op) && other != op.actor && d.now + op.ttl < b
    ensures ClockMonotone(After(d, op), ops) && RenewsUntil(After(d, op), ops, op.actor, b)
    ensures var t := Run(After(d, op), ops); t.now < b && t.state.owner == Some(other)
  {
    var e := After(d, op);
    var wait := Environment(d.now + op.ttl, true, true);
    var f := After(e, wait);
    var take := Acquire(f.state, other, 1, false);
    ops := [wait, take];
    assert ops[1..] == [take] && [take][1..] == [];
    assert Run(e, ops) == Run(f, [take]) == Run(After(f, take), []) == After(f, take);
    assert ClockMonotone(After(f, take), []) && ClockMonotone(f, [take]);
    assert RenewsUntil(After(f, take), [], op.actor, b) && RenewsUntil(f, [take], op.actor, b);
  }

  /** So a renewal is harmless up to `b`, in all runs that follow, exactly when it lasts until `b`. */
  lemma RenewalIsExact(d: Domain, op: Op, b: int)
    requires op.Acquire? && Accepts(d, op) && d.state.owner == Some(op.actor) && d.now < b <= d.state.expires
    ensures (forall ops | ClockMonotone(After(d, op), ops) && RenewsUntil(After(d, op), ops, op.actor, b) ::
               KeepsUntil(d, Run(After(d, op), ops), op.actor, b))
      <==> b <= d.now + op.ttl
  {
    if b <= d.now + op.ttl {
      forall ops | ClockMonotone(After(d, op), ops) && RenewsUntil(After(d, op), ops, op.actor, b)
        ensures KeepsUntil(d, Run(After(d, op), ops), op.actor, b)
      {
        LeaseProtects(After(d, op), ops, op.actor, b);
      }
    } else {
      var ops := ShortRenewalLoses(d, op, op.actor + 1, b);
      assert !KeepsUntil(d, Run(After(d, op), ops), op.actor, b);
    }
  }

  /** Such a renewal is always possible for the holder of a long lease: one reachable run. */
  lemma EarlyRenewalShortens() returns (d: Domain, ops: seq<Op>)
    ensures DomainOk(d) && d.state.owner == Some(1) && ClockMonotone(d, ops)
    ensures Run(d, ops).now < d.state.expires && Run(d, ops).state.owner == Some(2)
  {
    NewOk(0);
    var first := Acquire(New(0).state, 1, 10, true);
    AfterOk(New(0), first);
    d := After(New(0), first);
    var renew := Acquire(d.state, 1, 1, false);
    var rest := ShortRenewalLoses(d, renew, 2, d.state.expires);
    ops := [renew] + rest;
    assert ops[1..] == rest;
  }

  lemma {:induction false} TimePasses(d: Domain, ops: seq<Op>)
    requires ClockMonotone(d, ops)
    ensures d.now <= Run(d, ops).now
    decreases |ops|
  {
    if ops != [] { TimePasses(After(d, ops[0]), ops[1..]); }
  }
}
