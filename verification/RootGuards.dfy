/**
  Nothing else keeps an action of the object move from being taken: each access and each write is
  enabled whenever what `RootEvidence` says it found holds, and its store is free to be read or
  saved.  Together with `RootEvidence` this gives the exact guard of every step on the fields of
  the world.
 */
module RootGuards {
  import opened Basics
  import opened RootProtocol
  import opened RootOrder
  import opened RootPrefix
  import opened RootEvidence

  /** A live call of a known controller. */
  predicate Known(g: Config, s: State, id: nat) {
    id in s.calls && s.calls[id].ctrl in g.sites && s.calls[id].ctrl in s.world.wals
  }

  /** No advance of this store is between taking its lock and its end. */
  predicate Unlocked(s: State, i: nat) {
    forall id | id in s.calls && s.calls[id].ctrl == i && s.calls[id].Advance? :: Rank(s.calls[id].phase) < 5
  }

  /** The store can be saved by this call: unlocked, nothing staged, and at the revision the call saw. */
  predicate Writable(s: State, c: Call)
    requires c.ctrl in s.world.wals
  {
    && Unlocked(s, c.ctrl)
    && s.world.wals[c.ctrl].staged == Nothing
    && s.world.wals[c.ctrl].revision == if c.Begin? then 0 else c.revision
  }

  /** The call that a first read opens. */
  predicate Starts(step: Step, c: Call)
    requires IsRead(step)
  {
    && c.ctrl == step.ctrl && Level(c) == 1
    && match step
       case BeginInitial(_, _) => c.Begin? && c.first.kind == Initial
       case BeginResumed(_, _, m) => c.Begin? && c.first.kind == Resumed && c.first.index == m
       case Check(_, _) => c.Advance?
       case ObserveRead(_, _) => c.Observe?
       case RevokeRead(_, _) => c.Revoke?
       case ResumeRead(_, _) => c.Resume?
       case CancelRead(_, actor, _) => c.Cancel? && c.actor == actor
       case RecoverRead(_, _) => c.Recovery?
  }

  lemma MovedToIs(g: Config, k: World, c: nat, m: nat)
    requires c in g.sites
    ensures MovedTo(g, k, c, m) <==> Pattern(k, m, g.sites[c].target)
  {}

  lemma BeginExactly(g: Config, s: State, step: Step, c: Call)
    requires (step.BeginInitial? || step.BeginResumed?) && Starts(step, c) && step.id !in s.calls
    requires c.ctrl in g.sites && c.ctrl in s.world.wals
    ensures ReadReady(g, s, step) && Opened(g, s, step) == c <==> Unlocked(s, c.ctrl) && LookEvidence(g, s.world, s.world, c, 1)
  {
    MovedToIs(g, s.world, c.ctrl, c.first.index);
  }

  lemma CheckExactly(g: Config, s: State, step: Step, c: Call)
    requires step.Check? && Starts(step, c) && step.id !in s.calls
    requires c.ctrl in g.sites && c.ctrl in s.world.wals
    requires c.revision == s.world.wals[c.ctrl].revision && c.epoch == s.world.epoch
    ensures ReadReady(g, s, step) && Opened(g, s, step) == c <==> Unlocked(s, c.ctrl) && AdvanceEvidence(g, s.world, s.world, c, 1)
  {
    MovedToIs(g, s.world, c.ctrl, c.index);
  }

  lemma CursorReadExactly(g: Config, s: State, step: Step, c: Call)
    requires (step.ObserveRead? || step.RevokeRead? || step.ResumeRead? || step.CancelRead? || step.RecoverRead?) && Starts(step, c)
    requires c.ctrl in g.sites && c.ctrl in s.world.wals && step.id !in s.calls
    ensures ReadReady(g, s, step) && Opened(g, s, step) == c <==> Unlocked(s, c.ctrl) && LookEvidence(g, s.world, s.world, c, 1)
  {}

  /** A first read opens a call exactly when its store is unlocked and the evidence of the call's first access holds. */
  lemma ReadExactly(g: Config, s: State, step: Step, c: Call)
    requires IsRead(step) && Starts(step, c) && c.ctrl in g.sites && c.ctrl in s.world.wals && step.id !in s.calls
    requires c.Advance? ==> c.revision == s.world.wals[c.ctrl].revision && c.epoch == s.world.epoch
    ensures ReadReady(g, s, step) && Opened(g, s, step) == c <==> Unlocked(s, c.ctrl) && Evidence(g, s.world, s.world, c, 1)
  {
    if c.Begin? { BeginExactly(g, s, step, c); } else if c.Advance? { CheckExactly(g, s, step, c); } else { CursorReadExactly(g, s, step, c); }
  }

  /** Which accesses are looks. */
  predicate IsLook(c: Call, n: nat)
    requires !c.Advance?
  {
    2 <= n <= match c
              case Begin(_, _, _) => 2 case Revoke(_, _, _, _) => 3 case Observe(_, _, _, _) => 3 case Resume(_, _, _, _) => 6
              case Cancel(_, _, _, _, _) => 2 case Recovery(_, _, _, _) => 2
  }

  lemma InspectExactly(g: Config, k: World, c: Call)
    requires c.Observe? || c.Resume? || c.Cancel? || c.Recovery?
    requires c.ctrl in g.sites && 1 <= Level(c) && (c.Observe? || c.Resume? || c.Cancel? ==> c.frame.pending.Some?)
    ensures LookReady(g, k, c) <==> IsLook(c, Level(c) + 1) && LookEvidence(g, k, k, c, Level(c) + 1)
  {}

  lemma ProveExactly(g: Config, k: World, c: Call)
    requires (c.Begin? || c.Revoke?) && c.ctrl in g.sites && (c.Revoke? <==> View(c).pending.Some?)
    ensures LookReady(g, k, c) <==> IsLook(c, Level(c) + 1) && LookEvidence(g, k, k, c, Level(c) + 1)
  {
    MovedToIs(g, k, c.ctrl, View(c).index);
  }

  /** A call looks on exactly while the evidence of its next look holds. */
  lemma LookExactly(g: Config, s: State, id: nat)
    requires Ordered(g, s) && Known(g, s, id) && !s.calls[id].Advance?
    ensures CallReady(g, s, Look(id)) <==>
      IsLook(s.calls[id], Level(s.calls[id]) + 1) && LookEvidence(g, s.world, s.world, s.calls[id], Level(s.calls[id]) + 1)
  {
    assert CallOk(g, s.world, s.calls[id]);
    if s.calls[id].Begin? || s.calls[id].Revoke? { ProveExactly(g, s.world, s.calls[id]); } else { InspectExactly(g, s.world, s.calls[id]); }
  }

  /** The check that takes an advance from its present phase to the next. */
  predicate Advances(step: Step, c: Call) {
    IsPhase(step) && c.Advance? && Rank(PhaseOf(step)) == Rank(c.phase) + 1
  }

  /** A requested start reads back as the very row it asked for. */
  predicate Confirms(k: World, c: Call) { c.Advance? && c.phase.Requested? ==> k.ledger == c.phase.want }

  lemma OpenPhaseExactly(g: Config, s: State, step: Step)
    requires Ordered(g, s) && (step.StartConfirmed? || step.Recheck?) && Known(g, s, step.id) && Advances(step, s.calls[step.id])
    ensures var c := s.calls[step.id];
      PhaseReady(g, s, step) <==>
        AdvanceEvidence(g, s.world, s.world, c, Level(c) + 1) && Confirms(s.world, c)
  {
    assert CallOk(g, s.world, s.calls[step.id]);
  }

  lemma LockExactly(g: Config, s: State, step: Step)
    requires step.Lock? && Known(g, s, step.id) && Advances(step, s.calls[step.id])
    ensures PhaseReady(g, s, step) <==>
      AdvanceEvidence(g, s.world, s.world, s.calls[step.id], Level(s.calls[step.id]) + 1) && Writable(s, s.calls[step.id])
  {}

  lemma HeldPhaseExactly(g: Config, s: State, step: Step)
    requires Ordered(g, s) && (step.ProveLocked? || step.Witness? || step.Clear?) && Known(g, s, step.id) && Advances(step, s.calls[step.id])
    ensures PhaseReady(g, s, step) <==> AdvanceEvidence(g, s.world, s.world, s.calls[step.id], Level(s.calls[step.id]) + 1)
  {
    HolderReads(g, s, step.id);
  }

  /** An advance passes a check exactly while the evidence of the check holds; its start is
      confirmed by the very row it asked for, and its store is locked only as it left it. */
  lemma PhaseExactly(g: Config, s: State, step: Step)
    requires Ordered(g, s) && IsPhase(step) && Known(g, s, step.id) && Advances(step, s.calls[step.id])
    ensures var c := s.calls[step.id];
      PhaseReady(g, s, step) <==>
        && AdvanceEvidence(g, s.world, s.world, c, Level(c) + 1)
        && Confirms(s.world, c)
        && (step.Lock? ==> Writable(s, c))
  {
    if step.Lock? { LockExactly(g, s, step); }
    else if step.StartConfirmed? || step.Recheck? { OpenPhaseExactly(g, s, step); }
    else { HeldPhaseExactly(g, s, step); }
  }

  /** A start is requested exactly by the present owner in the advance's epoch, over an entry that allows it. */
  lemma IssueExactly(g: Config, s: State, id: nat)
    requires Known(g, s, id) && s.calls[id].Advance?
    ensures var (k, c) := (s.world, s.calls[id]);
      CallReady(g, s, IssueStart(id)) <==>
        Level(c) == 2 && k.owner == g.sites[c.ctrl].installation && k.epoch == c.epoch && MayStart(k, c.index)
  {}

  lemma AdvanceSaveExactly(g: Config, s: State, step: Step)
    requires Ordered(g, s) && (step.SavePrepared? || step.Arm?) && Known(g, s, step.id) && s.calls[step.id].Advance?
    ensures var c := s.calls[step.id];
      SaveReady(g, s, step) <==> if step.Arm? then Level(c) == 8 else Level(c) == 1 && Writable(s, c)
  {
    if Level(s.calls[step.id]) == 8 { HolderReads(g, s, step.id); }
  }

  lemma LastSaveExactly(g: Config, s: State, step: Step)
    requires Ordered(g, s) && IsSave(step) && IsLast(step) && Known(g, s, step.id) && Makes(s.calls[step.id], step)
    ensures SaveReady(g, s, step) <==> Level(s.calls[step.id]) == Needed(step) && Writable(s, s.calls[step.id])
  {
    assert CallOk(g, s.world, s.calls[step.id]);
  }

  /** A call saves exactly when all its accesses are done and its store is as it saw it; the lock
      that an arming advance holds makes sure of the latter. */
  lemma SaveExactly(g: Config, s: State, step: Step)
    requires Ordered(g, s) && IsSave(step) && Known(g, s, step.id)
    requires if IsLast(step) then Makes(s.calls[step.id], step) else s.calls[step.id].Advance?
    ensures var c := s.calls[step.id];
      SaveReady(g, s, step) <==>
        && Level(c) == (if step.SavePrepared? then 1 else if step.Arm? then 8 else Needed(step))
        && (step.Arm? || Writable(s, c))
  {
    if IsLast(step) { LastSaveExactly(g, s, step); } else { AdvanceSaveExactly(g, s, step); }
  }

  /** A provider call only awaits the checks before it. */
  lemma SendExactly(g: Config, s: State, id: nat)
    requires Known(g, s, id) && s.calls[id].Advance?
    ensures CallReady(g, s, Send(id)) <==> Level(s.calls[id]) == 10
  {}

  /** A cancellation is written exactly over the UNKNOWN entry of its cursor, by the present owner if it may speak for that epoch. */
  lemma CancelExactly(g: Config, s: State, id: nat)
    requires Known(g, s, id) && s.calls[id].Cancel? && s.calls[id].frame.pending.Some?
    ensures var (k, c) := (s.world, s.calls[id]);
      var e := c.frame.pending.value.epoch;
      SharedReady(g, s, CancelCas(id)) <==>
        && Level(c) == 2 && Says(g, k, c.ctrl, e, c.frame.index, UNKNOWN) && k.owner == c.actor
        && e <= k.epoch && (e == k.epoch ==> c.actor == g.sites[c.ctrl].installation)
  {}

  /** A recovery promotes exactly what it saw staged, over the revision it saw. */
  lemma RecoverExactly(g: Config, s: State, id: nat)
    requires Known(g, s, id) && s.calls[id].Recovery?
    ensures var (w, c) := (s.world.wals[s.calls[id].ctrl], s.calls[id]);
      SharedReady(g, s, Recover(id)) <==>
        Level(c) == 2 && w.staged == Whole(c.frame) && w.revision == c.revision && Unlocked(s, c.ctrl)
  {}

  /** An inspection goes on from the receipt, or makes it, exactly when it is there or can be made. */
  lemma ReceiptExactly(g: Config, s: State, id: nat)
    requires Known(g, s, id) && s.calls[id].Observe?
    ensures var (k, c) := (s.world, s.calls[id]);
      && (CallReady(g, s, ObserveAfter(id)) <==>
            && Level(c) == 3 && k.ledger.entry.Some? && k.ledger.entry.value.operation == Move(c.frame.index)
            && k.ledger.entry.value.outcome == COMPLETE)
      && (SharedReady(g, s, FinishCas(id)) <==>
            && Level(c) == 3 && k.owner == g.sites[c.ctrl].installation && c.frame.pending.Some? && c.frame.pending.value.epoch == k.epoch
            && Says(g, k, c.ctrl, k.epoch, c.frame.index, UNKNOWN))
  {}

  /** What anybody may do at any time: take over, record the plan of a begun move, have a requested start
      or a sent object arrive, and settle an inherited attempt. */
  lemma SharedExactly(g: Config, s: State, step: Step)
    requires IsShared(step) && !step.FinishCas? && !step.CancelCas? && !step.Recover?
    ensures var k := s.world;
      SharedReady(g, s, step) <==>
        match step
        case PlanCas(c) =>
          && c in g.sites && c in k.wals && k.wals[c].current.Some? && k.wals[c].current.value.kind == Initial
          && k.owner == g.sites[c].installation && Resolved(k) && k.ledger.plan == None
        case StartLands(r) => r in k.requests && k.ledger == r.before && k.owner == r.owner && k.epoch == r.epoch
        case Land(i) => i < |k.sends| && InPlace(k, k.sends[i].index)
        case SettleWitness(actor, i) => i in g.slots && Inherited(k, Settlement(actor, i))
        case SettleCas(actor, i) =>
          && Settlement(actor, i) in k.settlements && k.owner == actor && k.ledger.entry.Some?
          && var e := k.ledger.entry.value;
             && e.outcome == UNKNOWN && e.epoch < k.epoch && e.operation.Move?
             && i in g.slots && e.operation.index in g.slots && g.slots[e.operation.index] == g.slots[i]
        case _ => true
  {}
}
