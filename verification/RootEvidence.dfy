/**
  What each access of a call of the object move finds, and what each action does, stated on the
  fields of the world alone: stored frames, the owner and epoch of the document, the recorded plan
  and entry, and where objects are.  Every step of the machine is one such access, one such action,
  or none of the call's.  `RootEarned` lifts this to runs, and `RootGuards` shows that nothing more
  is needed for an access or an action to be possible.
 */
module RootEvidence {
  import opened Basics
  import opened RootProtocol
  import opened RootOrder
  import opened RootPrefix

  // ---- What the world said, field by field -----------------------------------------------------------

  /** The controller's installation owns the document, and the recorded plan is its target. */
  predicate Mine(g: Config, k: World, c: nat) {
    c in g.sites && k.owner == g.sites[c].installation && k.ledger.plan == Some(g.sites[c].target)
  }

  /** No operation is UNKNOWN, unless it is this one. */
  predicate Alone(g: Config, k: World, c: nat, epoch: nat, index: nat) {
    c in g.sites && (k.ledger.entry.Some? && k.ledger.entry.value.outcome == UNKNOWN ==>
      k.ledger.entry == Some(Entry(g.sites[c].installation, epoch, Move(index), UNKNOWN)))
  }

  predicate Resolved(k: World) { k.ledger.entry.Some? ==> k.ledger.entry.value.outcome != UNKNOWN }

  /** The entry is this operation, with this outcome. */
  predicate Says(g: Config, k: World, c: nat, epoch: nat, index: nat, outcome: Outcome) {
    c in g.sites && k.ledger.entry == Some(Entry(g.sites[c].installation, epoch, Move(index), outcome))
  }

  /** Any recorded plan is the target's, and that of a resumed move is recorded. */
  predicate Undisputed(g: Config, k: World, c: nat, kind: Kind) {
    c in g.sites && ((k.ledger.plan == None && kind == Initial) || k.ledger.plan == Some(g.sites[c].target))
  }

  predicate InPlace(k: World, index: nat) { index !in k.moved }

  predicate Stores(k: World, c: nat, f: Frame) {
    c in k.wals && k.wals[c].current == Some(f) && k.wals[c].staged == Nothing
  }

  predicate Bare(k: World, c: nat) {
    c in k.wals && k.wals[c].current == None && k.wals[c].staged == Nothing
  }

  /** The store holds this frame at this revision. */
  predicate Read(k: World, c: nat, revision: nat, f: Frame) { Stores(k, c, f) && k.wals[c].revision == revision }

  function Fresh(c: Call): Frame
    requires c.Advance?
  {
    Frame(c.kind, c.index, None)
  }

  function Held(c: Call, dispatch: Dispatch): Frame
    requires c.Advance?
  {
    Frame(c.kind, c.index, Some(Cursor(c.epoch, dispatch)))
  }

  /** Exactly the objects before the index have moved, all to the target. */
  ghost predicate MovedTo(g: Config, k: World, c: nat, index: nat) {
    c in g.sites && forall i: nat :: (i in k.moved <==> i < index) && (i < index ==> k.moved[i] == g.sites[c].target)
  }

  /** The receipt with which a resumption starts at `index`. */
  predicate Receipted(g: Config, k: World, index: nat) {
    match k.ledger.entry
    case None => index == 0
    case Some(e) =>
      || (0 < index && e.outcome == COMPLETE && e.operation == Move(index - 1))
      || (index < g.count && e.outcome == NOT_DISPATCHED && e.operation == Move(index))
      || (index == 0 && (e.operation.Move? ==> g.count <= e.operation.index))
  }

  /** How many of its accesses a call has made. */
  function Level(c: Call): nat { if c.Advance? then Rank(c.phase) + 1 else c.looks + 1 }

  predicate Same(a: Call, b: Call) {
    if a.Advance? then b.Advance? && b == a.(phase := b.phase, revision := b.revision)
    else !b.Advance? && b == Seen(a, b.looks)
  }

  /** What the n-th access of an advance found, in the world before and after it. */
  ghost predicate AdvanceEvidence(g: Config, k: World, t: World, c: Call, n: nat)
    requires c.Advance?
  {
    match n
    case 1 => Stores(k, c.ctrl, Fresh(c)) && Mine(g, k, c.ctrl) && k.epoch == c.epoch && Resolved(k)
              && InPlace(k, c.index) && c.index < g.count && (c.kind.Resumed? ==> MovedTo(g, k, c.ctrl, c.index))
    case 2 => Stores(k, c.ctrl, Fresh(c)) && Stores(t, c.ctrl, Held(c, PREPARED))
    case 3 =>
      && c.ctrl in g.sites && k.owner == g.sites[c.ctrl].installation && k.epoch == c.epoch
      && (k.ledger.entry.Some? ==>
            var e := k.ledger.entry.value;
            if e.operation == Move(c.index) then e.outcome == NOT_DISPATCHED else e.outcome != UNKNOWN)
      && t.requests == k.requests + {Request(k.owner, c.epoch, c.index, k.ledger)}
    case 4 => Says(g, k, c.ctrl, c.epoch, c.index, UNKNOWN)
    case 5 => Mine(g, k, c.ctrl) && Alone(g, k, c.ctrl, c.epoch, c.index) && InPlace(k, c.index)
    case 6 => Stores(k, c.ctrl, Held(c, PREPARED))
    case 7 => Stores(k, c.ctrl, Held(c, PREPARED)) && Mine(g, k, c.ctrl) && Alone(g, k, c.ctrl, c.epoch, c.index)
    case 8 => Stores(k, c.ctrl, Held(c, PREPARED)) && Says(g, k, c.ctrl, c.epoch, c.index, UNKNOWN)
    case 9 => Stores(k, c.ctrl, Held(c, PREPARED)) && Stores(t, c.ctrl, Held(c, INVOKING))
    case 10 => Stores(k, c.ctrl, Held(c, INVOKING)) && Mine(g, k, c.ctrl) && Alone(g, k, c.ctrl, c.epoch, c.index)
    case 11 =>
      && Stores(k, c.ctrl, Held(c, INVOKING)) && c.ctrl in g.sites
      && t.sends == k.sends + [Shipment(c.ctrl, c.index, g.sites[c.ctrl].target, c.epoch)]
    case _ => false
  }

  /** The same for the other calls, by the frame that they work on. */
  ghost predicate LookEvidence(g: Config, k: World, t: World, c: Call, n: nat)
    requires !c.Advance?
  {
    var f := View(c);
    var e := if f.pending.Some? then f.pending.value.epoch else 0;
    var own := f.pending.Some? && k.epoch == e;
    match c
    case Begin(i, _, _) =>
      if n == 1 then
        && Bare(k, i) && f.pending == None
        && (if f.kind.Initial? then f.index == 0 && k.moved == map[]
            else Mine(g, k, i) && Resolved(k) && MovedTo(g, k, i, f.index) && f.index <= g.count && Receipted(g, k, f.index))
      else
        && n == 2 && i in g.sites && k.owner == g.sites[i].installation && Resolved(k) && Undisputed(g, k, i, f.kind)
        && (f.kind.Resumed? ==> Mine(g, k, i) && MovedTo(g, k, i, f.index))
    case Revoke(i, r, _, _) =>
      if n == 1 then Read(k, i, r, f) && f.pending.Some? && f.pending.value.dispatch == PREPARED
      else if n == 2 then Mine(g, k, i) && Alone(g, k, i, e, f.index) && own && InPlace(k, f.index)
      else n == 3 && Mine(g, k, i) && Alone(g, k, i, e, f.index)
    case Observe(i, r, _, _) =>
      if n == 1 then Read(k, i, r, f) && f.pending.Some? && f.pending.value.dispatch == INVOKING
      else if n == 2 then
        i in g.sites && k.owner == g.sites[i].installation && own && Undisputed(g, k, i, f.kind) && Alone(g, k, i, e, f.index)
      else if n == 3 then
        && Mine(g, k, i) && Alone(g, k, i, e, f.index)
        && f.index in k.moved && k.moved[f.index] == g.sites[i].target
      else
        && n == 4 && t.ledger.entry.Some? && t.ledger.entry.value.operation == Move(f.index)
        && t.ledger.entry.value.outcome == COMPLETE
        && (t.ledger.entry == k.ledger.entry
            || (Says(g, k, i, e, f.index, UNKNOWN) && own && k.owner == g.sites[i].installation
                && Says(g, t, i, e, f.index, COMPLETE)))
    case Resume(i, r, _, _) =>
      if n == 1 then Read(k, i, r, f) && Withdrawn(k, i, f)
      else if n == 2 || n == 5 then Alone(g, k, i, e, f.index) && Undisputed(g, k, i, f.kind) && InPlace(k, f.index)
      else if n == 3 then Mine(g, k, i) && Alone(g, k, i, e, f.index) && own
      else if n == 4 then Says(g, k, i, e, f.index, NOT_DISPATCHED)
      else n == 6 && Mine(g, k, i) && Alone(g, k, i, e, f.index)
    case Cancel(i, r, _, _, _) =>
      if n == 1 then Read(k, i, r, f) && Withdrawn(k, i, f)
      else n == 2 && Alone(g, k, i, e, f.index) && Undisputed(g, k, i, f.kind) && InPlace(k, f.index)
    case Recovery(i, r, _, _) =>
      if n == 1 then i in k.wals && k.wals[i].staged == Whole(f) && k.wals[i].revision == r
      else n == 2 && Alone(g, k, i, e, f.index) && Undisputed(g, k, i, f.kind) && (f.pending == None ==> Resolved(k))
  }

  /** Revoked straight from PREPARED, never armed in between. */
  predicate Withdrawn(k: World, c: nat, f: Frame) {
    && c in k.wals && 3 <= k.wals[c].revision && f.pending.Some? && f.pending.value.dispatch == REVOKED
    && k.wals[c].previous == Some(f.(pending := Some(Cursor(f.pending.value.epoch, PREPARED))))
  }

  ghost predicate Evidence(g: Config, k: World, t: World, c: Call, n: nat) {
    if c.Advance? then AdvanceEvidence(g, k, t, c, n) else LookEvidence(g, k, t, c, n)
  }

  // ---- Each access ------------------------------------------------------------------------------------

  /** The call has made its next access, and found what it must. */
  ghost predicate Proceeds(g: Config, s: State, t: State, id: nat) {
    && id in t.calls
    && Level(t.calls[id]) == (if id in s.calls then Level(s.calls[id]) else 0) + 1
    && (id in s.calls ==> Same(s.calls[id], t.calls[id]))
    && Evidence(g, s.world, t.world, t.calls[id], Level(t.calls[id]))
  }

  /** What a call that holds its store's lock knows of it. */
  lemma HolderReads(g: Config, s: State, id: nat)
    requires Ordered(g, s) && id in s.calls && Holds(s.calls[id])
    ensures Stores(s.world, s.calls[id].ctrl, View(s.calls[id]))
    ensures View(s.calls[id]) == Held(s.calls[id], if Rank(s.calls[id].phase) <= 7 then PREPARED else INVOKING)
  {
    assert CallOk(g, s.world, s.calls[id]);
  }

  lemma UnlockedEvidence(g: Config, s: State, step: Step)
    requires Ordered(g, s) && (step.StartConfirmed? || step.Recheck? || step.Lock?) && PhaseReady(g, s, step)
    ensures AdvanceEvidence(g, s.world, s.world, s.calls[step.id], Rank(PhaseOf(step)) + 1)
  {
    assert CallOk(g, s.world, s.calls[step.id]);
  }

  lemma LockedEvidence(g: Config, s: State, step: Step)
    requires Ordered(g, s) && (step.ProveLocked? || step.Witness? || step.Clear?) && PhaseReady(g, s, step)
    ensures AdvanceEvidence(g, s.world, s.world, s.calls[step.id], Rank(PhaseOf(step)) + 1)
  {
    HolderReads(g, s, step.id);
  }

  lemma PhaseEvidence(g: Config, s: State, step: Step)
    requires Ordered(g, s) && IsPhase(step) && PhaseReady(g, s, step)
    ensures step.id in s.calls && s.calls[step.id].Advance?
    ensures AdvanceEvidence(g, s.world, s.world, s.calls[step.id], Rank(PhaseOf(step)) + 1)
  {
    if step.StartConfirmed? || step.Recheck? || step.Lock? { UnlockedEvidence(g, s, step); } else { LockedEvidence(g, s, step); }
  }

  lemma SameEvidence(g: Config, k: World, t: World, a: Call, b: Call, n: nat)
    requires Same(a, b) && Evidence(g, k, t, a, n)
    ensures Evidence(g, k, t, b, n)
  {}

  lemma PhaseProceeds(g: Config, s: State, id: nat, p: Phase)
    requires id in s.calls && s.calls[id].Advance? && Rank(p) == Rank(s.calls[id].phase) + 1
    requires AdvanceEvidence(g, s.world, s.world, s.calls[id], Rank(p) + 1)
    ensures Proceeds(g, s, PutCall(s, id, Phased(s.calls[id], p)), id)
  {
    SameEvidence(g, s.world, s.world, s.calls[id], Phased(s.calls[id], p), Rank(p) + 1);
  }

  lemma ReadProceeds(g: Config, s: State, step: Step)
    requires Ordered(g, s) && IsRead(step) && ReadReady(g, s, step)
    ensures Proceeds(g, s, PutCall(s, step.id, Opened(g, s, step)), step.id)
  {
    assert WalOk(g, s.world, step.ctrl, s.world.wals[step.ctrl]);
  }

  lemma LookProceeds(g: Config, s: State, step: Step)
    requires Ordered(g, s) && step.Look? && CallReady(g, s, step)
    ensures Proceeds(g, s, ApplyCall(g, s, step), step.id)
  {
    assert CallOk(g, s.world, s.calls[step.id]);
  }

  lemma ReceiptProceeds(g: Config, s: State, step: Step)
    requires step.ObserveAfter? && CallReady(g, s, step)
    ensures Proceeds(g, s, ApplyCall(g, s, step), step.id)
  {}

  lemma StartProceeds(g: Config, s: State, step: Step)
    requires step.IssueStart? && CallReady(g, s, step)
    ensures Proceeds(g, s, ApplyCall(g, s, step), step.id)
  {}

  lemma SendProceeds(g: Config, s: State, step: Step)
    requires Ordered(g, s) && step.Send? && CallReady(g, s, step)
    ensures Proceeds(g, s, ApplyCall(g, s, step), step.id)
  {
    assert CallOk(g, s.world, s.calls[step.id]);
  }

  lemma FinishProceeds(g: Config, s: State, step: Step)
    requires step.FinishCas? && SharedReady(g, s, step)
    ensures Proceeds(g, s, ApplyShared(g, s, step), step.id)
  {}

  lemma PrepareProceeds(g: Config, s: State, step: Step)
    requires Ordered(g, s) && step.SavePrepared? && step.how == Promoted && SaveReady(g, s, step)
    ensures Proceeds(g, s, ApplySave(g, s, step), step.id)
  {
    assert CallOk(g, s.world, s.calls[step.id]);
  }

  lemma ArmProceeds(g: Config, s: State, step: Step)
    requires Ordered(g, s) && step.Arm? && step.how == Promoted && SaveReady(g, s, step)
    ensures Proceeds(g, s, ApplySave(g, s, step), step.id)
  {
    assert CallOk(g, s.world, s.calls[step.id]);
  }

  /** This call is as it was. */
  predicate Untouched(s: State, t: State, id: nat) { id in t.calls ==> id in s.calls && t.calls[id] == s.calls[id] }

  lemma SaveStepProceeds(g: Config, s: State, step: Step, id: nat)
    requires Ordered(g, s) && IsSave(step) && SaveReady(g, s, step)
    ensures var t := ApplySave(g, s, step); Untouched(s, t, id) || Proceeds(g, s, t, id)
  {
    if step.SavePrepared? && step.how == Promoted {
      PrepareProceeds(g, s, step);
    } else if step.Arm? && step.how == Promoted {
      ArmProceeds(g, s, step);
    }
  }

  lemma SharedStepProceeds(g: Config, s: State, step: Step, id: nat)
    requires IsShared(step) && SharedReady(g, s, step)
    ensures var t := ApplyShared(g, s, step); Untouched(s, t, id) || Proceeds(g, s, t, id)
  {
    if step.FinishCas? { FinishProceeds(g, s, step); }
  }

  lemma PhaseStepProceeds(g: Config, s: State, step: Step, id: nat)
    requires Ordered(g, s) && IsPhase(step) && PhaseReady(g, s, step)
    ensures var t := PutCall(s, step.id, Phased(s.calls[step.id], PhaseOf(step))); Untouched(s, t, id) || Proceeds(g, s, t, id)
  {
    PhaseFollows(g, s, step);
    PhaseEvidence(g, s, step);
    PhaseProceeds(g, s, step.id, PhaseOf(step));
  }

  lemma ReadStepProceeds(g: Config, s: State, step: Step, id: nat)
    requires Ordered(g, s) && IsRead(step) && ReadReady(g, s, step)
    ensures var t := PutCall(s, step.id, Opened(g, s, step)); Untouched(s, t, id) || Proceeds(g, s, t, id)
  {
    ReadProceeds(g, s, step);
  }

  lemma CallStepProceeds(g: Config, s: State, step: Step, id: nat)
    requires Ordered(g, s) && IsCall(step) && CallReady(g, s, step)
    ensures var t := ApplyCall(g, s, step); Untouched(s, t, id) || Proceeds(g, s, t, id)
  {
    if step.IssueStart? { StartProceeds(g, s, step); }
    else if step.Send? { SendProceeds(g, s, step); }
    else if step.Look? { LookProceeds(g, s, step); }
    else if step.ObserveAfter? { ReceiptProceeds(g, s, step); }
  }

  /** A step leaves a call as it is, or is the call's own next access. */
  lemma StepProceeds(g: Config, s: State, step: Step, id: nat)
    requires Ordered(g, s) && Enabled(g, s, step)
    ensures var t := Apply(g, s, step); Untouched(s, t, id) || Proceeds(g, s, t, id)
  {
    if IsSave(step) { SaveStepProceeds(g, s, step, id); }
    else if IsShared(step) { SharedStepProceeds(g, s, step, id); }
    else if IsPhase(step) { PhaseStepProceeds(g, s, step, id); }
    else if IsRead(step) { ReadStepProceeds(g, s, step, id); }
    else { CallStepProceeds(g, s, step, id); }
  }

  // ---- What each last action does --------------------------------------------------------------------

  /** The steps by which a call acts on its store, on the document or on the provider for the last time. */
  predicate IsLast(step: Step) {
    || step.Send? || step.BeginSave? || step.RevokeSave? || step.ObserveSave? || step.ResumeSave? || step.CancelCas? || step.Recover?
  }

  /** How many accesses come before. */
  function Needed(step: Step): nat
    requires IsLast(step)
  {
    match step
    case Send(_) => 10 case ObserveSave(_, _) => 4 case RevokeSave(_, _) => 3 case ResumeSave(_, _) => 6
    case BeginSave(_, _) => 2 case CancelCas(_) => 2 case Recover(_) => 2
  }

  predicate Makes(c: Call, step: Step)
    requires IsLast(step)
  {
    match step
    case Send(_) => c.Advance? case BeginSave(_, _) => c.Begin? case RevokeSave(_, _) => c.Revoke?
    case ObserveSave(_, _) => c.Observe? case ResumeSave(_, _) => c.Resume? case CancelCas(_) => c.Cancel?
    case Recover(_) => c.Recovery?
  }

  /** One save of one store: promoted, left whole, or left torn; nothing else changes. */
  predicate Rewrote(k: World, t: World, c: nat, f: Frame, how: Save) {
    && c in k.wals && t == k.(wals := t.wals) && t.wals.Keys == k.wals.Keys && (forall d | d in k.wals && d != c :: t.wals[d] == k.wals[d])
    && var v, w := k.wals[c], t.wals[c];
       match how
       case Promoted => w.revision == v.revision + 1 && w.current == Some(f) && w.previous == v.current && w.staged == Nothing
       case StagedOnly => w == v.(staged := Whole(f))
       case TornWrite => w == v.(staged := Torn)
  }

  /** What the action itself does, and to what. */
  ghost predicate Acts(g: Config, k: World, t: World, c: Call, step: Step)
    requires IsLast(step) && Makes(c, step)
  {
    var f, i := View(c), c.ctrl;
    match step
    case Send(_) => i in g.sites && t.wals == k.wals && t.ledger == k.ledger && t.moved == k.moved
                    && t.sends == k.sends + [Shipment(i, f.index, g.sites[i].target, c.epoch)]
    case BeginSave(_, how) => Bare(k, i) && Rewrote(k, t, i, f, how)
    case RevokeSave(_, how) =>
      Stores(k, i, f) && f.pending.Some? && Rewrote(k, t, i, f.(pending := Some(f.pending.value.(dispatch := REVOKED))), how)
    case ObserveSave(_, how) => Stores(k, i, f) && Rewrote(k, t, i, Frame(f.kind, f.index + 1, None), how)
    case ResumeSave(_, how) => Stores(k, i, f) && Rewrote(k, t, i, Frame(f.kind, f.index, None), how)
    case CancelCas(_) =>
      && f.pending.Some? && t == k.(ledger := t.ledger) && t.ledger == k.ledger.(generation := k.ledger.generation + 1, entry := t.ledger.entry)
      && Says(g, k, i, f.pending.value.epoch, f.index, UNKNOWN) && Says(g, t, i, f.pending.value.epoch, f.index, NOT_DISPATCHED)
      && k.owner == c.actor && (f.pending.value.epoch == k.epoch ==> c.actor == g.sites[i].installation)
    case Recover(_) => i in k.wals && k.wals[i].staged == Whole(f) && Rewrote(k, t, i, f, Promoted)
  }

  lemma FirstOrRevokedActs(g: Config, s: State, step: Step)
    requires Ordered(g, s) && (step.BeginSave? || step.RevokeSave?) && SaveReady(g, s, step)
    ensures Makes(s.calls[step.id], step) && Level(s.calls[step.id]) == Needed(step)
    ensures Acts(g, s.world, ApplySave(g, s, step).world, s.calls[step.id], step)
  {
    assert CallOk(g, s.world, s.calls[step.id]);
  }

  lemma ObservedActs(g: Config, s: State, step: Step)
    requires Ordered(g, s) && step.ObserveSave? && SaveReady(g, s, step)
    ensures Makes(s.calls[step.id], step) && Level(s.calls[step.id]) == Needed(step)
    ensures Acts(g, s.world, ApplySave(g, s, step).world, s.calls[step.id], step)
  {
    assert CallOk(g, s.world, s.calls[step.id]);
  }

  lemma ResumedActs(g: Config, s: State, step: Step)
    requires Ordered(g, s) && step.ResumeSave? && SaveReady(g, s, step)
    ensures Makes(s.calls[step.id], step) && Level(s.calls[step.id]) == Needed(step)
    ensures Acts(g, s.world, ApplySave(g, s, step).world, s.calls[step.id], step)
  {
    assert CallOk(g, s.world, s.calls[step.id]);
  }

  lemma SendActs(g: Config, s: State, step: Step)
    requires Ordered(g, s) && step.Send? && CallReady(g, s, step)
    ensures Makes(s.calls[step.id], step) && Level(s.calls[step.id]) == Needed(step)
    ensures Acts(g, s.world, ApplyCall(g, s, step).world, s.calls[step.id], step)
  {}

  lemma CancelledActs(g: Config, s: State, step: Step)
    requires step.CancelCas? && SharedReady(g, s, step)
    ensures Makes(s.calls[step.id], step) && Level(s.calls[step.id]) == Needed(step)
    ensures Acts(g, s.world, ApplyShared(g, s, step).world, s.calls[step.id], step)
  {}

  lemma RecoveredActs(g: Config, s: State, step: Step)
    requires step.Recover? && SharedReady(g, s, step)
    ensures Makes(s.calls[step.id], step) && Level(s.calls[step.id]) == Needed(step)
    ensures Acts(g, s.world, ApplyShared(g, s, step).world, s.calls[step.id], step)
  {}

  /** The last step of a call comes after all its accesses, and does what it must. */
  lemma LastActs(g: Config, s: State, step: Step)
    requires Ordered(g, s) && IsLast(step) && Enabled(g, s, step)
    ensures step.id in s.calls && Makes(s.calls[step.id], step) && Level(s.calls[step.id]) == Needed(step)
    ensures Acts(g, s.world, Apply(g, s, step).world, s.calls[step.id], step)
  {
    if step.BeginSave? || step.RevokeSave? { FirstOrRevokedActs(g, s, step); }
    else if step.ObserveSave? { ObservedActs(g, s, step); }
    else if step.ResumeSave? { ResumedActs(g, s, step); }
    else if step.Send? { SendActs(g, s, step); }
    else if step.CancelCas? { CancelledActs(g, s, step); }
    else { RecoveredActs(g, s, step); }
  }

  // ---- Writes that no live call makes -------------------------------------------------------------------------

  /** The recorded attempt may be started: there is none, it is resolved and another's, or it was not dispatched. */
  predicate MayStart(k: World, index: nat) {
    k.ledger.entry.Some? ==>
      var e := k.ledger.entry.value;
      if e.operation == Move(index) then e.outcome == NOT_DISPATCHED else e.outcome != UNKNOWN
  }

  /** A settlement found its object at the planned root, and the object's own older attempt UNKNOWN. */
  predicate Inherited(k: World, w: Settlement) {
    && k.owner == w.actor && w.index in k.moved && k.ledger.plan == Some(k.moved[w.index])
    && k.ledger.entry.Some? && k.ledger.entry.value.operation == Move(w.index)
    && k.ledger.entry.value.outcome == UNKNOWN && k.ledger.entry.value.epoch < k.epoch
  }

  /** A controller of the present owner asked for this start. */
  predicate Asked(g: Config, s: State, step: Step, r: Request) {
    && step.IssueStart? && step.id in s.calls && s.calls[step.id].Advance? && s.calls[step.id].ctrl in g.sites
    && var c, k := s.calls[step.id], s.world;
       && k.owner == r.owner == g.sites[c.ctrl].installation && k.epoch == r.epoch == c.epoch && r.index == c.index
       && r.before == k.ledger && MayStart(k, r.index)
  }

  lemma SaveKeepsOrders(g: Config, s: State, step: Step)
    requires IsSave(step) && SaveReady(g, s, step)
    ensures var t := ApplySave(g, s, step).world; t.settlements == s.world.settlements && t.requests == s.world.requests
  {}

  lemma SharedOrders(g: Config, s: State, step: Step)
    requires IsShared(step) && SharedReady(g, s, step)
    ensures var t := ApplyShared(g, s, step).world;
      && t.requests == s.world.requests
      && t.settlements == if step.SettleWitness? then s.world.settlements + {Settlement(step.actor, step.index)} else s.world.settlements
  {}

  lemma CallOrders(g: Config, s: State, step: Step)
    requires IsCall(step) && CallReady(g, s, step)
    ensures var t := ApplyCall(g, s, step).world;
      && t.settlements == s.world.settlements
      && t.requests == if step.IssueStart? then s.world.requests + {Request(s.world.owner, s.world.epoch, s.calls[step.id].index, s.world.ledger)}
                       else s.world.requests
  {}

  /** Only an inspection settles, and only an advance asks for a start. */
  lemma Orders(g: Config, s: State, step: Step)
    requires Enabled(g, s, step)
    ensures var t := Apply(g, s, step).world;
      && t.settlements == (if step.SettleWitness? then s.world.settlements + {Settlement(step.actor, step.index)} else s.world.settlements)
      && t.requests == if step.IssueStart? then s.world.requests + {Request(s.world.owner, s.world.epoch, s.calls[step.id].index, s.world.ledger)}
                       else s.world.requests
  {
    if IsSave(step) { SaveKeepsOrders(g, s, step); }
    else if IsShared(step) { SharedOrders(g, s, step); }
    else if IsCall(step) { CallOrders(g, s, step); }
  }

  lemma WitnessFinds(g: Config, s: State, step: Step)
    requires step.SettleWitness? && SharedReady(g, s, step)
    ensures Inherited(s.world, Settlement(step.actor, step.index))
  {}

  lemma NewSettlement(g: Config, s: State, step: Step, w: Settlement)
    requires Enabled(g, s, step) && w in Apply(g, s, step).world.settlements && w !in s.world.settlements
    ensures step == SettleWitness(w.actor, w.index) && Inherited(s.world, w)
  {
    Orders(g, s, step);
    WitnessFinds(g, s, step);
  }

  lemma IssueAsks(g: Config, s: State, step: Step)
    requires step.IssueStart? && CallReady(g, s, step)
    ensures Asked(g, s, step, Request(s.world.owner, s.world.epoch, s.calls[step.id].index, s.world.ledger))
  {}

  lemma NewRequest(g: Config, s: State, step: Step, r: Request)
    requires Enabled(g, s, step) && r in Apply(g, s, step).world.requests && r !in s.world.requests
    ensures Asked(g, s, step, r)
  {
    Orders(g, s, step);
    IssueAsks(g, s, step);
  }

  /** What a start, a plan, a settlement or an arriving shipment does, and to what. */
  ghost predicate Writes(g: Config, k: World, t: World, step: Step) {
    match step
    case PlanCas(c) =>
      && c in g.sites && k.owner == g.sites[c].installation && Resolved(k) && k.ledger.plan == None
      && c in k.wals && k.wals[c].current.Some? && k.wals[c].current.value.kind == Initial
      && t == k.(ledger := Ledger(k.ledger.generation + 1, Some(g.sites[c].target), k.ledger.entry))
    case StartLands(r) =>
      && k.ledger == r.before && k.owner == r.owner && k.epoch == r.epoch
      && t == k.(ledger := Ledger(k.ledger.generation + 1, k.ledger.plan, Some(Entry(r.owner, r.epoch, Move(r.index), UNKNOWN))))
    case SettleCas(actor, i) =>
      && k.owner == actor && k.ledger.entry.Some?
      && var e := k.ledger.entry.value;
         && e.outcome == UNKNOWN && e.epoch < k.epoch && e.operation.Move?
         && i in g.slots && e.operation.index in g.slots && g.slots[e.operation.index] == g.slots[i]
         && t == k.(ledger := Ledger(k.ledger.generation + 1, k.ledger.plan, Some(Entry(e.owner, e.epoch, e.operation, COMPLETE))))
    case Land(i) =>
      i < |k.sends| && k.sends[i].index !in k.moved && t == k.(moved := k.moved[k.sends[i].index := k.sends[i].root])
    case _ => true
  }

  lemma SharedWrites(g: Config, s: State, step: Step)
    requires IsShared(step) && SharedReady(g, s, step)
    ensures Writes(g, s.world, ApplyShared(g, s, step).world, step)
  {}
}
