/**
  What every step of the move protocol keeps, however many controllers share an installation
  or a target and whatever a late settlement does: frames follow the moved prefix, every
  claim names the owner of its epoch and the single planned root, locks exclude each other.
  The invariant is stated over everything a step can touch: the stores, the shared entry, the
  requests and shipments on their way, and what each call remembers of its earlier reads.
 */
module RootOrder {
  import opened Basics
  import opened RootProtocol

  /** Every object before the i-th has moved; stated through its neighbour. */
  predicate Reached(k: World, i: nat) { i == 0 || i - 1 in k.moved }

  predicate Invokes(f: Frame) { f.pending.Some? && f.pending.value.dispatch.INVOKING? }

  /** Store `c` may claim epoch `e`: its installation owned it, the plan names its target,
      and an UNKNOWN entry is never older than the claim. */
  predicate Claim(g: Config, k: World, c: nat, e: nat)
    requires c in g.sites
  {
    && e in k.owners && k.owners[e] == g.sites[c].installation && Planned(g, k, c)
    && (Unknown(k.ledger) ==> e <= k.ledger.entry.value.epoch)
  }

  predicate FrameOk(g: Config, k: World, c: nat, f: Frame)
    requires c in g.sites
  {
    Reached(k, f.index) && (f.pending.Some? ==> Claim(g, k, c, f.pending.value.epoch))
  }

  /** A frame is staged over an INVOKING cursor only to move past a settled object;
      an INVOKING frame is staged only over its own PREPARED cursor. */
  predicate WalOk(g: Config, k: World, c: nat, w: Wal)
    requires c in g.sites
  {
    && (w.revision == 0 <==> w.current.None?)
    && (w.current.Some? ==> FrameOk(g, k, c, w.current.value))
    && (w.staged.Whole? ==> FrameOk(g, k, c, w.staged.frame))
    && (w.staged.Whole? && w.current.Some? && Invokes(w.current.value) ==> w.current.value.index in k.moved)
    && (w.staged.Whole? && w.current.Some? ==> w.current.value.index <= w.staged.frame.index)
    && (w.staged.Whole? && Invokes(w.staged.frame) ==>
          w.current == Some(With(w.staged.frame, w.staged.frame.pending.value.epoch, PREPARED)))
  }

  /** A claim under this epoch is not behind the move recorded under an older one. */
  predicate Later(l: Ledger, e: nat, i: nat) {
    l.entry.Some? && l.entry.value.operation.Move? && l.entry.value.epoch < e ==> l.entry.value.operation.index <= i
  }

  /** The recorded move belongs to the owner of its epoch and was reached; a receipt of an object
      that has not moved is older than the present epoch. */
  predicate EntryOk(g: Config, k: World) {
    k.ledger.entry.Some? && k.ledger.entry.value.operation.Move? ==>
      var e := k.ledger.entry.value;
      && e.operation.index < g.count && Reached(k, e.operation.index)
      && e.epoch in k.owners && k.owners[e.epoch] == e.owner
      && (e.outcome == COMPLETE && e.operation.index !in k.moved ==> e.epoch < k.epoch)
  }

  predicate RequestOk(g: Config, k: World, r: Request) {
    && StartAllowed(r.before, r.index) && r.index < g.count && Reached(k, r.index) && k.ledger.plan.Some?
    && r.epoch in k.owners && k.owners[r.epoch] == r.owner && Later(k.ledger, r.epoch, r.index)
  }

  predicate ShipmentOk(g: Config, k: World, x: Shipment) {
    && x.ctrl in g.sites && x.ctrl in k.wals && x.index in k.sent && x.index < g.count && Reached(k, x.index)
    && Planned(g, k, x.ctrl) && x.root == g.sites[x.ctrl].target
  }

  predicate HasSend(k: World, i: nat) { exists n :: 0 <= n < |k.sends| && k.sends[n].index == i }

  ghost predicate WorldOk(g: Config, k: World) {
    && k.wals.Keys == g.sites.Keys
    && k.epoch in k.owners && k.owners[k.epoch] == k.owner
    && (forall e | e in k.owners :: e <= k.epoch)
    && (forall c | c in k.wals :: WalOk(g, k, c, k.wals[c]))
    && (forall i {:trigger Reached(k, i)} | i in k.moved :: Reached(k, i))
    && (forall i | i in k.moved :: i in k.sent && k.ledger.plan == Some(k.moved[i]))
    && (forall i | 0 <= i < |k.sends| :: ShipmentOk(g, k, k.sends[i]))
    && (forall i {:trigger HasSend(k, i)} | i in k.sent :: HasSend(k, i))
    && k.sent <= k.armed
    && EntryOk(g, k)
    && (forall r | r in k.requests :: RequestOk(g, k, r))
    && (forall w | w in k.settlements :: w.index in k.moved)
  }

  /** The call's view of its store is the store's present content. */
  predicate Present(k: World, c: Call)
    requires c.Advance? && c.ctrl in k.wals
  {
    c.revision == k.wals[c.ctrl].revision && k.wals[c.ctrl].staged.Nothing?
  }

  predicate AdvanceOk(g: Config, k: World, c: Call)
    requires c.Advance? && c.ctrl in g.sites && c.ctrl in k.wals
  {
    && c.index < g.count && Claim(g, k, c.ctrl, c.epoch) && Later(k.ledger, c.epoch, c.index)
    && k.wals[c.ctrl].current.Some? && c.index <= k.wals[c.ctrl].current.value.index
    && (c.phase.Requested? ==>
          Records(c.phase.want, g.sites[c.ctrl].installation, c.epoch, c.index, UNKNOWN))
    && (Holds(c) ==> Present(k, c))
    && (8 <= Rank(c.phase) ==> c.index in k.armed)
  }

  predicate CallOk(g: Config, k: World, c: Call) {
    && c.ctrl in g.sites && c.ctrl in k.wals && Reached(k, View(c).index)
    && (!c.Begin? ==> c.revision <= k.wals[c.ctrl].revision)
    && (!c.Begin? && !c.Recovery? && c.revision == k.wals[c.ctrl].revision ==> k.wals[c.ctrl].current == Some(View(c)))
    && match c
       case Begin(_, first, _) => first.pending.None?
       case Revoke(_, _, f, _) => f.pending.Some? && f.pending.value.dispatch.PREPARED?
       case Observe(_, _, f, n) => Invokes(f) && (2 <= n ==> f.index in k.moved)
       case Resume(_, _, f, _) => f.pending.Some? && f.pending.value.dispatch.REVOKED?
       case Cancel(_, _, f, _, _) => f.pending.Some? && f.pending.value.dispatch.REVOKED?
       case Recovery(_, _, _, _) => true
       case Advance(_, _, _, _, _, _) => AdvanceOk(g, k, c)
  }

  predicate Apart(a: Call, b: Call) { Holds(a) && Holds(b) ==> a.ctrl != b.ctrl }

  ghost predicate Ordered(g: Config, s: State) {
    && WorldOk(g, s.world)
    && (forall id | id in s.calls :: CallOk(g, s.world, s.calls[id]))
    && (forall i, j | i in s.calls && j in s.calls && i != j :: Apart(s.calls[i], s.calls[j]))
  }

  lemma InitiallyOrdered(g: Config, s: State)
    requires Initially(g, s)
    ensures Ordered(g, s)
  {
    assert s.world.wals.Keys == g.sites.Keys;
  }

  // ---- Calls ------------------------------------------------------------------------

  lemma PutKeeps(g: Config, s: State, id: nat, c: Call)
    requires Ordered(g, s) && CallOk(g, s.world, c)
    requires Holds(c) ==> Free(DropCall(s, id), c.ctrl)
    ensures Ordered(g, PutCall(s, id, c))
  {
    forall j | j in s.calls && j != id ensures Apart(c, s.calls[j]) && Apart(s.calls[j], c) {
      assert j in DropCall(s, id).calls;
    }
  }

  lemma HolderAlone(g: Config, s: State, id: nat)
    requires Ordered(g, s) && id in s.calls && Holds(s.calls[id])
    ensures Free(DropCall(s, id), s.calls[id].ctrl)
  {
    forall j | j in s.calls && j != id && s.calls[j].ctrl == s.calls[id].ctrl ensures !Holds(s.calls[j]) {
      assert Apart(s.calls[id], s.calls[j]);
    }
  }

  /** The world changes under calls that do not mind. */
  lemma WorldKeeps(g: Config, s: State, t: State)
    requires Ordered(g, s) && WorldOk(g, t.world) && t.calls == s.calls
    requires forall id | id in s.calls :: CallOk(g, t.world, s.calls[id])
    ensures Ordered(g, t)
  {}

  // ---- Shared document and provider -------------------------------------------------

  /** Nothing local changes, moves only grow, claims survive. */
  ghost predicate Extends(g: Config, k: World, t: World) {
    && t.wals == k.wals && t.sends == k.sends && t.sent == k.sent && t.armed == k.armed
    && (forall i | i in k.moved :: i in t.moved)
    && (forall c, e | c in g.sites && Claim(g, k, c, e) :: Claim(g, t, c, e))
    && (forall c | c in g.sites && Planned(g, k, c) :: Planned(g, t, c))
    && (k.ledger.plan.Some? ==> t.ledger.plan.Some?)
    && (forall e | e in k.owners :: e in t.owners && t.owners[e] == k.owners[e])
    && (forall e, i | e in k.owners && Later(k.ledger, e, i) :: Later(t.ledger, e, i))
  }

  lemma ExtendsKeepsCall(g: Config, k: World, t: World, c: Call)
    requires Extends(g, k, t) && CallOk(g, k, c)
    ensures CallOk(g, t, c)
  {}

  lemma ExtendsKeeps(g: Config, s: State, t: State)
    requires Ordered(g, s) && Extends(g, s.world, t.world) && t.calls == s.calls
    requires t.world.epoch in t.world.owners && t.world.owners[t.world.epoch] == t.world.owner
    requires forall e | e in t.world.owners :: e <= t.world.epoch
    requires forall i {:trigger Reached(t.world, i)} | i in t.world.moved :: i in s.world.moved || Reached(t.world, i)
    requires forall i | i in t.world.moved :: i in t.world.sent && t.world.ledger.plan == Some(t.world.moved[i])
    requires EntryOk(g, t.world)
    requires forall r | r in t.world.requests :: r in s.world.requests || RequestOk(g, t.world, r)
    requires forall w | w in t.world.settlements :: w in s.world.settlements || w.index in t.world.moved
    ensures Ordered(g, t)
  {
    var k, u := s.world, t.world;
    forall r | r in u.requests ensures RequestOk(g, u, r) { if r in k.requests { assert RequestOk(g, k, r); } }
    forall c | c in u.wals ensures WalOk(g, u, c, u.wals[c]) { assert WalOk(g, k, c, k.wals[c]); }
    forall i | 0 <= i < |u.sends| ensures ShipmentOk(g, u, u.sends[i]) { assert ShipmentOk(g, k, k.sends[i]); }
    forall i | i in u.sent ensures HasSend(u, i) { assert HasSend(k, i); }
    forall i | i in u.moved ensures Reached(u, i) { if i in k.moved { assert Reached(k, i); } }
    forall id | id in s.calls ensures CallOk(g, u, s.calls[id]) { ExtendsKeepsCall(g, k, u, s.calls[id]); }
    WorldKeeps(g, s, t);
  }

  lemma TakeoverKeeps(g: Config, s: State, i: nat)
    requires Ordered(g, s)
    ensures Ordered(g, s.(world := Seized(s.world, i)))
  {
    assert Extends(g, s.world, Seized(s.world, i));
    ExtendsKeeps(g, s, s.(world := Seized(s.world, i)));
  }

  lemma PlanKeeps(g: Config, s: State, root: nat)
    requires Ordered(g, s) && s.world.ledger.plan.None?
    ensures Ordered(g, s.(world := WithPlan(s.world, root)))
  {
    assert Extends(g, s.world, WithPlan(s.world, root));
    ExtendsKeeps(g, s, s.(world := WithPlan(s.world, root)));
  }

  lemma StartKeeps(g: Config, s: State, r: Request)
    requires Ordered(g, s) && SharedReady(g, s, StartLands(r))
    ensures Ordered(g, s.(world := s.world.(ledger := After(r))))
  {
    var t := s.world.(ledger := After(r));
    assert RequestOk(g, s.world, r);
    assert Extends(g, s.world, t);
    ExtendsKeeps(g, s, s.(world := t));
  }

  lemma LandKeeps(g: Config, s: State, x: Shipment)
    requires Ordered(g, s) && x in s.world.sends && Before(s.world, x.index)
    ensures Ordered(g, s.(world := Landed(s.world, x)))
  {
    assert ShipmentOk(g, s.world, x);
    assert Extends(g, s.world, Landed(s.world, x));
    ExtendsKeeps(g, s, s.(world := Landed(s.world, x)));
  }

  lemma WitnessKeeps(g: Config, s: State, w: Settlement)
    requires Ordered(g, s) && w.index in s.world.moved
    ensures Ordered(g, s.(world := s.world.(settlements := s.world.settlements + {w})))
  {
    var t := s.world.(settlements := s.world.settlements + {w});
    assert Extends(g, s.world, t);
    ExtendsKeeps(g, s, s.(world := t));
  }

  lemma OutcomesKeep(g: Config, s: State, outcome: Outcome)
    requires Ordered(g, s) && s.world.ledger.entry.Some? && outcome != UNKNOWN
    requires var e := s.world.ledger.entry.value;
      outcome == COMPLETE && e.operation.Move? && e.operation.index !in s.world.moved ==> e.epoch < s.world.epoch
    ensures Ordered(g, s.(world := Outcomes(s.world, outcome)))
  {
    var t := s.(world := Outcomes(s.world, outcome));
    assert Extends(g, s.world, t.world);
    ExtendsKeeps(g, s, t);
  }

  // ---- Saves --------------------------------------------------------------------------

  lemma DropKeeps(g: Config, s: State, id: nat)
    requires Ordered(g, s)
    ensures Ordered(g, DropCall(s, id))
  {}

  /** The world after store `c` alone is rewritten. */
  function Rewritten(k: World, c: nat, w: Wal, armed: set<nat>): World {
    k.(wals := k.wals[c := w], armed := armed)
  }

  /** A store's index never falls. */
  predicate Forward(v: Wal, w: Wal) {
    v.current.Some? ==> w.current.Some? && v.current.value.index <= w.current.value.index
  }

  lemma RewrittenCall(g: Config, k: World, c: nat, w: Wal, armed: set<nat>, call: Call)
    requires c in k.wals && k.armed <= armed && CallOk(g, k, call)
    requires call.ctrl == c ==> !Holds(call)
    requires w.revision > k.wals[c].revision || (w.revision == k.wals[c].revision && w.current == k.wals[c].current)
    requires Forward(k.wals[c], w)
    ensures CallOk(g, Rewritten(k, c, w, armed), call)
  {}

  lemma RewrittenWal(g: Config, k: World, c: nat, w: Wal, armed: set<nat>, d: nat)
    requires c in g.sites && d in g.sites && c in k.wals && d in k.wals
    requires WalOk(g, k, d, k.wals[d]) && WalOk(g, k, c, w)
    ensures WalOk(g, Rewritten(k, c, w, armed), d, Rewritten(k, c, w, armed).wals[d])
  {}

  lemma RewrittenWorld(g: Config, k: World, c: nat, w: Wal, armed: set<nat>)
    requires WorldOk(g, k) && c in k.wals && k.armed <= armed && WalOk(g, k, c, w)
    ensures WorldOk(g, Rewritten(k, c, w, armed))
  {
    var t := Rewritten(k, c, w, armed);
    assert t.wals.Keys == k.wals.Keys;
    forall d | d in t.wals ensures WalOk(g, t, d, t.wals[d]) { RewrittenWal(g, k, c, w, armed, d); }
    forall i | 0 <= i < |t.sends| ensures ShipmentOk(g, t, t.sends[i]) { assert ShipmentOk(g, k, k.sends[i]); }
    forall i | i in t.sent ensures HasSend(t, i) { assert HasSend(k, i); }
    forall r | r in t.requests ensures RequestOk(g, t, r) { assert RequestOk(g, k, r); }
    forall i | i in t.moved ensures Reached(t, i) { assert Reached(k, i); }
  }

  lemma RewriteKeeps(g: Config, s: State, c: nat, w: Wal, armed: set<nat>)
    requires Ordered(g, s) && c in s.world.wals && Free(s, c) && s.world.armed <= armed
    requires WalOk(g, s.world, c, w)
    requires w.revision > s.world.wals[c].revision
      || (w.revision == s.world.wals[c].revision && w.current == s.world.wals[c].current)
    requires Forward(s.world.wals[c], w)
    ensures Ordered(g, s.(world := Rewritten(s.world, c, w, armed)))
  {
    var t := Rewritten(s.world, c, w, armed);
    RewrittenWorld(g, s.world, c, w, armed);
    forall id | id in s.calls ensures CallOk(g, t, s.calls[id]) { RewrittenCall(g, s.world, c, w, armed, s.calls[id]); }
    WorldKeeps(g, s, s.(world := t));
  }

  /** What a save of frame `f` needs: the cursor it replaces is settled or is its own. */
  predicate Savable(g: Config, k: World, c: nat, f: Frame)
    requires c in g.sites && c in k.wals
  {
    var w := k.wals[c];
    && w.staged.Nothing? && FrameOk(g, k, c, f) && (w.current.Some? ==> w.current.value.index <= f.index)
    && (w.current.Some? && Invokes(w.current.value) ==> w.current.value.index in k.moved)
    && (Invokes(f) ==> w.current == Some(With(f, f.pending.value.epoch, PREPARED)))
  }

  function Arming(k: World, f: Frame, how: Save): set<nat> {
    if how != TornWrite && f.pending.Some? && f.pending.value.dispatch.INVOKING? then k.armed + {f.index} else k.armed
  }

  lemma WriteOk(g: Config, k: World, c: nat, f: Frame, how: Save)
    requires c in g.sites && c in k.wals && WalOk(g, k, c, k.wals[c]) && Savable(g, k, c, f)
    ensures WalOk(g, k, c, Write(k.wals[c], f, how))
  {}

  /** One locked save whose caller is no longer counted among the calls. */
  lemma SaveKeeps(g: Config, s: State, c: nat, f: Frame, how: Save)
    requires Ordered(g, s) && c in s.world.wals && Free(s, c) && Savable(g, s.world, c, f)
    ensures Ordered(g, s.(world := SavedTo(s.world, c, f, how)))
  {
    WriteOk(g, s.world, c, f, how);
    RewriteKeeps(g, s, c, Write(s.world.wals[c], f, how), Arming(s.world, f, how));
  }

  /** A save whose caller dies, or is done. */
  lemma LastSaveKeeps(g: Config, s: State, id: nat, f: Frame, how: Save)
    requires Ordered(g, s) && id in s.calls && Free(DropCall(s, id), s.calls[id].ctrl)
    requires Savable(g, s.world, s.calls[id].ctrl, f)
    ensures Ordered(g, SaveBy(s, id, f, how, None))
  {
    DropKeeps(g, s, id);
    SaveKeeps(g, DropCall(s, id), s.calls[id].ctrl, f, how);
  }

  lemma Continues(g: Config, s: State, t: State, id: nat, next: Call)
    requires Ordered(g, t) && t.calls == s.calls - {id} && CallOk(g, t.world, next)
    requires Holds(next) ==> Free(DropCall(s, id), next.ctrl)
    ensures Ordered(g, t.(calls := s.calls[id := next]))
  {
    assert DropCall(t, id).calls == t.calls;
    PutKeeps(g, t, id, next);
    assert t.calls[id := next] == s.calls[id := next];
  }

  /** A save whose caller goes on. */
  lemma SaveByKeeps(g: Config, s: State, id: nat, f: Frame, next: Call)
    requires Ordered(g, s) && id in s.calls && Free(DropCall(s, id), s.calls[id].ctrl)
    requires Savable(g, s.world, s.calls[id].ctrl, f)
    requires next.ctrl == s.calls[id].ctrl
    requires CallOk(g, SavedTo(s.world, s.calls[id].ctrl, f, Promoted), next)
    ensures Ordered(g, SaveBy(s, id, f, Promoted, Some(next)))
  {
    LastSaveKeeps(g, s, id, f, Promoted);
    Continues(g, s, SaveBy(s, id, f, Promoted, None), id, next);
  }

  lemma PrepareKeeps(g: Config, s: State, step: Step)
    requires Ordered(g, s) && step.SavePrepared? && SaveReady(g, s, step)
    ensures Ordered(g, ApplySave(g, s, step))
  {
    var c := s.calls[step.id];
    var next := Advanced(c, Saved);
    assert CallOk(g, s.world, c);
    if step.how == Promoted { SaveByKeeps(g, s, step.id, View(next), next); } else { LastSaveKeeps(g, s, step.id, View(next), step.how); }
  }

  lemma ArmSavable(g: Config, s: State, step: Step)
    requires Ordered(g, s) && step.Arm? && SaveReady(g, s, step)
    ensures var next := Advanced(s.calls[step.id], Armed);
      && Savable(g, s.world, next.ctrl, View(next))
      && CallOk(g, SavedTo(s.world, next.ctrl, View(next), Promoted), next)
  {
    var c := s.calls[step.id];
    assert CallOk(g, s.world, c);
    assert With(View(Advanced(c, Armed)), c.epoch, PREPARED) == View(c);
  }

  lemma ArmKeeps(g: Config, s: State, step: Step)
    requires Ordered(g, s) && step.Arm? && SaveReady(g, s, step)
    ensures Ordered(g, ApplySave(g, s, step))
  {
    var next := Advanced(s.calls[step.id], Armed);
    ArmSavable(g, s, step);
    HolderAlone(g, s, step.id);
    if step.how == Promoted {
      SaveByKeeps(g, s, step.id, View(next), next);
    } else {
      LastSaveKeeps(g, s, step.id, View(next), step.how);
    }
  }

  lemma RecoverKeeps(g: Config, s: State, c: nat)
    requires Ordered(g, s) && c in s.world.wals && Free(s, c) && s.world.wals[c].staged.Whole?
    ensures Ordered(g, s.(world := Recovered(s.world, c)))
  {
    var w := s.world.wals[c];
    assert WalOk(g, s.world, c, w);
    RewriteKeeps(g, s, c, Wal(w.revision + 1, Some(w.staged.frame), w.current, Nothing), s.world.armed);
    assert Recovered(s.world, c) == Rewritten(s.world, c, Wal(w.revision + 1, Some(w.staged.frame), w.current, Nothing), s.world.armed);
  }

  // ---- Calls --------------------------------------------------------------------------

  /** An object that has not moved is not before the last one recorded. */
  lemma UnmovedIsLater(g: Config, k: World, e: nat, i: nat)
    requires WorldOk(g, k) && i !in k.moved
    ensures Later(k.ledger, e, i)
  {
    forall j | j in k.moved.Keys ensures j == 0 || j - 1 in k.moved.Keys { assert Reached(k, j); }
    if k.ledger.entry.Some? && k.ledger.entry.value.operation.Move? && i < k.ledger.entry.value.operation.index {
      Downward(k.moved.Keys, k.ledger.entry.value.operation.index - 1, i);
    }
  }

  lemma CheckedOk(g: Config, s: State, step: Step)
    requires Ordered(g, s) && step.Check? && ReadReady(g, s, step)
    ensures CallOk(g, s.world, Opened(g, s, step))
  {
    assert WalOk(g, s.world, step.ctrl, s.world.wals[step.ctrl]);
    UnmovedIsLater(g, s.world, s.world.epoch, Stored(s.world, step.ctrl).index);
  }

  lemma OpenedOk(g: Config, s: State, step: Step)
    requires Ordered(g, s) && IsRead(step) && !step.Check? && ReadReady(g, s, step)
    ensures CallOk(g, s.world, Opened(g, s, step)) && !Opened(g, s, step).Advance?
  {
    assert WalOk(g, s.world, step.ctrl, s.world.wals[step.ctrl]);
  }

  lemma ReadStepKeeps(g: Config, s: State, step: Step)
    requires Ordered(g, s) && IsRead(step) && ReadReady(g, s, step)
    ensures Ordered(g, PutCall(s, step.id, Opened(g, s, step)))
  {
    if step.Check? { CheckedOk(g, s, step); } else { OpenedOk(g, s, step); }
    PutKeeps(g, s, step.id, Opened(g, s, step));
  }

  lemma LookKeeps(g: Config, s: State, id: nat)
    requires Ordered(g, s) && id in s.calls && !s.calls[id].Advance?
    requires s.calls[id].Observe? && 1 <= s.calls[id].looks ==> s.calls[id].frame.index in s.world.moved
    ensures Ordered(g, PutCall(s, id, Looked(s.calls[id])))
  {
    var c := s.calls[id];
    assert CallOk(g, s.world, c);
    assert View(Looked(c)) == View(c);
    PutKeeps(g, s, id, Looked(c));
  }

  lemma PhaseKeeps(g: Config, s: State, id: nat, p: Phase)
    requires Ordered(g, s) && id in s.calls && s.calls[id].Advance?
    requires Rank(p) == Rank(s.calls[id].phase) + 1 && Rank(p) != 1 && Rank(p) != 8
    requires p.Requested? ==> Records(p.want, g.sites[s.calls[id].ctrl].installation, s.calls[id].epoch, s.calls[id].index, UNKNOWN)
    requires p.Locked? ==> Present(s.world, s.calls[id]) && Free(s, s.calls[id].ctrl)
    ensures Ordered(g, PutCall(s, id, Phased(s.calls[id], p)))
  {
    var c := s.calls[id];
    assert CallOk(g, s.world, c);
    if Holds(c) { HolderAlone(g, s, id); }
    PutKeeps(g, s, id, Phased(c, p));
  }

  lemma RequestedKeeps(g: Config, s: State, r: Request)
    requires Ordered(g, s) && RequestOk(g, s.world, r)
    ensures Ordered(g, s.(world := s.world.(requests := s.world.requests + {r})))
  {
    var t := s.world.(requests := s.world.requests + {r});
    assert Extends(g, s.world, t);
    ExtendsKeeps(g, s, s.(world := t));
  }

  lemma RequestKeeps(g: Config, s: State, step: Step)
    requires Ordered(g, s) && step.IssueStart? && CallReady(g, s, step)
    ensures Ordered(g, ApplyCall(g, s, step))
  {
    var k, c := s.world, s.calls[step.id];
    var r := Request(k.owner, k.epoch, c.index, k.ledger);
    assert CallOk(g, k, c);
    RequestedKeeps(g, s, r);
    PhaseKeeps(g, s.(world := k.(requests := k.requests + {r})), step.id, Requested(After(r)));
  }

  lemma ShippedSent(k: World, x: Shipment, y: nat)
    requires y in Shipped(k, x).sent && (y in k.sent ==> HasSend(k, y))
    ensures HasSend(Shipped(k, x), y)
  {
    var t := Shipped(k, x);
    if y in k.sent {
      var n :| 0 <= n < |k.sends| && k.sends[n].index == y;
      assert t.sends[n].index == y;
    } else {
      assert t.sends[|k.sends|].index == y;
    }
  }

  lemma ShippedKeeps(g: Config, k: World, x: Shipment)
    requires WorldOk(g, k) && ShipmentOk(g, Shipped(k, x), x) && x.index in k.armed
    ensures WorldOk(g, Shipped(k, x))
  {
    var t := Shipped(k, x);
    forall d | d in t.wals ensures WalOk(g, t, d, t.wals[d]) { assert WalOk(g, k, d, k.wals[d]); }
    forall i | 0 <= i < |t.sends| ensures ShipmentOk(g, t, t.sends[i]) {
      if i < |k.sends| { assert ShipmentOk(g, k, k.sends[i]); }
    }
    forall y | y in t.sent ensures HasSend(t, y) { assert y in k.sent ==> HasSend(k, y); ShippedSent(k, x, y); }
    forall r | r in t.requests ensures RequestOk(g, t, r) { assert RequestOk(g, k, r); }
    forall i | i in t.moved ensures Reached(t, i) { assert Reached(k, i); }
  }

  lemma ShipKeeps(g: Config, s: State, x: Shipment)
    requires Ordered(g, s) && ShipmentOk(g, Shipped(s.world, x), x) && x.index in s.world.armed
    ensures Ordered(g, s.(world := Shipped(s.world, x)))
  {
    var t := Shipped(s.world, x);
    ShippedKeeps(g, s.world, x);
    forall j | j in s.calls ensures CallOk(g, t, s.calls[j]) { assert CallOk(g, s.world, s.calls[j]); }
    WorldKeeps(g, s, s.(world := t));
  }

  /** The provider call that a cleared advance makes. */
  function ShipmentOf(g: Config, c: Call): Shipment
    requires c.Advance? && c.ctrl in g.sites
  {
    Shipment(c.ctrl, c.index, g.sites[c.ctrl].target, c.epoch)
  }

  lemma SendKeeps(g: Config, s: State, step: Step)
    requires Ordered(g, s) && step.Send? && CallReady(g, s, step)
    ensures Ordered(g, ApplyCall(g, s, step))
  {
    var c := s.calls[step.id];
    assert CallOk(g, s.world, c);
    ShipKeeps(g, s, ShipmentOf(g, c));
    PhaseKeeps(g, s.(world := Shipped(s.world, ShipmentOf(g, c))), step.id, Sent);
  }

  // ---- Every step ---------------------------------------------------------------------

  lemma ObserveSavable(g: Config, s: State, id: nat, how: Save)
    requires Ordered(g, s) && SaveReady(g, s, ObserveSave(id, how))
    ensures s.calls[id].ctrl in g.sites && Savable(g, s.world, s.calls[id].ctrl, Settled(s.calls[id].frame))
  {
    assert CallOk(g, s.world, s.calls[id]);
  }

  lemma BeginSaveKeeps(g: Config, s: State, step: Step)
    requires Ordered(g, s) && step.BeginSave? && SaveReady(g, s, step)
    ensures Ordered(g, ApplySave(g, s, step))
  {
    var c := s.calls[step.id];
    assert CallOk(g, s.world, c) && WalOk(g, s.world, c.ctrl, s.world.wals[c.ctrl]);
    LastSaveKeeps(g, s, step.id, c.first, step.how);
  }

  lemma ObserveSaveKeeps(g: Config, s: State, step: Step)
    requires Ordered(g, s) && step.ObserveSave? && SaveReady(g, s, step)
    ensures Ordered(g, ApplySave(g, s, step))
  {
    ObserveSavable(g, s, step.id, step.how);
    LastSaveKeeps(g, s, step.id, Settled(s.calls[step.id].frame), step.how);
  }

  lemma RevokeSaveKeeps(g: Config, s: State, step: Step)
    requires Ordered(g, s) && step.RevokeSave? && SaveReady(g, s, step)
    ensures Ordered(g, ApplySave(g, s, step))
  {
    var c := s.calls[step.id];
    assert CallOk(g, s.world, c) && WalOk(g, s.world, c.ctrl, s.world.wals[c.ctrl]);
    LastSaveKeeps(g, s, step.id, RevokedFrame(c.frame), step.how);
  }

  lemma ResumeSaveKeeps(g: Config, s: State, step: Step)
    requires Ordered(g, s) && step.ResumeSave? && SaveReady(g, s, step)
    ensures Ordered(g, ApplySave(g, s, step))
  {
    var c := s.calls[step.id];
    assert CallOk(g, s.world, c) && WalOk(g, s.world, c.ctrl, s.world.wals[c.ctrl]);
    LastSaveKeeps(g, s, step.id, c.frame.(pending := None), step.how);
  }

  lemma SaveStepKeeps(g: Config, s: State, step: Step)
    requires Ordered(g, s) && IsSave(step) && SaveReady(g, s, step)
    ensures Ordered(g, ApplySave(g, s, step))
  {
    if step.BeginSave? { BeginSaveKeeps(g, s, step); }
    else if step.SavePrepared? { PrepareKeeps(g, s, step); }
    else if step.Arm? { ArmKeeps(g, s, step); }
    else if step.ObserveSave? { ObserveSaveKeeps(g, s, step); }
    else if step.RevokeSave? { RevokeSaveKeeps(g, s, step); }
    else { ResumeSaveKeeps(g, s, step); }
  }

  lemma FinishKeeps(g: Config, s: State, step: Step)
    requires Ordered(g, s) && step.FinishCas? && SharedReady(g, s, step)
    ensures Ordered(g, ApplyShared(g, s, step))
  {
    assert CallOk(g, s.world, s.calls[step.id]);
    OutcomesKeep(g, s, COMPLETE);
    LookKeeps(g, s.(world := Outcomes(s.world, COMPLETE)), step.id);
  }

  lemma CancelKeeps(g: Config, s: State, step: Step)
    requires Ordered(g, s) && step.CancelCas? && SharedReady(g, s, step)
    ensures Ordered(g, ApplyShared(g, s, step))
  {
    OutcomesKeep(g, s, NOT_DISPATCHED);
    DropKeeps(g, s.(world := Outcomes(s.world, NOT_DISPATCHED)), step.id);
  }

  lemma RecoverStepKeeps(g: Config, s: State, step: Step)
    requires Ordered(g, s) && step.Recover? && SharedReady(g, s, step)
    ensures Ordered(g, ApplyShared(g, s, step))
  {
    RecoverKeeps(g, s, s.calls[step.id].ctrl);
    DropKeeps(g, s.(world := Recovered(s.world, s.calls[step.id].ctrl)), step.id);
  }

  /** The steps that no call makes. */
  lemma DocumentKeeps(g: Config, s: State, step: Step)
    requires Ordered(g, s) && IsShared(step) && !step.FinishCas? && !step.CancelCas? && !step.Recover?
    requires SharedReady(g, s, step)
    ensures Ordered(g, ApplyShared(g, s, step))
  {
    match step
    case Takeover(i) => TakeoverKeeps(g, s, i);
    case PlanCas(c) => PlanKeeps(g, s, g.sites[c].target);
    case StartLands(r) => StartKeeps(g, s, r);
    case Land(i) => LandKeeps(g, s, s.world.sends[i]);
    case SettleWitness(actor, i) => WitnessKeeps(g, s, Settlement(actor, i));
    case SettleCas(_, _) => OutcomesKeep(g, s, COMPLETE);
  }

  lemma SharedStepKeeps(g: Config, s: State, step: Step)
    requires Ordered(g, s) && IsShared(step) && SharedReady(g, s, step)
    ensures Ordered(g, ApplyShared(g, s, step))
  {
    if step.FinishCas? { FinishKeeps(g, s, step); }
    else if step.CancelCas? { CancelKeeps(g, s, step); }
    else if step.Recover? { RecoverStepKeeps(g, s, step); }
    else { DocumentKeeps(g, s, step); }
  }

  lemma PhaseStepKeeps(g: Config, s: State, step: Step)
    requires Ordered(g, s) && IsPhase(step) && PhaseReady(g, s, step)
    ensures Ordered(g, PutCall(s, step.id, Phased(s.calls[step.id], PhaseOf(step))))
  {
    PhaseFollows(g, s, step);
    PhaseKeeps(g, s, step.id, PhaseOf(step));
  }

  lemma PhaseFollows(g: Config, s: State, step: Step)
    requires IsPhase(step) && PhaseReady(g, s, step)
    ensures step.id in s.calls && s.calls[step.id].Advance? && !PhaseOf(step).Requested?
    ensures Rank(PhaseOf(step)) == Rank(s.calls[step.id].phase) + 1 && Rank(PhaseOf(step)) != 1 && Rank(PhaseOf(step)) != 8
    ensures PhaseOf(step).Locked? ==>
      s.calls[step.id].ctrl in s.world.wals && Present(s.world, s.calls[step.id]) && Free(s, s.calls[step.id].ctrl)
  {}

  lemma LookStepKeeps(g: Config, s: State, step: Step)
    requires Ordered(g, s) && (step.Look? || step.ObserveAfter?) && CallReady(g, s, step)
    ensures Ordered(g, ApplyCall(g, s, step))
  {
    assert CallOk(g, s.world, s.calls[step.id]);
    LookKeeps(g, s, step.id);
  }

  lemma CallStepKeeps(g: Config, s: State, step: Step)
    requires Ordered(g, s) && IsCall(step) && CallReady(g, s, step)
    ensures Ordered(g, ApplyCall(g, s, step))
  {
    if step.IssueStart? { RequestKeeps(g, s, step); }
    else if step.Send? { SendKeeps(g, s, step); }
    else if step.Stop? { DropKeeps(g, s, step.id); }
    else { LookStepKeeps(g, s, step); }
  }

  lemma StepKeeps(g: Config, s: State, step: Step)
    requires Ordered(g, s) && Enabled(g, s, step)
    ensures Ordered(g, Apply(g, s, step))
  {
    if IsSave(step) {
      SaveStepKeeps(g, s, step);
    } else if IsShared(step) {
      SharedStepKeeps(g, s, step);
    } else if IsPhase(step) {
      PhaseStepKeeps(g, s, step);
    } else if IsRead(step) {
      ReadStepKeeps(g, s, step);
    } else {
      CallStepKeeps(g, s, step);
    }
  }
}
