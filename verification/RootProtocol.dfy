/**
  The at-most-once move of the fixed objects to a new root, as a state machine.

  A CONTROLLER is one write-ahead store together with the root it moves to; its
  installation is the identity it owns the shared document under.  Several
  controllers may belong to one installation.  Every step below is one atomic
  access: one locked save of one store, one read or one compare-and-swap of the
  shared document, one provider call.  A call that makes several of them is a
  `Call` value that remembers what it has read, so anything may happen between
  two of its accesses, including its own death.  An object that a later read finds
  in place was in place before, and one that an earlier read finds moved stays
  moved; only such a look at an object is put together with another read.
 */
module RootProtocol {
  import opened Basics

  // ---- Configuration -------------------------------------------------------

  datatype Site = Site(installation: nat, target: nat)

  /** `count` objects are moved in order (the authority document is the last one);
      `slot` names the catalogue record that binds an object. */
  datatype Config = Config(count: nat, sites: map<nat, Site>, slots: map<nat, nat>)

  ghost predicate Configured(g: Config) {
    0 < g.count && forall k: nat :: k < g.count ==> k in g.slots
  }

  // ---- Write-ahead store of one controller ---------------------------------

  datatype Kind = Initial | Resumed
  datatype Dispatch = PREPARED | INVOKING | REVOKED
  datatype Cursor = Cursor(epoch: nat, dispatch: Dispatch)
  datatype Frame = Frame(kind: Kind, index: nat, pending: Option<Cursor>)

  /** What `settings.pending` holds. */
  datatype Staged = Nothing | Whole(frame: Frame) | Torn
  datatype Wal = Wal(revision: nat, current: Option<Frame>, previous: Option<Frame>, staged: Staged)

  /** How far one save got before its caller stopped, if it stopped. */
  datatype Save = Promoted | StagedOnly | TornWrite

  function Write(w: Wal, f: Frame, how: Save): Wal {
    match how
    case Promoted => Wal(w.revision + 1, Some(f), w.current, Nothing)
    case StagedOnly => w.(staged := Whole(f))
    case TornWrite => w.(staged := Torn)
  }

  function With(f: Frame, epoch: nat, dispatch: Dispatch): Frame {
    f.(pending := Some(Cursor(epoch, dispatch)))
  }

  // ---- Shared document ------------------------------------------------------

  datatype Outcome = UNKNOWN | COMPLETE | NO_WORK | SUPERSEDED | NOT_DISPATCHED

  /** `Move(k)` is the digest of (transition, k-th object key); digests are injective. */
  datatype Operation = Move(index: nat) | Foreign(id: nat)
  datatype Entry = Entry(owner: nat, epoch: nat, operation: Operation, outcome: Outcome)

  /** The shared summary row: its generation, the root plan and the IDENTITY entry. */
  datatype Ledger = Ledger(generation: nat, plan: Option<nat>, entry: Option<Entry>)

  function Changed(l: Ledger, e: Entry): Ledger {
    l.(generation := l.generation + 1, entry := Some(e))
  }

  /** ROOT_START, or ROOT_RETRY of the very operation recorded as not dispatched. */
  predicate StartAllowed(l: Ledger, index: nat) {
    match l.entry
    case None => true
    case Some(e) =>
      || (e.outcome != UNKNOWN && e.operation != Move(index))
      || (e.outcome == NOT_DISPATCHED && e.operation == Move(index))
  }

  /** A compare-and-swap handed to the provider; it can land long after its caller died. */
  datatype Request = Request(owner: nat, epoch: nat, index: nat, before: Ledger)

  function After(r: Request): Ledger {
    Changed(r.before, Entry(r.owner, r.epoch, Move(r.index), UNKNOWN))
  }

  // ---- Calls in progress ----------------------------------------------------

  /** Progress of one `advance`.  From Locked to Sent the call holds its store's lock. */
  datatype Phase =
    | Checked | Saved | Requested(want: Ledger) | Started | Rechecked
    | Locked | Proven | Witnessed | Armed | Cleared | Sent

  function Rank(p: Phase): nat {
    match p
    case Checked => 0 case Saved => 1 case Requested(_) => 2 case Started => 3
    case Rechecked => 4 case Locked => 5 case Proven => 6 case Witnessed => 7
    case Armed => 8 case Cleared => 9 case Sent => 10
  }

  /** `revision` is the store revision at which the caller saw, or wrote, `View(call)`; `looks`
      counts what it has read since. */
  datatype Call =
    | Advance(ctrl: nat, revision: nat, kind: Kind, index: nat, epoch: nat, phase: Phase)
    | Begin(ctrl: nat, first: Frame, looks: nat)
    | Revoke(ctrl: nat, revision: nat, frame: Frame, looks: nat)
    | Observe(ctrl: nat, revision: nat, frame: Frame, looks: nat)
    | Resume(ctrl: nat, revision: nat, frame: Frame, looks: nat)
    | Cancel(ctrl: nat, revision: nat, frame: Frame, looks: nat, actor: nat)
    | Recovery(ctrl: nat, revision: nat, frame: Frame, looks: nat)

  function View(c: Call): Frame {
    match c
    case Advance(_, _, kind, index, epoch, phase) =>
      var base := Frame(kind, index, None);
      if Rank(phase) == 0 then base
      else if Rank(phase) <= 7 then With(base, epoch, PREPARED)
      else With(base, epoch, INVOKING)
    case Begin(_, first, _) => first
    case Revoke(_, _, frame, _) => frame
    case Observe(_, _, frame, _) => frame
    case Resume(_, _, frame, _) => frame
    case Cancel(_, _, frame, _, _) => frame
    case Recovery(_, _, frame, _) => frame
  }

  predicate Holds(c: Call) { c.Advance? && 5 <= Rank(c.phase) }

  // ---- The state ------------------------------------------------------------

  datatype Shipment = Shipment(ctrl: nat, index: nat, root: nat, epoch: nat)

  /** An inherited settlement that has inspected its object. */
  datatype Settlement = Settlement(actor: nat, index: nat)

  /** Everything durable or remote.  `moved` says where each moved object went and `sends`
      lists every provider call made.  `owners`, `sent`, `armed` and `settlements` only record
      history: who held each epoch, which objects were sent, which ever had a possible-send
      boundary written down, and what settlements have inspected. */
  datatype World = World(
    owner: nat, epoch: nat, ledger: Ledger, moved: map<nat, nat>, wals: map<nat, Wal>,
    requests: set<Request>, sends: seq<Shipment>, owners: map<nat, nat>, sent: set<nat>, armed: set<nat>,
    settlements: set<Settlement>)

  datatype State = State(world: World, calls: map<nat, Call>)

  predicate Initially(g: Config, s: State) {
    var k := s.world;
    && k.ledger.plan.None?
    && (k.ledger.entry.Some? ==> k.ledger.entry.value.operation.Foreign?)
    && k.moved == map[] && s.calls == map[] && k.requests == {} && k.sends == [] && k.armed == {} && k.sent == {}
    && k.settlements == {}
    && k.wals == (map c | c in g.sites :: Wal(0, None, None, Nothing))
    && k.owners == map[k.epoch := k.owner]
  }

  /** No live call holds the native lock of this store. */
  predicate Free(s: State, c: nat) {
    forall id | id in s.calls :: s.calls[id].ctrl == c ==> !Holds(s.calls[id])
  }

  /** `store.read()` returns a frame: unlocked, nothing staged. */
  predicate Readable(s: State, c: nat) {
    c in s.world.wals && Free(s, c) && s.world.wals[c].staged.Nothing? && s.world.wals[c].current.Some?
  }

  function Stored(k: World, c: nat): Frame
    requires c in k.wals && k.wals[c].current.Some?
  {
    k.wals[c].current.value
  }

  predicate Before(k: World, i: nat) { i !in k.moved }

  predicate At(k: World, i: nat, root: nat) { i in k.moved && k.moved[i] == root }

  /** Exactly the first m objects have moved, all to this root. */
  predicate Pattern(k: World, m: nat, root: nat) {
    && (forall i | i in k.moved :: i < m && k.moved[i] == root)
    && (forall i: nat | i < m :: i in k.moved)
  }

  predicate Unknown(l: Ledger) { l.entry.Some? && l.entry.value.outcome == UNKNOWN }

  predicate Records(l: Ledger, owner: nat, epoch: nat, index: nat, outcome: Outcome) {
    l.entry == Some(Entry(owner, epoch, Move(index), outcome))
  }

  // ---- Proofs the code repeats before each action ----------------------------

  /** An UNKNOWN entry is tolerated only as this frame's own pending operation. */
  predicate OwnUnknown(g: Config, k: World, c: nat, f: Frame)
    requires c in g.sites
  {
    Unknown(k.ledger) ==>
      f.pending.Some? && Records(k.ledger, g.sites[c].installation, f.pending.value.epoch, f.index, UNKNOWN)
  }

  predicate Owns(g: Config, k: World, c: nat)
    requires c in g.sites
  {
    k.owner == g.sites[c].installation
  }

  predicate Planned(g: Config, k: World, c: nat)
    requires c in g.sites
  {
    k.ledger.plan == Some(g.sites[c].target)
  }

  /** `_proof(state, dispatch=True)`. */
  predicate DispatchProof(g: Config, k: World, c: nat, f: Frame)
    requires c in g.sites
  {
    && Owns(g, k, c) && Planned(g, k, c) && OwnUnknown(g, k, c, f)
    && (f.kind.Resumed? && f.pending.None? ==> Pattern(k, f.index, g.sites[c].target))
  }

  /** `_proof(state, dispatch=False)`. */
  predicate InspectProof(g: Config, k: World, c: nat, f: Frame)
    requires c in g.sites
  {
    && OwnUnknown(g, k, c, f)
    && (f.kind.Resumed? || k.ledger.plan.Some? ==> Planned(g, k, c))
  }

  // ---- Steps -----------------------------------------------------------------

  datatype Step =
    | Takeover(installation: nat)
    | PlanCas(ctrl: nat)
    | BeginInitial(id: nat, ctrl: nat)
    | BeginResumed(id: nat, ctrl: nat, done: nat)
    | BeginSave(id: nat, how: Save)
    | Check(id: nat, ctrl: nat)
    | SavePrepared(id: nat, how: Save)
    | IssueStart(id: nat)
    | StartLands(request: Request)
    | StartConfirmed(id: nat)
    | Recheck(id: nat)
    | Lock(id: nat)
    | ProveLocked(id: nat)
    | Witness(id: nat)
    | Arm(id: nat, how: Save)
    | Clear(id: nat)
    | Send(id: nat)
    | Land(shipment: nat)
    | Stop(id: nat)
    | Look(id: nat)
    | ObserveRead(id: nat, ctrl: nat)
    | FinishCas(id: nat)
    | ObserveAfter(id: nat)
    | ObserveSave(id: nat, how: Save)
    | RevokeRead(id: nat, ctrl: nat)
    | RevokeSave(id: nat, how: Save)
    | ResumeRead(id: nat, ctrl: nat)
    | ResumeSave(id: nat, how: Save)
    | CancelRead(id: nat, actor: nat, ctrl: nat)
    | CancelCas(id: nat)
    | SettleWitness(actor: nat, index: nat)
    | SettleCas(actor: nat, index: nat)
    | RecoverRead(id: nat, ctrl: nat)
    | Recover(id: nat)

  /** A live `advance` of a known controller in the given phase. */
  predicate Live(g: Config, s: State, id: nat, rank: nat) {
    id in s.calls && s.calls[id].Advance? && Rank(s.calls[id].phase) == rank
    && s.calls[id].ctrl in g.sites && s.calls[id].ctrl in s.world.wals
  }

  /** A save is accepted: the revision the caller saw is still current and nothing is staged. */
  predicate Accepts(k: World, c: Call)
    requires !c.Begin?
  {
    c.ctrl in k.wals && k.wals[c.ctrl].revision == c.revision && k.wals[c.ctrl].staged.Nothing?
  }

  /** The pending dispatch of a readable store. */
  predicate Pending(s: State, c: nat, d: Dispatch) {
    Readable(s, c) && Stored(s.world, c).pending.Some? && Stored(s.world, c).pending.value.dispatch == d
  }

  /** A store nobody has begun to use. */
  predicate Empty(s: State, c: nat) {
    c in s.world.wals && Free(s, c) && s.world.wals[c].staged.Nothing? && s.world.wals[c].current.None?
  }

  predicate IsSave(step: Step) {
    step.BeginSave? || step.SavePrepared? || step.Arm? || step.ObserveSave? || step.RevokeSave? || step.ResumeSave?
  }

  predicate IsShared(step: Step) {
    || step.Takeover? || step.PlanCas? || step.StartLands? || step.Land? || step.Recover?
    || step.FinishCas? || step.CancelCas? || step.SettleWitness? || step.SettleCas?
  }

  /** Checks that only move their own call on. */
  predicate IsPhase(step: Step) {
    || step.StartConfirmed? || step.Recheck? || step.Lock? || step.ProveLocked? || step.Witness? || step.Clear?
  }

  /** A call begins by reading its store. */
  predicate IsRead(step: Step) {
    || step.BeginInitial? || step.BeginResumed? || step.Check? || step.ObserveRead? || step.RevokeRead?
    || step.ResumeRead? || step.CancelRead? || step.RecoverRead?
  }

  /** What else a call does by itself. */
  predicate IsCall(step: Step) {
    step.IssueStart? || step.Send? || step.Stop? || step.Look? || step.ObserveAfter?
  }

  function PhaseOf(step: Step): Phase
    requires IsPhase(step)
  {
    match step
    case StartConfirmed(_) => Started
    case Recheck(_) => Rechecked
    case Lock(_) => Locked
    case ProveLocked(_) => Proven
    case Witness(_) => Witnessed
    case Clear(_) => Cleared
  }

  predicate PhaseReady(g: Config, s: State, step: Step)
    requires IsPhase(step)
  {
    var k := s.world;
    match step
    case StartConfirmed(id) => Live(g, s, id, 2) && k.ledger == s.calls[id].phase.want
    case Recheck(id) =>
      && Live(g, s, id, 3) && DispatchProof(g, k, s.calls[id].ctrl, View(s.calls[id]))
      && Before(k, s.calls[id].index)
    case Lock(id) =>
      && Live(g, s, id, 4) && Free(s, s.calls[id].ctrl) && Accepts(k, s.calls[id])
      && k.wals[s.calls[id].ctrl].current == Some(View(s.calls[id]))
    case ProveLocked(id) => Live(g, s, id, 5) && DispatchProof(g, k, s.calls[id].ctrl, View(s.calls[id]))
    case Witness(id) =>
      && Live(g, s, id, 6)
      && var c := s.calls[id];
         Records(k.ledger, g.sites[c.ctrl].installation, c.epoch, c.index, UNKNOWN)
    case Clear(id) => Live(g, s, id, 8) && DispatchProof(g, k, s.calls[id].ctrl, View(s.calls[id]))
  }

  predicate SaveReady(g: Config, s: State, step: Step)
    requires IsSave(step)
  {
    var k := s.world;
    match step
    case BeginSave(id, _) =>
      && id in s.calls && s.calls[id].Begin? && s.calls[id].looks == 1
      && s.calls[id].ctrl in k.wals && Free(s, s.calls[id].ctrl) && k.wals[s.calls[id].ctrl].revision == 0 && k.wals[s.calls[id].ctrl].staged.Nothing?
    case SavePrepared(id, _) => Live(g, s, id, 0) && Free(s, s.calls[id].ctrl) && Accepts(k, s.calls[id])
    case Arm(id, _) => Live(g, s, id, 7) && Accepts(k, s.calls[id])
    case ObserveSave(id, _) =>
      && id in s.calls && s.calls[id].Observe? && s.calls[id].looks == 3
      && Free(s, s.calls[id].ctrl) && Accepts(k, s.calls[id])
    case RevokeSave(id, _) =>
      && id in s.calls && s.calls[id].Revoke? && s.calls[id].looks == 2
      && Free(s, s.calls[id].ctrl) && Accepts(k, s.calls[id])
      && k.wals[s.calls[id].ctrl].current == Some(s.calls[id].frame)
    case ResumeSave(id, _) =>
      && id in s.calls && s.calls[id].Resume? && s.calls[id].looks == 5
      && Free(s, s.calls[id].ctrl) && Accepts(k, s.calls[id])
  }

  predicate SharedReady(g: Config, s: State, step: Step)
    requires IsShared(step)
  {
    var k := s.world;
    match step
    case Takeover(_) => true
    case PlanCas(c) =>
      && c in g.sites && c in k.wals && k.wals[c].current.Some? && Stored(k, c).kind.Initial?
      && Owns(g, k, c) && !Unknown(k.ledger) && k.ledger.plan.None?
    case StartLands(r) =>
      r in k.requests && k.ledger == r.before && k.owner == r.owner && k.epoch == r.epoch
    case Land(i) => i < |k.sends| && Before(k, k.sends[i].index)
    case FinishCas(id) =>
      && id in s.calls && s.calls[id].Observe? && s.calls[id].looks == 2 && s.calls[id].ctrl in g.sites
      && var c := s.calls[id];
         && Owns(g, k, c.ctrl) && c.frame.pending.Some? && k.epoch == c.frame.pending.value.epoch
         && Records(k.ledger, g.sites[c.ctrl].installation, k.epoch, c.frame.index, UNKNOWN)
    case CancelCas(id) =>
      && id in s.calls && s.calls[id].Cancel? && s.calls[id].looks == 1 && s.calls[id].ctrl in g.sites
      && var c := s.calls[id];
         && k.owner == c.actor && c.frame.pending.Some?
         && Records(k.ledger, g.sites[c.ctrl].installation, c.frame.pending.value.epoch, c.frame.index, UNKNOWN)
         && Inherits(k, c.actor, g.sites[c.ctrl].installation, c.frame.pending.value.epoch)
    case SettleWitness(actor, i) =>
      && k.owner == actor && k.ledger.plan.Some? && i in g.slots && At(k, i, k.ledger.plan.value)
      && Unknown(k.ledger) && k.ledger.entry.value.operation == Move(i) && k.ledger.entry.value.epoch < k.epoch
    case SettleCas(actor, i) =>
      && Settlement(actor, i) in k.settlements && k.owner == actor && i in g.slots
      && Unknown(k.ledger) && k.ledger.entry.value.operation.Move?
      && k.ledger.entry.value.operation.index in g.slots
      && g.slots[k.ledger.entry.value.operation.index] == g.slots[i]
      && k.ledger.entry.value.epoch < k.epoch
    case Recover(id) =>
      && id in s.calls && s.calls[id].Recovery? && s.calls[id].looks == 1 && s.calls[id].ctrl in k.wals
      && var c := s.calls[id];
         Free(s, c.ctrl) && k.wals[c.ctrl].revision == c.revision && k.wals[c.ctrl].staged == Whole(c.frame)
  }

  /** The pending cursor is of the present epoch. */
  predicate OfEpoch(k: World, f: Frame) { f.pending.Some? && k.epoch == f.pending.value.epoch }

  /** What the next look of a call must find. */
  predicate LookReady(g: Config, k: World, c: Call)
    requires !c.Advance? && c.ctrl in g.sites
  {
    var i, f := c.ctrl, View(c);
    match c
    case Begin(_, _, n) =>
      && n == 0 && Owns(g, k, i) && !Unknown(k.ledger) && (k.ledger.plan.Some? ==> Planned(g, k, i))
      && (f.kind.Resumed? ==> DispatchProof(g, k, i, f))
    case Revoke(_, _, _, n) =>
      || (n == 0 && DispatchProof(g, k, i, f) && OfEpoch(k, f) && Before(k, f.index))
      || (n == 1 && DispatchProof(g, k, i, f))
    case Observe(_, _, _, n) =>
      || (n == 0 && InspectProof(g, k, i, f) && Owns(g, k, i) && OfEpoch(k, f))
      || (n == 1 && DispatchProof(g, k, i, f) && At(k, f.index, g.sites[i].target))
    case Resume(_, _, _, n) =>
      || ((n == 0 || n == 3) && InspectProof(g, k, i, f) && Before(k, f.index))
      || (n == 1 && DispatchProof(g, k, i, f) && OfEpoch(k, f))
      || (n == 2 && f.pending.Some?
          && Records(k.ledger, g.sites[i].installation, f.pending.value.epoch, f.index, NOT_DISPATCHED))
      || (n == 4 && DispatchProof(g, k, i, f))
    case Cancel(_, _, _, n, _) => n == 0 && InspectProof(g, k, i, f) && Before(k, f.index)
    case Recovery(_, _, _, n) => n == 0 && InspectProof(g, k, i, f)
  }

  predicate ReadReady(g: Config, s: State, step: Step)
    requires IsRead(step)
  {
    var k, c := s.world, step.ctrl;
    step.id !in s.calls && c in g.sites &&
    match step
    case BeginInitial(_, _) => Empty(s, c) && k.moved == map[]
    case BeginResumed(_, _, m) =>
      && Empty(s, c) && Owns(g, k, c) && Planned(g, k, c) && !Unknown(k.ledger)
      && Pattern(k, m, g.sites[c].target) && m <= g.count && ResumeEvidence(g, k, m)
    case Check(_, _) =>
      && Readable(s, c) && Stored(k, c).pending.None? && Stored(k, c).index < g.count
      && DispatchProof(g, k, c, Stored(k, c)) && Before(k, Stored(k, c).index)
    case ObserveRead(_, _) => Pending(s, c, INVOKING)
    case RevokeRead(_, _) => Pending(s, c, PREPARED)
    case ResumeRead(_, _) => Revoked(s, c)
    case CancelRead(_, _, _) => Revoked(s, c)
    case RecoverRead(_, _) => c in k.wals && Free(s, c) && k.wals[c].staged.Whole?
  }

  predicate CallReady(g: Config, s: State, step: Step)
    requires IsCall(step)
  {
    var k := s.world;
    match step
    case IssueStart(id) =>
      && Live(g, s, id, 1) && Owns(g, k, s.calls[id].ctrl) && k.epoch == s.calls[id].epoch
      && StartAllowed(k.ledger, s.calls[id].index)
    case Send(id) => Live(g, s, id, 9)
    case Stop(id) => id in s.calls
    case Look(id) =>
      id in s.calls && !s.calls[id].Advance? && s.calls[id].ctrl in g.sites && LookReady(g, k, s.calls[id])
    case ObserveAfter(id) =>
      && id in s.calls && s.calls[id].Observe? && s.calls[id].looks == 2
      && k.ledger.entry.Some? && k.ledger.entry.value.operation == Move(s.calls[id].frame.index)
      && k.ledger.entry.value.outcome == COMPLETE
  }

  predicate Enabled(g: Config, s: State, step: Step) {
    if IsSave(step) then SaveReady(g, s, step)
    else if IsShared(step) then SharedReady(g, s, step)
    else if IsPhase(step) then PhaseReady(g, s, step)
    else if IsRead(step) then ReadReady(g, s, step)
    else CallReady(g, s, step)
  }

  /** The cursor is revoked, straight from PREPARED. */
  predicate Revoked(s: State, c: nat) {
    && Pending(s, c, REVOKED) && 3 <= s.world.wals[c].revision
    && var f := Stored(s.world, c);
       s.world.wals[c].previous == Some(With(f, f.pending.value.epoch, PREPARED))
  }

  /** The current owner may speak about an entry of this owner and epoch. */
  predicate Inherits(k: World, actor: nat, owner: nat, epoch: nat) {
    epoch <= k.epoch && (epoch == k.epoch ==> owner == actor)
  }

  /** The last shared receipt accounts for exactly the first m objects. */
  predicate ResumeEvidence(g: Config, k: World, m: nat) {
    if m == 0 then
      || k.ledger.entry.None? || k.ledger.entry.value.operation.Foreign?
      || k.ledger.entry.value.operation.index >= g.count
      || (k.ledger.entry.value.outcome == NOT_DISPATCHED && k.ledger.entry.value.operation == Move(0))
    else
      && k.ledger.entry.Some?
      && (|| (k.ledger.entry.value.outcome == COMPLETE && k.ledger.entry.value.operation == Move(m - 1))
          || (m < g.count && k.ledger.entry.value.outcome == NOT_DISPATCHED && k.ledger.entry.value.operation == Move(m)))
  }

  // ---- Effects ---------------------------------------------------------------

  function PutCall(s: State, id: nat, c: Call): State { s.(calls := s.calls[id := c]) }

  function DropCall(s: State, id: nat): State { s.(calls := s.calls - {id}) }

  /** One locked save. */
  function SavedTo(k: World, c: nat, f: Frame, how: Save): World
    requires c in k.wals
  {
    k.(wals := k.wals[c := Write(k.wals[c], f, how)],
       armed := if how != TornWrite && f.pending.Some? && f.pending.value.dispatch.INVOKING?
                then k.armed + {f.index} else k.armed)
  }

  /** The caller of a save lives on only if the frame was promoted and it has more to do. */
  function SaveBy(s: State, id: nat, f: Frame, how: Save, next: Option<Call>): State
    requires id in s.calls && s.calls[id].ctrl in s.world.wals
  {
    var t := State(SavedTo(s.world, s.calls[id].ctrl, f, how), s.calls);
    if how == Promoted && next.Some? then PutCall(t, id, next.value) else DropCall(t, id)
  }

  function Outcomes(k: World, outcome: Outcome): World
    requires k.ledger.entry.Some?
  {
    k.(ledger := Changed(k.ledger, k.ledger.entry.value.(outcome := outcome)))
  }

  function Seized(k: World, i: nat): World {
    k.(owner := i, epoch := k.epoch + 1, owners := k.owners[k.epoch + 1 := i])
  }

  function WithPlan(k: World, root: nat): World {
    k.(ledger := k.ledger.(generation := k.ledger.generation + 1, plan := Some(root)))
  }

  function Landed(k: World, x: Shipment): World { k.(moved := k.moved[x.index := x.root]) }

  function Recovered(k: World, c: nat): World
    requires c in k.wals && k.wals[c].staged.Whole?
  {
    var w := k.wals[c];
    k.(wals := k.wals[c := Wal(w.revision + 1, Some(w.staged.frame), w.current, Nothing)])
  }

  function Shipped(k: World, x: Shipment): World {
    k.(sends := k.sends + [x], sent := k.sent + {x.index})
  }

  function Phased(c: Call, p: Phase): Call
    requires c.Advance?
  {
    c.(phase := p)
  }

  /** A call after n looks. */
  function Seen(c: Call, n: nat): Call
    requires !c.Advance?
  {
    c.(looks := n)
  }

  function Looked(c: Call): Call
    requires !c.Advance?
  {
    Seen(c, c.looks + 1)
  }

  /** The phase after a save of the caller's own. */
  function Advanced(c: Call, p: Phase): Call
    requires c.Advance?
  {
    c.(phase := p, revision := c.revision + 1)
  }

  function Settled(f: Frame): Frame { f.(index := f.index + 1, pending := None) }

  function RevokedFrame(f: Frame): Frame {
    if f.pending.Some? then With(f, f.pending.value.epoch, REVOKED) else f
  }

  function ApplySave(g: Config, s: State, step: Step): State
    requires IsSave(step) && SaveReady(g, s, step)
  {
    match step
    case BeginSave(id, how) => SaveBy(s, id, s.calls[id].first, how, None)
    case SavePrepared(id, how) =>
      var next := Advanced(s.calls[id], Saved);
      SaveBy(s, id, View(next), how, Some(next))
    case Arm(id, how) =>
      var next := Advanced(s.calls[id], Armed);
      SaveBy(s, id, View(next), how, Some(next))
    case ObserveSave(id, how) => SaveBy(s, id, Settled(s.calls[id].frame), how, None)
    case RevokeSave(id, how) => SaveBy(s, id, RevokedFrame(s.calls[id].frame), how, None)
    case ResumeSave(id, how) => SaveBy(s, id, s.calls[id].frame.(pending := None), how, None)
  }

  function ApplyShared(g: Config, s: State, step: Step): State
    requires IsShared(step) && SharedReady(g, s, step)
  {
    var k := s.world;
    match step
    case Takeover(i) => s.(world := Seized(k, i))
    case PlanCas(c) => s.(world := WithPlan(k, g.sites[c].target))
    case StartLands(r) => s.(world := k.(ledger := After(r)))
    case Land(i) => s.(world := Landed(k, k.sends[i]))
    case FinishCas(id) => PutCall(s.(world := Outcomes(k, COMPLETE)), id, Looked(s.calls[id]))
    case CancelCas(id) => DropCall(s.(world := Outcomes(k, NOT_DISPATCHED)), id)
    case SettleWitness(actor, i) => s.(world := k.(settlements := k.settlements + {Settlement(actor, i)}))
    case SettleCas(actor, i) => s.(world := Outcomes(k, COMPLETE))
    case Recover(id) => DropCall(s.(world := Recovered(k, s.calls[id].ctrl)), id)
  }

  /** The call as its first read leaves it. */
  function Opened(g: Config, s: State, step: Step): Call
    requires IsRead(step) && ReadReady(g, s, step)
  {
    var k, c := s.world, step.ctrl;
    match step
    case BeginInitial(_, _) => Begin(c, Frame(Initial, 0, None), 0)
    case BeginResumed(_, _, m) => Begin(c, Frame(Resumed, m, None), 0)
    case Check(_, _) => Advance(c, k.wals[c].revision, Stored(k, c).kind, Stored(k, c).index, k.epoch, Checked)
    case ObserveRead(_, _) => Observe(c, k.wals[c].revision, Stored(k, c), 0)
    case RevokeRead(_, _) => Revoke(c, k.wals[c].revision, Stored(k, c), 0)
    case ResumeRead(_, _) => Resume(c, k.wals[c].revision, Stored(k, c), 0)
    case CancelRead(_, actor, _) => Cancel(c, k.wals[c].revision, Stored(k, c), 0, actor)
    case RecoverRead(_, _) => Recovery(c, k.wals[c].revision, k.wals[c].staged.frame, 0)
  }

  function ApplyCall(g: Config, s: State, step: Step): State
    requires IsCall(step) && CallReady(g, s, step)
  {
    var k := s.world;
    match step
    case IssueStart(id) =>
      var r := Request(k.owner, k.epoch, s.calls[id].index, k.ledger);
      PutCall(s.(world := k.(requests := k.requests + {r})), id, Phased(s.calls[id], Requested(After(r))))
    case Send(id) =>
      var c := s.calls[id];
      PutCall(s.(world := Shipped(k, Shipment(c.ctrl, c.index, g.sites[c.ctrl].target, c.epoch))), id, Phased(c, Sent))
    case Stop(id) => DropCall(s, id)
    case Look(id) => PutCall(s, id, Looked(s.calls[id]))
    case ObserveAfter(id) => PutCall(s, id, Looked(s.calls[id]))
  }

  function Apply(g: Config, s: State, step: Step): State
    requires Enabled(g, s, step)
  {
    if IsSave(step) then ApplySave(g, s, step)
    else if IsShared(step) then ApplyShared(g, s, step)
    else if IsPhase(step) then PutCall(s, step.id, Phased(s.calls[step.id], PhaseOf(step)))
    else if IsRead(step) then PutCall(s, step.id, Opened(g, s, step))
    else ApplyCall(g, s, step)
  }

  // ---- Runs ------------------------------------------------------------------

  /** What is asked of the settlements in a run: a cancellation, or an inherited settlement, still
      describes the entry that its compare-and-swap replaces. */
  datatype Rules = Rules(cancels: bool, settles: bool)

  predicate Current(g: Config, s: State, step: Step, rules: Rules)
    requires Enabled(g, s, step)
  {
    && (rules.cancels && step.CancelCas? ==>
          var c := s.calls[step.id];
          c.ctrl in s.world.wals && s.world.wals[c.ctrl].revision == c.revision)
    && (rules.settles && step.SettleCas? ==> s.world.ledger.entry.value.operation == Move(step.index))
  }

  /** `steps` leads from `s` to `t`. */
  ghost predicate Run(g: Config, s: State, steps: seq<Step>, t: State)
    decreases |steps|
  {
    if steps == [] then t == s
    else Enabled(g, s, steps[0]) && Run(g, Apply(g, s, steps[0]), steps[1..], t)
  }

  /** Every settlement of the run that the rules speak of is current when it lands. */
  ghost predicate AllCurrent(g: Config, s: State, steps: seq<Step>, rules: Rules)
    decreases |steps|
  {
    steps == [] || (Enabled(g, s, steps[0]) && Current(g, s, steps[0], rules)
                    && AllCurrent(g, Apply(g, s, steps[0]), steps[1..], rules))
  }

  /** No object is sent twice. */
  predicate AtMostOnce(k: World) {
    forall i, j | 0 <= i < j < |k.sends| :: k.sends[i].index != k.sends[j].index
  }
}
