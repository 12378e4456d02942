/**
  The object move runs on the shared ledger and on protected settings stores.  Its machine keeps
  only what it needs of either; here its steps are shown to be mutations that the ledger accepts,
  and its saves to be saves of a store.
 */
module RootLedger {
  import opened Basics
  import opened RootProtocol
  import opened RootOrder
  import opened RootPrefix
  import opened RootRuns
  import opened RootReceipts
  import E = EffectLedger
  import S = Settings

  // ---- The ledger -------------------------------------------------------------------------------

  /** What surrounds the move in the summary row: its transition, the other actions' entries, an
      older transition's plan, and the barrier that maintenance put up. */
  datatype Around = Around(transition: nat, revision: nat, others: map<E.Action, E.Entry>,
                           older: Option<E.RootPlan>, barrier: E.Barrier)

  predicate AroundOk(x: Around) {
    && E.IDENTITY !in x.others && (forall a | a in x.others :: 1 <= x.others[a].epoch <= E.MAX_GENERATION)
    && (x.older.Some? ==> x.older.value.transition != x.transition)
    && x.barrier.transition == x.transition && x.barrier.localClear && 1 <= x.barrier.epoch <= E.MAX_GENERATION
  }

  function OutcomeOf(o: Outcome): E.Outcome {
    match o
    case UNKNOWN => E.UNKNOWN
    case COMPLETE => E.COMPLETE
    case NO_WORK => E.NO_WORK
    case SUPERSEDED => E.SUPERSEDED
    case NOT_DISPATCHED => E.NOT_DISPATCHED
  }

  function EntryOf(x: Around, e: Entry): E.Entry {
    E.Entry(e.owner, e.epoch,
            match e.operation case Move(i) => E.RootMove(x.transition, i) case Foreign(id) => E.OtherOperation(id),
            OutcomeOf(e.outcome))
  }

  function LedgerOf(x: Around, l: Ledger): E.Ledger {
    E.Ledger(if l.entry.Some? then x.others[E.IDENTITY := EntryOf(x, l.entry.value)] else x.others,
             Some(x.barrier), if l.plan.Some? then Some(E.RootPlan(x.transition, l.plan.value)) else x.older, None)
  }

  function RowOf(x: Around, l: Ledger): E.Row {
    var whole := LedgerOf(x, l);
    E.Row(l.generation, if E.SomeUnknown(whole) then E.HELD else E.RETAINED, Some(whole), Some(whole))
  }

  function MarkerOf(x: Around): E.Marker { E.Marker(x.revision, E.MAINTENANCE, x.transition) }

  predicate Writes(step: Step) { step.PlanCas? || step.StartLands? || step.FinishCas? || step.CancelCas? || step.SettleCas? }

  /** The purpose under which each step changes the row. */
  function PurposeOf(k: World, step: Step): E.Purpose
    requires Writes(step)
  {
    match step
    case PlanCas(_) => E.ROOT_PLAN
    case StartLands(r) =>
      if k.ledger.entry.Some? && k.ledger.entry.value.outcome == NOT_DISPATCHED && k.ledger.entry.value.operation == Move(r.index)
      then E.ROOT_RETRY else E.ROOT_START
    case FinishCas(_) => E.FINISH
    case CancelCas(_) => E.ROOT_CANCEL
    case SettleCas(_, _) => E.ROOT_SETTLE
  }

  /** Epochs and generations within the bounds of the program. */
  predicate Bounded(k: World) {
    && 1 <= k.epoch <= E.MAX_GENERATION && k.ledger.generation < E.MAX_GENERATION
    && (k.ledger.entry.Some? ==> 1 <= k.ledger.entry.value.epoch <= E.MAX_GENERATION)
  }

  lemma RowIsOk(x: Around, l: Ledger)
    requires AroundOk(x) && (l.entry.Some? ==> 1 <= l.entry.value.epoch <= E.MAX_GENERATION)
    ensures E.RowOk(RowOf(x, l))
  {}

  lemma EntryChanges(x: Around, l: Ledger, e: Entry)
    requires AroundOk(x) && l.entry != Some(e) && (l.entry.Some? ==> EntryOf(x, l.entry.value) != EntryOf(x, e))
    ensures RowOf(x, Changed(l, e)) == E.ChangedRow(RowOf(x, l), LedgerOf(x, Changed(l, e)))
    ensures E.OnlyEntry(LedgerOf(x, l), LedgerOf(x, Changed(l, e)), E.IDENTITY)
    ensures LedgerOf(x, Changed(l, e)).entries[E.IDENTITY] == EntryOf(x, e)
    ensures E.Prior(LedgerOf(x, l), E.IDENTITY) == if l.entry.Some? then Some(EntryOf(x, l.entry.value)) else None
  {}

  /** A change of the one entry that fits its purpose is an accepted mutation. */
  lemma ChangeIsValid(x: Around, k: World, e: Entry, purpose: E.Purpose, keys: set<nat>)
    requires AroundOk(x) && Bounded(k) && 1 <= e.epoch <= E.MAX_GENERATION
    requires k.ledger.entry != Some(e) && (k.ledger.entry.Some? ==> EntryOf(x, k.ledger.entry.value) != EntryOf(x, e))
    requires purpose.ROOT_START? || purpose.ROOT_RETRY? || purpose.ROOT_SETTLE? || purpose.ROOT_CANCEL? || purpose.FINISH?
    requires E.EntryOk(purpose, Some(MarkerOf(x)), LedgerOf(x, k.ledger), E.IDENTITY,
               if k.ledger.entry.Some? then Some(EntryOf(x, k.ledger.entry.value)) else None, EntryOf(x, e),
               E.Owner(k.owner, k.epoch), keys)
    ensures E.Valid(purpose, Some(MarkerOf(x)), RowOf(x, k.ledger), RowOf(x, Changed(k.ledger, e)),
                    E.Owner(k.owner, k.epoch), keys)
  {
    RowIsOk(x, k.ledger);
    RowIsOk(x, Changed(k.ledger, e));
    EntryChanges(x, k.ledger, e);
  }

  /** The step's write of the row is an accepted mutation. */
  ghost predicate WriteValid(g: Config, x: Around, s: State, step: Step)
    requires AroundOk(x) && Writes(step) && SharedReady(g, s, step)
  {
    E.Valid(PurposeOf(s.world, step), Some(MarkerOf(x)), RowOf(x, s.world.ledger),
            RowOf(x, ApplyShared(g, s, step).world.ledger), E.Owner(s.world.owner, s.world.epoch), Below(g.count))
  }

  lemma StartIsValid(g: Config, x: Around, s: State, step: Step)
    requires AroundOk(x) && Ordered(g, s) && Bounded(s.world) && step.StartLands? && SharedReady(g, s, step)
    ensures WriteValid(g, x, s, step)
  {
    var r := step.request;
    assert RequestOk(g, s.world, r) && RootOrder.EntryOk(g, s.world);
    ChangeIsValid(x, s.world, Entry(r.owner, r.epoch, Move(r.index), UNKNOWN), PurposeOf(s.world, step), Below(g.count));
  }

  lemma OutcomeFits(g: Config, x: Around, s: State, step: Step, e: Entry)
    requires step.FinishCas? || step.SettleCas? || step.CancelCas?
    requires AroundOk(x) && Ordered(g, s) && Bounded(s.world) && SharedReady(g, s, step)
    requires e == s.world.ledger.entry.value.(outcome := if step.CancelCas? then NOT_DISPATCHED else COMPLETE)
    ensures E.EntryOk(PurposeOf(s.world, step), Some(MarkerOf(x)), LedgerOf(x, s.world.ledger), E.IDENTITY,
                      Some(EntryOf(x, s.world.ledger.entry.value)), EntryOf(x, e), E.Owner(s.world.owner, s.world.epoch), Below(g.count))
  {
    assert RootOrder.EntryOk(g, s.world);
  }

  lemma OutcomeIsValid(g: Config, x: Around, s: State, step: Step)
    requires step.FinishCas? || step.SettleCas? || step.CancelCas?
    requires AroundOk(x) && Ordered(g, s) && Bounded(s.world) && SharedReady(g, s, step)
    ensures WriteValid(g, x, s, step)
  {
    var e := s.world.ledger.entry.value.(outcome := if step.CancelCas? then NOT_DISPATCHED else COMPLETE);
    assert ApplyShared(g, s, step).world.ledger == Changed(s.world.ledger, e);
    OutcomeFits(g, x, s, step, e);
    ChangeIsValid(x, s.world, e, PurposeOf(s.world, step), Below(g.count));
  }

  lemma PlanIsValid(g: Config, x: Around, s: State, step: Step)
    requires AroundOk(x) && Bounded(s.world) && step.PlanCas? && SharedReady(g, s, step)
    ensures WriteValid(g, x, s, step)
  {
    RowIsOk(x, s.world.ledger);
    RowIsOk(x, WithPlan(s.world, g.sites[step.ctrl].target).ledger);
  }

  /** In every reachable state, each step that writes the shared document is a mutation that the
      ledger's own validation accepts from the present owner. */
  lemma WritesAreMutations(g: Config, x: Around, s: State, step: Step, rules: Rules)
    requires AroundOk(x) && Reachable(g, s, rules) && Bounded(s.world) && Writes(step) && SharedReady(g, s, step)
    ensures E.Valid(PurposeOf(s.world, step), Some(MarkerOf(x)), RowOf(x, s.world.ledger),
                    RowOf(x, ApplyShared(g, s, step).world.ledger), E.Owner(s.world.owner, s.world.epoch), Below(g.count))
  {
    ReachableOrdered(g, s, rules);
    WriteIsValid(g, x, s, step);
  }

  lemma WriteIsValid(g: Config, x: Around, s: State, step: Step)
    requires AroundOk(x) && Ordered(g, s) && Bounded(s.world) && Writes(step) && SharedReady(g, s, step)
    ensures WriteValid(g, x, s, step)
  {
    if step.PlanCas? { PlanIsValid(g, x, s, step); }
    else if step.StartLands? { StartIsValid(g, x, s, step); }
    else { OutcomeIsValid(g, x, s, step); }
  }

  /** And no other step changes the ledger. */
  lemma OthersLeaveLedger(g: Config, s: State, step: Step)
    requires Enabled(g, s, step) && !Writes(step)
    ensures Apply(g, s, step).world.ledger == s.world.ledger
  {
    if !IsShared(step) { OthersAreLocal(g, s, step); }
  }

  // ---- The stores ---------------------------------------------------------------------------------

  /** A controller's write-ahead store as a protected settings store. */
  function StoreOf(w: Wal): S.Store<Frame> {
    S.Store(if w.current.Some? then Some(S.Frame(w.revision, w.current.value, w.previous)) else None,
            match w.staged
            case Nothing => None
            case Whole(f) => Some(S.Whole(S.Frame(w.revision + 1, f, w.current)))
            case Torn => Some(S.Raw.Torn))
  }

  function FaultOf(how: Save): S.Fault {
    match how case Promoted => S.Unharmed case StagedOnly => S.AfterStage case TornWrite => S.DuringStage
  }

  /** Each save, read and recovery of a controller is one of such a store, in every state of every run. */
  lemma SavesAreSettings(g: Config, s: State, c: nat, f: Frame, how: Save)
    requires Ordered(g, s) && c in s.world.wals
    ensures var w := s.world.wals[c];
      && (w.staged.Nothing? ==> StoreOf(Write(w, f, how)) == S.Interrupted(StoreOf(w), S.Successor(StoreOf(w), f), FaultOf(how)))
      && (w.staged.Nothing? && w.revision < S.MAX_REVISION <==> S.SaveFault(StoreOf(w), w.revision, true).None?)
      && (S.ReadResult(StoreOf(w)).Ok? <==> w.staged.Nothing?)
      && (w.staged.Whole? <==> S.RecoverFault(StoreOf(w)).None? && !w.staged.Nothing?)
      && (w.staged.Whole? ==> StoreOf(Recovered(s.world, c).wals[c]) == S.After(StoreOf(w), S.Recovering(false)))
  {
    assert WalOk(g, s.world, c, s.world.wals[c]);
  }
}
