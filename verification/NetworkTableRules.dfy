/** When the table's transaction may start, write and finish, stated on the stores and the setup alone. */
module NetworkTableRules {
  import opened Basics
  import S = Settings
  import opened NetworkTable

  // ---- The setup ---------------------------------------------------------------------------------------

  /** An approved change of a watchdog's settled setup, with no save of it in doubt. */
  predicate Maintained(k: World, approved: bool) {
    && approved && k.setup.pending == None && k.setup.current.Some?
    && var m := k.setup.current.value.payload.mode; m.watchdog && !m.cancelled && !m.unknown
  }

  predicate Selects(k: World, s: Selection) {
    k.setup.pending == None && k.setup.current.Some? && k.setup.current.value.payload.table == Some(s)
  }

  /** The selected root is there, is the one that was selected, and holds this committed frame. */
  predicate At(k: World, s: Selection, f: S.Frame<Table>) {
    && s.root.Some? && s.root.value in k.dirs
    && s.binding == Some(k.dirs[s.root.value].identity)
    && k.dirs[s.root.value].store == S.Store(Some(f), None) && f.payload.id == s.table
  }

  // ---- Starting a transaction --------------------------------------------------------------------------

  /** Nothing stands in the way of this transaction, whose intent would be `s`. */
  ghost predicate MayStart(k: World, step: Step, s: Selection)
    requires IsIntent(step)
  {
    var next := S.Revision(k.setup) + 1;
    match step
    case Configure(target, candidate, approved, _) =>
      && Maintained(k, approved) && k.setup.current.value.payload.table == None && target !in k.dirs
      && s == Selection(candidate.id, None, None, Some(Pending(CREATE, next, target, 0, None, candidate, false)))
    case Move(target, approved, _) =>
      && Maintained(k, approved) && target !in k.dirs
      && exists o, f :: Selects(k, o) && o.pending == None && o.root != Some(target) && At(k, o, f)
           && s == Selection(o.table, o.root, o.binding, Some(Pending(MOVE, next, target, f.revision, Some(f.payload), f.payload, false)))
    case Update(candidate, requiresOwner, _) =>
      exists o, f :: Selects(k, o) && o.pending == None && At(k, o, f)
        && candidate.id == o.table && candidate.revision == f.payload.revision + 1
        && s == Selection(o.table, o.root, o.binding,
                          Some(Pending(UPDATE, next, o.root.value, f.revision, Some(f.payload), candidate, requiresOwner)))
  }

  lemma StoreIs(k: World, s: Selection)
    ensures SelectedStore(k, s).Ok? <==> exists f :: At(k, s, f)
    ensures SelectedStore(k, s).Ok? ==> At(k, s, SelectedStore(k, s).value)
    ensures forall f | At(k, s, f) :: SelectedStore(k, s) == Ok(f)
  {
    if SelectedStore(k, s).Ok? { assert At(k, s, SelectedStore(k, s).value); }
  }

  /** A transaction has an intent exactly when nothing stands in its way, and that one. */
  lemma IntentExactly(k: World, step: Step, s: Selection)
    requires IsIntent(step)
    ensures Intent(k, step) == Ok(s) <==> MayStart(k, step, s)
  {
    if Selected(k).Some? {
      var o := Selected(k).value;
      StoreIs(k, o);
      if Fresh(k) { assert Selects(k, o); }
      if SelectedStore(k, o).Ok? { assert At(k, o, SelectedStore(k, o).value); }
    }
  }

  /** It is recorded exactly when its save is not lost; then the setup names it, or is about to, and
      nothing is created or handed over yet. */
  lemma RecordedExactly(k: World, step: Step)
    requires IsIntent(step)
    ensures var t := Next(k, step);
      && t.dirs == k.dirs && t.stagings == k.stagings && t.claims == k.claims && t.finished == k.finished
      && (t.started != k.started <==> (exists s :: MayStart(k, step, s)) && S.Revision(k.setup) < S.MAX_REVISION && Reaches(step.fault))
      && (t.started != k.started ==>
            && t.started == k.started + [S.Revision(k.setup) + 1] && t.intent.Some? && MayStart(k, step, t.intent.value)
            && t.before == k.dirs && t.origin == k.setup.current.value.payload.table
            && var p := k.setup.current.value.payload.(table := t.intent);
               var f := S.Frame(S.Revision(k.setup) + 1, p, Some(k.setup.current.value.payload));
               t.setup == if step.fault.AfterStage? then S.Store(k.setup.current, Some(S.Whole(f))) else S.Store(Some(f), None))
  {
    if Intent(k, step).Ok? {
      IntentExactly(k, step, Intent(k, step).value);
    } else {
      forall s ensures !MayStart(k, step, s) { IntentExactly(k, step, s); }
    }
  }

  // ---- Writing the target ---------------------------------------------------------------------------------

  /** The owner check, where one is due, passes. */
  predicate Cleared(p: Pending, owner: bool) { p.requiresOwner ==> owner }

  /** The whole candidate was staged, and only its promotion is missing. */
  predicate Staged(store: S.Store<Table>, p: Pending) {
    && store.pending.Some? && store.pending.value.Whole? && store.pending.value.frame.payload == p.candidate
    && store.pending.value.frame.revision == S.Revision(store) + 1 && store.pending.value.frame.previous == S.Payload(store)
  }

  /** The store is as the intent found it, so that the candidate may be saved into it. */
  predicate Untouched(store: S.Store<Table>, p: Pending, present: bool) {
    && store.pending == None && S.Payload(store) != Some(p.candidate) && S.Revision(store) < S.MAX_REVISION
    && if p.kind == UPDATE then S.Revision(store) == p.sourceRevision && S.Payload(store) == p.source
       else !present && store.current == None
  }

  /** The target changes exactly when its owner check passes and either only a promotion is missing or it
      is untouched and may be written; it then becomes what one save, or its promotion, makes of it. */
  lemma TargetWrites(store: S.Store<Table>, p: Pending, present: bool, write: bool, owner: bool, fault: S.Fault)
    ensures Targeted(store, p, present, write, owner, fault).1 ==
      if Cleared(p, owner) && Staged(store, p) && !fault.BeforeStage? then S.Store(Some(store.pending.value.frame), None)
      else if Cleared(p, owner) && write && Untouched(store, p, present) then
        (match fault
         case BeforeStage => store
         case DuringStage => S.Store(store.current, Some(S.Torn))
         case AfterStage => S.Store(store.current, Some(S.Whole(S.Frame(S.Revision(store) + 1, p.candidate, S.Payload(store)))))
         case _ => S.Store(Some(S.Frame(S.Revision(store) + 1, p.candidate, S.Payload(store))), None))
      else store
  {}

  /** It succeeds exactly on a candidate that was committed before, or on one that it commits unharmed. */
  lemma TargetSucceeds(store: S.Store<Table>, p: Pending, present: bool, write: bool, owner: bool, fault: S.Fault)
    ensures Targeted(store, p, present, write, owner, fault).0 == None <==>
      || (store.pending == None && S.Payload(store) == Some(p.candidate))
      || (fault.Unharmed? && Cleared(p, owner) && (Staged(store, p) || (write && Untouched(store, p, present))))
  {}

  /** Why it stops: what is staged is not, or no longer, the candidate's; something else is there; only an
      inspection was asked for; the owner changed; or the outcome is not known. */
  lemma TargetRefuses(store: S.Store<Table>, p: Pending, present: bool, write: bool, owner: bool, fault: S.Fault)
    requires Targeted(store, p, present, write, owner, fault).0.Some?
    ensures var e := Targeted(store, p, present, write, owner, fault).0.value;
      var foreign := store.pending.Some? && store.pending.value.Whole? && store.pending.value.frame.payload != p.candidate;
      var moved := store.pending == None && (S.Revision(store) != p.sourceRevision || S.Payload(store) != p.source);
      && (e == SOURCE_CHANGED <==> p.kind == UPDATE && moved)
      && (e == DESTINATION_CONFLICT <==> foreign || (p.kind != UPDATE && store.pending == None && (present || store.current.Some?)))
      && (e == OWNER_SUPERSEDED ==> !Cleared(p, owner))
      && (e == NOT_APPLIED ==> !write && store.pending == None)
      && e in {SOURCE_CHANGED, DESTINATION_CONFLICT, OWNER_SUPERSEDED, NOT_APPLIED, UNCONFIRMED}
  {}

  // ---- Working on an intent -----------------------------------------------------------------------------------

  /** What the work needs before it looks at the target. */
  ghost predicate MayWork(k: World, s: Selection, p: Pending, write: bool, approved: bool) {
    && Selects(k, s) && s.pending == Some(p) && (write ==> Maintained(k, approved))
    && (p.kind == MOVE ==> exists f :: At(k, s, f) && f.revision == p.sourceRevision && p.source == Some(f.payload))
  }

  lemma WorksExactly(k: World, write: bool, approved: bool)
    ensures WorkFault(k, write, approved) == None <==> exists s, p :: MayWork(k, s, p, write, approved)
  {
    if Selected(k).Some? {
      var s := Selected(k).value;
      StoreIs(k, s);
      if WorkFault(k, write, approved) == None {
        assert Selects(k, s);
        if s.pending.value.kind == MOVE { assert At(k, s, SelectedStore(k, s).value); }
        assert MayWork(k, s, s.pending.value, write, approved);
      }
      if s', p :| MayWork(k, s', p, write, approved) {
        assert s' == s && s.pending == Some(p);
      }
    }
  }

  /** The work changes the target alone, creates it only when it may be written, and claims the selection
      exactly when it succeeds. */
  lemma WorkedExactly(k: World, s: Selection, p: Pending, write: bool, approved: bool, owner: bool, identity: nat, fault: S.Fault)
    requires MayWork(k, s, p, write, approved)
    ensures var (error, t) := Worked(k, write, approved, owner, identity, fault);
      var present := p.target in k.dirs;
      var dir := if present then k.dirs[p.target] else Dir(identity, S.Store(None, None));
      var (why, store) := Targeted(dir.store, p, present, write, owner, fault);
      if !present && !write then error == Some(DESTINATION_NOT_CREATED) && t == k
      else if !present && !Cleared(p, owner) then error == Some(OWNER_SUPERSEDED) && t == k
      else
        && error == why && t.setup == k.setup && t.before == k.before && t.origin == k.origin && t.intent == k.intent
        && t.started == k.started && t.finished == k.finished
        && t.dirs == k.dirs[p.target := Dir(dir.identity, store)]
        && (t.stagings == if dir.store.pending == None && store != dir.store then k.stagings + [p.operation] else k.stagings)
        && t.claims == k.claims + if error == None
             then {Claim(S.Revision(k.setup), Selection(s.table, Some(p.target), Some(dir.identity), None))} else {}
  {
    WorksExactly(k, write, approved);
    assert WorkFault(k, write, approved) == None;
  }

  /** Otherwise it changes nothing. */
  lemma WorkRefused(k: World, write: bool, approved: bool, owner: bool, identity: nat, fault: S.Fault)
    requires !exists s, p :: MayWork(k, s, p, write, approved)
    ensures Worked(k, write, approved, owner, identity, fault).1 == k && Worked(k, write, approved, owner, identity, fault).0.Some?
  {
    WorksExactly(k, write, approved);
  }

  // ---- The other writers of the setup -----------------------------------------------------------------------

  /** What one save makes of the setup, if it can be made at all. */
  function Resaved(k: World, p: Payload, fault: S.Fault): S.Store<Payload>
    requires k.setup.current.Some?
  {
    var f := S.Frame(k.setup.current.value.revision + 1, p, Some(k.setup.current.value.payload));
    if k.setup.current.value.revision >= S.MAX_REVISION || fault == S.BeforeStage then k.setup
    else if fault == S.DuringStage then S.Store(k.setup.current, Some(S.Torn))
    else if fault == S.AfterStage then S.Store(k.setup.current, Some(S.Whole(f)))
    else S.Store(Some(f), None)
  }

  /** Any other save keeps the selection, and only a watchdog's setup keeps one; a rollback brings back
      the whole previous payload, selection included, not cancelled, exactly when nothing is staged, it
      agrees on the recorded operations and passes what else is compared.  Neither touches a directory. */
  lemma OthersExactly(k: World, step: Step)
    requires step.Edit? || step.Rollback?
    ensures var t := Next(k, step);
      && t.dirs == k.dirs && t.stagings == k.stagings && t.claims == k.claims && t.started == k.started && t.intent == k.intent
      && if k.setup.pending.Some? || k.setup.current == None then t == k
         else
           var f := k.setup.current.value;
           match step
           case Edit(mode, fault) =>
             t.setup == if f.payload.table == None || mode.watchdog then Resaved(k, Payload(f.payload.table, mode), fault) else k.setup
           case Rollback(others, fault) =>
             t.setup == if others && f.previous.Some? && f.previous.value.mode.unknown == f.payload.mode.unknown
                        then Resaved(k, Payload(f.previous.value.table, f.previous.value.mode.(cancelled := false)), fault)
                        else k.setup
           case _ => true
  {}

  // ---- Without the owner --------------------------------------------------------------------------------------

  /** When the owner check fails, a guarded update writes nothing, whatever its store, mode and faults; it
      succeeds only where the candidate had been committed before. */
  lemma NothingWithoutOwner(k: World, s: Selection, p: Pending, write: bool, approved: bool, identity: nat, fault: S.Fault)
    requires Selects(k, s) && s.pending == Some(p) && p.requiresOwner
    ensures var (error, t) := Worked(k, write, approved, false, identity, fault);
      && t.dirs == k.dirs && t.stagings == k.stagings && t.setup == k.setup
      && (error == None ==> p.target in k.dirs && k.dirs[p.target].store.pending == None
                            && S.Payload(k.dirs[p.target].store) == Some(p.candidate))
  {
    if WorkFault(k, write, approved) == None && p.target in k.dirs {
      TargetWrites(k.dirs[p.target].store, p, true, write, false, fault);
      TargetSucceeds(k.dirs[p.target].store, p, true, write, false, fault);
    }
  }

  /** So an update whose owner check fails leaves directories and candidates as they were. */
  lemma UpdateWithoutOwner(k: World, candidate: Table, identity: nat, fault: S.Fault, work: S.Fault, last: S.Fault)
    ensures var (error, t) := Transacted(k, UpdateIntent(k, candidate, true), false, identity, fault, work, last);
      t.dirs == k.dirs && t.stagings == k.stagings
  {
    var intent := UpdateIntent(k, candidate, true);
    if intent.Ok? && Savable(k) && fault.Unharmed? {
      var t := Recorded(k, intent.value, fault);
      assert Selects(t, intent.value) && intent.value.pending.value.requiresOwner;
      NothingWithoutOwner(t, intent.value, intent.value.pending.value, true, true, identity, work);
      SelectionOnly(Worked(t, true, true, false, identity, work).1, ClaimOf(t, identity).selection, last);
    }
  }

  lemma SelectionOnly(k: World, s: Selection, fault: S.Fault)
    ensures var t := SaveSelection(k, s, fault); t.dirs == k.dirs && t.stagings == k.stagings && t.claims == k.claims
  {}

  /** This selection's intent, if it has one, is guarded. */
  predicate Guarded(t: Option<Selection>) { t.Some? && t.value.pending.Some? ==> t.value.pending.value.requiresOwner }

  predicate FrameGuarded(f: S.Frame<Payload>) {
    Guarded(f.payload.table) && (f.previous.Some? ==> Guarded(f.previous.value.table))
  }

  /** Every intent that the setup names, named before, or may come to name is guarded. */
  predicate AllGuarded(k: World) {
    && (k.setup.current.Some? ==> FrameGuarded(k.setup.current.value))
    && (k.setup.pending.Some? && k.setup.pending.value.Whole? ==> FrameGuarded(k.setup.pending.value.frame))
    && (forall c | c in k.claims :: c.selection.pending == None)
  }

  /** No step starts an unguarded transaction, or passes an owner check. */
  predicate Ownerless(step: Step) {
    match step
    case Configure(_, _, _, _) => false
    case Move(_, _, _) => false
    case Update(_, requiresOwner, _) => requiresOwner
    case Work(_, _, owner, _, _) => !owner
    case _ => true
  }

  lemma SavedGuarded(k: World, p: Payload, fault: S.Fault)
    requires AllGuarded(k) && Guarded(p.table)
    ensures var t := SavePayload(k, p, fault); AllGuarded(t) && t.dirs == k.dirs && t.stagings == k.stagings
  {}

  lemma UpdateGuarded(k: World, step: Step)
    requires AllGuarded(k) && step.Update? && step.requiresOwner
    ensures var t := Next(k, step); AllGuarded(t) && t.dirs == k.dirs && t.stagings == k.stagings
  {
    RecordedExactly(k, step);
  }

  lemma WorkGuarded(k: World, step: Step)
    requires AllGuarded(k) && step.Work? && !step.owner
    ensures var t := Next(k, step); AllGuarded(t) && t.dirs == k.dirs && t.stagings == k.stagings
  {
    if WorkFault(k, step.write, step.approved) == None {
      var s := Selected(k).value;
      NothingWithoutOwner(k, s, s.pending.value, step.write, step.approved, step.identity, step.fault);
    }
  }

  lemma StepWithoutOwner(k: World, step: Step)
    requires AllGuarded(k) && Ownerless(step)
    ensures var t := Next(k, step); AllGuarded(t) && t.dirs == k.dirs && t.stagings == k.stagings
  {
    match step
    case Update(_, _, _) => UpdateGuarded(k, step);
    case Work(_, _, _, _, _) => WorkGuarded(k, step);
    case Confirm(c, fault) =>
      if c in k.claims && Savable(k) { SavedGuarded(k, k.setup.current.value.payload.(table := Some(c.selection)), fault); }
    case Edit(mode, fault) =>
      if k.setup.current.Some? { SavedGuarded(k, k.setup.current.value.payload.(mode := mode), fault); }
    case Rollback(others, fault) =>
      if PreviousOf(k, others).Some? { SavedGuarded(k, RolledBack(PreviousOf(k, others).value), fault); }
    case RecoverSetup =>
  }

  /** Over any run of such steps, whatever is cut off, rolled back or recovered, no directory is created
      or changed and no candidate is handed over. */
  lemma {:induction false} RunWithoutOwner(k: World, steps: seq<Step>)
    requires AllGuarded(k) && forall step | step in steps :: Ownerless(step)
    ensures Run(k, steps).dirs == k.dirs && Run(k, steps).stagings == k.stagings
    decreases |steps|
  {
    if steps != [] {
      StepWithoutOwner(k, steps[0]);
      RunWithoutOwner(Next(k, steps[0]), steps[1..]);
    }
  }
}
