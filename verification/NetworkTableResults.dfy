/** What every run of the network table's machine keeps, and when a transaction can be completed. */
module NetworkTableResults {
  import opened Basics
  import opened NetworkTable
  import S = Settings

  lemma {:induction false} RunOnce(k: World, steps: seq<Step>, step: Step)
    ensures Run(k, steps + [step]) == Next(Run(k, steps), step)
    decreases |steps|
  {
    if steps == [] {
      assert Run(Next(k, step), []) == Next(k, step);
    } else {
      assert (steps + [step])[1..] == steps[1..] + [step];
      RunOnce(Next(k, steps[0]), steps[1..], step);
    }
  }

  lemma ReachesNext(k: World, step: Step)
    requires Reachable(k)
    ensures Reachable(Next(k, step))
  {
    var k0, steps :| Initial(k0) && Run(k0, steps) == k;
    RunOnce(k0, steps, step);
  }

  /** The source of a move, as the intent found it. */
  predicate SourceKept(k: World, s: Selection, p: Pending) {
    p.kind.MOVE? ==>
      && s.root.Some? && s.root.value in k.dirs && p.source == Some(p.candidate)
      && Holds(k.dirs[s.root.value].store, p.sourceRevision, p.source)
  }

  /** Whatever was cut off, edited or rolled back before, a confirmed transaction has selected a root
      whose store holds exactly the frozen candidate, one revision after what it started from, and
      the source of a move is as the intent found it. */
  lemma ConfirmedHoldsCandidate(k: World, c: Claim, s: Selection, p: Pending)
    requires Reachable(k) && c in k.claims && ClaimFault(k, c).None? && Selected(k) == Some(s) && s.pending == Some(p)
    requires S.SaveFault(k.setup, S.Revision(k.setup), true).None?
    ensures var t := Next(k, Confirm(c, S.Unharmed));
      && Selected(t) == Some(c.selection) && c.selection.root == Some(p.target) && c.selection.pending.None?
      && p.target in t.dirs && c.selection.binding == Some(t.dirs[p.target].identity) && p.operation in t.finished
      && t.dirs[p.target].store == S.Store(Some(S.Successor(Base(k, p), p.candidate)), None)
      && (p.kind.UPDATE? ==> Holds(Base(k, p), p.sourceRevision, p.source)) && SourceKept(t, s, p)
  {
    ReachableOk(k);
    PendingIsIntent(k, s, p);
    assert ClaimOk(k, c);
  }

  lemma CandidateSavedOnce(k: World)
    requires Reachable(k)
    ensures forall i, j | 0 <= i < j < |k.stagings| :: k.stagings[i] != k.stagings[j]
    ensures Fresh(k) && Selected(k).Some? && Selected(k).value.pending.Some? ==>
      SourceKept(k, Selected(k).value, Selected(k).value.pending.value)
  {
    ReachableOk(k);
    if Fresh(k) && Selected(k).Some? && Selected(k).value.pending.Some? {
      PendingIsIntent(k, Selected(k).value, Selected(k).value.pending.value);
    }
  }

  /** Inspection creates no directory and hands over no candidate; at most it promotes one that is
      already staged whole. */
  lemma InspectOnlyPromotes(k: World, owner: bool, identity: nat, fault: S.Fault)
    ensures var t := Worked(k, false, false, owner, identity, fault).1;
      && t.setup == k.setup && t.dirs.Keys == k.dirs.Keys && t.stagings == k.stagings
      && (forall r | r in k.dirs && t.dirs[r] != k.dirs[r] ::
            && Selected(k).Some? && Selected(k).value.pending.Some? && r == Selected(k).value.pending.value.target
            && k.dirs[r].store.pending.Some? && k.dirs[r].store.pending.value.Whole?
            && k.dirs[r].store.pending.value.frame.payload == Selected(k).value.pending.value.candidate
            && t.dirs[r].store == S.Store(Some(k.dirs[r].store.pending.value.frame), None))
  {}

  // ---- One transaction at a time ------------------------------------------------------------------------

  /** Every transaction but the one recorded last has been finished. */
  predicate OneAtATime(k: World) { forall i | 0 <= i < |k.started| - 1 :: k.started[i] in k.finished }

  /** The rollback would replace a recorded intent by a selection that is not its completion. */
  predicate Drops(k: World, others: bool) {
    && PreviousOf(k, others).Some? && Selected(k).Some? && Selected(k).value.pending.Some?
    && PreviousOf(k, others).value.table != Selected(k)
    && !Completes(k, Selected(k).value, PreviousOf(k, others).value.table)
  }

  /** No rollback of this run replaces a recorded intent. */
  predicate Keeps(k: World, steps: seq<Step>)
    decreases |steps|
  {
    steps == [] || ((steps[0].Rollback? ==> !Drops(k, steps[0].others)) && Keeps(Next(k, steps[0]), steps[1..]))
  }

  /** `t` is reached; unless `drops`, without a rollback that replaces a recorded intent. */
  ghost predicate ReachableBy(t: World, drops: bool) {
    exists k0, steps :: Initial(k0) && Run(k0, steps) == t && (drops || Keeps(k0, steps))
  }

  /** An unfinished intent is selected, or staged to be, and nothing else is staged but its completion. */
  predicate Open(k: World)
    requires k.intent.Some?
  {
    if k.setup.pending.Some? && k.setup.pending.value.Whole? then
      var t := k.setup.pending.value.frame.payload.table;
      t == k.intent || (Selected(k) == k.intent && Completes(k, k.intent.value, t))
    else Selected(k) == k.intent
  }

  predicate AllKept(k: World) {
    && OneAtATime(k)
    && (k.intent.Some? ==> k.started != [] && (k.started[|k.started| - 1] in k.finished || Open(k)))
  }

  lemma SavedKept(k: World, p: Payload, fault: S.Fault)
    requires WorldOk(k) && Savable(k) && AllKept(k)
    requires k.intent.Some? && k.started[|k.started| - 1] !in k.finished ==>
      p.table == k.intent || Completes(k, k.intent.value, p.table)
    ensures AllKept(SavePayload(k, p, fault))
  {}

  lemma RecordedKept(k: World, s: Selection, fault: S.Fault)
    requires AllKept(k) && Savable(k) && s.pending.Some? && (Selected(k).Some? ==> Selected(k).value.pending.None?)
    requires k.intent.Some? ==> k.intent.value.pending.Some?
    requires (k.intent.None? ==> k.started == [])
    ensures AllKept(Recorded(k, s, fault))
  {
    var t := Recorded(k, s, fault);
    if Reaches(fault) {
      assert k.intent.Some? ==> !Open(k);
      forall i | 0 <= i < |t.started| - 1 ensures t.started[i] in t.finished {
        if i == |k.started| - 1 { assert k.intent.Some?; }
      }
    }
  }

  lemma StartedKept(k: World, step: Step)
    requires WorldOk(k) && AllKept(k) && IsIntent(step)
    ensures AllKept(Next(k, step))
  {
    if Intent(k, step).Ok? && Savable(k) {
      NewIntentFits(k, step);
      RecordedKept(k, Intent(k, step).value, step.fault);
    }
  }

  lemma RecoverKept(k: World)
    requires WorldOk(k) && AllKept(k)
    ensures AllKept(Next(k, RecoverSetup))
  {}

  lemma NextKept(k: World, step: Step)
    requires WorldOk(k) && AllKept(k) && (step.Rollback? ==> !Drops(k, step.others))
    ensures AllKept(Next(k, step))
  {
    match step
    case Confirm(c, fault) =>
      if c in k.claims && ClaimFault(k, c).None? && Savable(k) {
        assert ClaimOk(k, c);
        SavedKept(k, k.setup.current.value.payload.(table := Some(c.selection)), fault);
      }
    case Edit(mode, fault) =>
      if MayEdit(k, mode) && Savable(k) { SavedKept(k, k.setup.current.value.payload.(mode := mode), fault); }
    case Rollback(others, fault) =>
      if PreviousOf(k, others).Some? && Savable(k) { SavedKept(k, RolledBack(PreviousOf(k, others).value), fault); }
    case RecoverSetup => RecoverKept(k);
    case Work(write, approved, owner, identity, fault) => WorkKept(k, write, approved, owner, identity, fault);
    case _ => StartedKept(k, step);
  }

  lemma WorkKept(k: World, write: bool, approved: bool, owner: bool, identity: nat, fault: S.Fault)
    requires WorldOk(k) && AllKept(k)
    ensures AllKept(Worked(k, write, approved, owner, identity, fault).1)
  {
    var t := Worked(k, write, approved, owner, identity, fault).1;
    assert t.started == k.started && t.finished == k.finished && t.setup == k.setup && t.intent == k.intent;
  }

  lemma {:induction false} RunKept(k: World, steps: seq<Step>)
    requires WorldOk(k) && AllKept(k) && Keeps(k, steps)
    ensures AllKept(Run(k, steps))
    decreases |steps|
  {
    if steps != [] {
      NextKept(k, steps[0]);
      NextOk(k, steps[0]);
      RunKept(Next(k, steps[0]), steps[1..]);
    }
  }

  const Watching := Mode(true, false, false, 0)

  /** One CREATE carried out, but not confirmed. */
  lemma FirstCreate() returns (k: World, steps: seq<Step>)
    ensures Initial(k)
    ensures var t := Run(k, steps);
      && t.started == [2] && t.finished == {} && 1 in t.dirs && 2 !in t.dirs && t.intent.Some?
      && S.Payload(t.dirs[1].store) == Some(Table(7, 1, 0))
      && t.setup == S.Store(Some(S.Frame(2, Payload(t.intent, Watching), Some(Payload(None, Watching)))), None)
      && t.intent.value.pending.Some? && t.intent.value.pending.value.operation == 2 && t.intent.value.root.None?
  {
    k := World(S.Store(Some(S.Frame(1, Payload(None, Watching), None)), None), map[], {}, map[], None, None, [], [], {});
    var create := Configure(1, Table(7, 1, 0), true, S.Unharmed);
    var work := Work(true, true, false, 5, S.Unharmed);
    var a := Next(k, create);
    var p := Pending(CREATE, 2, 1, 0, None, Table(7, 1, 0), false);
    assert a.intent == Some(Selection(7, None, None, Some(p)));
    assert Targeted(S.Store(None, None), p, false, true, false, S.Unharmed)
      == (None, S.Store(Some(S.Frame(1, Table(7, 1, 0), None)), None));
    var b := Next(a, work);
    steps := [create, work];
    assert steps[1..] == [work] && [work][1..] == [];
    assert Run(k, steps) == Run(a, [work]) == Run(b, []) == b;
  }

  /** A rollback before it is confirmed: the intent is forgotten, and a second CREATE is recorded
      beside the first directory and its candidate. */
  lemma SecondCreate() returns (k: World, steps: seq<Step>)
    ensures Initial(k)
    ensures var t := Run(k, steps);
      && |t.started| == 2 && t.started[0] !in t.finished && Selected(t).Some? && Selected(t).value.pending.Some?
      && 1 in t.dirs && S.Payload(t.dirs[1].store) == Some(Table(7, 1, 0)) && Selected(t).value.pending.value.target == 2
  {
    k, steps := FirstCreate();
    var b := Run(k, steps);
    var back := Rollback(true, S.Unharmed);
    var again := Configure(2, Table(8, 1, 0), true, S.Unharmed);
    RunOnce(k, steps, back);
    RunOnce(k, steps + [back], again);
    assert PreviousOf(b, true) == Some(Payload(None, Watching));
    var c := Next(b, back);
    assert c.setup == S.Store(Some(S.Frame(3, Payload(None, Watching), Some(Payload(b.intent, Watching)))), None);
    assert !Completes(c, c.intent.value, None);
    assert Intent(c, again).Ok?;
    steps := steps + [back] + [again];
  }

  /** Over all runs, no second transaction starts before the first is finished, exactly when no
      rollback replaces a recorded intent. */
  lemma OneTransactionAtATime(drops: bool)
    ensures (forall t | ReachableBy(t, drops) :: OneAtATime(t)) <==> !drops
  {
    if drops {
      var k, steps := SecondCreate();
      assert ReachableBy(Run(k, steps), drops);
      assert !OneAtATime(Run(k, steps));
    } else {
      forall t | ReachableBy(t, drops) ensures OneAtATime(t) {
        var k0, steps :| Initial(k0) && Run(k0, steps) == t && (drops || Keeps(k0, steps));
        InitialOk(k0);
        RunKept(k0, steps);
      }
    }
  }

  /** In a run so far without one, a rollback forgets an unfinished intent exactly when it replaces it. */
  lemma ForgetsExactly(k: World, others: bool)
    requires ReachableBy(k, false) && Savable(k) && PreviousOf(k, others).Some?
    requires k.intent.Some? && k.started != [] && k.started[|k.started| - 1] !in k.finished
    ensures var t := Next(k, Rollback(others, S.Unharmed));
      t.started == k.started && (k.started[|k.started| - 1] !in t.finished && Selected(t) != t.intent <==> Drops(k, others))
  {
    var k0, steps :| Initial(k0) && Run(k0, steps) == k && (false || Keeps(k0, steps));
    InitialOk(k0);
    RunOk(k0, steps);
    RunKept(k0, steps);
  }

  /** While an intent is selected, or a save of the setup is unresolved, no other can be recorded. */
  lemma NothingStarts(k: World, step: Step)
    requires IsIntent(step) && (k.setup.pending.Some? || (Selected(k).Some? && Selected(k).value.pending.Some?))
    ensures Intent(k, step).Err? && Next(k, step) == k
  {}

  // ---- Completing a transaction -----------------------------------------------------------------------

  /** What a later resume needs of the target it finds. */
  predicate Completable(k: World, p: Pending) {
    p.target in k.dirs ==>
      var store := k.dirs[p.target].store;
      && store.pending != Some(S.Torn)
      && (S.Empty(store) ==> p.kind.UPDATE?)
      && (store == Base(k, p) ==> S.Revision(store) < S.MAX_REVISION)
  }

  lemma TargetedSucceedsExactly(store: S.Store<Table>, base: S.Store<Table>, p: Pending, present: bool, staged: bool)
    requires Underway(store, base, p.candidate, staged) && base.pending.None? && (!present ==> store == S.Store(None, None))
    requires p.kind.UPDATE? ==> Holds(base, p.sourceRevision, p.source) && p.source != Some(p.candidate) && present
    requires !p.kind.UPDATE? ==> base == S.Store(None, None)
    ensures Targeted(store, p, present, true, true, S.Unharmed).0.None? <==>
      (present ==> && store.pending != Some(S.Torn) && (S.Empty(store) ==> p.kind.UPDATE?)
                   && (store == base ==> S.Revision(store) < S.MAX_REVISION))
  {}

  /** With the owner present, an unharmed resume that maintenance allows succeeds exactly then. */
  lemma ResumeSucceedsExactly(k: World, s: Selection, p: Pending, approved: bool, identity: nat)
    requires Reachable(k) && Selected(k) == Some(s) && s.pending == Some(p) && k.setup.pending.None?
    ensures Worked(k, true, approved, true, identity, S.Unharmed).0.None? <==>
      Maintenance(k, approved).None? && Completable(k, p)
  {
    ReachableOk(k);
    PendingIsIntent(k, s, p);
    assert WorkFault(k, true, approved) == Maintenance(k, approved);
    var present := p.target in k.dirs;
    var dir := if present then k.dirs[p.target] else Dir(identity, S.Store(None, None));
    TargetedSucceedsExactly(dir.store, Base(k, p), p, present, p.operation in k.stagings);
  }

  /** The two faults that strand a transaction: a torn candidate, and a directory that was
      created but never written. */
  predicate Strands(k: World, p: Pending, fault: S.Fault) {
    && (p.target in k.dirs ==> k.dirs[p.target].store == Base(k, p))
    && (fault.DuringStage? || (fault.BeforeStage? && p.target !in k.dirs))
  }

  /** What is left of the target store can be completed unless the fault tore it, or left it empty. */
  lemma TargetedStrands(store: S.Store<Table>, base: S.Store<Table>, p: Pending, present: bool, staged: bool, fault: S.Fault)
    requires Underway(store, base, p.candidate, staged) && base.pending.None? && (!present ==> store == S.Store(None, None))
    requires p.kind.UPDATE? ==> Holds(base, p.sourceRevision, p.source) && p.source != Some(p.candidate) && present
    requires !p.kind.UPDATE? ==> base == S.Store(None, None)
    requires present ==> store.pending != Some(S.Torn) && (S.Empty(store) ==> p.kind.UPDATE?)
    requires store == base ==> S.Revision(store) < S.MAX_REVISION
    ensures var after := Targeted(store, p, present, true, true, fault).1;
      (after.pending != Some(S.Torn) && (S.Empty(after) ==> p.kind.UPDATE?) && (after == base ==> S.Revision(after) < S.MAX_REVISION))
      <==> !(store == base && (fault.DuringStage? || (fault.BeforeStage? && !present)))
  {}

  lemma WorkedPlaces(k: World, s: Selection, p: Pending, identity: nat, fault: S.Fault)
    requires Selected(k) == Some(s) && s.pending == Some(p) && WorkFault(k, true, true).None?
    ensures var dir := Found(k, p, identity);
      var t := Worked(k, true, true, true, identity, fault).1;
      t.dirs == Placed(k, p, dir, Targeted(dir.store, p, p.target in k.dirs, true, true, fault).1).dirs && t.setup == k.setup
  {}

  /** A transaction that could be completed stays so, unless the next attempt meets one of them. */
  lemma StrandedExactly(k: World, s: Selection, p: Pending, identity: nat, fault: S.Fault)
    requires Reachable(k) && Selected(k) == Some(s) && s.pending == Some(p) && Maintenance(k, true).None? && Completable(k, p)
    ensures Completable(Worked(k, true, true, true, identity, fault).1, p) <==> !Strands(k, p, fault)
  {
    ReachableOk(k);
    PendingIsIntent(k, s, p);
    assert WorkFault(k, true, true).None?;
    var dir := Found(k, p, identity);
    TargetedStrands(dir.store, Base(k, p), p, p.target in k.dirs, p.operation in k.stagings, fault);
    StillBased(k, p, dir, Targeted(dir.store, p, p.target in k.dirs, true, true, fault).1);
    WorkedPlaces(k, s, p, identity, fault);
  }

  lemma StillBased(k: World, p: Pending, dir: Dir, store: S.Store<Table>)
    ensures Base(Placed(k, p, dir, store), p) == Base(k, p)
    ensures Placed(k, p, dir, store).dirs[p.target].store == store
  {}

  // ---- Whole transactions --------------------------------------------------------------------------------

  /** A `_finish` is its two steps in a row. */
  lemma FinishedIsTwoSteps(k: World, write: bool, approved: bool, owner: bool, identity: nat, fault: S.Fault, last: S.Fault)
    requires WorldOk(k)
    ensures var t := Next(k, Work(write, approved, owner, identity, fault));
      var (error, u) := Finished(k, write, approved, owner, identity, fault, last);
      u == t || (WorkFault(k, write, approved).None? && ClaimOf(k, identity) in t.claims
                 && u == Next(t, Confirm(ClaimOf(k, identity), last)))
  {}

  lemma FinishedReaches(k: World, write: bool, approved: bool, owner: bool, identity: nat, fault: S.Fault, last: S.Fault)
    requires Reachable(k)
    ensures Reachable(Finished(k, write, approved, owner, identity, fault, last).1)
  {
    ReachableOk(k);
    var t := Next(k, Work(write, approved, owner, identity, fault));
    ReachesNext(k, Work(write, approved, owner, identity, fault));
    FinishedIsTwoSteps(k, write, approved, owner, identity, fault, last);
    if Finished(k, write, approved, owner, identity, fault, last).1 != t {
      ReachesNext(t, Confirm(ClaimOf(k, identity), last));
    }
  }

  /** The selected root holds the candidate, and nothing is pending. */
  predicate Selects(k: World, p: Pending) {
    && Selected(k).Some? && Selected(k).value.pending.None? && Selected(k).value.root == Some(p.target)
    && p.target in k.dirs && S.Payload(k.dirs[p.target].store) == Some(p.candidate)
  }

  lemma FinishedSelects(k: World, s: Selection, p: Pending, write: bool, approved: bool, owner: bool, identity: nat,
                        fault: S.Fault, last: S.Fault)
    requires Reachable(k) && Selected(k) == Some(s) && s.pending == Some(p)
    requires Finished(k, write, approved, owner, identity, fault, last).0.None?
    ensures Selects(Finished(k, write, approved, owner, identity, fault, last).1, p)
  {
    var t := Worked(k, write, approved, owner, identity, fault).1;
    ReachableOk(k);
    WorkOk(k, write, approved, owner, identity, fault);
    assert ClaimOf(k, identity) in t.claims;
    assert ClaimOk(t, ClaimOf(k, identity));
  }

  /** It either stops after its intent, or goes on to finish it. */
  lemma TransactedIs(k: World, step: Step, owner: bool, identity: nat, work: S.Fault, last: S.Fault)
    requires IsIntent(step)
    ensures var t, r := Next(k, step), Transacted(k, Intent(k, step), owner, identity, step.fault, work, last);
      if Intent(k, step).Ok? && Savable(k) && step.fault.Unharmed?
      then r == Finished(t, true, true, owner, identity, work, last) && Selected(t) == Some(Intent(k, step).value)
      else r.1 == t && r.0.Some?
  {}

  /** Wherever it is cut off it is a run of steps; and when it reports success, the root it selects
      holds the candidate of its own intent. */
  lemma TransactionSelectsCandidate(k: World, step: Step, owner: bool, identity: nat, work: S.Fault, last: S.Fault)
    requires Reachable(k) && IsIntent(step)
    ensures var (error, t) := Transacted(k, Intent(k, step), owner, identity, step.fault, work, last);
      && Reachable(t)
      && (error.None? ==> Intent(k, step).Ok? && Intent(k, step).value.pending.Some? && Selects(t, Intent(k, step).value.pending.value))
  {
    var t := Next(k, step);
    ReachesNext(k, step);
    TransactedIs(k, step, owner, identity, work, last);
    if Intent(k, step).Ok? && Savable(k) && step.fault.Unharmed? {
      var s := Intent(k, step).value;
      FinishedReaches(t, true, true, owner, identity, work, last);
      if Finished(t, true, true, owner, identity, work, last).0.None? {
        FinishedSelects(t, s, s.pending.value, true, true, owner, identity, work, last);
      }
    }
  }
}
