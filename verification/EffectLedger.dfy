/** The shared effect ledger: what one validated mutation may change, and what no sequence of
    them ever does. */
module EffectLedger {
  import opened Basics

  const MAX_GENERATION := 0x7fff_ffff_ffff_ffff

  datatype Action = REPAIR | REGISTER | IDENTITY | ROUTE | RETENTION | SCAN | WOL | SSH | LAUNCH
  datatype Outcome = UNKNOWN | COMPLETE | NO_WORK | SUPERSEDED | NOT_DISPATCHED

  /** Operation ids are digests; those of a root move are of (transition, object key). */
  datatype Operation = RootMove(transition: nat, key: nat) | OtherOperation(id: nat)
  datatype Entry = Entry(owner: nat, epoch: nat, operation: Operation, outcome: Outcome)
  datatype Barrier = Barrier(transition: nat, owner: nat, epoch: nat, localClear: bool)
  datatype RootPlan = RootPlan(transition: nat, target: nat)
  datatype FolderPlan = FolderPlan(transition: nat, operation: Operation)

  datatype Ledger = Ledger(entries: map<Action, Entry>, barrier: Option<Barrier>,
                           rootPlan: Option<RootPlan>, folderPlan: Option<FolderPlan>)

  datatype Retention = FREE | RETAINED | HELD

  /** The summary row; its operation id is the digest of the ledger it holds. */
  datatype Row = Row(generation: nat, retention: Retention, operation: Option<Ledger>, ledger: Option<Ledger>)

  datatype Owner = Owner(owner: nat, epoch: nat)
  datatype Phase = ACTIVE | MAINTENANCE
  datatype Marker = Marker(revision: nat, phase: Phase, transition: nat)

  /** Operations a root settlement can recognise: `keys` are the object keys of the storage. */
  datatype Purpose =
    | INITIALIZE | START | ROOT_START | ROOT_SETTLE | ROOT_CANCEL | ROOT_RETRY | ROOT_PLAN
    | FOLDER_PLAN | FOLDER_SETTLE | FINISH | CERTIFY

  predicate SomeUnknown(l: Ledger) { exists a :: a in l.entries && l.entries[a].outcome.UNKNOWN? }

  predicate LedgerOk(l: Ledger) {
    && (forall a | a in l.entries :: 1 <= l.entries[a].epoch <= MAX_GENERATION)
    && (l.rootPlan.None? || l.folderPlan.None?)
    && (l.barrier.Some? ==> 1 <= l.barrier.value.epoch <= MAX_GENERATION)
  }

  /** `ledger(row)` accepts the row. */
  predicate RowOk(r: Row) {
    r.ledger.Some? ==> LedgerOk(r.ledger.value) && r.retention == if SomeUnknown(r.ledger.value) then HELD else RETAINED
  }

  /** `changed_row`. */
  function ChangedRow(r: Row, l: Ledger): Row {
    Row(r.generation + 1, if SomeUnknown(l) then HELD else RETAINED, Some(l), Some(l))
  }

  predicate InMaintenance(config: Option<Marker>, barrier: Option<Barrier>) {
    && config.Some? && config.value.phase.MAINTENANCE?
    && barrier.Some? && barrier.value.localClear && barrier.value.transition == config.value.transition
  }

  predicate Differs(was: Ledger, next: Ledger, a: Action) {
    (a in was.entries) != (a in next.entries) || (a in was.entries && a in next.entries && was.entries[a] != next.entries[a])
  }

  /** Only this action's entry differs. */
  predicate OnlyEntry(was: Ledger, next: Ledger, a: Action) {
    && next.rootPlan == was.rootPlan && next.folderPlan == was.folderPlan && next.barrier == was.barrier
    && a in next.entries && Differs(was, next, a) && forall b :: Differs(was, next, b) ==> b == a
  }

  predicate MayInherit(prior: Entry, owner: Owner) {
    prior.epoch <= owner.epoch && (prior.epoch != owner.epoch || prior.owner == owner.owner)
  }

  /** What each purpose asks of the one entry that changes. */
  predicate EntryOk(purpose: Purpose, config: Option<Marker>, was: Ledger, a: Action, prior: Option<Entry>, entry: Entry,
                    owner: Owner, keys: set<nat>)
  {
    var own := entry.owner == owner.owner && entry.epoch == owner.epoch;
    var kept := prior.Some? && entry == prior.value.(outcome := entry.outcome);
    var known := prior.Some? && config.Some? && prior.value.operation.RootMove?
      && prior.value.operation.transition == config.value.transition && prior.value.operation.key in keys;
    match purpose
    case START =>
      && (config.None? || !config.value.phase.MAINTENANCE?)
      && own && entry.outcome.UNKNOWN?
      && (prior.None? || (!prior.value.outcome.UNKNOWN? && prior.value.operation != entry.operation))
    case ROOT_START =>
      && own && a.IDENTITY? && InMaintenance(config, was.barrier) && entry.outcome.UNKNOWN?
      && (prior.None? || (!prior.value.outcome.UNKNOWN? && prior.value.operation != entry.operation))
    case ROOT_RETRY =>
      && own && a.IDENTITY? && InMaintenance(config, was.barrier) && known
      && prior.value.outcome.NOT_DISPATCHED? && entry.outcome.UNKNOWN? && entry.operation == prior.value.operation
      && MayInherit(prior.value, owner)
    case ROOT_SETTLE =>
      && a.IDENTITY? && InMaintenance(config, was.barrier) && known && kept
      && prior.value.outcome.UNKNOWN? && entry.outcome.COMPLETE? && prior.value.epoch < owner.epoch
    case ROOT_CANCEL =>
      && a.IDENTITY? && InMaintenance(config, was.barrier) && known && kept
      && prior.value.outcome.UNKNOWN? && entry.outcome.NOT_DISPATCHED? && MayInherit(prior.value, owner)
    case FOLDER_SETTLE =>
      && a.IDENTITY? && InMaintenance(config, was.barrier) && kept
      && prior.value.outcome.UNKNOWN? && entry.outcome.COMPLETE? && MayInherit(prior.value, owner)
      && was.folderPlan.Some? && prior.value.operation == was.folderPlan.value.operation
      && config.value.transition == was.folderPlan.value.transition
    case FINISH => own && kept && prior.value.outcome.UNKNOWN? && !entry.outcome.UNKNOWN?
    case _ => false
  }

  /** `EffectMutation._validate`. */
  ghost predicate Valid(purpose: Purpose, config: Option<Marker>, before: Row, after: Row, owner: Owner, keys: set<nat>) {
    && RowOk(before) && RowOk(after) && after.ledger.Some? && before.generation < MAX_GENERATION
    && after == ChangedRow(before, after.ledger.value)
    && 1 <= owner.epoch <= MAX_GENERATION
    && var next := after.ledger.value;
       match purpose
       case INITIALIZE =>
         && (config.None? || !config.value.phase.MAINTENANCE?)
         && before.ledger.None? && owner.epoch == 1 && next.barrier.None? && next.rootPlan.None? && next.folderPlan.None?
         && !before.retention.HELD?
         && (forall a | a in next.entries :: next.entries[a].owner == owner.owner && next.entries[a].epoch == 1)
       case ROOT_PLAN =>
         && before.ledger.Some? && next.rootPlan.Some? && InMaintenance(config, before.ledger.value.barrier)
         && next.rootPlan.value.transition == config.value.transition
         && (before.ledger.value.rootPlan.None? || before.ledger.value.rootPlan.value.transition != config.value.transition)
         && next == before.ledger.value.(rootPlan := next.rootPlan)
       case FOLDER_PLAN =>
         && before.ledger.Some? && next.folderPlan.Some? && InMaintenance(config, before.ledger.value.barrier)
         && before.ledger.value.rootPlan.None? && next.folderPlan.value.transition == config.value.transition
         && (before.ledger.value.folderPlan.None? || before.ledger.value.folderPlan.value.transition != config.value.transition)
         && next == before.ledger.value.(folderPlan := next.folderPlan)
       case CERTIFY =>
         && before.ledger.Some? && before.ledger.value.barrier.Some? && config.Some? && config.value.phase.MAINTENANCE?
         && var b := before.ledger.value.barrier.value;
            && b.transition == config.value.transition && b.owner == owner.owner && b.epoch == owner.epoch && !b.localClear
            && next == before.ledger.value.(barrier := Some(b.(localClear := true)))
       case _ =>
         && before.ledger.Some?
         && exists a :: OnlyEntry(before.ledger.value, next, a)
              && EntryOk(purpose, config, before.ledger.value, a, Prior(before.ledger.value, a), next.entries[a], owner, keys)
  }

  function Prior(l: Ledger, a: Action): Option<Entry> { if a in l.entries then Some(l.entries[a]) else None }

  // ---- What the program composes ---------------------------------------------------------------------

  datatype Error = CONFIGURATION_EFFECT_UNKNOWN | CONFIGURATION_EFFECT_WAL

  function Put(l: Ledger, a: Action, e: Entry): Ledger { l.(entries := l.entries[a := e]) }

  /** `Effects.start`: the purpose it chooses and the ledger it proposes.  `root` is the transition of
      a start in maintenance; a retry must be of a move of one of its `keys`. */
  function Started(l: Ledger, a: Action, op: Operation, owner: Owner, root: Option<nat>, keys: set<nat>): Result<(Purpose, Ledger), Error> {
    var was := Prior(l, a);
    var next := Put(l, a, Entry(owner.owner, owner.epoch, op, UNKNOWN));
    if root.Some? && was.Some? && was.value.outcome.NOT_DISPATCHED? && was.value.operation == op then
      if op.RootMove? && op.transition == root.value && op.key in keys then Ok((ROOT_RETRY, next)) else Err(CONFIGURATION_EFFECT_WAL)
    else if was.None? || (!was.value.outcome.UNKNOWN? && was.value.operation != op)
    then Ok((if root.Some? then ROOT_START else START, next))
    else Err(CONFIGURATION_EFFECT_UNKNOWN)
  }

  /** `Effects.finish`: nothing to do, a proposed ledger, or a refusal. */
  function Finished(l: Ledger, a: Action, op: Operation, outcome: Outcome, owner: Owner): Result<Option<Ledger>, Error> {
    var was := Prior(l, a);
    if was.None? || was.value.owner != owner.owner || was.value.epoch != owner.epoch || was.value.operation != op
    then Err(CONFIGURATION_EFFECT_UNKNOWN)
    else if was.value.outcome == outcome then Ok(None)
    else if !was.value.outcome.UNKNOWN? then Err(CONFIGURATION_EFFECT_UNKNOWN)
    else Ok(Some(Put(l, a, was.value.(outcome := outcome))))
  }

  /** `next` differs from the ledger in this one entry. */
  predicate Writes(l: Ledger, next: Ledger, a: Action, e: Entry) {
    && next.barrier == l.barrier && next.rootPlan == l.rootPlan && next.folderPlan == l.folderPlan
    && next.entries.Keys == l.entries.Keys + {a} && next.entries[a] == e
    && forall b | b in l.entries && b != a :: next.entries[b] == l.entries[b]
  }

  /** A start is accepted exactly when nothing is recorded for its action, or a resolved attempt of
      another operation, or, in maintenance, the undispatched attempt of this very object. */
  lemma StartedExactly(l: Ledger, a: Action, op: Operation, owner: Owner, root: Option<nat>, keys: set<nat>)
    ensures Started(l, a, op, owner, root, keys).Ok? <==>
      || a !in l.entries
      || (l.entries[a].outcome != UNKNOWN && l.entries[a].operation != op)
      || (root.Some? && l.entries[a].outcome == NOT_DISPATCHED && l.entries[a].operation == op
          && exists key :: key in keys && op == RootMove(root.value, key))
    ensures Started(l, a, op, owner, root, keys).Err? ==>
      Started(l, a, op, owner, root, keys).error
        == if root.Some? && l.entries[a].outcome == NOT_DISPATCHED && l.entries[a].operation == op
           then CONFIGURATION_EFFECT_WAL else CONFIGURATION_EFFECT_UNKNOWN
  {
    assert op.RootMove? && op.key in keys ==> exists key :: key in keys && op == RootMove(op.transition, key);
  }

  /** It records this owner's attempt and nothing else, after which nothing can be started before it is resolved. */
  lemma StartedDoes(l: Ledger, a: Action, op: Operation, owner: Owner, root: Option<nat>, keys: set<nat>)
    requires Started(l, a, op, owner, root, keys).Ok?
    ensures var (purpose, next) := Started(l, a, op, owner, root, keys).value;
      && Writes(l, next, a, Entry(owner.owner, owner.epoch, op, UNKNOWN))
      && purpose == (if root.None? then START else if a in l.entries && l.entries[a].operation == op then ROOT_RETRY else ROOT_START)
      && (forall o, w, r, ks :: Started(next, a, o, w, r, ks) == Err(CONFIGURATION_EFFECT_UNKNOWN))
  {}

  /** A finish is accepted exactly for this owner's own attempt of this operation, while it is UNKNOWN
      or once it has this outcome; it records the outcome and nothing else, and the first one stands. */
  lemma FinishedExactly(l: Ledger, a: Action, op: Operation, outcome: Outcome, owner: Owner)
    ensures Finished(l, a, op, outcome, owner).Ok? <==>
      a in l.entries && (l.entries[a] == Entry(owner.owner, owner.epoch, op, UNKNOWN)
                         || l.entries[a] == Entry(owner.owner, owner.epoch, op, outcome))
    ensures Finished(l, a, op, outcome, owner) == Ok(None) <==>
      a in l.entries && l.entries[a] == Entry(owner.owner, owner.epoch, op, outcome)
    ensures Finished(l, a, op, outcome, owner).Ok? && Finished(l, a, op, outcome, owner).value.Some? ==>
      var next := Finished(l, a, op, outcome, owner).value.value;
      && Writes(l, next, a, Entry(owner.owner, owner.epoch, op, outcome))
      && Finished(next, a, op, outcome, owner) == Ok(None)
      && forall o | o != outcome :: Finished(next, a, op, o, owner).Err?
  {}

  /** Nobody but its owner finishes an attempt, and its owner can always finish what it started. */
  lemma StartThenFinish(l: Ledger, a: Action, op: Operation, owner: Owner, root: Option<nat>, keys: set<nat>, outcome: Outcome, other: Owner)
    requires Started(l, a, op, owner, root, keys).Ok? && outcome != UNKNOWN
    ensures var next := Started(l, a, op, owner, root, keys).value.1;
      && (Finished(next, a, op, outcome, other).Ok? <==> other == owner)
      && Writes(l, Finished(next, a, op, outcome, owner).value.value, a, Entry(owner.owner, owner.epoch, op, outcome))
  {
    StartedDoes(l, a, op, owner, root, keys);
    var next := Started(l, a, op, owner, root, keys).value.1;
    FinishedExactly(next, a, op, outcome, owner);
    FinishedExactly(next, a, op, outcome, other);
  }

  /** No entry is of a later epoch than the owner's, nor of its epoch and somebody else's. */
  predicate Heir(r: Row, owner: Owner) {
    r.ledger.Some? ==> forall a | a in r.ledger.value.entries :: MayInherit(r.ledger.value.entries[a], owner)
  }

  /** What `start` composes is always a valid plan of a document's owner (`StartsAfterAnyRun` shows
      that owners are heirs). */
  lemma StartedIsValid(before: Row, a: Action, op: Operation, owner: Owner, root: Option<nat>, config: Option<Marker>, keys: set<nat>)
    requires RowOk(before) && before.ledger.Some? && before.generation < MAX_GENERATION && 1 <= owner.epoch <= MAX_GENERATION
    requires if root.Some? then a.IDENTITY? && InMaintenance(config, before.ledger.value.barrier) && config.value.transition == root.value
             else config.None? || !config.value.phase.MAINTENANCE?
    requires Started(before.ledger.value, a, op, owner, root, keys).Ok? && Heir(before, owner)
    ensures var (purpose, next) := Started(before.ledger.value, a, op, owner, root, keys).value;
      Valid(purpose, config, before, ChangedRow(before, next), owner, keys)
  {
    var was := before.ledger.value;
    var (purpose, next) := Started(was, a, op, owner, root, keys).value;
    assert OnlyEntry(was, next, a);
    assert next.entries[a].outcome.UNKNOWN?;
  }

  lemma FinishedIsValid(before: Row, a: Action, op: Operation, outcome: Outcome, owner: Owner, config: Option<Marker>, keys: set<nat>)
    requires RowOk(before) && before.ledger.Some? && before.generation < MAX_GENERATION && 1 <= owner.epoch <= MAX_GENERATION
    requires !outcome.UNKNOWN?
    requires Finished(before.ledger.value, a, op, outcome, owner).Ok?
    requires Finished(before.ledger.value, a, op, outcome, owner).value.Some?
    ensures Valid(FINISH, config, before,
                  ChangedRow(before, Finished(before.ledger.value, a, op, outcome, owner).value.value), owner, keys)
  {
    var was := before.ledger.value;
    assert OnlyEntry(was, Finished(was, a, op, outcome, owner).value.value, a);
  }

  // ---- The mutation check accepts exactly what the program composes ------------------------------------

  /** The row moves on by one, holds the new ledger, and is held while something is UNKNOWN. */
  predicate Succeeding(before: Row, after: Row, owner: Owner) {
    && RowOk(before) && before.ledger.Some? && after.ledger.Some? && after.operation == after.ledger && LedgerOk(after.ledger.value)
    && before.generation < MAX_GENERATION && after.generation == before.generation + 1
    && after.retention == (if SomeUnknown(after.ledger.value) then HELD else RETAINED)
    && 1 <= owner.epoch <= MAX_GENERATION
  }

  predicate Maintained(config: Option<Marker>, l: Ledger, transition: nat) {
    && config.Some? && config.value.phase == MAINTENANCE && config.value.transition == transition
    && l.barrier.Some? && l.barrier.value.localClear && l.barrier.value.transition == transition
  }

  lemma PutIsOnly(l: Ledger, next: Ledger, a: Action, e: Entry)
    requires a in l.entries ==> l.entries[a] != e
    ensures Writes(l, next, a, e) <==> next == Put(l, a, e)
    ensures Writes(l, next, a, e) ==> OnlyEntry(l, next, a)
    ensures OnlyEntry(l, next, a) && next.entries[a] == e ==> Writes(l, next, a, e)
  {
    if OnlyEntry(l, next, a) && next.entries[a] == e {
      forall b ensures b in next.entries <==> b in l.entries || b == a { assert Differs(l, next, b) ==> b == a; }
      forall b | b in l.entries && b != a ensures next.entries[b] == l.entries[b] { assert !Differs(l, next, b); }
    }
    if Writes(l, next, a, e) { assert next.entries == l.entries[a := e]; }
  }

  /** Outside maintenance a start is accepted exactly when it is one that the program composes. */
  lemma StartAccepted(config: Option<Marker>, before: Row, after: Row, owner: Owner, keys: set<nat>)
    requires before.ledger.Some?
    ensures Valid(START, config, before, after, owner, keys) <==>
      && Succeeding(before, after, owner) && (config.Some? ==> config.value.phase == ACTIVE)
      && exists a, op :: Started(before.ledger.value, a, op, owner, None, keys) == Ok((START, after.ledger.value))
  {
    if after.ledger.Some? {
      var l, next := before.ledger.value, after.ledger.value;
      if Valid(START, config, before, after, owner, keys) {
        var a :| OnlyEntry(l, next, a) && EntryOk(START, config, l, a, Prior(l, a), next.entries[a], owner, keys);
        PutIsOnly(l, next, a, next.entries[a]);
        assert Started(l, a, next.entries[a].operation, owner, None, keys) == Ok((START, next));
      }
      forall a, op | Started(l, a, op, owner, None, keys) == Ok((START, next))
        ensures OnlyEntry(l, next, a)
                && EntryOk(START, None, l, a, Prior(l, a), next.entries[a], owner, keys)
      {
        StartedDoes(l, a, op, owner, None, keys);
        PutIsOnly(l, next, a, next.entries[a]);
      }
    }
  }

  /** In maintenance a move's start is accepted exactly when the program composes it for the
      transition, behind its cleared barrier; so is a retry, of one of the storage's objects, by an
      owner that may speak for the attempt. */
  lemma RootStartAccepted(purpose: Purpose, config: Option<Marker>, before: Row, after: Row, owner: Owner, keys: set<nat>)
    requires before.ledger.Some? && (purpose == ROOT_START || purpose == ROOT_RETRY)
    ensures Valid(purpose, config, before, after, owner, keys) <==>
      && Succeeding(before, after, owner) && config.Some? && Maintained(config, before.ledger.value, config.value.transition)
      && exists op ::
           if purpose == ROOT_START
           then Started(before.ledger.value, IDENTITY, op, owner, None, keys) == Ok((START, after.ledger.value))
           else Started(before.ledger.value, IDENTITY, op, owner, Some(config.value.transition), keys) == Ok((ROOT_RETRY, after.ledger.value))
                && var was := before.ledger.value.entries[IDENTITY];
                   was.epoch < owner.epoch || (was.epoch == owner.epoch && was.owner == owner.owner)
  {
    if after.ledger.Some? {
      var l, next := before.ledger.value, after.ledger.value;
      if Valid(purpose, config, before, after, owner, keys) {
        PutIsOnly(l, next, IDENTITY, next.entries[IDENTITY]);
        var op := next.entries[IDENTITY].operation;
        assert if purpose == ROOT_START
               then Started(l, IDENTITY, op, owner, None, keys) == Ok((START, next))
               else Started(l, IDENTITY, op, owner, Some(config.value.transition), keys) == Ok((ROOT_RETRY, next));
      }
      forall op, root | Started(l, IDENTITY, op, owner, root, keys).Ok? && Started(l, IDENTITY, op, owner, root, keys).value.1 == next
        ensures OnlyEntry(l, next, IDENTITY)
      {
        StartedDoes(l, IDENTITY, op, owner, root, keys);
        PutIsOnly(l, next, IDENTITY, next.entries[IDENTITY]);
      }
    }
  }

  /** A finish is accepted exactly when the program composes it. */
  lemma FinishAccepted(config: Option<Marker>, before: Row, after: Row, owner: Owner, keys: set<nat>)
    requires before.ledger.Some?
    ensures Valid(FINISH, config, before, after, owner, keys) <==>
      && Succeeding(before, after, owner)
      && exists a, op, outcome :: outcome != UNKNOWN && Finished(before.ledger.value, a, op, outcome, owner) == Ok(Some(after.ledger.value))
  {
    if after.ledger.Some? {
      var l, next := before.ledger.value, after.ledger.value;
      if Valid(FINISH, config, before, after, owner, keys) {
        var a :| OnlyEntry(l, next, a) && EntryOk(FINISH, config, l, a, Prior(l, a), next.entries[a], owner, keys);
        PutIsOnly(l, next, a, next.entries[a]);
        assert Finished(l, a, next.entries[a].operation, next.entries[a].outcome, owner) == Ok(Some(next));
      }
      forall a, op, outcome | outcome != UNKNOWN && Finished(l, a, op, outcome, owner) == Ok(Some(next))
        ensures OnlyEntry(l, next, a) && EntryOk(FINISH, config, l, a, Prior(l, a), next.entries[a], owner, keys)
      {
        FinishedExactly(l, a, op, outcome, owner);
        PutIsOnly(l, next, a, next.entries[a]);
      }
    }
  }

  /** Another's attempt is resolved, as what it is, exactly by a settlement of an older epoch's move, by
      the cancellation of a move that the owner may speak for, or as the planned folder operation. */
  lemma ResolutionAccepted(purpose: Purpose, config: Option<Marker>, before: Row, after: Row, owner: Owner, keys: set<nat>)
    requires before.ledger.Some? && (purpose == ROOT_SETTLE || purpose == ROOT_CANCEL || purpose == FOLDER_SETTLE)
    ensures Valid(purpose, config, before, after, owner, keys) <==>
      && Succeeding(before, after, owner) && config.Some? && Maintained(config, before.ledger.value, config.value.transition)
      && IDENTITY in before.ledger.value.entries
      && var l := before.ledger.value;
         var e := l.entries[IDENTITY];
         && e.outcome == UNKNOWN
         && Writes(l, after.ledger.value, IDENTITY,
                   Entry(e.owner, e.epoch, e.operation, if purpose == ROOT_CANCEL then NOT_DISPATCHED else COMPLETE))
         && (if purpose == FOLDER_SETTLE
             then l.folderPlan == Some(FolderPlan(config.value.transition, e.operation))
             else exists key :: key in keys && e.operation == RootMove(config.value.transition, key))
         && (if purpose == ROOT_SETTLE then e.epoch < owner.epoch
             else e.epoch < owner.epoch || (e.epoch == owner.epoch && e.owner == owner.owner))
  {
    if after.ledger.Some? && IDENTITY in before.ledger.value.entries {
      var l, next := before.ledger.value, after.ledger.value;
      var e := l.entries[IDENTITY];
      if e.outcome == UNKNOWN {
        PutIsOnly(l, next, IDENTITY, e.(outcome := if purpose == ROOT_CANCEL then NOT_DISPATCHED else COMPLETE));
      }
      assert e.operation.RootMove? && e.operation.key in keys ==>
        exists key :: key in keys && e.operation == RootMove(e.operation.transition, key);
    }
  }

  /** A plan is recorded exactly once for a transition, in its maintenance and beside no other plan; the
      barrier is cleared exactly by its own owner; nothing else changes with either. */
  lemma PlanAccepted(purpose: Purpose, config: Option<Marker>, before: Row, after: Row, owner: Owner, keys: set<nat>)
    requires before.ledger.Some? && (purpose == ROOT_PLAN || purpose == FOLDER_PLAN || purpose == CERTIFY)
    ensures Valid(purpose, config, before, after, owner, keys) <==>
      && Succeeding(before, after, owner) && config.Some? && config.value.phase == MAINTENANCE
      && var l, now := before.ledger.value, config.value.transition;
         match purpose
         case ROOT_PLAN =>
           && Maintained(config, l, now) && (l.rootPlan.Some? ==> l.rootPlan.value.transition != now) && l.folderPlan == None
           && exists target :: after.ledger == Some(Ledger(l.entries, l.barrier, Some(RootPlan(now, target)), None))
         case FOLDER_PLAN =>
           && Maintained(config, l, now) && (l.folderPlan.Some? ==> l.folderPlan.value.transition != now) && l.rootPlan == None
           && exists op :: after.ledger == Some(Ledger(l.entries, l.barrier, None, Some(FolderPlan(now, op))))
         case CERTIFY =>
           && l.barrier == Some(Barrier(now, owner.owner, owner.epoch, false))
           && after.ledger == Some(Ledger(l.entries, Some(Barrier(now, owner.owner, owner.epoch, true)), l.rootPlan, l.folderPlan))
         case _ => true
  {
    if after.ledger.Some? && config.Some? {
      var l, next := before.ledger.value, after.ledger.value;
      if purpose == ROOT_PLAN && next.rootPlan.Some? && next.rootPlan.value.transition == config.value.transition {
        assert next.rootPlan == Some(RootPlan(config.value.transition, next.rootPlan.value.target));
      }
      if purpose == FOLDER_PLAN && next.folderPlan.Some? && next.folderPlan.value.transition == config.value.transition {
        assert next.folderPlan == Some(FolderPlan(config.value.transition, next.folderPlan.value.operation));
      }
    }
  }

  /** A ledger begins once, outside maintenance, in the first epoch and with nothing but that epoch's attempts. */
  lemma BeginningAccepted(config: Option<Marker>, before: Row, after: Row, owner: Owner, keys: set<nat>)
    ensures Valid(INITIALIZE, config, before, after, owner, keys) <==>
      && before.ledger == None && before.retention != HELD && before.generation < MAX_GENERATION && owner.epoch == 1
      && (config.Some? ==> config.value.phase == ACTIVE)
      && exists entries: map<Action, Entry> ::
           after == Row(before.generation + 1, if exists a :: a in entries && entries[a].outcome == UNKNOWN then HELD else RETAINED,
                        Some(Ledger(entries, None, None, None)), Some(Ledger(entries, None, None, None)))
           && forall a | a in entries :: entries[a].owner == owner.owner && entries[a].epoch == 1
  {
    if after.ledger.Some? && after.ledger.value == Ledger(after.ledger.value.entries, None, None, None) {
      assert SomeUnknown(after.ledger.value) <==> exists a :: a in after.ledger.value.entries && after.ledger.value.entries[a].outcome == UNKNOWN;
    }
  }

  // ---- What one mutation does ----------------------------------------------------------------------------

  /** An entry leaves UNKNOWN only by its own owner and epoch, or by a settlement that may speak
      for it; owner, epoch and operation stay. */
  predicate Resolves(purpose: Purpose, owner: Owner, prior: Entry, entry: Entry) {
    && entry == prior.(outcome := entry.outcome)
    && match purpose
       case FINISH => prior.owner == owner.owner && prior.epoch == owner.epoch
       case ROOT_SETTLE => entry.outcome.COMPLETE? && prior.epoch < owner.epoch
       case ROOT_CANCEL => entry.outcome.NOT_DISPATCHED? && MayInherit(prior, owner)
       case FOLDER_SETTLE => entry.outcome.COMPLETE? && MayInherit(prior, owner)
       case _ => false
  }

  lemma MutationKeeps(purpose: Purpose, config: Option<Marker>, before: Row, after: Row, owner: Owner, keys: set<nat>)
    requires Valid(purpose, config, before, after, owner, keys)
    ensures after.generation == before.generation + 1 && RowOk(after) && after.ledger.Some?
    ensures after.retention.HELD? <==> SomeUnknown(after.ledger.value)
    ensures purpose.INITIALIZE? <==> before.ledger.None?
    ensures before.ledger.Some? ==>
      var was, next := before.ledger.value, after.ledger.value;
      && (forall a, b | Differs(was, next, a) && Differs(was, next, b) :: a == b)
      && (forall a | a in was.entries :: a in next.entries)
      && (forall a | a in was.entries && was.entries[a].outcome.UNKNOWN? && next.entries[a] != was.entries[a] ::
            Resolves(purpose, owner, was.entries[a], next.entries[a]))
      && (forall a | a in next.entries && next.entries[a].outcome.UNKNOWN? && Differs(was, next, a) ::
            next.entries[a].owner == owner.owner && next.entries[a].epoch == owner.epoch)
      && (was.rootPlan.None? || next.rootPlan == was.rootPlan || (config.Some? && next.rootPlan.Some?
            && next.rootPlan.value.transition == config.value.transition != was.rootPlan.value.transition))
  {
    if before.ledger.Some? && !purpose.ROOT_PLAN? && !purpose.FOLDER_PLAN? && !purpose.CERTIFY? {
      var a :| OnlyEntry(before.ledger.value, after.ledger.value, a)
        && EntryOk(purpose, config, before.ledger.value, a, Prior(before.ledger.value, a), after.ledger.value.entries[a], owner, keys);
      var was, next := before.ledger.value, after.ledger.value;
      forall b | b in was.entries
        ensures b in next.entries && (next.entries[b] == was.entries[b] || b == a)
      {
        assert Differs(was, next, b) ==> b == a;
      }
    }
  }

  // ---- Sequences -------------------------------------------------------------------------------------------

  /** One accepted mutation, with the configuration it was evaluated under. */
  datatype Mutation = Mutation(purpose: Purpose, config: Option<Marker>, owner: Owner, keys: set<nat>, after: Row)

  ghost predicate Accepted(before: Row, ms: seq<Mutation>)
    decreases |ms|
  {
    ms == [] || (Valid(ms[0].purpose, ms[0].config, before, ms[0].after, ms[0].owner, ms[0].keys)
                 && Accepted(ms[0].after, ms[1..]))
  }

  function Last(before: Row, ms: seq<Mutation>): Row { if ms == [] then before else ms[|ms| - 1].after }

  /** An UNKNOWN entry outlives every mutation of which none resolves it. */
  predicate Resolved(l: Ledger, a: Action, m: Mutation) {
    m.after.ledger.Some? && a in l.entries && a in m.after.ledger.value.entries
    && Resolves(m.purpose, m.owner, l.entries[a], m.after.ledger.value.entries[a])
  }

  lemma {:induction false} GenerationsCount(before: Row, ms: seq<Mutation>)
    requires Accepted(before, ms)
    ensures Last(before, ms).generation == before.generation + |ms|
    ensures ms != [] ==> RowOk(Last(before, ms)) && Last(before, ms).ledger.Some?
    decreases |ms|
  {
    if ms != [] {
      MutationKeeps(ms[0].purpose, ms[0].config, before, ms[0].after, ms[0].owner, ms[0].keys);
      GenerationsCount(ms[0].after, ms[1..]);
      if |ms| > 1 { assert ms[1..][|ms| - 2] == ms[|ms| - 1]; }
    }
  }

  /** Along any sequence of accepted mutations an UNKNOWN entry stays exactly what it is until a
      mutation that may resolve it does. */
  lemma {:induction false} UnknownStays(before: Row, ms: seq<Mutation>, a: Action)
    requires Accepted(before, ms) && before.ledger.Some? && a in before.ledger.value.entries
    requires before.ledger.value.entries[a].outcome.UNKNOWN?
    ensures var last := Last(before, ms);
      && last.ledger.Some? && a in last.ledger.value.entries
      && (last.ledger.value.entries[a] == before.ledger.value.entries[a]
          || exists i :: 0 <= i < |ms| && Resolved(before.ledger.value, a, ms[i]))
    decreases |ms|
  {
    if ms != [] {
      var m := ms[0];
      MutationKeeps(m.purpose, m.config, before, m.after, m.owner, m.keys);
      var l := m.after.ledger.value;
      if |ms| > 1 { assert ms[1..][|ms| - 2] == ms[|ms| - 1]; }
      if l.entries[a] == before.ledger.value.entries[a] {
        UnknownStays(m.after, ms[1..], a);
        if i :| 0 <= i < |ms[1..]| && Resolved(l, a, ms[1..][i]) {
          assert ms[i + 1] == ms[1..][i] && Resolved(before.ledger.value, a, ms[i + 1]);
        }
      } else {
        assert Resolved(before.ledger.value, a, ms[0]);
        EntriesStay(m.after, ms[1..], a);
      }
    }
  }

  lemma {:induction false} EntriesStay(before: Row, ms: seq<Mutation>, a: Action)
    requires Accepted(before, ms) && before.ledger.Some? && a in before.ledger.value.entries
    ensures Last(before, ms).ledger.Some? && a in Last(before, ms).ledger.value.entries
    decreases |ms|
  {
    if ms != [] {
      MutationKeeps(ms[0].purpose, ms[0].config, before, ms[0].after, ms[0].owner, ms[0].keys);
      EntriesStay(ms[0].after, ms[1..], a);
      if |ms| > 1 { assert ms[1..][|ms| - 2] == ms[|ms| - 1]; }
    }
  }

  // ---- Owners ---------------------------------------------------------------------------------------------

  /** Epochs of a document only rise, and one epoch has one owner. */
  predicate Succeeds(o: Owner, p: Owner) { o.epoch <= p.epoch && (o.epoch == p.epoch ==> o.owner == p.owner) }

  /** The mutations were made by successive owners, from `o` on. */
  predicate Succession(o: Owner, ms: seq<Mutation>)
    decreases |ms|
  {
    ms == [] || (Succeeds(o, ms[0].owner) && Succession(ms[0].owner, ms[1..]))
  }

  function LastOwner(o: Owner, ms: seq<Mutation>): Owner { if ms == [] then o else ms[|ms| - 1].owner }

  lemma MutationInherits(m: Mutation, before: Row)
    requires Valid(m.purpose, m.config, before, m.after, m.owner, m.keys) && Heir(before, m.owner)
    ensures Heir(m.after, m.owner)
  {
    if !m.purpose.INITIALIZE? && !m.purpose.ROOT_PLAN? && !m.purpose.FOLDER_PLAN? && !m.purpose.CERTIFY? {
      var was, next := before.ledger.value, m.after.ledger.value;
      var a :| OnlyEntry(was, next, a)
        && EntryOk(m.purpose, m.config, was, a, Prior(was, a), next.entries[a], m.owner, m.keys);
      forall b | b in next.entries ensures MayInherit(next.entries[b], m.owner) {
        if b != a { assert !Differs(was, next, b); }
      }
    }
  }

  /** Along any sequence of accepted mutations by successive owners, each later owner is an heir of
      every entry. */
  lemma {:induction false} AlwaysHeir(before: Row, ms: seq<Mutation>, o: Owner, owner: Owner)
    requires Accepted(before, ms) && Succession(o, ms) && Heir(before, o) && Succeeds(LastOwner(o, ms), owner)
    ensures Heir(Last(before, ms), owner)
    decreases |ms|
  {
    if ms != [] {
      MutationInherits(ms[0], before);
      if |ms| > 1 { assert ms[1..][|ms| - 2] == ms[|ms| - 1]; }
      AlwaysHeir(ms[0].after, ms[1..], ms[0].owner, owner);
    }
  }

  /** So whatever was recorded since the ledger began, what the present owner's `start` composes is
      a valid plan, a retry of another owner's attempt included. */
  lemma StartsAfterAnyRun(before: Row, ms: seq<Mutation>, o: Owner, a: Action, op: Operation, owner: Owner,
                          root: Option<nat>, config: Option<Marker>, keys: set<nat>)
    requires before.ledger.None? && ms != [] && Accepted(before, ms) && Succession(o, ms) && Succeeds(LastOwner(o, ms), owner)
    requires Last(before, ms).generation < MAX_GENERATION && 1 <= owner.epoch <= MAX_GENERATION
    requires Last(before, ms).ledger.Some? ==>
      var l := Last(before, ms).ledger.value;
      && Started(l, a, op, owner, root, keys).Ok?
      && if root.Some? then a.IDENTITY? && InMaintenance(config, l.barrier) && config.value.transition == root.value
         else config.None? || !config.value.phase.MAINTENANCE?
    ensures var r := Last(before, ms);
      && r.ledger.Some?
      && var (purpose, next) := Started(r.ledger.value, a, op, owner, root, keys).value;
         Valid(purpose, config, r, ChangedRow(r, next), owner, keys)
  {
    AlwaysHeir(before, ms, o, owner);
    GenerationsCount(before, ms);
    StartedIsValid(Last(before, ms), a, op, owner, root, config, keys);
  }
}
