/**
  One table transaction over two protected stores: the intent is saved in the setup store, the
  candidate in the store at the target root, and the selection last.  Any save can be lost
  half-way, several processes may work on the same intent, and the setup store has other writers,
  among them a rollback to the previous payload.
 */
module NetworkTable {
  import opened Basics
  import S = Settings

  /** `id` is the table identity, `body` everything else that is saved. */
  datatype Table = Table(id: nat, revision: nat, body: nat)

  datatype Kind = CREATE | MOVE | UPDATE

  /** The frozen intent.  `operation` is fresh for each; `source` stands for the digest of the
      payload the transaction starts from. */
  datatype Pending = Pending(kind: Kind, operation: nat, target: nat, sourceRevision: nat, source: Option<Table>,
                             candidate: Table, requiresOwner: bool)

  /** `binding` is the native identity of the selected store. */
  datatype Selection = Selection(table: nat, root: Option<nat>, binding: Option<nat>, pending: Option<Pending>)

  /** What else the setup payload says: the role, whether it is cancelled, whether one of its
      operations is UNKNOWN, and the rest. */
  datatype Mode = Mode(watchdog: bool, cancelled: bool, unknown: bool, others: nat)
  datatype Payload = Payload(table: Option<Selection>, mode: Mode)

  /** A store's directory; its native identity is given when it is created. */
  datatype Dir = Dir(identity: nat, store: S.Store<Table>)

  /** A process that has read back the target and is about to save the selection. */
  datatype Claim = Claim(revision: nat, selection: Selection)

  /** `intent` is the selection with the intent recorded last, `origin` the selection it was recorded
      over, and `before` the directories at that time.  `stagings` lists every operation whose
      candidate was handed to a store, `started` every one recorded, `finished` every one whose
      candidate came to be selected. */
  datatype World = World(setup: S.Store<Payload>, dirs: map<nat, Dir>, claims: set<Claim>,
                         before: map<nat, Dir>, origin: Option<Selection>, intent: Option<Selection>,
                         stagings: seq<nat>, started: seq<nat>, finished: set<nat>)

  datatype Error =
    | NOT_CONFIGURED | ALREADY_CONFIGURED | APPROVAL_REQUIRED | SETUP_CANCELLED | SETUP_INSPECT_REQUIRED
    | INSPECT_REQUIRED | DESTINATION_EXISTS | STORE_UNAVAILABLE
    | LOCATION_CHANGED | TABLE_MISSING | REVISION_CHANGED | NO_PENDING_TRANSACTION | SETTINGS_CHANGED
    | DESTINATION_NOT_CREATED | OWNER_SUPERSEDED | DESTINATION_CONFLICT | SOURCE_CHANGED | NOT_APPLIED | UNCONFIRMED

  function Selected(k: World): Option<Selection> {
    if k.setup.current.Some? then k.setup.current.value.payload.table else None
  }

  predicate Fresh(k: World) { k.setup.pending.None? && k.setup.current.Some? }

  /** What every change of the table needs of its setup. */
  function Maintenance(k: World, approved: bool): Option<Error> {
    if !Fresh(k) then Some(SETTINGS_CHANGED)
    else
      var mode := k.setup.current.value.payload.mode;
      if !approved || !mode.watchdog then Some(APPROVAL_REQUIRED)
      else if mode.cancelled then Some(SETUP_CANCELLED)
      else if mode.unknown then Some(SETUP_INSPECT_REQUIRED)
      else None
  }

  /** The selected store, checked as each operation checks it before it trusts it. */
  function SelectedStore(k: World, s: Selection): Result<S.Frame<Table>, Error> {
    if s.root.None? then Err(NOT_CONFIGURED)
    else if s.root.value !in k.dirs then Err(STORE_UNAVAILABLE)
    else if s.binding != Some(k.dirs[s.root.value].identity) then Err(LOCATION_CHANGED)
    else
      var store := k.dirs[s.root.value].store;
      if store.pending.Some? then Err(INSPECT_REQUIRED)
      else if store.current.None? then Err(TABLE_MISSING)
      else if store.current.value.payload.id != s.table then Err(INSPECT_REQUIRED)
      else Ok(store.current.value)
  }

  function Completed(s: Selection, identity: nat): Selection
    requires s.pending.Some?
  {
    s.(root := Some(s.pending.value.target), binding := Some(identity), pending := None)
  }

  /** The target holds exactly the candidate of this selection. */
  predicate Holding(k: World, s: Selection) {
    && s.pending.Some? && s.pending.value.target in k.dirs
    && var store := k.dirs[s.pending.value.target].store;
       store.pending.None? && S.Payload(store) == Some(s.pending.value.candidate)
  }

  /** `t` is what a confirmed selection `s` becomes. */
  predicate Completes(k: World, s: Selection, t: Option<Selection>) {
    Holding(k, s) && t == Some(Completed(s, k.dirs[s.pending.value.target].identity))
  }

  // ---- Saves of the setup store ---------------------------------------------------------------------

  predicate Savable(k: World) { k.setup.current.Some? && S.SaveFault(k.setup, S.Revision(k.setup), true).None? }

  /** An intent counts as finished once its completion is selected. */
  function Noted(k: World): World {
    if k.intent.Some? && k.intent.value.pending.Some? && Completes(k, k.intent.value, Selected(k))
    then k.(finished := k.finished + {k.intent.value.pending.value.operation})
    else k
  }

  function SavePayload(k: World, p: Payload, fault: S.Fault): World {
    if !Savable(k) then k else Noted(k.(setup := S.Interrupted(k.setup, S.Successor(k.setup, p), fault)))
  }

  function SaveSelection(k: World, s: Selection, fault: S.Fault): World {
    if !Savable(k) then k else SavePayload(k, k.setup.current.value.payload.(table := Some(s)), fault)
  }

  /** A lost save records nothing. */
  predicate Reaches(fault: S.Fault) { fault.AfterStage? || fault.AfterPromote? || fault.Unharmed? }

  function Recorded(k: World, s: Selection, fault: S.Fault): World
    requires s.pending.Some?
  {
    if !Savable(k) then k
    else
      var t := k.(setup := S.Interrupted(k.setup, S.Successor(k.setup, k.setup.current.value.payload.(table := Some(s))), fault));
      if Reaches(fault)
      then t.(before := k.dirs, origin := Selected(k), intent := Some(s), started := k.started + [s.pending.value.operation])
      else t
  }

  function Operation(k: World): nat { S.Revision(k.setup) + 1 }

  function CreateIntent(k: World, target: nat, candidate: Table, approved: bool): Result<Selection, Error> {
    if Maintenance(k, approved).Some? then Err(Maintenance(k, approved).value)
    else if Selected(k).Some? then Err(ALREADY_CONFIGURED)
    else if target in k.dirs then Err(DESTINATION_EXISTS)
    else Ok(Selection(candidate.id, None, None, Some(Pending(CREATE, Operation(k), target, 0, None, candidate, false))))
  }

  function MoveIntent(k: World, target: nat, approved: bool): Result<Selection, Error> {
    if Maintenance(k, approved).Some? then Err(Maintenance(k, approved).value)
    else if Selected(k).None? then Err(NOT_CONFIGURED)
    else
      var s := Selected(k).value;
      if s.pending.Some? then Err(INSPECT_REQUIRED)
      else if s.root == Some(target) || target in k.dirs then Err(DESTINATION_EXISTS)
      else
        match SelectedStore(k, s)
        case Err(e) => Err(e)
        case Ok(f) => Ok(s.(pending := Some(Pending(MOVE, Operation(k), target, f.revision, Some(f.payload), f.payload, false))))
  }

  function UpdateIntent(k: World, candidate: Table, requiresOwner: bool): Result<Selection, Error> {
    if !Fresh(k) then Err(SETTINGS_CHANGED)
    else if Selected(k).None? then Err(NOT_CONFIGURED)
    else
      var s := Selected(k).value;
      if s.pending.Some? then Err(INSPECT_REQUIRED)
      else
        match SelectedStore(k, s)
        case Err(e) => Err(e)
        case Ok(f) =>
          if candidate.id != s.table || candidate.revision != f.payload.revision + 1 then Err(REVISION_CHANGED)
          else Ok(s.(pending := Some(Pending(UPDATE, Operation(k), s.root.value, f.revision, Some(f.payload), candidate, requiresOwner))))
  }

  // ---- The other writers ------------------------------------------------------------------------------

  /** Any other save of the setup keeps the selection, which only a watchdog may have. */
  predicate MayEdit(k: World, mode: Mode) { Fresh(k) && (Selected(k).Some? ==> mode.watchdog) }

  /** The previous payload, when there is one that agrees on the recorded operations; `others` stands
      for what else a rollback compares, which the network table is not among. */
  function PreviousOf(k: World, others: bool): Option<Payload> {
    if Fresh(k) && k.setup.current.value.previous.Some? && others
       && k.setup.current.value.previous.value.mode.unknown == k.setup.current.value.payload.mode.unknown
    then Some(k.setup.current.value.previous.value)
    else None
  }

  function RolledBack(p: Payload): Payload { p.(mode := p.mode.(cancelled := false)) }

  // ---- Carrying it out -----------------------------------------------------------------------------

  /** The checks made under the setup lock before the target is looked at. */
  function WorkFault(k: World, write: bool, approved: bool): Option<Error> {
    if write && Maintenance(k, approved).Some? then Maintenance(k, approved)
    else if !Fresh(k) then Some(SETTINGS_CHANGED)
    else if Selected(k).None? then Some(NOT_CONFIGURED)
    else if Selected(k).value.pending.None? then Some(NO_PENDING_TRANSACTION)
    else
      var s := Selected(k).value;
      if !s.pending.value.kind.MOVE? then None
      else
        match SelectedStore(k, s)
        case Err(e) => Some(e)
        case Ok(f) =>
          if f.revision != s.pending.value.sourceRevision || Some(f.payload) != s.pending.value.source
          then Some(SOURCE_CHANGED) else None
  }

  /** The target store as `_target` leaves it, or why it stops; `present` is whether its directory
      was there before, `owner` whether the owner check, where one is due, still passes. */
  function Targeted(store: S.Store<Table>, p: Pending, present: bool, write: bool, owner: bool, fault: S.Fault):
    (Option<Error>, S.Store<Table>)
  {
    var guarded := !p.requiresOwner || owner;
    if store.pending.Some? then
      if store.pending.value.Torn? then (Some(UNCONFIRMED), store)
      else if store.pending.value.frame.payload != p.candidate then (Some(DESTINATION_CONFLICT), store)
      else if !guarded then (Some(OWNER_SUPERSEDED), store)
      else if S.RecoverFault(store).Some? then (Some(UNCONFIRMED), store)
      else if fault.BeforeStage? then (Some(UNCONFIRMED), store)
      else (if fault.Unharmed? then None else Some(UNCONFIRMED), S.Store(Some(store.pending.value.frame), None))
    else if S.Payload(store) == Some(p.candidate) then (None, store)
    else if p.kind.UPDATE? && (S.Revision(store) != p.sourceRevision || S.Payload(store) != p.source) then (Some(SOURCE_CHANGED), store)
    else if !p.kind.UPDATE? && (present || store.current.Some?) then (Some(DESTINATION_CONFLICT), store)
    else if !write then (Some(NOT_APPLIED), store)
    else if !guarded then (Some(OWNER_SUPERSEDED), store)
    else if S.SaveFault(store, S.Revision(store), true).Some? then (Some(UNCONFIRMED), store)
    else (if fault.Unharmed? then None else Some(UNCONFIRMED), S.Interrupted(store, S.Successor(store, p.candidate), fault))
  }

  predicate Stages(a: S.Store<Table>, b: S.Store<Table>) { a.pending.None? && b != a }

  function Placed(k: World, p: Pending, dir: Dir, store: S.Store<Table>): World {
    k.(dirs := k.dirs[p.target := dir.(store := store)],
       stagings := if Stages(dir.store, store) then k.stagings + [p.operation] else k.stagings)
  }

  /** The directory the work finds, or makes. */
  function Found(k: World, p: Pending, identity: nat): Dir {
    if p.target in k.dirs then k.dirs[p.target] else Dir(identity, S.Store(None, None))
  }

  /** The part of `_finish` under the setup lock; a directory it creates gets `identity`. */
  function Worked(k: World, write: bool, approved: bool, owner: bool, identity: nat, fault: S.Fault): (Option<Error>, World) {
    if WorkFault(k, write, approved).Some? then (WorkFault(k, write, approved), k)
    else
      var s := Selected(k).value;
      var p := s.pending.value;
      var present := p.target in k.dirs;
      if !present && !write then (Some(DESTINATION_NOT_CREATED), k)
      else if !present && p.requiresOwner && !owner then (Some(OWNER_SUPERSEDED), k)
      else
        var dir := Found(k, p, identity);
        var (error, store) := Targeted(dir.store, p, present, write, owner, fault);
        var t := Placed(k, p, dir, store);
        if error.Some? then (error, t)
        else (None, t.(claims := t.claims + {Claim(S.Revision(k.setup), Completed(s, dir.identity))}))
  }

  /** The selection is saved last, if the setup store is still where the claim read it. */
  function ClaimFault(k: World, c: Claim): Option<Error> {
    if k.setup.pending.Some? || S.Revision(k.setup) != c.revision then Some(SETTINGS_CHANGED) else None
  }

  datatype Step =
    | Configure(target: nat, candidate: Table, approved: bool, fault: S.Fault)
    | Move(target: nat, approved: bool, fault: S.Fault)
    | Update(candidate: Table, requiresOwner: bool, fault: S.Fault)
    | Work(write: bool, approved: bool, owner: bool, identity: nat, fault: S.Fault)
    | Confirm(claim: Claim, fault: S.Fault)
    | Edit(mode: Mode, fault: S.Fault)
    | Rollback(others: bool, fault: S.Fault)
    | RecoverSetup

  predicate IsIntent(step: Step) { step.Configure? || step.Move? || step.Update? }

  function Intent(k: World, step: Step): (r: Result<Selection, Error>)
    requires IsIntent(step)
    ensures r.Ok? ==> r.value.pending.Some? && r.value.pending.value.operation == Operation(k)
  {
    match step
    case Configure(target, candidate, approved, _) => CreateIntent(k, target, candidate, approved)
    case Move(target, approved, _) => MoveIntent(k, target, approved)
    case Update(candidate, requiresOwner, _) => UpdateIntent(k, candidate, requiresOwner)
  }

  function Next(k: World, step: Step): World {
    match step
    case Configure(_, _, _, fault) => if Intent(k, step).Ok? then Recorded(k, Intent(k, step).value, fault) else k
    case Move(_, _, fault) => if Intent(k, step).Ok? then Recorded(k, Intent(k, step).value, fault) else k
    case Update(_, _, fault) => if Intent(k, step).Ok? then Recorded(k, Intent(k, step).value, fault) else k
    case Work(write, approved, owner, identity, fault) => Worked(k, write, approved, owner, identity, fault).1
    case Confirm(c, fault) => if c in k.claims && ClaimFault(k, c).None? then SaveSelection(k, c.selection, fault) else k
    case Edit(mode, fault) => if MayEdit(k, mode) then SavePayload(k, k.setup.current.value.payload.(mode := mode), fault) else k
    case Rollback(others, fault) =>
      if PreviousOf(k, others).Some? then SavePayload(k, RolledBack(PreviousOf(k, others).value), fault) else k
    case RecoverSetup =>
      if S.RecoverFault(k.setup).None? then Noted(k.(setup := S.After(k.setup, S.Recovering(false)))) else k
  }

  // ---- The invariant -------------------------------------------------------------------------------

  /** The target store as the recorded intent found it. */
  function Base(k: World, p: Pending): S.Store<Table> {
    if p.target in k.before then k.before[p.target].store else S.Store(None, None)
  }

  /** Only the target may differ from what the intent found. */
  predicate OthersKept(k: World, target: nat) {
    && (forall r | r in k.before :: r in k.dirs && k.dirs[r].identity == k.before[r].identity
                                    && (r != target ==> k.dirs[r] == k.before[r]))
    && (forall r | r in k.dirs && r != target :: r in k.before)
  }

  /** A candidate that was handed over is torn, staged whole, or committed; nothing else happens. */
  predicate Underway(store: S.Store<Table>, base: S.Store<Table>, candidate: Table, staged: bool) {
    if !staged then store == base
    else
      || store == base.(pending := Some(S.Torn))
      || store == base.(pending := Some(S.Whole(S.Successor(base, candidate))))
      || store == S.Store(Some(S.Successor(base, candidate)), None)
  }

  predicate Holds(store: S.Store<Table>, revision: nat, source: Option<Table>) {
    store.pending.None? && store.current.Some? && store.current.value.revision == revision
    && Some(store.current.value.payload) == source
  }

  /** The intent against the directories and the selection it was recorded over. */
  predicate KindOk(k: World, s: Selection, p: Pending) {
    match p.kind
    case CREATE => k.origin.None? && s.root.None? && p.target !in k.before
    case MOVE =>
      && k.origin == Some(s.(pending := None))
      && s.root.Some? && s.root.value in k.before && s.root.value != p.target && p.target !in k.before
      && s.binding == Some(k.before[s.root.value].identity) && p.source == Some(p.candidate)
      && Holds(k.before[s.root.value].store, p.sourceRevision, p.source)
    case UPDATE =>
      && k.origin == Some(s.(pending := None))
      && s.root == Some(p.target) && p.target in k.before && s.binding == Some(k.before[p.target].identity)
      && Holds(k.before[p.target].store, p.sourceRevision, p.source)
      && p.source.Some? && p.candidate.revision == p.source.value.revision + 1
  }

  predicate PendingOk(k: World, s: Selection, p: Pending) {
    && OthersKept(k, p.target) && KindOk(k, s, p) && p.candidate.id == s.table
    && (if p.target in k.dirs
        then Underway(k.dirs[p.target].store, Base(k, p), p.candidate, p.operation in k.stagings)
        else p.operation !in k.stagings)
  }

  /** The selection names the target, and the target holds exactly the candidate. */
  predicate Done(k: World, p: Pending) {
    p.target in k.dirs && k.dirs[p.target].store == S.Store(Some(S.Successor(Base(k, p), p.candidate)), None)
  }

  predicate IntentOk(k: World) {
    if k.intent.None? then k.origin.None? && k.started == []
    else
      && k.intent.value.pending.Some? && PendingOk(k, k.intent.value, k.intent.value.pending.value)
      && k.started != [] && k.started[|k.started| - 1] == k.intent.value.pending.value.operation
      && k.intent.value.pending.value.operation <= S.Revision(k.setup) + if k.setup.pending.Some? then 1 else 0
  }

  /** Every selection in the setup store is the intent, what it was recorded over, or its completion. */
  predicate TableOk(k: World, t: Option<Selection>) {
    t == k.origin || (k.intent.Some? && (t == k.intent || Completes(k, k.intent.value, t)))
  }

  predicate SetupOk(k: World) {
    && k.setup.current.Some? && TableOk(k, Selected(k))
    && (Fresh(k) && k.setup.current.value.previous.Some? ==> TableOk(k, k.setup.current.value.previous.value.table))
    && (k.setup.pending.Some? && k.setup.pending.value.Whole? ==>
          var f := k.setup.pending.value.frame;
          f == S.Successor(k.setup, f.payload) && TableOk(k, f.payload.table))
  }

  predicate ClaimOk(k: World, c: Claim) {
    && c.revision <= S.Revision(k.setup)
    && (c.revision == S.Revision(k.setup) ==>
          Selected(k).Some? && Selected(k) == k.intent && Completes(k, k.intent.value, Some(c.selection)))
  }

  predicate WorldOk(k: World) {
    && IntentOk(k) && SetupOk(k)
    && (forall o | o in k.stagings :: o <= S.Revision(k.setup))
    && (forall i, j | 0 <= i < j < |k.stagings| :: k.stagings[i] != k.stagings[j])
    && (forall o | o in k.finished :: o <= S.Revision(k.setup))
    && (forall c | c in k.claims :: ClaimOk(k, c))
  }

  /** The setup exists, and no table has been thought of. */
  predicate Initial(k: World) {
    && k.setup.current.Some? && k.setup.pending.None? && k.setup.current.value.payload.table.None?
    && (k.setup.current.value.previous.Some? ==> k.setup.current.value.previous.value.table.None?)
    && k.claims == {} && k.before == map[] && k.origin.None? && k.intent.None?
    && k.stagings == [] && k.started == [] && k.finished == {}
  }

  // ---- Every step keeps it ----------------------------------------------------------------------------

  lemma NotedOk(k: World)
    requires WorldOk(k)
    ensures WorldOk(Noted(k))
  {
    var t := Noted(k);
    forall c | c in t.claims ensures ClaimOk(t, c) { assert ClaimOk(k, c); }
    assert forall u :: TableOk(k, u) ==> TableOk(t, u);
  }

  /** The setup store moves on to a selection that it may hold. */
  lemma SavedOk(k: World, p: Payload, fault: S.Fault)
    requires WorldOk(k) && Savable(k) && TableOk(k, p.table)
    ensures WorldOk(SavePayload(k, p, fault))
  {
    var t := k.(setup := S.Interrupted(k.setup, S.Successor(k.setup, p), fault));
    assert forall u :: TableOk(k, u) ==> TableOk(t, u);
    forall c | c in t.claims ensures ClaimOk(t, c) { assert ClaimOk(k, c); }
    NotedOk(t);
  }

  /** A new intent is recorded over the directories as they are. */
  lemma NewIntentFits(k: World, step: Step)
    requires IsIntent(step) && Intent(k, step).Ok?
    requires forall o | o in k.stagings :: o <= S.Revision(k.setup)
    ensures var s := Intent(k, step).value;
      && Fresh(k) && (Selected(k).Some? ==> Selected(k).value.pending.None?)
      && PendingOk(k.(before := k.dirs, origin := Selected(k), intent := Some(s)), s, s.pending.value)
  {}

  lemma RecordedOk(k: World, s: Selection, fault: S.Fault)
    requires WorldOk(k) && Savable(k) && s.pending.Some? && Reaches(fault) && s.pending.value.operation == Operation(k)
    requires PendingOk(k.(before := k.dirs, origin := Selected(k), intent := Some(s)), s, s.pending.value)
    ensures WorldOk(Recorded(k, s, fault))
  {
    var t := Recorded(k, s, fault);
    assert PendingOk(t, s, s.pending.value);
    forall c | c in t.claims ensures ClaimOk(t, c) { assert ClaimOk(k, c); }
  }

  lemma LostOk(k: World, s: Selection, fault: S.Fault)
    requires WorldOk(k) && Savable(k) && s.pending.Some? && !Reaches(fault)
    ensures WorldOk(Recorded(k, s, fault))
  {
    var t := Recorded(k, s, fault);
    assert forall u :: TableOk(k, u) ==> TableOk(t, u);
    forall c | c in t.claims ensures ClaimOk(t, c) { assert ClaimOk(k, c); }
  }

  lemma IntentKept(k: World, step: Step)
    requires WorldOk(k) && IsIntent(step)
    ensures WorldOk(Next(k, step))
  {
    if Intent(k, step).Ok? && Savable(k) {
      NewIntentFits(k, step);
      if Reaches(step.fault) {
        RecordedOk(k, Intent(k, step).value, step.fault);
      } else {
        LostOk(k, Intent(k, step).value, step.fault);
      }
    }
  }

  lemma ConfirmOk(k: World, c: Claim, fault: S.Fault)
    requires WorldOk(k)
    ensures WorldOk(Next(k, Confirm(c, fault)))
  {
    if c in k.claims && ClaimFault(k, c).None? && Savable(k) {
      assert ClaimOk(k, c);
      SavedOk(k, k.setup.current.value.payload.(table := Some(c.selection)), fault);
    }
  }

  lemma RecoverSetupOk(k: World)
    requires WorldOk(k)
    ensures WorldOk(Next(k, RecoverSetup))
  {
    if S.RecoverFault(k.setup).None? {
      var t := k.(setup := S.After(k.setup, S.Recovering(false)));
      assert forall u :: TableOk(k, u) ==> TableOk(t, u);
      forall c | c in t.claims ensures ClaimOk(t, c) { assert ClaimOk(k, c); }
      NotedOk(t);
    }
  }

  lemma OtherWriterOk(k: World, step: Step)
    requires WorldOk(k) && (step.Edit? || step.Rollback?)
    ensures WorldOk(Next(k, step))
  {
    match step
    case Edit(mode, fault) =>
      if MayEdit(k, mode) && Savable(k) { SavedOk(k, k.setup.current.value.payload.(mode := mode), fault); }
    case Rollback(others, fault) =>
      if PreviousOf(k, others).Some? && Savable(k) { SavedOk(k, RolledBack(PreviousOf(k, others).value), fault); }
  }

  /** The store step under the lock, for every fault: it keeps within the four stages of one save,
      stages at most once, and succeeds only on the committed candidate. */
  lemma TargetedUnderway(store: S.Store<Table>, base: S.Store<Table>, p: Pending, present: bool, write: bool, owner: bool,
                         fault: S.Fault, staged: bool)
    requires Underway(store, base, p.candidate, staged) && base.pending.None?
    requires p.kind.UPDATE? ==> Holds(base, p.sourceRevision, p.source) && p.source != Some(p.candidate)
    requires !p.kind.UPDATE? ==> base == S.Store(None, None)
    ensures var (error, after) := Targeted(store, p, present, write, owner, fault);
      && Underway(after, base, p.candidate, staged || Stages(store, after))
      && (Stages(store, after) ==> !staged && write)
      && (error.None? ==> after == S.Store(Some(S.Successor(base, p.candidate)), None))
      && (store == S.Store(Some(S.Successor(base, p.candidate)), None) ==> after == store)
  {}

  lemma PlacedOk(k: World, s: Selection, p: Pending, dir: Dir, store: S.Store<Table>)
    requires WorldOk(k) && k.intent == Selected(k) == Some(s) && s.pending == Some(p) && k.setup.pending.None?
    requires p.operation <= S.Revision(k.setup)
    requires if p.target in k.dirs then dir == k.dirs[p.target] else dir.store == S.Store(None, None)
    requires Underway(store, Base(k, p), p.candidate, p.operation in k.stagings || Stages(dir.store, store))
    requires Stages(dir.store, store) ==> p.operation !in k.stagings
    requires Holding(k, s) ==> store == dir.store
    ensures WorldOk(Placed(k, p, dir, store))
  {
    var t := Placed(k, p, dir, store);
    assert PendingOk(k, s, p);
    assert PendingOk(t, s, p);
    assert forall u :: TableOk(k, u) ==> TableOk(t, u);
    forall c | c in t.claims ensures ClaimOk(t, c) { assert ClaimOk(k, c); }
  }

  lemma ClaimedOk(k: World, c: Claim)
    requires WorldOk(k) && ClaimOk(k, c)
    ensures WorldOk(k.(claims := k.claims + {c}))
  {
    var t := k.(claims := k.claims + {c});
    assert forall u :: TableOk(k, u) ==> TableOk(t, u);
    forall d | d in t.claims ensures ClaimOk(t, d) { assert ClaimOk(k, d); }
  }

  /** A pending selection is the intent recorded last, and the target of that one holds its candidate
      exactly when the save of the candidate is complete. */
  lemma PendingIsIntent(k: World, s: Selection, p: Pending)
    requires WorldOk(k) && Fresh(k) && Selected(k) == Some(s) && s.pending == Some(p)
    ensures k.intent == Some(s) && PendingOk(k, s, p) && (Holding(k, s) <==> Done(k, p))
    ensures p.operation <= S.Revision(k.setup)
  {
    assert TableOk(k, Selected(k));
  }

  lemma TriedOk(k: World, s: Selection, p: Pending, write: bool, owner: bool, identity: nat, fault: S.Fault)
    requires WorldOk(k) && Fresh(k) && Selected(k) == Some(s) && s.pending == Some(p)
    ensures var (error, store) := Targeted(Found(k, p, identity).store, p, p.target in k.dirs, write, owner, fault);
      var t := Placed(k, p, Found(k, p, identity), store);
      WorldOk(t) && (error.None? ==> Completes(t, s, Some(Completed(s, Found(k, p, identity).identity))))
  {
    PendingIsIntent(k, s, p);
    var dir := Found(k, p, identity);
    TargetedUnderway(dir.store, Base(k, p), p, p.target in k.dirs, write, owner, fault, p.operation in k.stagings);
    PlacedOk(k, s, p, dir, Targeted(dir.store, p, p.target in k.dirs, write, owner, fault).1);
  }

  lemma WorkOk(k: World, write: bool, approved: bool, owner: bool, identity: nat, fault: S.Fault)
    requires WorldOk(k)
    ensures WorldOk(Worked(k, write, approved, owner, identity, fault).1)
  {
    if WorkFault(k, write, approved).None? {
      var s := Selected(k).value;
      var p := s.pending.value;
      PendingIsIntent(k, s, p);
      TriedOk(k, s, p, write, owner, identity, fault);
      var dir := Found(k, p, identity);
      var (error, store) := Targeted(dir.store, p, p.target in k.dirs, write, owner, fault);
      if error.None? {
        ClaimedOk(Placed(k, p, dir, store), Claim(S.Revision(k.setup), Completed(s, dir.identity)));
      }
    }
  }

  lemma NextOk(k: World, step: Step)
    requires WorldOk(k)
    ensures WorldOk(Next(k, step))
  {
    match step
    case Work(write, approved, owner, identity, fault) => WorkOk(k, write, approved, owner, identity, fault);
    case Confirm(c, fault) => ConfirmOk(k, c, fault);
    case RecoverSetup => RecoverSetupOk(k);
    case Edit(_, _) => OtherWriterOk(k, step);
    case Rollback(_, _) => OtherWriterOk(k, step);
    case _ => IntentKept(k, step);
  }

  function Run(k: World, steps: seq<Step>): World
    decreases |steps|
  {
    if steps == [] then k else Run(Next(k, steps[0]), steps[1..])
  }

  lemma {:induction false} RunOk(k: World, steps: seq<Step>)
    requires WorldOk(k)
    ensures WorldOk(Run(k, steps))
    decreases |steps|
  {
    if steps != [] {
      NextOk(k, steps[0]);
      RunOk(Next(k, steps[0]), steps[1..]);
    }
  }

  // ---- Reachable worlds ---------------------------------------------------------------------------------

  lemma InitialOk(k: World)
    requires Initial(k)
    ensures WorldOk(k)
  {}

  ghost predicate Reachable(k: World) { exists k0, steps :: Initial(k0) && Run(k0, steps) == k }

  lemma ReachableOk(k: World)
    requires Reachable(k)
    ensures WorldOk(k)
  {
    var k0, steps :| Initial(k0) && Run(k0, steps) == k;
    InitialOk(k0);
    RunOk(k0, steps);
  }

  // ---- The table as the program writes it ---------------------------------------------------------------

  function ClaimOf(k: World, identity: nat): Claim
    requires Selected(k).Some? && Selected(k).value.pending.Some?
  {
    var s := Selected(k).value;
    Claim(S.Revision(k.setup), Completed(s, if s.pending.value.target in k.dirs then k.dirs[s.pending.value.target].identity else identity))
  }

  /** One `_finish`: the locked part, then the selection, unless either is cut off. */
  function Finished(k: World, write: bool, approved: bool, owner: bool, identity: nat, fault: S.Fault, last: S.Fault)
    : (Option<Error>, World)
  {
    var (error, t) := Worked(k, write, approved, owner, identity, fault);
    if error.Some? || WorkFault(k, write, approved).Some? then (error, t)
    else if !Savable(t) then (Some(UNCONFIRMED), t)
    else (if last.Unharmed? then None else Some(UNCONFIRMED), SaveSelection(t, ClaimOf(k, identity).selection, last))
  }

  /** After the work, the claim can still be read off the selection. */
  lemma WorkedClaims(k: World, write: bool, approved: bool, owner: bool, identity: nat, fault: S.Fault)
    ensures var (error, t) := Worked(k, write, approved, owner, identity, fault);
      && t.setup == k.setup
      && (error.None? ==> WorkFault(k, write, approved).None? && Selected(k).Some? && Selected(k).value.pending.Some?
                          && ClaimOf(t, identity) == ClaimOf(k, identity))
  {}

  /** A whole transaction: the intent is recorded, and only when that was confirmed is it finished. */
  function Transacted(k: World, intent: Result<Selection, Error>, owner: bool, identity: nat, fault: S.Fault, work: S.Fault, last: S.Fault)
    : (Option<Error>, World)
    requires intent.Ok? ==> intent.value.pending.Some?
  {
    if intent.Err? then (Some(intent.error), k)
    else if !Savable(k) then (Some(UNCONFIRMED), k)
    else if !fault.Unharmed? then (Some(UNCONFIRMED), Recorded(k, intent.value, fault))
    else Finished(Recorded(k, intent.value, fault), true, true, owner, identity, work, last)
  }

  class LocalNetworkTable {
    var world: World

    constructor (k: World)
      ensures world == k
    {
      world := k;
    }

    /** Inspects an exact staged candidate before any recovery, and saves it only where nothing
        contradicts the intent. */
    static method Target(store: S.Store<Table>, p: Pending, present: bool, write: bool, owner: bool, fault: S.Fault)
      returns (error: Option<Error>, after: S.Store<Table>)
      ensures (error, after) == Targeted(store, p, present, write, owner, fault)
    {
      after := store;
      var staged := store.pending;
      if staged.Some? {
        if staged.value.Torn? { return Some(UNCONFIRMED), store; }
        if staged.value.frame.payload != p.candidate { return Some(DESTINATION_CONFLICT), store; }
        if p.requiresOwner && !owner { return Some(OWNER_SUPERSEDED), store; }
        if S.RecoverFault(store).Some? || fault.BeforeStage? { return Some(UNCONFIRMED), store; }
        after := S.Store(Some(staged.value.frame), None);
        return if fault.Unharmed? then None else Some(UNCONFIRMED), after;
      }
      if store.current.Some? && store.current.value.payload == p.candidate { return None, store; }
      if p.kind.UPDATE? {
        if S.Revision(store) != p.sourceRevision || S.Payload(store) != p.source { return Some(SOURCE_CHANGED), store; }
      } else if present || store.current.Some? {
        return Some(DESTINATION_CONFLICT), store;
      }
      if !write { return Some(NOT_APPLIED), store; }
      if p.requiresOwner && !owner { return Some(OWNER_SUPERSEDED), store; }
      if S.SaveFault(store, S.Revision(store), true).Some? { return Some(UNCONFIRMED), store; }
      after := S.Interrupted(store, S.Successor(store, p.candidate), fault);
      return if fault.Unharmed? then None else Some(UNCONFIRMED), after;
    }

    /** The part under the setup lock. */
    method Work(write: bool, approved: bool, owner: bool, identity: nat, fault: S.Fault) returns (error: Option<Error>)
      modifies this
      ensures (error, world) == Worked(old(world), write, approved, owner, identity, fault)
    {
      error := WorkFault(world, write, approved);
      if error.Some? { return; }
      var s := Selected(world).value;
      var p := s.pending.value;
      var present := p.target in world.dirs;
      if !present && !write { return Some(DESTINATION_NOT_CREATED); }
      if !present && p.requiresOwner && !owner { return Some(OWNER_SUPERSEDED); }
      var dir := if present then world.dirs[p.target] else Dir(identity, S.Store(None, None));
      var after;
      error, after := Target(dir.store, p, present, write, owner, fault);
      world := Placed(world, p, dir, after);
      if error.None? {
        world := world.(claims := world.claims + {Claim(S.Revision(world.setup), Completed(s, dir.identity))});
      }
    }

    /** Saves the completed selection. */
    method SelectIt(s: Selection, fault: S.Fault) returns (error: Option<Error>)
      modifies this
      ensures world == SaveSelection(old(world), s, fault)
      ensures error == if Savable(old(world)) && fault.Unharmed? then None else Some(UNCONFIRMED)
    {
      if !Savable(world) { return Some(UNCONFIRMED); }
      var payload := world.setup.current.value.payload.(table := Some(s));
      world := Noted(world.(setup := S.Interrupted(world.setup, S.Successor(world.setup, payload), fault)));
      error := if fault.Unharmed? then None else Some(UNCONFIRMED);
    }

    /** Works on the recorded intent, then saves the selection. */
    method Finish(write: bool, approved: bool, owner: bool, identity: nat, fault: S.Fault, last: S.Fault) returns (error: Option<Error>)
      modifies this
      ensures (error, world) == Finished(old(world), write, approved, owner, identity, fault, last)
    {
      WorkedClaims(world, write, approved, owner, identity, fault);
      error := Work(write, approved, owner, identity, fault);
      if error.None? {
        error := SelectIt(ClaimOf(world, identity).selection, last);
      }
    }

    /** Records an intent; its caller goes on to `Finish` only when that was confirmed. */
    method Record(intent: Result<Selection, Error>, fault: S.Fault) returns (error: Option<Error>)
      requires intent.Ok? ==> intent.value.pending.Some?
      modifies this
      ensures world == if intent.Ok? then Recorded(old(world), intent.value, fault) else old(world)
      ensures error == if intent.Err? then Some(intent.error)
                       else if !Savable(old(world)) || !fault.Unharmed? then Some(UNCONFIRMED)
                       else None
    {
      if intent.Err? { return Some(intent.error); }
      if !Savable(world) { return Some(UNCONFIRMED); }
      var payload := world.setup.current.value.payload.(table := Some(intent.value));
      var saved := world.(setup := S.Interrupted(world.setup, S.Successor(world.setup, payload), fault));
      world := if !Reaches(fault) then saved else
        saved.(before := world.dirs, origin := Selected(world), intent := Some(intent.value),
               started := world.started + [intent.value.pending.value.operation]);
      error := if fault.Unharmed? then None else Some(UNCONFIRMED);
    }

    method Configure(target: nat, candidate: Table, approved: bool, identity: nat, faults: seq<S.Fault>) returns (error: Option<Error>)
      requires |faults| == 3
      modifies this
      ensures (error, world)
        == Transacted(old(world), CreateIntent(old(world), target, candidate, approved), false, identity, faults[0], faults[1], faults[2])
    {
      error := Record(CreateIntent(world, target, candidate, approved), faults[0]);
      if error.None? { error := Finish(true, true, false, identity, faults[1], faults[2]); }
    }

    method Move(target: nat, approved: bool, identity: nat, faults: seq<S.Fault>) returns (error: Option<Error>)
      requires |faults| == 3
      modifies this
      ensures (error, world)
        == Transacted(old(world), MoveIntent(old(world), target, approved), false, identity, faults[0], faults[1], faults[2])
    {
      error := Record(MoveIntent(world, target, approved), faults[0]);
      if error.None? { error := Finish(true, true, false, identity, faults[1], faults[2]); }
    }

    /** `owner` is what the owner check answers while the update is carried out. */
    method Update(candidate: Table, requiresOwner: bool, owner: bool, identity: nat, faults: seq<S.Fault>)
      returns (error: Option<Error>)
      requires |faults| == 3
      modifies this
      ensures (error, world)
        == Transacted(old(world), UpdateIntent(old(world), candidate, requiresOwner), owner, identity, faults[0], faults[1], faults[2])
    {
      error := Record(UpdateIntent(world, candidate, requiresOwner), faults[0]);
      if error.None? { error := Finish(true, true, owner, identity, faults[1], faults[2]); }
    }
  }
}
