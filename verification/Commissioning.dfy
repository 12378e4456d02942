/** First-run commissioning: external actions that may run once, whatever restarts happen. */
module Commissioning {
  import opened Basics
  import S = Settings

  datatype Result3 = UNKNOWN | CONFIRMED | REJECTED
  datatype State = INCOMPLETE | BLOCKED | CANCELLED | SETTINGS_READY
  datatype Reason = MISSING_CHOICES | REVALIDATION_REQUIRED | UNKNOWN_OPERATION | IS_CANCELLED | SETTINGS_VALIDATED | OTHER(code: nat)

  /** The choices an owner makes; `others` stands for the remaining ones. */
  datatype Choices = Choices(role: Option<nat>, storage: Option<nat>, storageRequest: Option<nat>, network: Option<nat>, others: nat)

  /** `frozen` is the part a rollback must find unchanged besides operations and storage. */
  datatype Payload = Payload(installation: nat, state: State, reason: Reason, choices: Choices,
                             operations: map<nat, Result3>, frozen: nat)

  datatype Error =
    | SETTINGS_CHANGED | SETUP_BINDING_FROZEN | SETUP_BINDING_UNVERIFIED | SETUP_INSPECT_REQUIRED | SETUP_INCOMPLETE
    | SETUP_ACTION_NOT_AUTHORIZED | SETUP_ROLLBACK_REQUIRES_STOPPED | SETUP_PREVIOUS_ABSENT | SETUP_ROLLBACK_UNSAFE
    | UNCONFIRMED

  predicate Missing(c: Choices) { c.role.None? || (c.storage.None? && c.storageRequest.None?) || c.network.None? }

  predicate SomeUnknown(p: Payload) { exists op :: op in p.operations && p.operations[op].UNKNOWN? }

  /** A new setup has chosen nothing but `others`, and recorded no operation. */
  function Created(installation: nat, frozen: nat, others: nat): Payload {
    Payload(installation, INCOMPLETE, MISSING_CHOICES, Choices(None, None, None, None, others), map[], frozen)
  }

  /** A partial update of the choices. */
  datatype Patch = Patch(storage: Option<Option<nat>>, storageRequest: Option<Option<nat>>, role: Option<Option<nat>>,
                         network: Option<Option<nat>>, others: Option<nat>)

  function Patched(c: Choices, patch: Patch): Choices {
    var cleared := if patch.storageRequest.Some? && patch.storageRequest.value != c.storageRequest then c.(storage := None) else c;
    Choices(if patch.role.Some? then patch.role.value else cleared.role,
            if patch.storage.Some? then patch.storage.value else cleared.storage,
            if patch.storageRequest.Some? then patch.storageRequest.value else cleared.storageRequest,
            if patch.network.Some? then patch.network.value else cleared.network,
            if patch.others.Some? then patch.others.value else cleared.others)
  }

  /** What each operation proposes to save, or why it refuses. */
  function Chosen(p: Payload, patch: Patch): Result<Payload, Error> {
    var asks := patch.storageRequest.Some? && patch.storageRequest.value != p.choices.storageRequest;
    if p.operations != map[] && patch.storage.Some? && patch.storage.value != p.choices.storage then Err(SETUP_BINDING_FROZEN)
    else if asks && p.operations != map[] then Err(SETUP_BINDING_FROZEN)
    else if asks && patch.storage.Some? then Err(SETUP_BINDING_UNVERIFIED)
    else if SomeUnknown(p) && Patched(p.choices, patch) != p.choices then Err(SETUP_INSPECT_REQUIRED)
    else Ok(p.(choices := Patched(p.choices, patch), state := INCOMPLETE, reason := REVALIDATION_REQUIRED))
  }

  function Performed(p: Payload, op: nat, authorized: bool): Result<Payload, Error> {
    if !authorized then Err(SETUP_ACTION_NOT_AUTHORIZED)
    else if Missing(p.choices) || p.state.CANCELLED? then Err(SETUP_INCOMPLETE)
    else if op in p.operations || SomeUnknown(p) then Err(SETUP_INSPECT_REQUIRED)
    else Ok(p.(operations := p.operations[op := UNKNOWN], state := BLOCKED, reason := UNKNOWN_OPERATION))
  }

  function Reconciled(p: Payload, op: nat, found: Result3): Result<Payload, Error> {
    if op !in p.operations || !p.operations[op].UNKNOWN? then Err(SETUP_INSPECT_REQUIRED)
    else Ok(p.(operations := p.operations[op := found],
               state := if found.UNKNOWN? then BLOCKED else INCOMPLETE,
               reason := if found.UNKNOWN? then UNKNOWN_OPERATION else REVALIDATION_REQUIRED))
  }

  function RolledBack(p: Payload, previous: Option<Payload>, stopped: bool): Result<Payload, Error> {
    if !stopped then Err(SETUP_ROLLBACK_REQUIRES_STOPPED)
    else if previous.None? then Err(SETUP_PREVIOUS_ABSENT)
    else
      var q := previous.value;
      if q.installation != p.installation || q.operations != p.operations || q.frozen != p.frozen
         || q.choices.storage != p.choices.storage then Err(SETUP_ROLLBACK_UNSAFE)
      else Ok(q.(state := INCOMPLETE, reason := REVALIDATION_REQUIRED))
  }

  /** `check` is what the environment check reports, if it is asked. */
  function Reviewed(p: Payload, check: Result<(), Reason>): Payload {
    if Missing(p.choices) then p.(state := INCOMPLETE, reason := MISSING_CHOICES)
    else if SomeUnknown(p) then p.(state := BLOCKED, reason := UNKNOWN_OPERATION)
    else match check
         case Ok(_) => p.(state := SETTINGS_READY, reason := SETTINGS_VALIDATED)
         case Err(r) => p.(state := BLOCKED, reason := r)
  }

  // ---- Steps over the protected store -------------------------------------------------------------

  /** `ran` lists every external action that was started. */
  datatype World = World(store: S.Store<Payload>, ran: seq<nat>)

  datatype Step =
    | Create(installation: nat, frozen: nat, others: nat, fault: S.Fault)
    | Choose(patch: Patch, fault: S.Fault)
    | Mark(state: State, reason: Reason, fault: S.Fault)
    | Review(check: Result<(), Reason>, fault: S.Fault)
    | Perform(operation: nat, authorized: bool, fault: S.Fault)
    | Reconcile(operation: nat, found: Result3, fault: S.Fault)
    | Rollback(stopped: bool, fault: S.Fault)
    | Recover

  /** The payload a step would save.  Cancelling, resuming and blocking only mark it; a cancelled
      setup is neither blocked nor reviewed. */
  function Proposal(store: S.Store<Payload>, step: Step): Result<Payload, Error>
    requires !step.Recover?
  {
    if store.pending.Some? then Err(SETTINGS_CHANGED)
    else if step.Create? then
      if store.current.None? then Ok(Created(step.installation, step.frozen, step.others)) else Err(SETTINGS_CHANGED)
    else if store.current.None? then Err(SETTINGS_CHANGED)
    else
      var p := store.current.value.payload;
      match step
      case Choose(patch, _) => Chosen(p, patch)
      case Mark(state, reason, _) =>
        if state.SETTINGS_READY? || (state.BLOCKED? && p.state.CANCELLED?) then Err(SETUP_INCOMPLETE)
        else Ok(p.(state := state, reason := reason))
      case Review(check, _) => if p.state.CANCELLED? then Err(SETUP_INCOMPLETE) else Ok(Reviewed(p, check))
      case Perform(op, authorized, _) => Performed(p, op, authorized)
      case Reconcile(op, found, _) => Reconciled(p, op, found)
      case Rollback(stopped, _) => RolledBack(p, store.current.value.previous, stopped)
      case Create(_, _, _, _) => Err(SETTINGS_CHANGED)
  }

  predicate Saves(store: S.Store<Payload>, step: Step) {
    !step.Recover? && Proposal(store, step).Ok? && S.SaveFault(store, S.Revision(store), true).None?
  }

  function Next(w: World, step: Step): World {
    if step.Recover? then w.(store := S.After(w.store, S.Recovering(false)))
    else if !Saves(w.store, step) then w
    else World(S.Interrupted(w.store, S.Successor(w.store, Proposal(w.store, step).value), step.fault),
               if step.Perform? && step.fault.Unharmed? then w.ran + [step.operation] else w.ran)
  }

  function Run(w: World, steps: seq<Step>): World
    decreases |steps|
  {
    if steps == [] then w else Run(Next(w, steps[0]), steps[1..])
  }

  // ---- Invariants ------------------------------------------------------------------------------------

  predicate OneUnknown(p: Payload) {
    forall a, b | a in p.operations && b in p.operations && p.operations[a].UNKNOWN? && p.operations[b].UNKNOWN? :: a == b
  }

  /** Operations are never dropped, settled ones never change, and the storage stands once any is recorded. */
  predicate Evolves(p: Payload, q: Payload) {
    && q.installation == p.installation
    && (forall op | op in p.operations :: op in q.operations && (p.operations[op].UNKNOWN? || q.operations[op] == p.operations[op]))
    && (p.operations != map[] ==> q.choices.storage == p.choices.storage)
  }

  ghost predicate WorldOk(w: World) {
    && (forall i, j | 0 <= i < j < |w.ran| :: w.ran[i] != w.ran[j])
    && (w.store.current.None? ==> w.ran == [])
    && (w.store.current.Some? ==>
          && OneUnknown(w.store.current.value.payload)
          && forall op | op in w.ran :: op in w.store.current.value.payload.operations)
    && (w.store.pending.Some? && w.store.pending.value.Whole? ==>
          var f := w.store.pending.value.frame;
          && f == S.Successor(w.store, f.payload) && OneUnknown(f.payload)
          && (w.store.current.Some? ==> Evolves(w.store.current.value.payload, f.payload)))
  }

  lemma ProposalOk(store: S.Store<Payload>, step: Step)
    requires !step.Recover? && Proposal(store, step).Ok?
    requires store.current.Some? ==> OneUnknown(store.current.value.payload)
    ensures OneUnknown(Proposal(store, step).value)
    ensures store.current.Some? ==> Evolves(store.current.value.payload, Proposal(store, step).value)
  {}

  lemma EvolvesOn(p: Payload, q: Payload, r: Payload)
    requires Evolves(p, q) && Evolves(q, r)
    ensures Evolves(p, r)
  {}

  lemma NextOk(w: World, step: Step)
    requires WorldOk(w)
    ensures WorldOk(Next(w, step)) && |w.ran| <= |Next(w, step).ran|
    ensures w.store.current.Some? ==>
      Next(w, step).store.current.Some? && Evolves(w.store.current.value.payload, Next(w, step).store.current.value.payload)
  {
    if !step.Recover? && Saves(w.store, step) { ProposalOk(w.store, step); }
  }

  /** Across restarts, lost saves and rollbacks: every action runs at most once per operation id,
      and only while that operation is recorded; at most one operation is UNKNOWN; what is settled
      stays settled, nothing recorded is dropped, and the storage stands once anything is. */
  lemma {:induction false} RunOk(w: World, steps: seq<Step>)
    requires WorldOk(w)
    ensures var t := Run(w, steps);
      && WorldOk(t)
      && (w.store.current.Some? ==>
            t.store.current.Some? && Evolves(w.store.current.value.payload, t.store.current.value.payload))
    decreases |steps|
  {
    if steps != [] {
      var u := Next(w, steps[0]);
      NextOk(w, steps[0]);
      RunOk(u, steps[1..]);
      if w.store.current.Some? {
        EvolvesOn(w.store.current.value.payload, u.store.current.value.payload, Run(u, steps[1..]).store.current.value.payload);
      }
    }
  }

  /** From an empty store. */
  lemma ActionsRunOnce(steps: seq<Step>)
    ensures var t := Run(World(S.Store(None, None), []), steps);
      && (forall i, j | 0 <= i < j < |t.ran| :: t.ran[i] != t.ran[j])
      && (forall op | op in t.ran :: t.store.current.Some? && op in t.store.current.value.payload.operations)
      && (t.store.current.Some? ==> OneUnknown(t.store.current.value.payload))
  {
    RunOk(World(S.Store(None, None), []), steps);
  }

  // ---- Setup as the program writes it ------------------------------------------------------------------

  datatype Status = Status(state: State, reason: Reason, validated: bool)

  function ChoicesOf(p: Option<Payload>): Option<Choices> { if p.Some? then Some(p.value.choices) else None }

  /** What an operation leaves behind: one step of the store if its setup had loaded the present frame, else a refusal. */
  predicate Performs(before: S.Store<Payload>, loaded: bool, step: Step, after: S.Store<Payload>, ran: seq<nat>, error: Option<Error>) {
    if loaded then World(after, ran) == Next(World(before, []), step)
    else error == Some(SETTINGS_CHANGED) && ran == [] && after == before
  }

  /** A setup remembers the frame it loaded, and at which revision it validated the environment
      itself; a saved SETTINGS_READY is never enough. */
  class Setup {
    const store: S.PrivateSettings<Payload>
    var snapshot: S.Frame<Payload>
    var readyRevision: Option<nat>

    constructor (s: S.PrivateSettings<Payload>, loaded: S.Frame<Payload>)
      ensures store == s && snapshot == loaded && readyRevision.None?
    {
      store, snapshot, readyRevision := s, loaded, None;
    }

    predicate FreshNow()
      reads this, store.native
    {
      store.native.files.pending.None? && store.native.files.current == Some(snapshot)
    }

    function StatusNow(): Status
      reads this, store.native
    {
      var validated := readyRevision == Some(snapshot.revision) && FreshNow();
      if snapshot.payload.state.SETTINGS_READY? && !validated then Status(INCOMPLETE, REVALIDATION_REQUIRED, false)
      else Status(snapshot.payload.state, snapshot.payload.reason, validated)
    }

    method Commit(proposal: Result<Payload, Error>, fault: S.Fault) returns (error: Option<Error>)
      requires FreshNow()
      modifies this, store.native
      ensures readyRevision == if proposal.Err? then old(readyRevision) else None
      ensures var before := old(store.native.files);
        if proposal.Err? then error == Some(proposal.error) && store.native.files == before && snapshot == old(snapshot)
        else if S.SaveFault(before, S.Revision(before), true).Some? then
          error == Some(UNCONFIRMED) && store.native.files == before && snapshot == old(snapshot)
        else store.native.files == S.Interrupted(before, S.Successor(before, proposal.value), fault)
             && error == (if fault.Unharmed? then None else Some(UNCONFIRMED))
             && (if fault.Unharmed? then FreshNow() && snapshot == S.Successor(before, proposal.value)
                 else snapshot == old(snapshot))
    {
      if proposal.Err? { return Some(proposal.error); }
      readyRevision := None;
      var saved := store.Save(proposal.value, snapshot.revision, true, fault);
      if saved.Err? { return Some(UNCONFIRMED); }
      snapshot := saved.value;
      return None;
    }

    method Choose(patch: Patch, fault: S.Fault) returns (error: Option<Error>)
      requires store.native.files.current.Some?
      modifies this, store.native
      ensures Performs(old(store.native.files), old(FreshNow()), Step.Choose(patch, fault), store.native.files, [], error)
      ensures old(FreshNow()) && Chosen(old(snapshot).payload, patch).Err? ==> error == Some(Chosen(old(snapshot).payload, patch).error)
    {
      if store.native.files.pending.Some? || store.native.files.current != Some(snapshot) { return Some(SETTINGS_CHANGED); }
      error := Commit(Chosen(snapshot.payload, patch), fault);
    }

    /** The operation is durable before the action; only this live call reaches the action. */
    method PerformOnce(op: nat, authorized: bool, fault: S.Fault) returns (error: Option<Error>, ran: bool)
      requires store.native.files.current.Some?
      modifies this, store.native
      ensures Performs(old(store.native.files), old(FreshNow()), Perform(op, authorized, fault),
                       store.native.files, if ran then [op] else [], error)
      ensures ran <==> error.None?
    {
      ran := false;
      if store.native.files.pending.Some? || store.native.files.current != Some(snapshot) { return Some(SETTINGS_CHANGED), false; }
      error := Commit(Performed(snapshot.payload, op, authorized), fault);
      ran := error.None?;
    }

    /** `found` is what the inspector answers for an UNKNOWN operation. */
    method ReconcileOperation(op: nat, found: Result3, fault: S.Fault) returns (error: Option<Error>)
      requires store.native.files.current.Some?
      modifies this, store.native
      ensures Performs(old(store.native.files), old(FreshNow()), Reconcile(op, found, fault), store.native.files, [], error)
      ensures error.None? ==> op in snapshot.payload.operations && snapshot.payload.operations[op] == found
    {
      if store.native.files.pending.Some? || store.native.files.current != Some(snapshot) { return Some(SETTINGS_CHANGED); }
      error := Commit(Reconciled(snapshot.payload, op, found), fault);
    }

    /** Appends a new revision with the previous choices. */
    method RollbackChoices(stopped: bool, fault: S.Fault) returns (error: Option<Error>)
      requires store.native.files.current.Some?
      modifies this, store.native
      ensures if stopped then Performs(old(store.native.files), old(FreshNow()), Rollback(stopped, fault), store.native.files, [], error)
              else error == Some(SETUP_ROLLBACK_REQUIRES_STOPPED) && store.native.files == old(store.native.files)
      ensures error.None? ==>
        snapshot.revision == old(snapshot.revision) + 1 && Some(snapshot.payload.choices) == ChoicesOf(old(snapshot.previous))
    {
      if !stopped { return Some(SETUP_ROLLBACK_REQUIRES_STOPPED); }
      if store.native.files.pending.Some? || store.native.files.current != Some(snapshot) { return Some(SETTINGS_CHANGED); }
      error := Commit(RolledBack(snapshot.payload, snapshot.previous, stopped), fault);
    }

    /** A review saves its verdict and remembers a passed check for this very revision only. */
    method ReviewSettings(check: Result<(), Reason>, fault: S.Fault) returns (error: Option<Error>)
      requires store.native.files.current.Some?
      modifies this, store.native
      ensures Performs(old(store.native.files), old(FreshNow()), Review(check, fault), store.native.files, [], error)
      ensures error.None? && !old(snapshot).payload.state.CANCELLED? ==>
        (StatusNow().validated <==> check.Ok? && !Missing(old(snapshot).payload.choices) && !SomeUnknown(old(snapshot).payload))
    {
      if store.native.files.pending.Some? || store.native.files.current != Some(snapshot) { return Some(SETTINGS_CHANGED); }
      if snapshot.payload.state.CANCELLED? { return None; }
      var verdict := Reviewed(snapshot.payload, check);
      error := Commit(Ok(verdict), fault);
      if error.None? && verdict.state.SETTINGS_READY? && check.Ok? && verdict.reason.SETTINGS_VALIDATED? {
        readyRevision := Some(snapshot.revision);
      }
    }
  }

  /** After a restart nothing is validated, whatever the saved state says. */
  lemma RestartForgets(s: Setup)
    requires s.readyRevision.None?
    ensures !s.StatusNow().validated && !s.StatusNow().state.SETTINGS_READY?
  {}
}
