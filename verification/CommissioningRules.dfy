/** When each commissioning step is accepted and what it saves; and what in a setup every
    external action, recorded outcome and validated state goes back to. */
module CommissioningRules {
  import opened Basics
  import S = Settings
  import opened Commissioning

  // ---- One step -----------------------------------------------------------------------------------

  predicate Complete(c: Choices) {
    c.role != None && c.network != None && (c.storage != None || c.storageRequest != None)
  }

  predicate Settled(p: Payload) { forall op | op in p.operations :: p.operations[op] == CONFIRMED || p.operations[op] == Result3.REJECTED }

  /** Only what the setup makes of its choices may differ. */
  predicate SameRecord(p: Payload, q: Payload) {
    q.installation == p.installation && q.frozen == p.frozen && q.operations == p.operations
  }

  predicate Unready(q: Payload) { q.state == INCOMPLETE && q.reason == REVALIDATION_REQUIRED }

  /** What is named is taken, the rest stands; only another request unsettles the storage. */
  lemma PatchedExactly(c: Choices, patch: Patch)
    ensures var d := Patched(c, patch);
      && (patch.role == None ==> d.role == c.role) && (patch.role.Some? ==> d.role == patch.role.value)
      && (patch.network == None ==> d.network == c.network) && (patch.network.Some? ==> d.network == patch.network.value)
      && (patch.others == None ==> d.others == c.others) && (patch.others.Some? ==> d.others == patch.others.value)
      && (patch.storageRequest == None ==> d.storageRequest == c.storageRequest)
      && (patch.storageRequest.Some? ==> d.storageRequest == patch.storageRequest.value)
      && (patch.storage.Some? ==> d.storage == patch.storage.value)
      && (patch.storage == None && d.storageRequest == c.storageRequest ==> d.storage == c.storage)
      && (patch.storage == None && d.storageRequest != c.storageRequest ==> d.storage == None)
  {}

  /** Choices are refused exactly when they would touch the storage binding of recorded
      operations, name storage beside another request, or change anything while one is UNKNOWN. */
  lemma ChosenExactly(p: Payload, patch: Patch)
    ensures var (r, next) := (Chosen(p, patch), Patched(p.choices, patch));
      var moves := next.storageRequest != p.choices.storageRequest;
      var frozen := p.operations != map[] && (moves || (patch.storage.Some? && patch.storage.value != p.choices.storage));
      && (r == Err(SETUP_BINDING_FROZEN) <==> frozen)
      && (r == Err(SETUP_BINDING_UNVERIFIED) <==> !frozen && moves && patch.storage.Some?)
      && (r == Err(SETUP_INSPECT_REQUIRED) <==> !frozen && !Settled(p) && next != p.choices)
      && (r.Ok? <==> !frozen && !(moves && patch.storage.Some?) && (Settled(p) || next == p.choices))
      && (r.Ok? ==> r.value.choices == next && SameRecord(p, r.value) && Unready(r.value))
  {}

  /** An action is accepted exactly when it is authorized, the choices are complete, the setup is
      not cancelled, nothing is UNKNOWN and its identity is new; then it alone becomes UNKNOWN. */
  lemma PerformedExactly(p: Payload, op: nat, authorized: bool)
    ensures var r := Performed(p, op, authorized);
      var possible := Complete(p.choices) && p.state != CANCELLED;
      && (r.Ok? <==> authorized && possible && Settled(p) && op !in p.operations)
      && (r == Err(SETUP_ACTION_NOT_AUTHORIZED) <==> !authorized)
      && (r == Err(SETUP_INCOMPLETE) <==> authorized && !possible)
      && (r == Err(SETUP_INSPECT_REQUIRED) <==> authorized && possible && (op in p.operations || !Settled(p)))
      && (r.Ok? ==>
            var q := r.value;
            && q.choices == p.choices && q.installation == p.installation && q.frozen == p.frozen
            && q.state == BLOCKED && q.reason == UNKNOWN_OPERATION
            && q.operations.Keys == p.operations.Keys + {op} && q.operations[op] == Result3.UNKNOWN
            && forall o | o in p.operations :: q.operations[o] == p.operations[o])
  {}

  /** Exactly an UNKNOWN operation can be settled, and only to what was found. */
  lemma ReconciledExactly(p: Payload, op: nat, found: Result3)
    ensures var r := Reconciled(p, op, found);
      && (r.Ok? <==> op in p.operations && p.operations[op] == Result3.UNKNOWN)
      && (r.Err? <==> r == Err(SETUP_INSPECT_REQUIRED))
      && (r.Ok? ==>
            var q := r.value;
            && q.choices == p.choices && q.installation == p.installation && q.frozen == p.frozen
            && q.operations.Keys == p.operations.Keys && q.operations[op] == found
            && (forall o | o in p.operations && o != op :: q.operations[o] == p.operations[o])
            && (found != Result3.UNKNOWN ==> Unready(q))
            && (found == Result3.UNKNOWN ==> q.state == BLOCKED && q.reason == UNKNOWN_OPERATION))
  {}

  /** Exactly earlier choices over the very same record can be taken back. */
  lemma RolledBackExactly(p: Payload, previous: Option<Payload>, stopped: bool)
    ensures var r := RolledBack(p, previous, stopped);
      && (r.Ok? <==> stopped && previous.Some? && SameRecord(p, previous.value) && previous.value.choices.storage == p.choices.storage)
      && (r == Err(SETUP_ROLLBACK_REQUIRES_STOPPED) <==> !stopped)
      && (r == Err(SETUP_PREVIOUS_ABSENT) <==> stopped && previous == None)
      && (r.Err? ==> r == Err(SETUP_ROLLBACK_UNSAFE) || !stopped || previous == None)
      && (r.Ok? ==> SameRecord(p, r.value) && r.value.choices == previous.value.choices && Unready(r.value))
  {}

  /** A review validates exactly complete choices, nothing UNKNOWN and a passed check. */
  lemma ReviewedExactly(p: Payload, check: Result<(), Reason>)
    ensures var q := Reviewed(p, check);
      && SameRecord(p, q) && q.choices == p.choices
      && (q.state == SETTINGS_READY <==> Complete(p.choices) && Settled(p) && check.Ok?)
      && (q.state == INCOMPLETE <==> !Complete(p.choices)) && q.state != CANCELLED
      && (!Complete(p.choices) ==> q.reason == MISSING_CHOICES)
      && (Complete(p.choices) && !Settled(p) ==> q.reason == UNKNOWN_OPERATION)
      && (Complete(p.choices) && Settled(p) ==> q.reason == if check.Ok? then SETTINGS_VALIDATED else check.error)
  {}

  /** Nothing is proposed over a staged frame or, but for creation, an empty store; a mark never
      makes a setup ready, and a cancelled one is neither blocked nor reviewed. */
  lemma ProposalExactly(store: S.Store<Payload>, step: Step)
    requires !step.Recover?
    ensures var (r, p) := (Proposal(store, step), S.Payload(store));
      && (store.pending.Some? || (step.Create? <==> p.Some?) ==> r == Err(SETTINGS_CHANGED))
      && (store.pending == None && step.Create? && p == None ==>
            && r.Ok? && r.value.installation == step.installation && r.value.frozen == step.frozen
            && r.value.operations == map[] && r.value.state == INCOMPLETE && r.value.reason == MISSING_CHOICES
            && !Complete(r.value.choices) && r.value.choices.others == step.others
            && r.value.choices.role == r.value.choices.network == r.value.choices.storage == r.value.choices.storageRequest == None)
      && (store.pending == None && step.Mark? && p.Some? ==>
            && (r.Ok? <==> step.state != SETTINGS_READY && !(step.state == BLOCKED && p.value.state == CANCELLED))
            && (r.Ok? ==> SameRecord(p.value, r.value) && r.value.choices == p.value.choices
                          && r.value.state == step.state && r.value.reason == step.reason))
      && (store.pending == None && step.Review? && p.Some? ==> (r.Ok? <==> p.value.state != CANCELLED))
      && (r.Err? && (step.Mark? || step.Review?) ==> r.error == if store.pending.Some? || p == None then SETTINGS_CHANGED else SETUP_INCOMPLETE)
  {}

  /** What a step leaves in the store: its proposal over the committed payload, as far as the save
      came; a recovery commits what is staged whole, and leaves anything else. */
  lemma StepExactly(w: World, step: Step)
    requires WorldOk(w)
    ensures var t := Next(w, step);
      if step.Recover? then
        && t.ran == w.ran
        && match w.store.pending
           case Some(Whole(f)) => t.store.pending == None && t.store.current == Some(f)
           case _ => t.store == w.store
      else if Proposal(w.store, step).Err? || (w.store.current.Some? && w.store.current.value.revision >= S.MAX_REVISION) then t == w
      else
        var next := S.Frame(S.Revision(w.store) + 1, Proposal(w.store, step).value, S.Payload(w.store));
        && t.ran == (if step.Perform? && step.fault == S.Unharmed then w.ran + [step.operation] else w.ran)
        && match step.fault
           case BeforeStage => t.store == w.store
           case DuringStage => t.store.current == w.store.current && t.store.pending == Some(S.Torn)
           case AfterStage => t.store.current == w.store.current && t.store.pending == Some(S.Whole(next))
           case _ => t.store.current == Some(next) && t.store.pending == None
  {}

  // ---- Over runs --------------------------------------------------------------------------------------

  const Start := World(S.Store(None, None), [])

  /** The world after the first n steps. */
  function At(steps: seq<Step>, n: nat): World
    requires n <= |steps|
    decreases n
  {
    if n == 0 then Start else Next(At(steps, n - 1), steps[n - 1])
  }

  lemma {:induction false} AtOk(steps: seq<Step>, n: nat)
    requires n <= |steps|
    ensures WorldOk(At(steps, n))
    decreases n
  {
    if n > 0 {
      AtOk(steps, n - 1);
      NextOk(At(steps, n - 1), steps[n - 1]);
    }
  }

  /** Committed, or staged whole. */
  predicate Holds(store: S.Store<Payload>, q: Payload) {
    || (store.current.Some? && store.current.value.payload == q)
    || (store.pending.Some? && store.pending.value.Whole? && store.pending.value.frame.payload == q)
  }

  /** A step of this kind on this committed payload, with nothing staged, that saved q. */
  predicate Saved(w: World, step: Step, q: Payload) {
    && !step.Recover? && w.store.pending == None
    && (w.store.current == None <==> step.Create?) && Proposal(w.store, step) == Ok(q)
  }

  lemma HeldWasSaved(w: World, step: Step, q: Payload)
    requires Holds(Next(w, step).store, q) && !Holds(w.store, q)
    ensures Saved(w, step, q)
  {}

  /** The payload an earlier step found. */
  function Found(steps: seq<Step>, i: nat): Option<Payload>
    requires i <= |steps|
  {
    S.Payload(At(steps, i).store)
  }

  /** This step started the action: authorized, saved in full, over complete choices with nothing
      UNKNOWN, and the operation is committed as UNKNOWN from then on. */
  predicate Starts(steps: seq<Step>, i: nat, op: nat)
    requires i < |steps|
  {
    && steps[i] == Perform(op, true, S.Unharmed) && At(steps, i).store.pending == None
    && Found(steps, i).Some? && Complete(Found(steps, i).value.choices) && Found(steps, i).value.state != CANCELLED
    && Settled(Found(steps, i).value) && op !in Found(steps, i).value.operations
    && Found(steps, i + 1).Some? && op in Found(steps, i + 1).value.operations
    && Found(steps, i + 1).value.operations[op] == Result3.UNKNOWN
  }

  lemma RanExactly(w: World, step: Step)
    ensures Next(w, step).ran == w.ran
            || (step.Perform? && step.authorized && step.fault == S.Unharmed && Next(w, step).ran == w.ran + [step.operation]
                && w.store.pending == None && w.store.current.Some?)
    ensures step.Perform? && step.fault == S.Unharmed && w.store.pending == None && w.store.current.Some?
            && w.store.current.value.revision < S.MAX_REVISION ==>
      (Next(w, step).ran != w.ran <==> Performed(w.store.current.value.payload, step.operation, step.authorized).Ok?)
  {
    if step.Perform? && Saves(w.store, step) && step.fault == S.Unharmed {
      assert |Next(w, step).ran| == |w.ran| + 1;
    }
  }

  /** Every external action that was ever started, was started by an authorized call that had
      first committed it as UNKNOWN, over complete choices with nothing else UNKNOWN. */
  lemma {:induction false} RanWasAuthorized(steps: seq<Step>, n: nat, op: nat) returns (i: nat)
    requires n <= |steps| && op in At(steps, n).ran
    ensures i < n && Starts(steps, i, op)
    decreases n
  {
    if op in At(steps, n - 1).ran {
      i := RanWasAuthorized(steps, n - 1, op);
    } else {
      i := n - 1;
      RanExactly(At(steps, i), steps[i]);
      PerformedExactly(Found(steps, i).value, op, true);
    }
  }

  /** Every operation on record was recorded by an authorized call that found complete choices and nothing UNKNOWN. */
  lemma {:induction false} RecordedWasAuthorized(steps: seq<Step>, n: nat, q: Payload, op: nat) returns (i: nat)
    requires n <= |steps| && Holds(At(steps, n).store, q) && op in q.operations
    ensures i < n && steps[i].Perform? && steps[i].operation == op && steps[i].authorized
    ensures Found(steps, i).Some? && Complete(Found(steps, i).value.choices) && Settled(Found(steps, i).value)
    ensures op !in Found(steps, i).value.operations
    decreases n
  {
    var w, step := At(steps, n - 1), steps[n - 1];
    if Holds(w.store, q) {
      i := RecordedWasAuthorized(steps, n - 1, q, op);
    } else {
      HeldWasSaved(w, step, q);
      var p := w.store.current.value.payload;
      if op in p.operations {
        i := RecordedWasAuthorized(steps, n - 1, p, op);
      } else {
        i := n - 1;
        PerformedExactly(p, step.operation, step.authorized);
      }
    }
  }

  /** Every settled outcome is what an inspection of that operation found while it was UNKNOWN. */
  lemma {:induction false} OutcomeWasFound(steps: seq<Step>, n: nat, q: Payload, op: nat) returns (i: nat)
    requires n <= |steps| && Holds(At(steps, n).store, q) && op in q.operations && q.operations[op] != Result3.UNKNOWN
    ensures i < n && steps[i].Reconcile? && steps[i].operation == op && steps[i].found == q.operations[op]
    ensures Found(steps, i).Some? && op in Found(steps, i).value.operations && Found(steps, i).value.operations[op] == Result3.UNKNOWN
    decreases n
  {
    var w, step := At(steps, n - 1), steps[n - 1];
    if Holds(w.store, q) {
      i := OutcomeWasFound(steps, n - 1, q, op);
    } else {
      HeldWasSaved(w, step, q);
      var p := w.store.current.value.payload;
      if op in p.operations && p.operations[op] == q.operations[op] {
        i := OutcomeWasFound(steps, n - 1, p, op);
      } else {
        i := n - 1;
      }
    }
  }

  /** A setup saved as ready was reviewed with a passed check over these very choices and
      operations, complete and with nothing UNKNOWN. */
  lemma {:induction false} ReadyWasReviewed(steps: seq<Step>, n: nat, q: Payload) returns (i: nat)
    requires n <= |steps| && Holds(At(steps, n).store, q) && q.state == SETTINGS_READY
    ensures i < n && steps[i].Review? && steps[i].check.Ok?
    ensures Found(steps, i).Some? && SameRecord(Found(steps, i).value, q) && Found(steps, i).value.choices == q.choices
    ensures Complete(q.choices) && Settled(q)
    decreases n
  {
    var w, step := At(steps, n - 1), steps[n - 1];
    if Holds(w.store, q) {
      i := ReadyWasReviewed(steps, n - 1, q);
    } else {
      HeldWasSaved(w, step, q);
      i := n - 1;
      if step.Review? { ReviewedExactly(w.store.current.value.payload, step.check); }
    }
  }
}
