/** Frozen plans over the one authority document: effects, entering maintenance, committing. */
module Plans {
  import opened Basics
  import E = EffectLedger

  datatype Slot =
    | LEADERSHIP | FORCE_REQUEST | SETTINGS | SUMMARY | REGISTRY | COMMISSIONING | CATALOGUE(target: nat) | WORK(id: nat)

  datatype Val =
    | Leader(owner: nat, epoch: nat, generation: nat, busy: bool, active: bool)
    | Settings(generation: nat, decision: nat, body: nat, config: Option<E.Marker>)
    | Summary(row: E.Row)
    | Plain(content: nat)
    | Free

  datatype Document = Document(binding: nat, header: nat, rows: map<Slot, Val>)

  datatype Verdict = CONFLICT | CONFIRMED | SUPERSEDED | READY(document: Document)

  /** `OwnerGuard.matches`. */
  predicate Owns(d: Document, o: E.Owner) {
    && 1 <= o.epoch <= E.MAX_GENERATION
    && LEADERSHIP in d.rows && d.rows[LEADERSHIP] == Leader(o.owner, o.epoch, o.epoch, true, true)
    && FORCE_REQUEST in d.rows && d.rows[FORCE_REQUEST] == Free
  }

  function Config(d: Document): Option<E.Marker> {
    if SETTINGS in d.rows && d.rows[SETTINGS].Settings? then d.rows[SETTINGS].config else None
  }

  function Ledger(d: Document): Option<E.Ledger> {
    if SUMMARY in d.rows && d.rows[SUMMARY].Summary? then d.rows[SUMMARY].row.ledger else None
  }

  predicate Agrees(rows: map<Slot, Val>, wanted: map<Slot, Val>) {
    forall k | k in wanted :: k in rows && rows[k] == wanted[k]
  }

  function Updated(d: Document, after: map<Slot, Val>): Document { d.(rows := d.rows + after) }

  /** `guarded` is a rest-of-the-document digest for a commit, empty otherwise. */
  datatype Kind = Effect(purpose: E.Purpose, keys: set<nat>) | Enter(transition: nat) | Commit(authority: nat)
  datatype Plan = Plan(kind: Kind, binding: nat, header: nat, owner: E.Owner, protected: map<Slot, Val>,
                       before: map<Slot, Val>, after: map<Slot, Val>, rest: map<Slot, Val>)

  const CONTROLLED := {SETTINGS, SUMMARY, REGISTRY}

  /** Rows whose digest a commit guards: all but what it writes and the election rows. */
  function Rest(d: Document): map<Slot, Val> {
    map k | k in d.rows && k !in CONTROLLED && !k.CATALOGUE? && k != LEADERSHIP && k != FORCE_REQUEST :: d.rows[k]
  }

  // ---- Evaluation, in each plan's own order -------------------------------------------------------

  function Evaluate(p: Plan, d: Document): Verdict {
    if d.binding != p.binding || d.header != p.header then CONFLICT
    else if p.kind.Commit? && Rest(d) != p.rest then CONFLICT
    else if Agrees(d.rows, p.after) then CONFIRMED
    else if p.kind.Enter? && !Agrees(d.rows, p.protected) then CONFLICT
    else if !Owns(d, p.owner) then SUPERSEDED
    else if !Agrees(d.rows, p.protected) || !Agrees(d.rows, p.before) then CONFLICT
    else READY(Updated(d, p.after))
  }

  // ---- Which plans are well formed -------------------------------------------------------------------

  predicate SummaryRow(rows: map<Slot, Val>) { SUMMARY in rows && rows[SUMMARY].Summary? }

  predicate SettingsRow(rows: map<Slot, Val>) { SETTINGS in rows && rows[SETTINGS].Settings? }

  /** `barrier_row`: the same ledger behind a barrier set by this owner. */
  predicate BarrierOnly(a: E.Row, b: E.Row, owner: E.Owner, transition: nat) {
    && a.ledger.Some? && b.ledger.Some? && E.RowOk(a) && b.ledger.value.barrier.Some?
    && b == E.ChangedRow(a, a.ledger.value.(barrier :=
         Some(E.Barrier(transition, owner.owner, owner.epoch, b.ledger.value.barrier.value.localClear))))
  }

  /** `consumed_summary`: the root plan is dropped once its last move is settled. */
  predicate Consumed(a: E.Row, b: E.Row, transition: nat, authority: nat) {
    && a.ledger.Some? && E.RowOk(a)
    && var l := a.ledger.value;
       && l.rootPlan.Some? && l.rootPlan.value.transition == transition
       && l.barrier.Some? && l.barrier.value.localClear && l.barrier.value.transition == transition
       && !E.SomeUnknown(l) && E.IDENTITY in l.entries && l.entries[E.IDENTITY].outcome.COMPLETE?
       && l.entries[E.IDENTITY].operation == E.RootMove(transition, authority)
       && b == E.ChangedRow(a, l.(rootPlan := None))
  }

  predicate EntersMaintenance(a: Val, b: Val, transition: nat) {
    && a.Settings? && b.Settings? && b == a.(config := b.config)
    && (a.config.None? || (a.config.value.phase.ACTIVE? && a.config.value.transition != transition))
    && b.config == Some(E.Marker(if a.config.None? then 1 else a.config.value.revision + 1, E.MAINTENANCE, transition))
  }

  predicate BecomesActive(a: Val, b: Val) {
    && a.Settings? && b.Settings? && a.config.Some? && a.config.value.phase.MAINTENANCE?
    && b.config == Some(a.config.value.(revision := a.config.value.revision + 1, phase := E.ACTIVE))
  }

  ghost predicate Valid(p: Plan) {
    && p.before.Keys == p.after.Keys && p.protected.Keys !! p.after.Keys
    && LEADERSHIP !in p.after && FORCE_REQUEST !in p.after
    && match p.kind
       case Effect(purpose, keys) =>
         && p.after.Keys == {SUMMARY} && SummaryRow(p.before) && SummaryRow(p.after) && SettingsRow(p.protected)
         && E.Valid(purpose, p.protected[SETTINGS].config, p.before[SUMMARY].row, p.after[SUMMARY].row, p.owner, keys)
       case Enter(transition) =>
         && (p.after.Keys == {SETTINGS} || p.after.Keys == {SETTINGS, SUMMARY})
         && EntersMaintenance(p.before[SETTINGS], p.after[SETTINGS], transition)
         && (SUMMARY !in p.after || (SummaryRow(p.before) && SummaryRow(p.after)
               && BarrierOnly(p.before[SUMMARY].row, p.after[SUMMARY].row, p.owner, transition)))
       case Commit(authority) =>
         && p.protected == map[] && CONTROLLED <= p.after.Keys && (forall k | k in p.after :: k in CONTROLLED || k.CATALOGUE?)
         && (forall k | k in p.rest :: k !in CONTROLLED && !k.CATALOGUE? && k != LEADERSHIP && k != FORCE_REQUEST)
         && BecomesActive(p.before[SETTINGS], p.after[SETTINGS]) && SummaryRow(p.before) && SummaryRow(p.after)
         && Consumed(p.before[SUMMARY].row, p.after[SUMMARY].row, p.before[SETTINGS].config.value.transition, authority)
  }

  // ---- Results about single plans --------------------------------------------------------------------

  /** A READY document differs from the snapshot in the declared rows alone and evaluates to CONFIRMED. */
  lemma ReadyIsExact(p: Plan, d: Document)
    requires Valid(p) && Evaluate(p, d).READY?
    ensures var t := Evaluate(p, d).document;
      && t.binding == d.binding && t.header == d.header && t.rows.Keys == d.rows.Keys
      && (forall k | k in d.rows :: t.rows[k] == if k in p.after then p.after[k] else d.rows[k])
      && Evaluate(p, t) == CONFIRMED
  {
    var t := Evaluate(p, d).document;
    assert forall k | k in p.after :: k in p.before;
    if p.kind.Commit? { assert Rest(t) == Rest(d); }
  }

  /** The rows of the document are these, for each slot named. */
  predicate Shows(d: Document, rows: map<Slot, Val>) { forall k | k in rows :: k in d.rows && d.rows[k] == rows[k] }

  /** Nobody has forced an election, and this owner leads, finished with its promotion. */
  predicate Leads(d: Document, o: E.Owner) {
    && Shows(d, map[LEADERSHIP := Leader(o.owner, o.epoch, o.epoch, true, true), FORCE_REQUEST := Free])
    && 1 <= o.epoch <= E.MAX_GENERATION
  }

  /** A commit guards every row but the ones it writes and the election rows, and no others. */
  predicate Guarded(p: Plan, d: Document) {
    p.kind.Commit? ==>
      && Shows(d, p.rest)
      && forall k | k in d.rows && k !in {SETTINGS, SUMMARY, REGISTRY, LEADERSHIP, FORCE_REQUEST} && !k.CATALOGUE? :: k in p.rest
  }

  /** A plan is READY exactly when the document is the one it was made for: the same identity and
      header, led by its owner, and showing every row that it protects, guards or replaces. */
  lemma ReadyExactly(p: Plan, d: Document)
    requires Valid(p)
    ensures Evaluate(p, d).READY? <==>
      && d.binding == p.binding && d.header == p.header && Leads(d, p.owner)
      && Shows(d, p.protected) && Guarded(p, d) && Shows(d, p.before)
  {
    if p.kind.Commit? { RestIs(p, d); }
    if Shows(d, p.before) { Replaces(p, d); }
  }

  lemma RestIs(p: Plan, d: Document)
    requires Valid(p) && p.kind.Commit?
    ensures Rest(d) == p.rest <==> Guarded(p, d)
  {
    if Guarded(p, d) { assert Rest(d).Keys == p.rest.Keys; }
  }

  /** A valid plan changes something. */
  lemma Replaces(p: Plan, d: Document)
    requires Valid(p) && Shows(d, p.before)
    ensures !Agrees(d.rows, p.after)
  {
    match p.kind
    case Effect(_, _) => assert SUMMARY in p.after && d.rows[SUMMARY] == p.before[SUMMARY];
    case Enter(_) => assert SETTINGS in p.after && d.rows[SETTINGS] == p.before[SETTINGS];
    case Commit(_) => assert SETTINGS in p.after && d.rows[SETTINGS] == p.before[SETTINGS];
  }

  /** It is CONFIRMED exactly when the document shows what it writes, whatever else it protects. */
  lemma ConfirmedExactly(p: Plan, d: Document)
    requires Valid(p)
    ensures Evaluate(p, d).CONFIRMED? <==>
      d.binding == p.binding && d.header == p.header && Guarded(p, d) && Shows(d, p.after)
  {
    if p.kind.Commit? { RestIs(p, d); }
  }

  /** And SUPERSEDED exactly when all that could still be wrong, or right, is judged for another owner. */
  lemma SupersededExactly(p: Plan, d: Document)
    requires Valid(p)
    ensures Evaluate(p, d).SUPERSEDED? <==>
      && d.binding == p.binding && d.header == p.header && Guarded(p, d) && !Shows(d, p.after)
      && (p.kind.Enter? ==> Shows(d, p.protected)) && !Leads(d, p.owner)
  {
    if p.kind.Commit? { RestIs(p, d); }
  }

  /** A READY effect is a mutation that the ledger accepts from the present document: its own
      configuration, its own summary row. */
  lemma ReadyIsMutation(p: Plan, d: Document)
    requires Valid(p) && p.kind.Effect? && Evaluate(p, d).READY?
    ensures var t := Evaluate(p, d).document;
      && SettingsRow(d.rows) && SummaryRow(d.rows) && SummaryRow(t.rows)
      && E.Valid(p.kind.purpose, Config(d), d.rows[SUMMARY].row, t.rows[SUMMARY].row, p.owner, p.kind.keys)
  {
    assert SUMMARY in p.before && SUMMARY in p.after && SETTINGS in p.protected;
  }

  /** Only the election rows differ. */
  predicate SameButOwner(d: Document, t: Document) {
    && t.binding == d.binding && t.header == d.header && t.rows.Keys == d.rows.Keys
    && forall k | k in d.rows && k != LEADERSHIP && k != FORCE_REQUEST :: t.rows[k] == d.rows[k]
  }

  /** Whether a plan is confirmed does not depend on who owns the document now. */
  lemma ConfirmedForAnyOwner(p: Plan, d: Document, t: Document)
    requires Valid(p) && SameButOwner(d, t)
    ensures Evaluate(p, d) == CONFIRMED <==> Evaluate(p, t) == CONFIRMED
  {
    assert Rest(d) == Rest(t);
    assert Agrees(d.rows, p.after) <==> Agrees(t.rows, p.after) by {
      assert forall k | k in p.after :: k != LEADERSHIP && k != FORCE_REQUEST;
    }
  }

  /** Another owner can never apply it. */
  lemma ReadyOnlyForItsOwner(p: Plan, d: Document)
    requires Evaluate(p, d).READY?
    ensures Owns(d, p.owner) && forall o :: Owns(d, o) ==> o == p.owner
  {}

  // ---- Runs -------------------------------------------------------------------------------------------

  /** Elections change the election rows; other publications leave the effect evidence and, once
      there is a configuration, the settings alone. */
  datatype Step = Apply(plan: Plan) | Elect(leader: Val, force: Val) | Publish(changes: map<Slot, Val>)

  ghost predicate Enabled(d: Document, step: Step) {
    match step
    case Apply(p) => Valid(p) && Evaluate(p, d).READY?
    case Elect(_, _) => LEADERSHIP in d.rows && FORCE_REQUEST in d.rows
    case Publish(changes) =>
      && changes.Keys <= d.rows.Keys && LEADERSHIP !in changes && FORCE_REQUEST !in changes
      && (Config(d).Some? ==> Config(d).value.phase.ACTIVE? && SETTINGS !in changes && REGISTRY !in changes)
      && (SETTINGS in changes ==> changes[SETTINGS].Settings? && changes[SETTINGS].config.None?)
      && (SUMMARY in changes ==> Ledger(d).None? && changes[SUMMARY].Summary? && changes[SUMMARY].row.ledger.None?)
  }

  function Next(d: Document, step: Step): Document {
    match step
    case Apply(p) => if Evaluate(p, d).READY? then Evaluate(p, d).document else d
    case Elect(leader, force) => d.(rows := d.rows[LEADERSHIP := leader][FORCE_REQUEST := force])
    case Publish(changes) => Updated(d, changes)
  }

  ghost predicate Run(d: Document, steps: seq<Step>, t: Document)
    decreases |steps|
  {
    if steps == [] then t == d else Enabled(d, steps[0]) && Run(Next(d, steps[0]), steps[1..], t)
  }

  /** Where a run stood before its n-th step. */
  lemma {:induction false} RunAt(d: Document, steps: seq<Step>, t: Document, n: nat) returns (m: Document)
    requires Run(d, steps, t) && n < |steps|
    ensures Run(d, steps[..n], m) && Enabled(m, steps[n]) && Run(Next(m, steps[n]), steps[n + 1..], t)
    decreases |steps|
  {
    if n == 0 {
      m := d;
    } else {
      m := RunAt(Next(d, steps[0]), steps[1..], t, n - 1);
      assert steps[1..][..n - 1] == steps[..n][1..] && steps[1..][n..] == steps[n + 1..] && steps[..n][0] == steps[0];
    }
  }

  /** The phase in which a mutation of this purpose may be applied, and the transition it is for. */
  predicate InPhase(purpose: E.Purpose, config: Option<E.Marker>, l: Option<E.Ledger>) {
    match purpose
    case START | INITIALIZE => config.Some? ==> config.value.phase == E.ACTIVE
    case FINISH => true
    case _ =>
      && config.Some? && config.value.phase == E.MAINTENANCE && l.Some? && l.value.barrier.Some?
      && l.value.barrier.value.transition == config.value.transition
  }

  /** In every run each effect that was applied was, at that moment, a mutation that the ledger accepts:
      no ordinary effect is started in maintenance, and no move is started, settled or cancelled outside it. */
  lemma EffectsInPhase(d: Document, steps: seq<Step>, t: Document, n: nat) returns (m: Document)
    requires Run(d, steps, t) && n < |steps| && steps[n].Apply? && steps[n].plan.kind.Effect?
    ensures Run(d, steps[..n], m) && Run(Next(m, steps[n]), steps[n + 1..], t)
    ensures var p := steps[n].plan;
      && Leads(m, p.owner) && SummaryRow(m.rows) && SummaryRow(Next(m, steps[n]).rows)
      && InPhase(p.kind.purpose, Config(m), Ledger(m))
      && E.Valid(p.kind.purpose, Config(m), m.rows[SUMMARY].row, Next(m, steps[n]).rows[SUMMARY].row, p.owner, p.kind.keys)
  {
    m := RunAt(d, steps, t, n);
    var p := steps[n].plan;
    ReadyIsMutation(p, m);
    ReadyExactly(p, m);
    AcceptedInPhase(p.kind.purpose, Config(m), m.rows[SUMMARY].row, Next(m, steps[n]).rows[SUMMARY].row, p.owner, p.kind.keys);
  }

  lemma AcceptedInPhase(purpose: E.Purpose, config: Option<E.Marker>, before: E.Row, after: E.Row, owner: E.Owner, keys: set<nat>)
    requires E.Valid(purpose, config, before, after, owner, keys)
    ensures InPhase(purpose, config, before.ledger)
  {}

  predicate Shaped(d: Document) { SettingsRow(d.rows) && SummaryRow(d.rows) && E.RowOk(d.rows[SUMMARY].row) }

  function Revision(d: Document): nat { if Config(d).Some? then Config(d).value.revision else 0 }

  function Generation(d: Document): nat { if SummaryRow(d.rows) then d.rows[SUMMARY].row.generation else 0 }

  /** The configuration stays, or takes the one next phase at the one next revision. */
  predicate Progresses(a: Option<E.Marker>, b: Option<E.Marker>) {
    || b == a
    || (b.Some? && b.value.revision == (if a.None? then 1 else a.value.revision + 1)
        && b.value.phase.MAINTENANCE? == (a.None? || a.value.phase.ACTIVE?)
        && (if b.value.phase.ACTIVE? then a.value.transition == b.value.transition
            else a.None? || a.value.transition != b.value.transition))
  }

  /** The evidence only grows: a ledger is never dropped and its row's generation never falls. */
  predicate EvidenceGrows(a: Document, b: Document) {
    Ledger(a).None? || (
      && Ledger(b).Some? && Generation(a) <= Generation(b)
      && (Generation(a) == Generation(b) ==> a.rows[SUMMARY] == b.rows[SUMMARY])
      && forall x | x in Ledger(a).value.entries :: x in Ledger(b).value.entries)
  }

  lemma EffectProgresses(d: Document, p: Plan)
    requires Shaped(d) && Valid(p) && Evaluate(p, d).READY? && p.kind.Effect?
    ensures var t := Evaluate(p, d).document;
      Shaped(t) && Config(t) == Config(d) && EvidenceGrows(d, t) && Ledger(t).Some?
      && (Ledger(d).Some? ==> Generation(t) == Generation(d) + 1)
  {
    assert forall k | k in p.before :: k in p.after;
    E.MutationKeeps(p.kind.purpose, p.protected[SETTINGS].config, p.before[SUMMARY].row, p.after[SUMMARY].row, p.owner, p.kind.keys);
  }

  lemma EnterProgresses(d: Document, p: Plan)
    requires Shaped(d) && Valid(p) && Evaluate(p, d).READY? && p.kind.Enter?
    ensures var t := Evaluate(p, d).document;
      Shaped(t) && Progresses(Config(d), Config(t)) && Config(t).Some? && Revision(t) == Revision(d) + 1
      && Config(t).value.phase.MAINTENANCE? && EvidenceGrows(d, t)
  {
    var t := Evaluate(p, d).document;
    assert t.rows[SETTINGS] == p.after[SETTINGS] && d.rows[SETTINGS] == p.before[SETTINGS];
    if SUMMARY in p.after {
      assert t.rows[SUMMARY] == p.after[SUMMARY] && d.rows[SUMMARY] == p.before[SUMMARY];
      ChangedRowOk(p.before[SUMMARY].row, p.after[SUMMARY].row.ledger.value);
    }
  }

  lemma ChangedRowOk(r: E.Row, l: E.Ledger)
    requires E.LedgerOk(l)
    ensures E.RowOk(E.ChangedRow(r, l))
  {}

  lemma CommitProgresses(d: Document, p: Plan)
    requires Shaped(d) && Valid(p) && Evaluate(p, d).READY? && p.kind.Commit?
    ensures var t := Evaluate(p, d).document;
      Shaped(t) && Progresses(Config(d), Config(t)) && Config(t).Some? && Revision(t) == Revision(d) + 1
      && Config(t).value.phase.ACTIVE? && EvidenceGrows(d, t)
  {
    var t := Evaluate(p, d).document;
    assert t.rows[SETTINGS] == p.after[SETTINGS] && d.rows[SETTINGS] == p.before[SETTINGS];
    assert t.rows[SUMMARY] == p.after[SUMMARY] && d.rows[SUMMARY] == p.before[SUMMARY];
    ChangedRowOk(p.before[SUMMARY].row, p.after[SUMMARY].row.ledger.value);
  }

  lemma ApplyProgresses(d: Document, p: Plan)
    requires Shaped(d) && Valid(p) && Evaluate(p, d).READY?
    ensures var t := Evaluate(p, d).document;
      Shaped(t) && Progresses(Config(d), Config(t)) && EvidenceGrows(d, t)
  {
    if p.kind.Effect? {
      EffectProgresses(d, p);
    } else if p.kind.Enter? {
      EnterProgresses(d, p);
    } else {
      CommitProgresses(d, p);
    }
  }

  lemma StepProgresses(d: Document, step: Step)
    requires Shaped(d) && Enabled(d, step)
    ensures Shaped(Next(d, step)) && Progresses(Config(d), Config(Next(d, step))) && EvidenceGrows(d, Next(d, step))
  {
    match step
    case Apply(p) => ApplyProgresses(d, p);
    case Elect(_, _) =>
    case Publish(_) =>
  }

  lemma {:induction false} RunShaped(d: Document, steps: seq<Step>, t: Document)
    requires Shaped(d) && Run(d, steps, t)
    ensures Shaped(t) && EvidenceGrows(d, t)
    decreases |steps|
  {
    if steps != [] {
      StepProgresses(d, steps[0]);
      RunShaped(Next(d, steps[0]), steps[1..], t);
    }
  }

  predicate Later(a: Option<E.Marker>, b: Option<E.Marker>) {
    a.None? || (b.Some? && a.value.revision <= b.value.revision
                && (a.value.revision == b.value.revision ==> a == b)
                && (a.value.phase == b.value.phase <==> (b.value.revision - a.value.revision) % 2 == 0))
  }

  lemma LaterOn(a: Option<E.Marker>, b: Option<E.Marker>, c: Option<E.Marker>)
    requires Progresses(a, b) && Later(b, c)
    ensures Later(a, c)
  {}

  /** Over a run revisions never fall; while one stands the whole marker stands; each new one is
      one change of phase, so its parity tells the phase. */
  lemma {:induction false} RunProgresses(d: Document, steps: seq<Step>, t: Document)
    requires Shaped(d) && Run(d, steps, t)
    ensures Later(Config(d), Config(t))
    decreases |steps|
  {
    if steps != [] {
      StepProgresses(d, steps[0]);
      RunProgresses(Next(d, steps[0]), steps[1..], t);
      LaterOn(Config(d), Config(Next(d, steps[0])), Config(t));
    }
  }

  /** `require_dispatch`. */
  predicate DispatchAllowed(d: Document, expected: Option<nat>) {
    match Config(d)
    case None => expected.None?
    case Some(c) => c.phase.ACTIVE? && expected == Some(c.revision)
  }

  /** A saved dispatch revision is good for one uninterrupted period: if it is accepted before and
      after a stretch of any run, it is accepted throughout, under one and the same marker. */
  lemma OneActivePeriod(d: Document, p: seq<Step>, m: Document, q: seq<Step>, t: Document, expected: Option<nat>)
    requires Shaped(d) && Run(d, p, m) && Run(m, q, t)
    requires DispatchAllowed(d, expected) && DispatchAllowed(t, expected)
    ensures DispatchAllowed(m, expected) && Config(m) == Config(d) == Config(t)
  {
    RunShaped(d, p, m);
    RunProgresses(d, p, m);
    RunProgresses(m, q, t);
  }

  lemma NeedsItsRows(p: Plan, d: Document, k: Slot)
    requires Valid(p) && Evaluate(p, d).READY? && k in p.after
    ensures k in p.before && k in d.rows && d.rows[k] == p.before[k]
  {}

  lemma EffectAppliesOnce(d: Document, p: Plan, steps: seq<Step>, t: Document)
    requires Shaped(d) && Valid(p) && p.kind.Effect? && Evaluate(p, d).READY? && Run(Evaluate(p, d).document, steps, t)
    ensures !Evaluate(p, t).READY?
  {
    EffectProgresses(d, p);
    RunShaped(Evaluate(p, d).document, steps, t);
    NeedsItsRows(p, d, SUMMARY);
    if Evaluate(p, t).READY? { NeedsItsRows(p, t, SUMMARY); }
  }

  /** Once applied, a plan is never READY again, whoever evaluates it and whatever happened since. */
  lemma AppliesOnce(d: Document, p: Plan, steps: seq<Step>, t: Document)
    requires Shaped(d) && Valid(p) && Evaluate(p, d).READY? && Run(Evaluate(p, d).document, steps, t)
    ensures !Evaluate(p, t).READY?
  {
    if p.kind.Effect? {
      EffectAppliesOnce(d, p, steps, t);
    } else {
      if p.kind.Enter? { EnterProgresses(d, p); } else { CommitProgresses(d, p); }
      RunProgresses(Evaluate(p, d).document, steps, t);
      NeedsItsRows(p, d, SETTINGS);
      if Evaluate(p, t).READY? { NeedsItsRows(p, t, SETTINGS); }
    }
  }

  /** Configuration cannot become ACTIVE while any effect is UNKNOWN, and only with the receipt of
      the last root move. */
  lemma CommitNeedsReceipts(d: Document, p: Plan)
    requires Shaped(d) && Valid(p) && p.kind.Commit? && Evaluate(p, d).READY?
    ensures Ledger(d).Some? && !E.SomeUnknown(Ledger(d).value) && Config(d).Some? && Config(d).value.phase.MAINTENANCE?
    ensures var l := Ledger(d).value;
      E.IDENTITY in l.entries && l.entries[E.IDENTITY].outcome.COMPLETE?
      && l.entries[E.IDENTITY].operation == E.RootMove(Config(d).value.transition, p.kind.authority)
  {
    assert SUMMARY in p.before && SETTINGS in p.before;
  }
}
