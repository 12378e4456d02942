/** What plans can turn a document into, stated on its rows: exactly these changes, and no others. */
module PlanRules {
  import opened Basics
  import E = EffectLedger
  import opened Plans

  /** Only these rows may differ. */
  predicate Keeps(d: Document, t: Document, written: set<Slot>) {
    && t.binding == d.binding && t.header == d.header && t.rows.Keys == d.rows.Keys
    && forall k | k in d.rows && k !in written :: t.rows[k] == d.rows[k]
  }

  function Rows(d: Document, slots: set<Slot>): (r: map<Slot, Val>)
    requires slots <= d.rows.Keys
    ensures r.Keys == slots
  {
    map k | k in slots :: d.rows[k]
  }

  /** The plan that replaces these rows of one document by those of another. */
  function Replacing(kind: Kind, d: Document, t: Document, o: E.Owner, protected: map<Slot, Val>, written: set<Slot>, rest: map<Slot, Val>): Plan
    requires written <= d.rows.Keys && t.rows.Keys == d.rows.Keys
  {
    Plan(kind, d.binding, d.header, o, protected, Rows(d, written), Rows(t, written), rest)
  }

  ghost predicate Turns(kind: Kind, d: Document, t: Document, o: E.Owner) {
    exists p :: Valid(p) && p.kind == kind && p.owner == o && Evaluate(p, d) == READY(t)
  }

  lemma ReplacingTurns(kind: Kind, d: Document, t: Document, o: E.Owner, protected: map<Slot, Val>, written: set<Slot>, rest: map<Slot, Val>)
    requires written <= d.rows.Keys && Keeps(d, t, written) && Shows(d, protected) && Leads(d, o)
    requires var p := Replacing(kind, d, t, o, protected, written, rest); Valid(p) && Guarded(p, d)
    ensures Turns(kind, d, t, o)
  {
    var p := Replacing(kind, d, t, o, protected, written, rest);
    ReadyExactly(p, d);
    assert Updated(d, p.after).rows == t.rows;
    assert Evaluate(p, d) == READY(t);
  }

  lemma TurnedOnly(p: Plan, d: Document, t: Document)
    requires Valid(p) && Evaluate(p, d) == READY(t)
    ensures Keeps(d, t, p.after.Keys) && Leads(d, p.owner) && Shows(d, p.before) && Shows(d, p.protected) && Shows(t, p.after)
  {
    ReadyIsExact(p, d);
    ReadyExactly(p, d);
  }

  // ---- Effects ------------------------------------------------------------------------------------------

  /** The summary row alone changes, by a mutation that the ledger accepts from the present configuration. */
  ghost predicate EffectChange(purpose: E.Purpose, keys: set<nat>, d: Document, t: Document, o: E.Owner) {
    && Leads(d, o) && SettingsRow(d.rows) && SummaryRow(d.rows) && SummaryRow(t.rows) && Keeps(d, t, {SUMMARY})
    && E.Valid(purpose, Config(d), d.rows[SUMMARY].row, t.rows[SUMMARY].row, o, keys)
  }

  lemma EffectFound(p: Plan, d: Document, t: Document)
    requires Valid(p) && p.kind.Effect? && Evaluate(p, d) == READY(t)
    ensures EffectChange(p.kind.purpose, p.kind.keys, d, t, p.owner)
  {
    TurnedOnly(p, d, t);
    ReadyIsMutation(p, d);
  }

  lemma EffectIsValid(purpose: E.Purpose, keys: set<nat>, d: Document, t: Document, o: E.Owner)
    requires EffectChange(purpose, keys, d, t, o)
    ensures Valid(Replacing(Effect(purpose, keys), d, t, o, map[SETTINGS := d.rows[SETTINGS]], {SUMMARY}, map[]))
  {}

  lemma EffectExactly(purpose: E.Purpose, keys: set<nat>, d: Document, t: Document, o: E.Owner)
    ensures Turns(Effect(purpose, keys), d, t, o) <==> EffectChange(purpose, keys, d, t, o)
  {
    if p :| Valid(p) && p.kind == Effect(purpose, keys) && p.owner == o && Evaluate(p, d) == READY(t) { EffectFound(p, d, t); }
    if EffectChange(purpose, keys, d, t, o) {
      EffectIsValid(purpose, keys, d, t, o);
      ReplacingTurns(Effect(purpose, keys), d, t, o, map[SETTINGS := d.rows[SETTINGS]], {SUMMARY}, map[]);
    }
  }

  // ---- Entering maintenance --------------------------------------------------------------------------------

  /** The same evidence, one generation on, behind a barrier of this owner. */
  predicate Barred(a: E.Row, b: E.Row, o: E.Owner, transition: nat) {
    && a.ledger.Some? && E.RowOk(a) && b.ledger.Some?
    && var l, m := a.ledger.value, b.ledger.value;
       && b == E.Row(a.generation + 1, if exists x :: x in l.entries && l.entries[x].outcome == E.UNKNOWN then E.HELD else E.RETAINED, Some(m), Some(m))
       && m == l.(barrier := m.barrier) && m.barrier.Some?
       && m.barrier.value.transition == transition && m.barrier.value.owner == o.owner && m.barrier.value.epoch == o.epoch
  }

  /** Out of no configuration, or an ACTIVE one of another transition, into the next revision's
      maintenance; the settings stay otherwise, and the evidence is at most barred. */
  predicate EnterChange(transition: nat, d: Document, t: Document, o: E.Owner) {
    && Leads(d, o) && Keeps(d, t, {SETTINGS, SUMMARY}) && SettingsRow(d.rows)
    && (Config(d).Some? ==> Config(d).value.phase == E.ACTIVE && Config(d).value.transition != transition)
    && t.rows[SETTINGS] == d.rows[SETTINGS].(config := Some(E.Marker(Revision(d) + 1, E.MAINTENANCE, transition)))
    && (SUMMARY in d.rows && t.rows[SUMMARY] != d.rows[SUMMARY] ==>
          && d.rows[SUMMARY].Summary? && t.rows[SUMMARY].Summary?
          && Barred(d.rows[SUMMARY].row, t.rows[SUMMARY].row, o, transition))
  }

  lemma BarredIs(a: E.Row, b: E.Row, o: E.Owner, transition: nat)
    ensures BarrierOnly(a, b, o, transition) <==> Barred(a, b, o, transition)
  {
    if a.ledger.Some? && b.ledger.Some? && b.ledger.value.barrier.Some? {
      var l := a.ledger.value;
      assert E.SomeUnknown(l) <==> exists x :: x in l.entries && l.entries[x].outcome == E.UNKNOWN;
      assert E.SomeUnknown(l.(barrier := b.ledger.value.barrier)) <==> E.SomeUnknown(l);
    }
  }

  lemma EnterRows(p: Plan)
    requires Valid(p) && p.kind.Enter?
    ensures p.before.Keys == p.after.Keys && SETTINGS in p.after && p.after.Keys <= {SETTINGS, SUMMARY}
    ensures EntersMaintenance(p.before[SETTINGS], p.after[SETTINGS], p.kind.transition)
    ensures SUMMARY in p.after ==> SummaryRow(p.before) && SummaryRow(p.after)
                                   && BarrierOnly(p.before[SUMMARY].row, p.after[SUMMARY].row, p.owner, p.kind.transition)
  {}

  lemma EnterFound(d: Document, t: Document, o: E.Owner, transition: nat, before: map<Slot, Val>, after: map<Slot, Val>)
    requires Leads(d, o) && Keeps(d, t, after.Keys) && Shows(d, before) && Shows(t, after) && before.Keys == after.Keys
    requires SETTINGS in after && after.Keys <= {SETTINGS, SUMMARY} && EntersMaintenance(before[SETTINGS], after[SETTINGS], transition)
    requires SUMMARY in after ==>
      SummaryRow(before) && SummaryRow(after) && BarrierOnly(before[SUMMARY].row, after[SUMMARY].row, o, transition)
    ensures EnterChange(transition, d, t, o)
  {
    if SUMMARY in after { BarredIs(before[SUMMARY].row, after[SUMMARY].row, o, transition); }
  }

  lemma EnterIsValid(transition: nat, d: Document, t: Document, o: E.Owner, written: set<Slot>)
    requires EnterChange(transition, d, t, o) && written <= d.rows.Keys
    requires written == if SUMMARY in d.rows && t.rows[SUMMARY] != d.rows[SUMMARY] then {SETTINGS, SUMMARY} else {SETTINGS}
    ensures Valid(Replacing(Enter(transition), d, t, o, map[], written, map[]))
  {
    if SUMMARY in written { BarredIs(d.rows[SUMMARY].row, t.rows[SUMMARY].row, o, transition); }
  }

  lemma EnterExactly(transition: nat, d: Document, t: Document, o: E.Owner)
    ensures Turns(Enter(transition), d, t, o) <==> EnterChange(transition, d, t, o)
  {
    if p :| Valid(p) && p.kind == Enter(transition) && p.owner == o && Evaluate(p, d) == READY(t) {
      TurnedOnly(p, d, t);
      EnterRows(p);
      EnterFound(d, t, o, transition, p.before, p.after);
    }
    if EnterChange(transition, d, t, o) {
      var written := if SUMMARY in d.rows && t.rows[SUMMARY] != d.rows[SUMMARY] then {SETTINGS, SUMMARY} else {SETTINGS};
      EnterIsValid(transition, d, t, o, written);
      ReplacingTurns(Enter(transition), d, t, o, map[], written, map[]);
    }
  }

  // ---- Commits ------------------------------------------------------------------------------------------------

  /** The move of this transition is complete and cleared: nothing is UNKNOWN, the barrier is the
      transition's and cleared, and the last receipt is that of the authority itself. */
  predicate MoveDone(l: E.Ledger, transition: nat, authority: nat) {
    && (forall x | x in l.entries :: l.entries[x].outcome != E.UNKNOWN)
    && l.barrier.Some? && l.barrier.value.transition == transition && l.barrier.value.localClear
    && l.rootPlan.Some? && l.rootPlan.value.transition == transition
    && E.IDENTITY in l.entries && l.entries[E.IDENTITY].outcome == E.COMPLETE
    && l.entries[E.IDENTITY].operation == E.RootMove(transition, authority)
  }

  function Written(d: Document): set<Slot> { CONTROLLED + set k | k in d.rows && k.CATALOGUE? }

  /** Out of maintenance, once its move is done, into the next revision of the same transition; only
      the root plan is dropped from the evidence, and only settings, registry and catalogues are rewritten. */
  predicate CommitChange(authority: nat, d: Document, t: Document, o: E.Owner) {
    && Leads(d, o) && Keeps(d, t, Written(d)) && CONTROLLED <= d.rows.Keys && SettingsRow(d.rows) && SettingsRow(t.rows)
    && Config(d).Some? && Config(d).value.phase == E.MAINTENANCE
    && Config(t) == Some(E.Marker(Config(d).value.revision + 1, E.ACTIVE, Config(d).value.transition))
    && SummaryRow(d.rows) && SummaryRow(t.rows)
    && var a, b := d.rows[SUMMARY].row, t.rows[SUMMARY].row;
       && a.ledger.Some? && E.RowOk(a) && MoveDone(a.ledger.value, Config(d).value.transition, authority)
       && var l := Some(a.ledger.value.(rootPlan := None)); b == E.Row(a.generation + 1, E.RETAINED, l, l)
  }

  lemma ConsumedIs(a: E.Row, b: E.Row, transition: nat, authority: nat)
    ensures Consumed(a, b, transition, authority) <==>
      && a.ledger.Some? && E.RowOk(a) && MoveDone(a.ledger.value, transition, authority)
      && var l := Some(a.ledger.value.(rootPlan := None)); b == E.Row(a.generation + 1, E.RETAINED, l, l)
  {
    if a.ledger.Some? {
      var l := a.ledger.value;
      assert E.SomeUnknown(l) <==> exists x :: x in l.entries && l.entries[x].outcome == E.UNKNOWN;
      assert E.SomeUnknown(l.(rootPlan := None)) <==> E.SomeUnknown(l);
    }
  }

  lemma CommitRows(p: Plan)
    requires Valid(p) && p.kind.Commit?
    ensures p.before.Keys == p.after.Keys && CONTROLLED <= p.after.Keys && (forall k | k in p.after :: k in CONTROLLED || k.CATALOGUE?)
    ensures BecomesActive(p.before[SETTINGS], p.after[SETTINGS]) && SummaryRow(p.before) && SummaryRow(p.after)
    ensures Consumed(p.before[SUMMARY].row, p.after[SUMMARY].row, p.before[SETTINGS].config.value.transition, p.kind.authority)
  {
    assert SETTINGS in CONTROLLED && SUMMARY in CONTROLLED;
  }

  lemma CommitFound(d: Document, t: Document, o: E.Owner, authority: nat, before: map<Slot, Val>, after: map<Slot, Val>)
    requires Leads(d, o) && Keeps(d, t, after.Keys) && Shows(d, before) && Shows(t, after) && before.Keys == after.Keys
    requires CONTROLLED <= after.Keys && (forall k | k in after :: k in CONTROLLED || k.CATALOGUE?)
    requires SETTINGS in after && BecomesActive(before[SETTINGS], after[SETTINGS]) && SummaryRow(before) && SummaryRow(after)
    requires Consumed(before[SUMMARY].row, after[SUMMARY].row, before[SETTINGS].config.value.transition, authority)
    ensures CommitChange(authority, d, t, o)
  {
    ConsumedIs(before[SUMMARY].row, after[SUMMARY].row, before[SETTINGS].config.value.transition, authority);
    assert after.Keys <= Written(d);
  }

  lemma CommitIsValid(authority: nat, d: Document, t: Document, o: E.Owner)
    requires CommitChange(authority, d, t, o)
    ensures Written(d) <= d.rows.Keys
    ensures var p := Replacing(Commit(authority), d, t, o, map[], Written(d), Rest(d)); Valid(p) && Guarded(p, d)
  {
    ConsumedIs(d.rows[SUMMARY].row, t.rows[SUMMARY].row, Config(d).value.transition, authority);
  }

  lemma CommitExactly(authority: nat, d: Document, t: Document, o: E.Owner)
    ensures Turns(Commit(authority), d, t, o) <==> CommitChange(authority, d, t, o)
  {
    if p :| Valid(p) && p.kind == Commit(authority) && p.owner == o && Evaluate(p, d) == READY(t) {
      TurnedOnly(p, d, t);
      CommitRows(p);
      CommitFound(d, t, o, authority, p.before, p.after);
    }
    if CommitChange(authority, d, t, o) {
      CommitIsValid(authority, d, t, o);
      ReplacingTurns(Commit(authority), d, t, o, map[], Written(d), Rest(d));
    }
  }

  // ---- Over runs ------------------------------------------------------------------------------------------------

  ghost predicate Change(kind: Kind, d: Document, t: Document, o: E.Owner) {
    match kind
    case Effect(purpose, keys) => EffectChange(purpose, keys, d, t, o)
    case Enter(transition) => EnterChange(transition, d, t, o)
    case Commit(authority) => CommitChange(authority, d, t, o)
  }

  /** In every run each plan that was applied made one of these changes, to the document as it stood
      at that moment, led by the plan's owner. */
  lemma AppliedChange(d: Document, steps: seq<Step>, t: Document, n: nat) returns (m: Document)
    requires Run(d, steps, t) && n < |steps| && steps[n].Apply?
    ensures Run(d, steps[..n], m) && Run(Next(m, steps[n]), steps[n + 1..], t)
    ensures Change(steps[n].plan.kind, m, Next(m, steps[n]), steps[n].plan.owner)
  {
    m := RunAt(d, steps, t, n);
    var p, u := steps[n].plan, Next(m, steps[n]);
    assert Valid(p) && Evaluate(p, m) == READY(u);
    match p.kind
    case Effect(purpose, keys) => EffectExactly(purpose, keys, m, u, p.owner);
    case Enter(transition) => EnterExactly(transition, m, u, p.owner);
    case Commit(authority) => CommitExactly(authority, m, u, p.owner);
  }

  /** Dispatch is admitted exactly outside maintenance, and by whoever saved the very revision that is
      in force, if there is one; so nothing is dispatched between entering and committing. */
  lemma DispatchExactly(d: Document, expected: Option<nat>)
    ensures DispatchAllowed(d, expected) <==>
      (Config(d).Some? ==> Config(d).value.phase != E.MAINTENANCE) && expected == if Config(d).Some? then Some(Revision(d)) else None
  {}
}
