/** What a COMPLETE receipt proves, given that two objects of one device share a catalogue row. */
module RootReceipts {
  import opened Basics
  import opened RootProtocol
  import opened RootOrder
  import opened RootPrefix
  import opened RootRuns

  /** A COMPLETE receipt names an object that has moved. */
  predicate Truthful(k: World) {
    k.ledger.entry.Some? && k.ledger.entry.value.operation.Move? && k.ledger.entry.value.outcome == COMPLETE ==>
      k.ledger.entry.value.operation.index in k.moved
  }

  /** No two objects to be moved are bound by the same catalogue row. */
  predicate DistinctSlots(g: Config)
    requires Configured(g)
  {
    forall i: nat, j: nat | i < j < g.count :: g.slots[i] != g.slots[j]
  }

  lemma ReachableOrdered(g: Config, t: State, rules: Rules)
    requires Reachable(g, t, rules)
    ensures Ordered(g, t)
  {
    var s, steps :| Initially(g, s) && Leads(g, s, steps, t, rules);
    InitiallyOrdered(g, s);
    RunKeeps(g, s, steps, t);
  }

  // ---- Where receipts are true ---------------------------------------------------------------

  lemma MovedWithin(g: Config, k: World, i: nat)
    requires WorldOk(g, k) && i in k.moved
    ensures i < g.count
  {
    assert HasSend(k, i);
    var n :| 0 <= n < |k.sends| && k.sends[n].index == i;
    assert ShipmentOk(g, k, k.sends[n]);
  }

  /** A settlement that is current, or cannot be mistaken, marks a moved object. */
  lemma SettledMoved(g: Config, s: State, step: Step, rules: Rules)
    requires Configured(g) && Ordered(g, s) && step.SettleCas? && SharedReady(g, s, step) && Current(g, s, step, rules)
    requires rules.settles || DistinctSlots(g)
    ensures s.world.ledger.entry.value.operation.index in s.world.moved
  {
    var k := s.world;
    assert Settlement(step.actor, step.index) in k.settlements && RootOrder.EntryOk(g, k);
    MovedWithin(g, k, step.index);
  }

  lemma FinishedMoved(g: Config, s: State, step: Step)
    requires Ordered(g, s) && step.FinishCas? && SharedReady(g, s, step)
    ensures s.calls[step.id].frame.index in s.world.moved
  {
    assert CallOk(g, s.world, s.calls[step.id]);
  }

  lemma SharedKeepsTruth(g: Config, s: State, step: Step, rules: Rules)
    requires Configured(g) && Ordered(g, s) && IsShared(step) && SharedReady(g, s, step) && Truthful(s.world)
    requires Current(g, s, step, rules) && (rules.settles || DistinctSlots(g))
    ensures Truthful(ApplyShared(g, s, step).world)
  {
    if step.SettleCas? {
      SettledMoved(g, s, step, rules);
    } else if step.FinishCas? {
      FinishedMoved(g, s, step);
    }
  }

  lemma StepKeepsTruth(g: Config, s: State, step: Step, rules: Rules)
    requires Configured(g) && Ordered(g, s) && Enabled(g, s, step) && Current(g, s, step, rules) && Truthful(s.world)
    requires rules.settles || DistinctSlots(g)
    ensures Truthful(Apply(g, s, step).world)
  {
    if IsShared(step) { SharedKeepsTruth(g, s, step, rules); } else { OthersAreLocal(g, s, step); }
  }

  lemma {:induction false} RunKeepsTruth(g: Config, s: State, steps: seq<Step>, t: State, rules: Rules)
    requires Configured(g) && Ordered(g, s) && Leads(g, s, steps, t, rules) && Truthful(s.world)
    requires rules.settles || DistinctSlots(g)
    ensures Truthful(t.world)
    decreases |steps|
  {
    if steps != [] {
      StepKeepsTruth(g, s, steps[0], rules);
      StepKeeps(g, s, steps[0]);
      RunKeepsTruth(g, Apply(g, s, steps[0]), steps[1..], t, rules);
    }
  }

  // ---- Without controllers -----------------------------------------------------------------------

  /** Nothing but takeovers ever happens. */
  predicate Idle(s: State) {
    && s.calls == map[] && s.world.requests == {} && s.world.sends == [] && s.world.armed == {}
    && (s.world.ledger.entry.Some? ==> s.world.ledger.entry.value.operation.Foreign?)
  }

  lemma {:induction false} StaysIdle(g: Config, s: State, steps: seq<Step>, t: State)
    requires g.sites == map[] && Idle(s) && s.world.wals == map[] && Run(g, s, steps, t)
    ensures Idle(t)
    decreases |steps|
  {
    if steps != [] {
      assert steps[0].Takeover?;
      StaysIdle(g, Apply(g, s, steps[0]), steps[1..], t);
    }
  }

  lemma IdleWithoutSites(g: Config, t: State, rules: Rules)
    requires g.sites == map[] && Reachable(g, t, rules)
    ensures Idle(t)
  {
    var s, steps :| Initially(g, s) && Leads(g, s, steps, t, rules);
    assert s.world.wals == map[];
    StaysIdle(g, s, steps, t);
  }

  // ---- A false receipt ------------------------------------------------------------------------------

  /** A settlement inspects the a-th object, whose attempt was left UNKNOWN by an older epoch, and
      then waits.  Another completes that receipt, the move goes on to the b-th object, which is in
      flight when the next epoch begins, and the waiting settlement marks it COMPLETE. */
  lemma FalseReceipt(g: Config, c: nat, a: nat, b: nat, rules: Rules) returns (t: State)
    requires Configured(g) && c in g.sites && a < b < g.count && g.slots[a] == g.slots[b] && !rules.settles
    ensures Reachable(g, t, rules) && Receipt(t.world.ledger, b) && b !in t.world.moved
    ensures |t.world.sends| > 0 && t.world.sends[|t.world.sends| - 1].index == b
  {
    var s := Blank(g);
    var p, u := ReachesRest(g, c, a, rules);
    var q, v := Inherited(g, u, c, a, rules);
    Join(g, s, p, u, q, v, rules);
    var x, w := MovesTo(g, v, c, a + 1, b, rules);
    Join(g, s, p + q, v, x, w, rules);
    t := Mistakes(g, s, p + q + x, w, c, a, b, rules);
  }

  /** The object arrives and its inspection is about to read the receipt when the epoch ends. */
  lemma Inherited(g: Config, s: State, c: nat, a: nat, rules: Rules) returns (steps: seq<Step>, t: State)
    requires AtRest(g, s, c, a) && a < g.count && a in g.slots
    ensures Leads(g, s, steps, t, rules) && AtRest(g, t, c, a + 1) && Settlement(t.world.owner, a) in t.world.settlements
  {
    var p, u := Delivers(g, s, c, a, rules);
    var q, v := Observes(g, u, c, a, rules);
    Join(g, s, p, u, q, v, rules);
    var x, w := SettlesOwn(g, v, a, rules);
    Join(g, s, p + q, v, x, w, rules);
    var y, z := ReadsReceipt(g, w, c, a, u.world.epoch, rules);
    Join(g, s, p + q + x, w, y, z, rules);
    steps, t := p + q + x + y, z;
  }

  /** In the next epoch a settlement inspects the object of the UNKNOWN entry, and one completes it. */
  lemma SettlesOwn(g: Config, s: State, a: nat, rules: Rules) returns (steps: seq<Step>, t: State)
    requires a in g.slots && s.world.ledger.plan.Some? && At(s.world, a, s.world.ledger.plan.value)
    requires Records(s.world.ledger, s.world.owner, s.world.epoch, a, UNKNOWN)
    ensures Leads(g, s, steps, t, rules) && t.calls == s.calls
    ensures t.world == Outcomes(Seized(s.world, s.world.owner), COMPLETE)
                         .(settlements := s.world.settlements + {Settlement(s.world.owner, a)})
  {
    var i := s.world.owner;
    var u := s.(world := Seized(s.world, i));
    var v := u.(world := u.world.(settlements := u.world.settlements + {Settlement(i, a)}));
    OneStep(g, s, Takeover(i), rules);
    OneStep(g, u, SettleWitness(i, a), rules);
    Join(g, s, [Takeover(i)], u, [SettleWitness(i, a)], v, rules);
    steps, t := Then(g, s, [Takeover(i)] + [SettleWitness(i, a)], v, SettleCas(i, a), rules);
  }

  /** The waiting inspection reads a receipt and goes on to the next object. */
  lemma ReadsReceipt(g: Config, s: State, c: nat, a: nat, e: nat, rules: Rules) returns (steps: seq<Step>, t: State)
    requires c in g.sites && c in s.world.wals && s.world.wals[c].staged.Nothing? && Receipt(s.world.ledger, a)
    requires s.world.wals[c].current == Some(With(Base(a), e, INVOKING))
    requires s.calls == map[0 := Observe(c, s.world.wals[c].revision, With(Base(a), e, INVOKING), 2)]
    ensures Leads(g, s, steps, t, rules) && t.calls == map[]
    ensures t.world == s.world.(wals := s.world.wals[c := Wal(s.world.wals[c].revision + 1,
              Some(Base(a + 1)), Some(With(Base(a), e, INVOKING)), Nothing)])
  {
    var p, u := SeesReceipt(g, s, Observe(c, s.world.wals[c].revision, With(Base(a), e, INVOKING), 2), rules);
    var q, v := GoesOn(g, u, c, a, e, rules);
    Join(g, s, p, u, q, v, rules);
    steps, t := p + q, v;
  }

  lemma SeesReceipt(g: Config, s: State, c: Call, rules: Rules) returns (steps: seq<Step>, t: State)
    requires s.calls == map[0 := c] && c.Observe? && c.looks == 2 && Receipt(s.world.ledger, c.frame.index)
    ensures Leads(g, s, steps, t, rules) && t == State(s.world, map[0 := Seen(c, 3)])
  {
    OneStep(g, s, ObserveAfter(0), rules);
    steps, t := [ObserveAfter(0)], Apply(g, s, ObserveAfter(0));
  }

  lemma Mistakes(g: Config, s: State, before: seq<Step>, u: State, c: nat, a: nat, b: nat, rules: Rules) returns (t: State)
    requires Initially(g, s) && Leads(g, s, before, u, rules) && AtRest(g, u, c, b) && b < g.count && !rules.settles
    requires a in g.slots && b in g.slots && g.slots[a] == g.slots[b] && Settlement(u.world.owner, a) in u.world.settlements
    ensures Reachable(g, t, rules) && Receipt(t.world.ledger, b) && b !in t.world.moved
    ensures |t.world.sends| > 0 && t.world.sends[|t.world.sends| - 1].index == b
  {
    var x, w := Ships(g, u, c, b, rules);
    Join(g, s, before, u, x, w, rules);
    var y, z := SettlesOther(g, w, a, b, rules);
    Join(g, s, before + x, w, y, z, rules);
    t := z;
    assert Reachable(g, t, rules);
  }

  lemma ReachesRest(g: Config, c: nat, m: nat, rules: Rules) returns (steps: seq<Step>, t: State)
    requires Configured(g) && c in g.sites && m <= g.count
    ensures Initially(g, Blank(g)) && Leads(g, Blank(g), steps, t, rules) && AtRest(g, t, c, m)
  {
    var p, u := Opening(g, c, rules);
    var q, v := MovesTo(g, u, c, 0, m, rules);
    Join(g, Blank(g), p, u, q, v, rules);
    steps, t := p + q, v;
  }

  lemma SettlesOther(g: Config, s: State, a: nat, b: nat, rules: Rules) returns (steps: seq<Step>, t: State)
    requires !rules.settles && a in g.slots && b in g.slots && g.slots[a] == g.slots[b]
    requires Settlement(s.world.owner, a) in s.world.settlements
    requires Records(s.world.ledger, s.world.owner, s.world.epoch, b, UNKNOWN)
    ensures Leads(g, s, steps, t, rules) && Receipt(t.world.ledger, b)
    ensures t.world.moved == s.world.moved && t.world.sends == s.world.sends
  {
    var x := Takeover(s.world.owner);
    var y := SettleCas(s.world.owner, a);
    var u := Apply(g, s, x);
    t := Apply(g, u, y);
    TwoSteps(g, s, x, u, y, t, rules);
    steps := [x, y];
  }

  // ---- Main results ------------------------------------------------------------------------------------

  /** Over all runs every receipt is true exactly when inherited settlements are current, or no two
      objects share a catalogue row, or there is nobody to move anything. */
  lemma ReceiptsAreTrue(g: Config, rules: Rules)
    requires Configured(g)
    ensures (forall t | Reachable(g, t, rules) :: Truthful(t.world))
      <==> (rules.settles || DistinctSlots(g) || g.sites == map[])
  {
    if rules.settles || DistinctSlots(g) {
      forall t | Reachable(g, t, rules) ensures Truthful(t.world) {
        var s, steps :| Initially(g, s) && Leads(g, s, steps, t, rules);
        InitiallyOrdered(g, s);
        RunKeepsTruth(g, s, steps, t, rules);
      }
    } else if g.sites == map[] {
      forall t | Reachable(g, t, rules) ensures Truthful(t.world) { IdleWithoutSites(g, t, rules); }
    } else {
      var c :| c in g.sites;
      var a: nat, b: nat :| a < b < g.count && g.slots[a] == g.slots[b];
      var t := FalseReceipt(g, c, a, b, rules);
      assert !Truthful(t.world);
    }
  }

  /** There, a receipt of the i-th object proves that every object up to it is at the planned root. */
  lemma ReceiptProvesPrefix(g: Config, t: State, i: nat, rules: Rules)
    requires Configured(g) && Reachable(g, t, rules) && Receipt(t.world.ledger, i)
    requires rules.settles || DistinctSlots(g) || g.sites == map[]
    ensures forall j: nat | j <= i :: j in t.world.moved && t.world.ledger.plan == Some(t.world.moved[j])
  {
    ReceiptsAreTrue(g, rules);
    var s, steps :| Initially(g, s) && Leads(g, s, steps, t, rules);
    OrderedMove(g, s, steps, t);
  }

  /** A false receipt stands until its object moves: whatever happens, nothing is started over it. */
  lemma FalseReceiptBlocks(g: Config, s: State, i: nat, steps: seq<Step>, t: State, rules: Rules)
    requires Reachable(g, s, rules) && Receipt(s.world.ledger, i) && Run(g, s, steps, t) && i !in t.world.moved
    ensures t.world.ledger.entry == s.world.ledger.entry && !StartAllowed(t.world.ledger, i)
  {
    ReachableOrdered(g, s, rules);
    StandsWhileUnmoved(g, s, i, steps, t);
  }

  lemma {:induction false} StandsWhileUnmoved(g: Config, s: State, i: nat, steps: seq<Step>, t: State)
    requires Ordered(g, s) && Receipt(s.world.ledger, i) && Run(g, s, steps, t) && i !in t.world.moved
    ensures t.world.ledger.entry == s.world.ledger.entry
    decreases |steps|
  {
    if steps != [] {
      var u := Apply(g, s, steps[0]);
      RunOnward(g, u, steps[1..], t);
      EntryStands(g, s, steps[0], i);
      StepKeeps(g, s, steps[0]);
      StandsWhileUnmoved(g, u, i, steps[1..], t);
    }
  }

  lemma SharedEntryStands(g: Config, s: State, step: Step, i: nat)
    requires Ordered(g, s) && IsShared(step) && SharedReady(g, s, step) && Receipt(s.world.ledger, i)
    requires i !in ApplyShared(g, s, step).world.moved
    ensures ApplyShared(g, s, step).world.ledger.entry == s.world.ledger.entry
  {
    if step.StartLands? { NothingStartsOver(g, s.world, step.request, i); }
  }

  lemma EntryStands(g: Config, s: State, step: Step, i: nat)
    requires Ordered(g, s) && Enabled(g, s, step) && Receipt(s.world.ledger, i)
    requires i !in Apply(g, s, step).world.moved
    ensures Apply(g, s, step).world.ledger.entry == s.world.ledger.entry
  {
    if IsShared(step) { SharedEntryStands(g, s, step, i); } else { OthersAreLocal(g, s, step); }
  }
}
