/** In every run, each action of the object move was preceded by all the checks its code makes. */
module RootEarned {
  import opened Basics
  import opened RootProtocol
  import opened RootOrder
  import opened RootPrefix
  import opened RootEvidence

  // ---- Histories ----------------------------------------------------------------------------------------

  predicate Follows(g: Config, s: State, step: Step, t: State) { Enabled(g, s, step) && t == Apply(g, s, step) }

  /** The states that a run went through. */
  ghost predicate History(g: Config, states: seq<State>, steps: seq<Step>) {
    |states| == |steps| + 1 && forall i | 0 <= i < |steps| :: Follows(g, states[i], steps[i], states[i + 1])
  }

  lemma {:induction false} RunHasHistory(g: Config, s: State, steps: seq<Step>, t: State) returns (states: seq<State>)
    requires Run(g, s, steps, t)
    ensures History(g, states, steps) && states[0] == s && states[|steps|] == t
    decreases |steps|
  {
    if steps == [] {
      states := [s];
    } else {
      var rest := RunHasHistory(g, Apply(g, s, steps[0]), steps[1..], t);
      states := [s] + rest;
      forall i | 0 <= i < |steps| ensures Follows(g, states[i], steps[i], states[i + 1]) {
        if i > 0 { assert Follows(g, rest[i - 1], steps[1..][i - 1], rest[i]); }
      }
    }
  }

  lemma {:induction false} HistoryOrdered(g: Config, states: seq<State>, steps: seq<Step>, n: nat)
    requires History(g, states, steps) && Ordered(g, states[0]) && n <= |steps|
    ensures Ordered(g, states[n])
    decreases n
  {
    if n > 0 {
      HistoryOrdered(g, states, steps, n - 1);
      assert Follows(g, states[n - 1], steps[n - 1], states[n]);
      StepKeeps(g, states[n - 1], steps[n - 1]);
    }
  }

  /** From its m-th state on the call is this one, and past this access. */
  ghost predicate Kept(states: seq<State>, id: nat, m: nat, n: nat, level: nat)
    requires n < |states| && id in states[n].calls
  {
    forall j | m < j <= n ::
      id in states[j].calls && Same(states[j].calls[id], states[n].calls[id]) && level <= Level(states[j].calls[id])
  }

  /** The call that is live in the n-th state made this access in the m-th, and found what it must. */
  ghost predicate Passed(g: Config, states: seq<State>, m: nat, n: nat, id: nat, level: nat)
    requires n < |states| && id in states[n].calls
  {
    && m < n && Kept(states, id, m, n, level) && id in states[m + 1].calls && Level(states[m + 1].calls[id]) == level
    && Evidence(g, states[m].world, states[m + 1].world, states[n].calls[id], level)
  }

  lemma SameOn(a: Call, b: Call, c: Call)
    requires Same(a, b) && Same(b, c)
    ensures Same(a, c)
  {}

  lemma PassedOn(g: Config, states: seq<State>, m: nat, n: nat, id: nat, level: nat)
    requires n + 1 < |states| && id in states[n].calls && id in states[n + 1].calls && Passed(g, states, m, n, id, level)
    requires Same(states[n].calls[id], states[n + 1].calls[id]) && level <= Level(states[n + 1].calls[id])
    ensures Passed(g, states, m, n + 1, id, level)
  {
    var c := states[n + 1].calls[id];
    forall j | m < j <= n + 1
      ensures id in states[j].calls && Same(states[j].calls[id], c) && level <= Level(states[j].calls[id])
    {
      if j <= n { SameOn(states[j].calls[id], states[n].calls[id], c); }
    }
    SameEvidence(g, states[m].world, states[m + 1].world, states[n].calls[id], c, level);
  }

  lemma PassedNow(g: Config, states: seq<State>, n: nat, id: nat)
    requires n + 1 < |states| && id in states[n + 1].calls
    requires Evidence(g, states[n].world, states[n + 1].world, states[n + 1].calls[id], Level(states[n + 1].calls[id]))
    ensures Passed(g, states, n, n + 1, id, Level(states[n + 1].calls[id]))
  {}

  /** An access that a call has made was made before this step, or is this step. */
  lemma BeforeOrNow(g: Config, s: State, step: Step, id: nat, level: nat)
    requires Ordered(g, s) && Enabled(g, s, step) && id in Apply(g, s, step).calls
    requires 1 <= level <= Level(Apply(g, s, step).calls[id])
    ensures var t := Apply(g, s, step);
      || (id in s.calls && level <= Level(s.calls[id]) && Same(s.calls[id], t.calls[id]))
      || (level == Level(t.calls[id]) && Evidence(g, s.world, t.world, t.calls[id], level))
  {
    StepProceeds(g, s, step, id);
  }

  /** Every access of a live call happened, in this very life of it, and found what it must. */
  lemma {:induction false} EveryAccessHeld(g: Config, states: seq<State>, steps: seq<Step>, n: nat, id: nat, level: nat)
    returns (m: nat)
    requires History(g, states, steps) && Initially(g, states[0]) && n <= |steps|
    requires id in states[n].calls && 1 <= level <= Level(states[n].calls[id])
    ensures Passed(g, states, m, n, id, level)
    decreases n
  {
    var s, t := states[n - 1], states[n];
    InitiallyOrdered(g, states[0]);
    HistoryOrdered(g, states, steps, n - 1);
    assert Follows(g, s, steps[n - 1], t);
    BeforeOrNow(g, s, steps[n - 1], id, level);
    if id in s.calls && level <= Level(s.calls[id]) && Same(s.calls[id], t.calls[id]) {
      m := EveryAccessHeld(g, states, steps, n - 1, id, level);
      PassedOn(g, states, m, n - 1, id, level);
    } else {
      m := n - 1;
      PassedNow(g, states, m, id);
    }
  }

  /** The accesses of the call, one after the other: `trail[i]` is the state in which it made its i-th. */
  ghost predicate Trail(g: Config, states: seq<State>, n: nat, id: nat, trail: seq<nat>) {
    && n < |states| && id in states[n].calls && |trail| == Level(states[n].calls[id])
    && (forall i | 0 <= i < |trail| :: Passed(g, states, trail[i], n, id, i + 1))
    && (forall i, j | 0 <= i < j < |trail| :: trail[i] < trail[j])
  }

  lemma InOrder(g: Config, states: seq<State>, n: nat, id: nat, a: nat, i: nat, b: nat, j: nat)
    requires n < |states| && id in states[n].calls && i < j
    requires Passed(g, states, a, n, id, i) && Passed(g, states, b, n, id, j)
    ensures a < b
  {
    NotBelow(states, n, id, a, b, j);
  }

  lemma NotBelow(states: seq<State>, n: nat, id: nat, a: nat, b: nat, level: nat)
    requires n < |states| && id in states[n].calls && Kept(states, id, b, n, level) && a < n
    ensures b <= a ==> id in states[a + 1].calls && level <= Level(states[a + 1].calls[id])
  {}

  lemma {:induction false} TrailTo(g: Config, states: seq<State>, steps: seq<Step>, n: nat, id: nat, level: nat)
    returns (trail: seq<nat>)
    requires History(g, states, steps) && Initially(g, states[0]) && n <= |steps|
    requires id in states[n].calls && level <= Level(states[n].calls[id])
    ensures |trail| == level && forall i | 0 <= i < level :: Passed(g, states, trail[i], n, id, i + 1)
    decreases level
  {
    trail := [];
    if level > 0 {
      trail := TrailTo(g, states, steps, n, id, level - 1);
      var m := EveryAccessHeld(g, states, steps, n, id, level);
      trail := trail + [m];
    }
  }

  /** Every live call has its trail. */
  lemma HasTrail(g: Config, states: seq<State>, steps: seq<Step>, n: nat, id: nat) returns (trail: seq<nat>)
    requires History(g, states, steps) && Initially(g, states[0]) && n <= |steps| && id in states[n].calls
    ensures Trail(g, states, n, id, trail)
  {
    trail := TrailTo(g, states, steps, n, id, Level(states[n].calls[id]));
    forall i, j | 0 <= i < j < |trail| ensures trail[i] < trail[j] { InOrder(g, states, n, id, trail[i], i + 1, trail[j], j + 1); }
  }

  // ---- What each action was preceded by --------------------------------------------------------------------

  /** The history has the step, made by a call all of whose checks held before it, one after another. */
  ghost predicate Earned(g: Config, s: State, steps: seq<Step>, step: Step)
    requires IsLast(step)
  {
    exists states, n, trail :: EarnedAt(g, s, steps, step, states, n, trail)
  }

  ghost predicate EarnedAt(g: Config, s: State, steps: seq<Step>, step: Step, states: seq<State>, n: nat, trail: seq<nat>)
    requires IsLast(step)
  {
    && History(g, states, steps) && states[0] == s && n < |steps| && steps[n] == step && step.id in states[n].calls
    && Makes(states[n].calls[step.id], step) && |trail| == Needed(step) && Trail(g, states, n, step.id, trail)
    && Acts(g, states[n].world, states[n + 1].world, states[n].calls[step.id], step)
  }

  /** Every such action in every run was earned. */
  lemma ActionsAreEarned(g: Config, s: State, steps: seq<Step>, t: State, n: nat)
    requires Initially(g, s) && Run(g, s, steps, t) && n < |steps| && IsLast(steps[n])
    ensures Earned(g, s, steps, steps[n])
  {
    var states := RunHasHistory(g, s, steps, t);
    InitiallyOrdered(g, s);
    HistoryOrdered(g, states, steps, n);
    assert Follows(g, states[n], steps[n], states[n + 1]);
    LastActs(g, states[n], steps[n]);
    var trail := HasTrail(g, states, steps, n, steps[n].id);
    assert EarnedAt(g, s, steps, steps[n], states, n, trail);
  }

  /** In particular, between the durable INVOKING cursor and the provider call there was a moment when
      the cursor was the store's content, the installation owned the document, the plan named the
      target, and nothing else was UNKNOWN. */
  lemma SendsAreProven(g: Config, s: State, steps: seq<Step>, step: Step)
    requires step.Send? && Earned(g, s, steps, step)
    ensures exists states, n, armed: nat, proven: nat :: SentAfter(g, s, steps, step, states, n, armed, proven)
  {
    var states, n, trail :| EarnedAt(g, s, steps, step, states, n, trail);
    assert Passed(g, states, trail[8], n, step.id, 9) && Passed(g, states, trail[9], n, step.id, 10);
    assert SentAfter(g, s, steps, step, states, n, trail[8], trail[9]);
  }

  ghost predicate SentAfter(g: Config, s: State, steps: seq<Step>, step: Step, states: seq<State>, n: nat, armed: nat, proven: nat)
    requires step.Send?
  {
    && History(g, states, steps) && states[0] == s && armed < proven < n < |steps| && steps[n] == step
    && step.id in states[n].calls && states[n].calls[step.id].Advance?
    && var c := states[n].calls[step.id];
       && c.ctrl in g.sites
       && Stores(states[armed].world, c.ctrl, Held(c, PREPARED)) && Stores(states[armed + 1].world, c.ctrl, Held(c, INVOKING))
       && var k := states[proven].world;
          && Stores(k, c.ctrl, Held(c, INVOKING)) && k.owner == g.sites[c.ctrl].installation
          && k.ledger.plan == Some(g.sites[c.ctrl].target)
          && (k.ledger.entry.Some? && k.ledger.entry.value.outcome == UNKNOWN ==>
                k.ledger.entry == Some(Entry(g.sites[c.ctrl].installation, c.epoch, Move(c.index), UNKNOWN)))
  }

  lemma {:induction false} WitnessedBefore(g: Config, states: seq<State>, steps: seq<Step>, n: nat, w: Settlement) returns (m: nat)
    requires History(g, states, steps) && Initially(g, states[0]) && n <= |steps| && w in states[n].world.settlements
    ensures m < n && steps[m] == SettleWitness(w.actor, w.index) && Inherited(states[m].world, w)
    decreases n
  {
    assert Follows(g, states[n - 1], steps[n - 1], states[n]);
    if w in states[n - 1].world.settlements {
      m := WitnessedBefore(g, states, steps, n - 1, w);
    } else {
      m := n - 1;
      NewSettlement(g, states[m], steps[m], w);
    }
  }

  lemma AskedNow(g: Config, s: State, step: Step, t: State, r: Request)
    requires Follows(g, s, step, t) && r in t.world.requests && r !in s.world.requests
    ensures Asked(g, s, step, r)
  {
    NewRequest(g, s, step, r);
  }

  lemma {:induction false} AskedBefore(g: Config, states: seq<State>, steps: seq<Step>, n: nat, r: Request) returns (m: nat)
    requires History(g, states, steps) && Initially(g, states[0]) && n <= |steps| && r in states[n].world.requests
    ensures m < n && Asked(g, states[m], steps[m], r)
    decreases n
  {
    assert n == 0 || Follows(g, states[n - 1], steps[n - 1], states[n]);
    if r in states[n - 1].world.requests {
      m := AskedBefore(g, states, steps, n - 1, r);
    } else {
      m := n - 1;
      AskedNow(g, states[n - 1], steps[n - 1], states[n], r);
    }
  }

  /** In every run a start that lands was asked for by a controller that owned the document it names, and
      a settlement was preceded by its own inspection. */
  lemma WritesAreEarned(g: Config, s: State, steps: seq<Step>, t: State, n: nat) returns (states: seq<State>, m: nat)
    requires Initially(g, s) && Run(g, s, steps, t) && n < |steps|
    ensures History(g, states, steps) && states[0] == s && states[|steps|] == t
    ensures Writes(g, states[n].world, states[n + 1].world, steps[n])
    ensures steps[n].StartLands? ==> m < n && Asked(g, states[m], steps[m], steps[n].request)
    ensures steps[n].SettleCas? ==>
      m < n && steps[m] == SettleWitness(steps[n].actor, steps[n].index) && Inherited(states[m].world, Settlement(steps[n].actor, steps[n].index))
  {
    states := RunHasHistory(g, s, steps, t);
    assert Follows(g, states[n], steps[n], states[n + 1]);
    m := 0;
    if IsShared(steps[n]) { SharedWrites(g, states[n], steps[n]); }
    if steps[n].StartLands? {
      m := AskedBefore(g, states, steps, n, steps[n].request);
    } else if steps[n].SettleCas? {
      m := WitnessedBefore(g, states, steps, n, Settlement(steps[n].actor, steps[n].index));
    }
  }
}
