/** What every run of the move protocol keeps: the moved prefix, its one root, and the ledger's receipts. */
module RootPrefix {
  import opened Basics
  import opened RootProtocol
  import opened RootOrder

  lemma {:induction false} RunKeeps(g: Config, s: State, steps: seq<Step>, t: State)
    requires Ordered(g, s) && Run(g, s, steps, t)
    ensures Ordered(g, t)
    decreases |steps|
  {
    if steps != [] {
      StepKeeps(g, s, steps[0]);
      RunKeeps(g, Apply(g, s, steps[0]), steps[1..], t);
    }
  }

  // ---- Receipts of objects that have not moved ------------------------------------------

  /** The recorded operation is marked COMPLETE. */
  predicate Receipt(l: Ledger, i: nat) {
    l.entry.Some? && l.entry.value.outcome == COMPLETE && l.entry.value.operation == Move(i)
  }

  /** A request that could replace the receipt of an unmoved object would be for that object or
      for an earlier one, and neither can be started. */
  lemma NothingStartsOver(g: Config, k: World, r: Request, j: nat)
    requires WorldOk(g, k) && r in k.requests && r.before == k.ledger && r.epoch == k.epoch
    requires Receipt(k.ledger, j)
    ensures j in k.moved && (k.ledger.entry.value.epoch < r.epoch ==> j < r.index)
  {
    assert RequestOk(g, k, r);
    if j !in k.moved {
      forall i | i in k.moved.Keys ensures i == 0 || i - 1 in k.moved.Keys { assert Reached(k, i); }
      if j < r.index { Downward(k.moved.Keys, r.index - 1, j); }
    }
  }

  // ---- The moved prefix and its single root -------------------------------------------

  predicate FollowsPrefix(k: World, w: Wal) {
    && (w.current.Some? ==> w.current.value.index <= |k.moved|)
    && (w.staged.Whole? ==> w.staged.frame.index <= |k.moved|)
  }

  lemma MovedPrefix(g: Config, k: World)
    requires WorldOk(g, k)
    ensures forall i: nat :: i in k.moved <==> i < |k.moved|
    ensures forall c | c in k.wals :: FollowsPrefix(k, k.wals[c])
  {
    forall i | i in k.moved.Keys ensures i == 0 || i - 1 in k.moved.Keys { assert Reached(k, i); }
    InitialSegment(k.moved.Keys);
    assert |k.moved.Keys| == |k.moved|;
    assert forall i: nat :: i in k.moved <==> i in k.moved.Keys;
    forall c | c in k.wals ensures FollowsPrefix(k, k.wals[c]) { assert WalOk(g, k, c, k.wals[c]); }
  }

  /** In every run the moved objects are exactly the first ones, in order and to the planned
      root; no store runs ahead of them; every provider call names that root. */
  lemma OrderedMove(g: Config, s: State, steps: seq<Step>, t: State)
    requires Initially(g, s) && Run(g, s, steps, t)
    ensures forall i: nat :: i in t.world.moved <==> i < |t.world.moved|
    ensures |t.world.moved| <= g.count
    ensures forall c | c in t.world.wals :: FollowsPrefix(t.world, t.world.wals[c])
    ensures forall i | i in t.world.moved :: t.world.ledger.plan == Some(t.world.moved[i])
    ensures forall n | 0 <= n < |t.world.sends| ::
      t.world.ledger.plan == Some(t.world.sends[n].root) && t.world.sends[n].index <= |t.world.moved|
  {
    InitiallyOrdered(g, s);
    RunKeeps(g, s, steps, t);
    var k := t.world;
    MovedPrefix(g, k);
    forall n | 0 <= n < |k.sends|
      ensures k.ledger.plan == Some(k.sends[n].root) && k.sends[n].index <= |k.moved|
    {
      assert ShipmentOk(g, k, k.sends[n]);
    }
    forall i | i in k.sent ensures i < g.count {
      assert HasSend(k, i);
      var n :| 0 <= n < |k.sends| && k.sends[n].index == i;
      assert ShipmentOk(g, k, k.sends[n]);
    }
    assert g.count !in k.moved;
  }

  lemma SavesAreLocal(g: Config, s: State, step: Step)
    requires IsSave(step) && SaveReady(g, s, step)
    ensures var t := ApplySave(g, s, step).world; t.ledger == s.world.ledger && t.moved == s.world.moved
  {}

  lemma CallsAreLocal(g: Config, s: State, step: Step)
    requires IsCall(step) && CallReady(g, s, step)
    ensures var t := ApplyCall(g, s, step).world; t.ledger == s.world.ledger && t.moved == s.world.moved
  {}

  /** Only the shared steps touch the document and the objects. */
  lemma OthersAreLocal(g: Config, s: State, step: Step)
    requires Enabled(g, s, step) && !IsShared(step)
    ensures var t := Apply(g, s, step).world; t.ledger == s.world.ledger && t.moved == s.world.moved
  {
    if IsSave(step) {
      SavesAreLocal(g, s, step);
    } else if IsCall(step) {
      CallsAreLocal(g, s, step);
    }
  }

  /** Objects never move back, and a recorded plan stands. */
  predicate Onward(k: World, t: World) {
    && (forall i | i in k.moved :: i in t.moved)
    && (k.ledger.plan.Some? ==> t.ledger.plan == k.ledger.plan)
  }

  lemma SharedOnward(g: Config, s: State, step: Step)
    requires IsShared(step) && SharedReady(g, s, step)
    ensures Onward(s.world, ApplyShared(g, s, step).world)
  {}

  lemma StepOnward(g: Config, s: State, step: Step)
    requires Enabled(g, s, step)
    ensures Onward(s.world, Apply(g, s, step).world)
  {
    if IsShared(step) { SharedOnward(g, s, step); } else { OthersAreLocal(g, s, step); }
  }

  lemma {:induction false} RunOnward(g: Config, s: State, steps: seq<Step>, t: State)
    requires Run(g, s, steps, t)
    ensures Onward(s.world, t.world)
    decreases |steps|
  {
    if steps != [] {
      StepOnward(g, s, steps[0]);
      RunOnward(g, Apply(g, s, steps[0]), steps[1..], t);
    }
  }
}
