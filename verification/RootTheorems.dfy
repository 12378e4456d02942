/** The main results about the object move. */
module RootTheorems {
  import opened Basics
  import opened RootProtocol
  import opened RootOrder
  import opened RootPrefix
  import opened RootSafety
  import opened RootRuns
  import opened RootReceipts

  // The code does not promise at-most-once for every deployment: two write-ahead stores of one
  // installation that move to one root can revoke each other's attempt, and a cancellation may
  // record what it proved about an older attempt.  Each condition is stated here exactly, for runs
  // in which cancellations, or inherited settlements, or both, or neither, are current.

  /** An object whose possible-send boundary was ever durable is never recorded as not dispatched. */
  predicate NoFalseDenial(k: World) { forall i | i in k.armed :: !NotDispatched(k.ledger, i) }

  /** A send in flight keeps the shared entry UNKNOWN, under its sender's name and epoch. */
  predicate FlightsKnown(g: Config, k: World) {
    forall n | 0 <= n < |k.sends| && k.sends[n].index !in k.moved ::
      var x := k.sends[n];
      x.ctrl in g.sites && Records(k.ledger, g.sites[x.ctrl].installation, x.epoch, x.index, UNKNOWN)
  }

  predicate OneInFlight(k: World) {
    forall m, n | 0 <= m < n < |k.sends| :: k.sends[m].index in k.moved || k.sends[n].index in k.moved
  }

  ghost predicate NeverTwice(g: Config, rules: Rules) {
    forall t | Reachable(g, t, rules) :: AtMostOnce(t.world)
  }

  ghost predicate NeverTwoInFlight(g: Config, rules: Rules) {
    forall t | Reachable(g, t, rules) :: OneInFlight(t.world)
  }

  ghost predicate NeverDenied(g: Config, rules: Rules) {
    forall t | Reachable(g, t, rules) :: NoFalseDenial(t.world)
  }

  ghost predicate NeverForgotten(g: Config, rules: Rules) {
    forall t | Reachable(g, t, rules) :: FlightsKnown(g, t.world)
  }

  lemma {:induction false} RunSafe(g: Config, s: State, steps: seq<Step>, t: State, strict: bool)
    requires Told(g, strict) && Ordered(g, s) && Safe(g, s, strict) && Run(g, s, steps, t)
    requires strict ==> AllCurrent(g, s, steps, Rules(true, false))
    ensures Safe(g, t, strict)
    decreases |steps|
  {
    if steps != [] {
      StepSafe(g, s, steps[0], strict);
      StepKeeps(g, s, steps[0]);
      RunSafe(g, Apply(g, s, steps[0]), steps[1..], t, strict);
    }
  }

  lemma ReachableSafe(g: Config, t: State, strict: bool, rules: Rules)
    requires Told(g, strict) && Reachable(g, t, rules) && (strict ==> rules.cancels)
    ensures Ordered(g, t) && Safe(g, t, strict)
  {
    var s, steps :| Initially(g, s) && Leads(g, s, steps, t, rules);
    InitiallyOrdered(g, s);
    InitiallySafe(g, s, strict);
    RunKeeps(g, s, steps, t);
    if strict { Relax(g, s, steps, rules, Rules(true, false)); }
    RunSafe(g, s, steps, t, strict);
  }

  // ---- Counterexamples -----------------------------------------------------------------

  lemma SendsTwo(g: Config, s: State, i: nat, c: nat, j: nat, d: nat, rules: Rules) returns (steps: seq<Step>, t: State)
    requires i != j && Poised(g, s, i, c, 0) && Poised(g, s, j, d, 0)
    requires Before(s.world, 0)
    ensures Leads(g, s, steps, t, rules) && !AtMostOnce(t.world) && !OneInFlight(t.world)
  {
    var p, u := Sends(g, s, j, d, 0, rules);
    assert Poised(g, u, i, c, 0);
    var q, v := Sends(g, u, i, c, 0, rules);
    Join(g, s, p, u, q, v, rules);
    var n := |s.world.sends|;
    assert v.world.sends[n].index == v.world.sends[n + 1].index;
    steps, t := p + q, v;
  }

  /** Two calls past their last proof make two provider calls for one object. */
  lemma BothSend(g: Config, s: State, steps: seq<Step>, t: State, i: nat, c: nat, j: nat, d: nat, rules: Rules)
    requires Initially(g, s) && Leads(g, s, steps, t, rules) && i != j && Poised(g, t, i, c, 0) && Poised(g, t, j, d, 0)
    requires Before(t.world, 0)
    ensures !NeverTwice(g, rules) && !NeverTwoInFlight(g, rules)
  {
    var p, u := SendsTwo(g, t, i, c, j, d, rules);
    Join(g, s, steps, t, p, u, rules);
    assert Reachable(g, u, rules);
  }

  /** One controller suffices: an old revocation, read before its attempt was cancelled and
      retried, cancels the retry after its possible-send boundary is durable. */
  lemma StaleCancel(g: Config, c: nat, rules: Rules) returns (steps: seq<Step>, t: State)
    requires Configured(g) && c in g.sites && !rules.cancels
    ensures Initially(g, Blank(g)) && Leads(g, Blank(g), steps, t, rules)
    ensures 0 in t.world.armed && NotDispatched(t.world.ledger, 0)
    ensures t.world.moved == map[] && t.world.ledger.plan == Some(g.sites[c].target)
    ensures t.calls.Keys == {0, 4} && !Holds(t.calls[0]) && Poised(g, t, 4, c, 0)
    ensures t.world.wals == Blank(g).world.wals[c := t.world.wals[c]]
  {
    var s := Blank(g);
    var p, u := Opening(g, c, rules);
    var q, v := Prepares(g, u, 0, c, 0, rules);
    Join(g, s, p, u, q, v, rules);
    var b, x := Starts(g, v, 0, c, 0, rules);
    Join(g, s, p + q, v, b, x, rules);
    steps, t := Withdraws(g, s, p + q + b, x, c, rules);
    steps, t := CancelTwice(g, s, steps, t, c, rules);
  }

  /** The attempt is revoked and two settlements read the revocation. */
  lemma Withdraws(g: Config, s: State, before: seq<Step>, u: State, c: nat, rules: Rules) returns (steps: seq<Step>, t: State)
    requires Leads(g, s, before, u, rules) && u.calls.Keys == {0} && !Holds(u.calls[0]) && Ready(g, u, c, 0)
    requires u.world.wals[c] == Wal(2, Some(With(First, u.world.epoch, PREPARED)), Some(First), Nothing)
    requires Records(u.world.ledger, u.world.owner, u.world.epoch, 0, UNKNOWN)
    ensures Leads(g, s, steps, t, rules) && Withdrawn(t, c) && Ready(g, t, c, 0)
    ensures t.world == u.world.(wals := u.world.wals[c := t.world.wals[c]])
    ensures t.calls.Keys == {0, 2, 3} && t.calls[0] == u.calls[0]
    ensures t.calls[2] == t.calls[3]
      == Cancel(c, t.world.wals[c].revision, With(First, t.world.epoch, REVOKED), 1, t.world.owner)
  {
    var q, v := Revokes(g, u, 1, c, rules);
    Join(g, s, before, u, q, v, rules);
    var b, w := Witnesses(g, v, 2, c, rules);
    Join(g, s, before + q, v, b, w, rules);
    var d, x := Witnesses(g, w, 3, c, rules);
    Join(g, s, before + q + b, w, d, x, rules);
    steps, t := before + q + b + d, x;
  }

  /** The attempt is cancelled and its store resumed, while another settlement still holds the revocation. */
  lemma CancelsOnce(g: Config, s: State, c: nat, rules: Rules) returns (steps: seq<Step>, t: State)
    requires !rules.cancels && Ready(g, s, c, 0) && Withdrawn(s, c) && s.calls.Keys == {0, 2, 3} && !Holds(s.calls[0])
    requires s.calls[2] == s.calls[3] == Cancel(c, s.world.wals[c].revision, With(First, s.world.epoch, REVOKED), 1, s.world.owner)
    requires Records(s.world.ledger, s.world.owner, s.world.epoch, 0, UNKNOWN)
    ensures Leads(g, s, steps, t, rules) && t.calls == s.calls - {2} && Ready(g, t, c, 0)
    ensures t.world == Outcomes(s.world, NOT_DISPATCHED).(wals := t.world.wals)
    ensures t.world.wals == s.world.wals[c := Wal(s.world.wals[c].revision + 1, Some(First),
              Some(With(First, s.world.epoch, REVOKED)), Nothing)]
  {
    var q, v := Cancels(g, s, 2, c, s.world.wals[c].revision, rules);
    var b, w := Resumes(g, v, 1, c, rules);
    Join(g, s, q, v, b, w, rules);
    steps, t := q + b, w;
  }

  /** Cancel, resume, try again up to the send, cancel once more. */
  lemma CancelTwice(g: Config, s: State, before: seq<Step>, u: State, c: nat, rules: Rules) returns (steps: seq<Step>, t: State)
    requires !rules.cancels && Leads(g, s, before, u, rules) && 0 < g.count && Ready(g, u, c, 0) && Withdrawn(u, c)
    requires u.calls.Keys == {0, 2, 3} && !Holds(u.calls[0])
    requires u.calls[2] == u.calls[3] == Cancel(c, u.world.wals[c].revision, With(First, u.world.epoch, REVOKED), 1, u.world.owner)
    requires Records(u.world.ledger, u.world.owner, u.world.epoch, 0, UNKNOWN)
    ensures Leads(g, s, steps, t, rules)
    ensures 0 in t.world.armed && NotDispatched(t.world.ledger, 0)
    ensures t.world.moved == u.world.moved && t.world.ledger.plan == u.world.ledger.plan
    ensures t.calls.Keys == {0, 4} && t.calls[0] == u.calls[0] && Poised(g, t, 4, c, 0)
    ensures t.world.wals == u.world.wals[c := t.world.wals[c]]
  {
    var r := u.world.wals[c].revision;
    var q, w := CancelsOnce(g, u, c, rules);
    Join(g, s, before, u, q, w, rules);
    var d, x := Attempts(g, w, 4, c, 0, rules);
    Join(g, s, before + q, w, d, x, rules);
    var e, y := Cancels(g, x, 3, c, r, rules);
    Join(g, s, before + q + d, x, e, y, rules);
    steps, t := before + q + d + e, y;
  }

  lemma StaleCancelSendsTwice(g: Config, c: nat, d: nat, rules: Rules)
    requires Configured(g) && c in g.sites && d in g.sites && c != d && g.sites[c].target == g.sites[d].target
    requires !rules.cancels
    ensures !NeverTwice(g, rules) && !NeverTwoInFlight(g, rules)
  {
    var s := Blank(g);
    var p, u := StaleCancel(g, c, rules);
    var a := Takeover(g.sites[d].installation);
    OneStep(g, u, a, rules);
    var v := Apply(g, u, a);
    Join(g, s, p, u, [a], v, rules);
    var q, w := Begins(g, v, 5, d, rules);
    Join(g, s, p + [a], v, q, w, rules);
    var x, t := Attempts(g, w, 5, d, 0, rules);
    Join(g, s, p + [a] + q, w, x, t, rules);
    BothSend(g, s, p + [a] + q + x, t, 4, c, 5, d, rules);
  }

  /** Two stores of one site: one is armed while the other revokes its own PREPARED cursor
      for the same operation, and every settlement is current. */
  lemma SharedSite(g: Config, c: nat, d: nat, rules: Rules) returns (steps: seq<Step>, t: State)
    requires Configured(g) && c in g.sites && d in g.sites && c != d && g.sites[c] == g.sites[d]
    ensures Initially(g, Blank(g)) && Leads(g, Blank(g), steps, t, rules)
    ensures 0 in t.world.armed && Records(t.world.ledger, t.world.owner, t.world.epoch, 0, NOT_DISPATCHED)
    ensures Ready(g, t, d, 0) && Withdrawn(t, d) && t.calls.Keys == {1, 2} && Poised(g, t, 2, c, 0)
  {
    var s := Blank(g);
    var p, u := Opening(g, c, rules);
    var q, v := Begins(g, u, 0, d, rules);
    Join(g, s, p, u, q, v, rules);
    var b, w := Prepares(g, v, 1, d, 0, rules);
    Join(g, s, p + q, v, b, w, rules);
    var e, x := Attempts(g, w, 2, c, 0, rules);
    Join(g, s, p + q + b, w, e, x, rules);
    steps, t := RevokedBeside(g, s, p + q + b + e, x, c, d, rules);
  }

  lemma RevokedBeside(g: Config, s: State, before: seq<Step>, u: State, c: nat, d: nat, rules: Rules) returns (steps: seq<Step>, t: State)
    requires Leads(g, s, before, u, rules) && Ready(g, u, d, 0) && c != d && Poised(g, u, 2, c, 0) && u.calls.Keys == {1, 2}
    requires u.world.wals[d] == Wal(2, Some(With(First, u.world.epoch, PREPARED)), Some(First), Nothing)
    requires Records(u.world.ledger, u.world.owner, u.world.epoch, 0, UNKNOWN)
    ensures Leads(g, s, steps, t, rules) && Ready(g, t, d, 0) && Withdrawn(t, d) && t.calls == u.calls
    ensures t.world.armed == u.world.armed && Poised(g, t, 2, c, 0)
    ensures Records(t.world.ledger, t.world.owner, t.world.epoch, 0, NOT_DISPATCHED)
  {
    var q, v := Revokes(g, u, 3, d, rules);
    Join(g, s, before, u, q, v, rules);
    var b, w := Witnesses(g, v, 3, d, rules);
    Join(g, s, before + q, v, b, w, rules);
    var e, x := Cancels(g, w, 3, d, v.world.wals[d].revision, rules);
    Join(g, s, before + q + b, w, e, x, rules);
    steps, t := before + q + b + e, x;
    assert v.calls[3 := w.calls[3]] - {3} == v.calls;
  }

  lemma SharedSiteSendsTwice(g: Config, c: nat, d: nat, rules: Rules)
    requires Configured(g) && c in g.sites && d in g.sites && c != d && g.sites[c] == g.sites[d]
    ensures !NeverTwice(g, rules) && !NeverTwoInFlight(g, rules)
  {
    var s := Blank(g);
    var p, u := SharedSite(g, c, d, rules);
    var q, v := Resumes(g, u, 3, d, rules);
    Join(g, s, p, u, q, v, rules);
    var x, t := Attempts(g, v, 4, d, 0, rules);
    Join(g, s, p + q, v, x, t, rules);
    BothSend(g, s, p + q + x, t, 2, c, 4, d, rules);
  }

  /** One poised call sends after its attempt was recorded as not dispatched. */
  lemma SendsForgotten(g: Config, s: State, steps: seq<Step>, t: State, id: nat, c: nat, rules: Rules)
    requires Initially(g, s) && Leads(g, s, steps, t, rules) && Poised(g, t, id, c, 0)
    requires Before(t.world, 0) && NotDispatched(t.world.ledger, 0)
    ensures !NeverForgotten(g, rules)
  {
    var p, u := Sends(g, t, id, c, 0, rules);
    Join(g, s, steps, t, p, u, rules);
    assert Reachable(g, u, rules);
    assert u.world.sends[|t.world.sends|].index == 0;
  }

  // ---- Main results ----------------------------------------------------------------------

  /** With current cancellations, at most one provider call per object, over all runs, exactly
      when no two controllers share both installation and target; settlements need not be current. */
  lemma AtMostOnceWhenCurrent(g: Config, settles: bool)
    requires Configured(g)
    ensures NeverTwice(g, Rules(true, settles)) <==> DistinctSites(g)
  {
    var rules := Rules(true, settles);
    if DistinctSites(g) {
      forall t | Reachable(g, t, rules) ensures AtMostOnce(t.world) { ReachableSafe(g, t, true, rules); }
    } else {
      var c, d :| c in g.sites && d in g.sites && g.sites[c] == g.sites[d] && c != d;
      SharedSiteSendsTwice(g, c, d, rules);
    }
  }

  /** Whatever cancellations do, at most one provider call per object, exactly when no two
      controllers share a target. */
  lemma AtMostOnceAlways(g: Config, settles: bool)
    requires Configured(g)
    ensures NeverTwice(g, Rules(false, settles)) <==> DistinctTargets(g)
  {
    var rules := Rules(false, settles);
    if DistinctTargets(g) {
      forall t | Reachable(g, t, rules) ensures AtMostOnce(t.world) { ReachableSafe(g, t, false, rules); }
    } else {
      var c, d :| c in g.sites && d in g.sites && g.sites[c].target == g.sites[d].target && c != d;
      StaleCancelSendsTwice(g, c, d, rules);
    }
  }

  /** Two different objects are never in flight together, so two flights would be two sends. */
  lemma InFlightOnce(g: Config, t: State)
    requires Ordered(g, t) && AtMostOnce(t.world)
    ensures OneInFlight(t.world)
  {
    var k := t.world;
    forall m, n | 0 <= m < n < |k.sends| ensures k.sends[m].index in k.moved || k.sends[n].index in k.moved {
      assert ShipmentOk(g, k, k.sends[m]) && ShipmentOk(g, k, k.sends[n]);
      MovedPrefix(g, k);
    }
  }

  /** At most one move is in flight at any moment, exactly when no object is ever sent twice. */
  lemma OneInFlightExactly(g: Config, rules: Rules)
    requires Configured(g)
    ensures NeverTwoInFlight(g, rules) <==> if rules.cancels then DistinctSites(g) else DistinctTargets(g)
  {
    if rules.cancels && DistinctSites(g) {
      forall t | Reachable(g, t, rules) ensures OneInFlight(t.world) {
        ReachableSafe(g, t, true, rules);
        InFlightOnce(g, t);
      }
    } else if !rules.cancels && DistinctTargets(g) {
      forall t | Reachable(g, t, rules) ensures OneInFlight(t.world) {
        ReachableSafe(g, t, false, rules);
        InFlightOnce(g, t);
      }
    } else if rules.cancels {
      var c, d :| c in g.sites && d in g.sites && g.sites[c] == g.sites[d] && c != d;
      SharedSiteSendsTwice(g, c, d, rules);
    } else {
      var c, d :| c in g.sites && d in g.sites && g.sites[c].target == g.sites[d].target && c != d;
      StaleCancelSendsTwice(g, c, d, rules);
    }
  }

  /** A durable possible-send boundary is never answered by NOT_DISPATCHED, exactly then. */
  lemma NeverDeniedWhenCurrent(g: Config, settles: bool)
    requires Configured(g)
    ensures NeverDenied(g, Rules(true, settles)) <==> DistinctSites(g)
  {
    var rules := Rules(true, settles);
    if DistinctSites(g) {
      forall t | Reachable(g, t, rules) ensures NoFalseDenial(t.world) { ReachableSafe(g, t, true, rules); }
    } else {
      var c, d :| c in g.sites && d in g.sites && g.sites[c] == g.sites[d] && c != d;
      var steps, t := SharedSite(g, c, d, rules);
      assert Reachable(g, t, rules);
      assert !NoFalseDenial(t.world);
    }
  }

  /** Without current cancellations a single controller already breaks that promise. */
  lemma DeniedByStaleCancel(g: Config, settles: bool)
    requires Configured(g)
    ensures NeverDenied(g, Rules(false, settles)) <==> g.sites == map[]
  {
    var rules := Rules(false, settles);
    if g.sites == map[] {
      forall t | Reachable(g, t, rules) ensures NoFalseDenial(t.world) { IdleWithoutSites(g, t, rules); }
    } else {
      var c :| c in g.sites;
      var steps, t := StaleCancel(g, c, rules);
      assert Reachable(g, t, rules);
      assert !NoFalseDenial(t.world);
    }
  }

  /** Flights are known where the safety invariant holds and receipts are true. */
  lemma KnownFlights(g: Config, t: State, rules: Rules)
    requires Configured(g) && rules.cancels && DistinctSites(g) && Reachable(g, t, rules) && Truthful(t.world)
    ensures FlightsKnown(g, t.world)
  {
    ReachableSafe(g, t, true, rules);
    var k := t.world;
    forall n | 0 <= n < |k.sends| && k.sends[n].index !in k.moved
      ensures k.sends[n].ctrl in g.sites
      ensures Records(k.ledger, g.sites[k.sends[n].ctrl].installation, k.sends[n].epoch, k.sends[n].index, UNKNOWN)
    {
      assert Held(g, k, k.sends[n], true);
    }
  }

  /** When every flight is known, over all runs of a deployment with at least one controller. */
  ghost predicate Remembers(g: Config, rules: Rules)
    requires Configured(g)
  {
    rules.cancels && DistinctSites(g) && (rules.settles || DistinctSlots(g))
  }

  lemma ForgetsOtherwise(g: Config, c: nat, rules: Rules)
    requires Configured(g) && c in g.sites && !Remembers(g, rules)
    ensures !NeverForgotten(g, rules)
  {
    if !rules.cancels {
      var steps, t := StaleCancel(g, c, rules);
      SendsForgotten(g, Blank(g), steps, t, 4, c, rules);
    } else if !DistinctSites(g) {
      var d, e :| d in g.sites && e in g.sites && g.sites[d] == g.sites[e] && d != e;
      var steps, t := SharedSite(g, d, e, rules);
      SendsForgotten(g, Blank(g), steps, t, 2, d, rules);
    } else {
      var a: nat, b: nat :| a < b < g.count && g.slots[a] == g.slots[b];
      var t := FalseReceipt(g, c, a, b, rules);
      assert !FlightsKnown(g, t.world);
    }
  }

  /** A send in flight keeps the entry UNKNOWN for its own operation, owner and epoch, over all
      runs, exactly when cancellations are current, controllers are told apart, and inherited
      settlements are current or cannot take one object for another. */
  lemma FlightsAreKnown(g: Config, rules: Rules)
    requires Configured(g)
    ensures NeverForgotten(g, rules) <==> g.sites == map[] || Remembers(g, rules)
  {
    if g.sites == map[] {
      forall t | Reachable(g, t, rules) ensures FlightsKnown(g, t.world) { IdleWithoutSites(g, t, rules); }
    } else if Remembers(g, rules) {
      ReceiptsAreTrue(g, rules);
      forall t | Reachable(g, t, rules) ensures FlightsKnown(g, t.world) { KnownFlights(g, t, rules); }
    } else {
      var c :| c in g.sites;
      ForgetsOtherwise(g, c, rules);
    }
  }
}
