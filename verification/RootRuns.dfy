/**
  Short runs of the move protocol, used to show which disciplines are needed.  A block is a run
  of a few steps with the state it leaves written out: it begins a store, prepares a cursor,
  requests and confirms a start, arms, sends, revokes, cancels, resumes or inspects.  Blocks are
  joined into longer runs, up to a store that has moved any number of objects, each step of which
  is enabled and, where the rules ask for it, current.
 */
module RootRuns {
  import opened Basics
  import opened RootProtocol

  ghost predicate Leads(g: Config, s: State, steps: seq<Step>, t: State, rules: Rules) {
    Run(g, s, steps, t) && AllCurrent(g, s, steps, rules)
  }

  /** `t` is reached from an initial state under these rules. */
  ghost predicate Reachable(g: Config, t: State, rules: Rules) {
    exists s, steps :: Initially(g, s) && Leads(g, s, steps, t, rules)
  }

  lemma {:induction false} Relax(g: Config, s: State, steps: seq<Step>, rules: Rules, looser: Rules)
    requires AllCurrent(g, s, steps, rules)
    requires (looser.cancels ==> rules.cancels) && (looser.settles ==> rules.settles)
    ensures AllCurrent(g, s, steps, looser)
    decreases |steps|
  {
    if steps != [] { Relax(g, Apply(g, s, steps[0]), steps[1..], rules, looser); }
  }

  lemma OneStep(g: Config, s: State, step: Step, rules: Rules)
    requires Enabled(g, s, step) && Current(g, s, step, rules)
    ensures Leads(g, s, [step], Apply(g, s, step), rules)
  {
    assert [step][1..] == [];
  }

  lemma {:induction false} JoinRun(g: Config, s: State, p: seq<Step>, t: State, q: seq<Step>, u: State)
    requires Run(g, s, p, t) && Run(g, t, q, u)
    ensures Run(g, s, p + q, u)
    decreases |p|
  {
    if p == [] {
      assert p + q == q;
    } else {
      var next := Apply(g, s, p[0]);
      JoinRun(g, next, p[1..], t, q, u);
      FirstOf(p, q);
    }
  }

  lemma {:induction false} JoinCurrent(g: Config, s: State, p: seq<Step>, t: State, q: seq<Step>, rules: Rules)
    requires Run(g, s, p, t) && AllCurrent(g, s, p, rules) && AllCurrent(g, t, q, rules)
    ensures AllCurrent(g, s, p + q, rules)
    decreases |p|
  {
    if p == [] {
      assert p + q == q;
    } else {
      var next := Apply(g, s, p[0]);
      JoinCurrent(g, next, p[1..], t, q, rules);
      FirstOf(p, q);
    }
  }

  lemma FirstOf(p: seq<Step>, q: seq<Step>)
    requires p != []
    ensures p + q != [] && (p + q)[0] == p[0] && (p + q)[1..] == p[1..] + q
  {}

  lemma Join(g: Config, s: State, p: seq<Step>, t: State, q: seq<Step>, u: State, rules: Rules)
    requires Leads(g, s, p, t, rules) && Leads(g, t, q, u, rules)
    ensures Leads(g, s, p + q, u, rules)
  {
    JoinRun(g, s, p, t, q, u);
    JoinCurrent(g, s, p, t, q, rules);
  }

  ghost predicate Takes(g: Config, s: State, step: Step, t: State, rules: Rules) {
    Enabled(g, s, step) && Current(g, s, step, rules) && t == Apply(g, s, step)
  }

  /** Two steps in a row. */
  lemma TwoSteps(g: Config, s: State, a: Step, t: State, b: Step, u: State, rules: Rules)
    requires Takes(g, s, a, t, rules) && Takes(g, t, b, u, rules)
    ensures Leads(g, s, [a, b], u, rules)
  {
    OneStep(g, s, a, rules);
    OneStep(g, t, b, rules);
    Join(g, s, [a], t, [b], u, rules);
    assert [a] + [b] == [a, b];
  }

  /** A call makes its next looks, all of which find what they must. */
  lemma {:induction false} Looks(g: Config, s: State, id: nat, n: nat, rules: Rules) returns (steps: seq<Step>, t: State)
    requires id in s.calls && !s.calls[id].Advance? && s.calls[id].ctrl in g.sites && s.calls[id].looks <= n
    requires forall m: nat | s.calls[id].looks <= m < n :: LookReady(g, s.world, Seen(s.calls[id], m))
    ensures Leads(g, s, steps, t, rules) && t == PutCall(s, id, Seen(s.calls[id], n))
    decreases n - s.calls[id].looks
  {
    var c := s.calls[id];
    if c.looks == n {
      steps, t := [], s;
      assert s.calls[id := c] == s.calls;
    } else {
      assert LookReady(g, s.world, Seen(c, c.looks)) && Seen(c, c.looks) == c;
      var u := Apply(g, s, Look(id));
      OneStep(g, s, Look(id), rules);
      forall m: nat | c.looks + 1 <= m < n ensures LookReady(g, u.world, Seen(u.calls[id], m)) {
        assert Seen(u.calls[id], m) == Seen(c, m);
      }
      var q, v := Looks(g, u, id, n, rules);
      Join(g, s, [Look(id)], u, q, v, rules);
      steps, t := [Look(id)] + q, v;
      assert s.calls[id := u.calls[id]][id := v.calls[id]] == s.calls[id := v.calls[id]];
    }
  }

  /** A call begins as `c`, and makes n looks. */
  lemma Opens(g: Config, s: State, step: Step, c: Call, n: nat, rules: Rules) returns (steps: seq<Step>, t: State)
    requires IsRead(step) && ReadReady(g, s, step) && c == Opened(g, s, step)
    requires !c.Advance? && c.looks == 0 && c.ctrl in g.sites
    requires forall m: nat | m < n :: LookReady(g, s.world, Seen(c, m))
    ensures Leads(g, s, steps, t, rules) && t == PutCall(s, step.id, Seen(c, n))
  {
    var u := PutCall(s, step.id, c);
    OneStep(g, s, step, rules);
    var q, v := Looks(g, u, step.id, n, rules);
    Join(g, s, [step], u, q, v, rules);
    steps, t := [step] + q, v;
    assert s.calls[step.id := c][step.id := Seen(c, n)] == s.calls[step.id := Seen(c, n)];
  }

  /** One step more. */
  lemma Then(g: Config, s: State, steps: seq<Step>, t: State, step: Step, rules: Rules) returns (more: seq<Step>, u: State)
    requires Leads(g, s, steps, t, rules) && Enabled(g, t, step) && Current(g, t, step, rules)
    ensures Leads(g, s, more, u, rules) && u == Apply(g, t, step)
  {
    OneStep(g, t, step, rules);
    u := Apply(g, t, step);
    Join(g, s, steps, t, [step], u, rules);
    more := steps + [step];
  }

  function Base(m: nat): Frame { Frame(Initial, m, None) }

  const First := Base(0)

  /** The installation of `c` owns the document, the plan is its target, the m-th object has not moved. */
  predicate Ready(g: Config, s: State, c: nat, m: nat) {
    && c in g.sites && c in s.world.wals && Owns(g, s.world, c) && Planned(g, s.world, c)
    && Before(s.world, m) && Free(s, c)
  }

  lemma Begins(g: Config, s: State, id: nat, c: nat, rules: Rules) returns (steps: seq<Step>, t: State)
    requires c in g.sites && c in s.world.wals && Free(s, c) && id !in s.calls && s.world.moved == map[]
    requires Owns(g, s.world, c) && !Unknown(s.world.ledger) && (s.world.ledger.plan.Some? ==> Planned(g, s.world, c))
    requires s.world.wals[c] == Wal(0, None, None, Nothing)
    ensures Leads(g, s, steps, t, rules) && t.calls == s.calls
    ensures t.world == s.world.(wals := s.world.wals[c := Wal(1, Some(First), None, Nothing)])
  {
    var f := Begin(c, First, 0);
    var p, u := Opens(g, s, BeginInitial(id, c), f, 1, rules);
    steps, t := Then(g, s, p, u, BeginSave(id, Promoted), rules);
    assert s.calls[id := Seen(f, 1)] - {id} == s.calls;
  }

  lemma Prepares(g: Config, s: State, id: nat, c: nat, m: nat, rules: Rules) returns (steps: seq<Step>, t: State)
    requires Ready(g, s, c, m) && id !in s.calls && m < g.count && !Unknown(s.world.ledger)
    requires s.world.wals[c].current == Some(Base(m)) && s.world.wals[c].staged.Nothing?
    ensures Leads(g, s, steps, t, rules)
    ensures var r := s.world.wals[c].revision + 1;
      && t.calls == s.calls[id := Advance(c, r, Initial, m, s.world.epoch, Saved)]
      && t.world == s.world.(wals := s.world.wals[c :=
           Wal(r, Some(With(Base(m), s.world.epoch, PREPARED)), Some(Base(m)), Nothing)])
  {
    var a, b := Check(id, c), SavePrepared(id, Promoted);
    steps := [a, b];
    var u := Apply(g, s, a);
    assert u.calls[id] == Advance(c, s.world.wals[c].revision, Initial, m, s.world.epoch, Checked);
    t := Apply(g, u, b);
    TwoSteps(g, s, a, u, b, t, rules);
    assert s.calls[id := u.calls[id]][id := t.calls[id]] == s.calls[id := t.calls[id]];
  }

  /** The start request is issued and lands at once. */
  lemma Starts(g: Config, s: State, id: nat, c: nat, m: nat, rules: Rules) returns (steps: seq<Step>, t: State)
    requires Ready(g, s, c, m) && id in s.calls && StartAllowed(s.world.ledger, m)
    requires s.calls[id].Advance? && s.calls[id].phase.Saved? && s.calls[id].ctrl == c
    requires s.calls[id].index == m && s.calls[id].epoch == s.world.epoch
    ensures Leads(g, s, steps, t, rules)
    ensures t.world.ledger == Changed(s.world.ledger, Entry(s.world.owner, s.world.epoch, Move(m), UNKNOWN))
    ensures t.world == s.world.(ledger := t.world.ledger, requests := t.world.requests)
    ensures t.calls == s.calls[id := Phased(s.calls[id], Requested(t.world.ledger))]
  {
    var k := s.world;
    var r := Request(k.owner, k.epoch, m, k.ledger);
    var a, b := IssueStart(id), StartLands(r);
    steps := [a, b];
    var u := Apply(g, s, a);
    t := Apply(g, u, b);
    TwoSteps(g, s, a, u, b, t, rules);
  }

  /** Call `id` is the advance of `c` that saved its PREPARED cursor and owns the UNKNOWN entry. */
  predicate Underway(g: Config, s: State, id: nat, c: nat, m: nat) {
    && Ready(g, DropCall(s, id), c, m) && c in s.world.wals && id in s.calls && s.calls[id].Advance?
    && s.calls[id].ctrl == c && s.calls[id].kind.Initial? && s.calls[id].index == m
    && s.calls[id].epoch == s.world.epoch && s.calls[id].revision == s.world.wals[c].revision
    && s.world.wals[c].staged.Nothing?
    && s.world.wals[c].current == Some(With(Base(m), s.world.epoch, PREPARED))
    && Records(s.world.ledger, s.world.owner, s.world.epoch, m, UNKNOWN)
  }

  lemma Confirms(g: Config, s: State, id: nat, c: nat, m: nat, rules: Rules) returns (steps: seq<Step>, t: State)
    requires Underway(g, s, id, c, m) && s.calls[id].phase == Requested(s.world.ledger)
    ensures Leads(g, s, steps, t, rules) && t.world == s.world
    ensures t.calls == s.calls[id := Phased(s.calls[id], Rechecked)]
  {
    var a, b := StartConfirmed(id), Recheck(id);
    steps := [a, b];
    var u := Apply(g, s, a);
    t := Apply(g, u, b);
    TwoSteps(g, s, a, u, b, t, rules);
  }

  lemma Locks(g: Config, s: State, id: nat, c: nat, m: nat, rules: Rules) returns (steps: seq<Step>, t: State)
    requires Underway(g, s, id, c, m) && s.calls[id].phase.Rechecked?
    ensures Leads(g, s, steps, t, rules) && t.world == s.world
    ensures t.calls == s.calls[id := Phased(s.calls[id], Proven)]
  {
    forall j | j in s.calls && s.calls[j].ctrl == c ensures !Holds(s.calls[j]) {
      if j != id { assert j in DropCall(s, id).calls; }
    }
    var a, b := Lock(id), ProveLocked(id);
    steps := [a, b];
    var u := Apply(g, s, a);
    t := Apply(g, u, b);
    TwoSteps(g, s, a, u, b, t, rules);
  }

  lemma Invoke(g: Config, s: State, id: nat, c: nat, m: nat, rules: Rules) returns (steps: seq<Step>, t: State)
    requires Underway(g, s, id, c, m) && s.calls[id].phase.Proven?
    ensures Leads(g, s, steps, t, rules)
    ensures var r := s.world.wals[c].revision + 1;
      && t.calls == s.calls[id := Advance(c, r, Initial, m, s.world.epoch, Armed)]
      && t.world == s.world.(armed := s.world.armed + {m}, wals := s.world.wals[c :=
           Wal(r, Some(With(Base(m), s.world.epoch, INVOKING)), Some(With(Base(m), s.world.epoch, PREPARED)), Nothing)])
  {
    var a, b := Witness(id), Arm(id, Promoted);
    steps := [a, b];
    var u := Apply(g, s, a);
    t := Apply(g, u, b);
    TwoSteps(g, s, a, u, b, t, rules);
  }

  lemma Clears(g: Config, s: State, id: nat, c: nat, m: nat, rules: Rules) returns (steps: seq<Step>, t: State)
    requires c in g.sites && c in s.world.wals && Owns(g, s.world, c) && Planned(g, s.world, c)
    requires id in s.calls && s.calls[id].Advance? && s.calls[id] == Advance(c, s.calls[id].revision, Initial, m, s.world.epoch, Armed)
    requires Records(s.world.ledger, s.world.owner, s.world.epoch, m, UNKNOWN)
    ensures Leads(g, s, steps, t, rules) && t.world == s.world
    ensures t.calls == s.calls[id := Phased(s.calls[id], Cleared)]
  {
    steps := [Clear(id)];
    t := Apply(g, s, Clear(id));
    OneStep(g, s, Clear(id), rules);
  }

  lemma StillUnderway(g: Config, s: State, t: State, id: nat, c: nat, m: nat, p: Phase)
    requires Underway(g, s, id, c, m) && t.world == s.world && t.calls == s.calls[id := Phased(s.calls[id], p)]
    ensures Underway(g, t, id, c, m)
  {
    assert DropCall(t, id).calls == DropCall(s, id).calls;
  }

  /** From the requested start to the last proof before the provider call. */
  lemma Arms(g: Config, s: State, id: nat, c: nat, m: nat, rules: Rules) returns (steps: seq<Step>, t: State)
    requires Underway(g, s, id, c, m) && s.calls[id].phase == Requested(s.world.ledger)
    ensures Leads(g, s, steps, t, rules)
    ensures var r := s.world.wals[c].revision + 1;
      && t.calls == s.calls[id := Advance(c, r, Initial, m, s.world.epoch, Cleared)]
      && t.world == s.world.(armed := s.world.armed + {m}, wals := s.world.wals[c :=
           Wal(r, Some(With(Base(m), s.world.epoch, INVOKING)), Some(With(Base(m), s.world.epoch, PREPARED)), Nothing)])
  {
    var p, u := Confirms(g, s, id, c, m, rules);
    StillUnderway(g, s, u, id, c, m, Rechecked);
    var q, v := Locks(g, u, id, c, m, rules);
    StillUnderway(g, u, v, id, c, m, Proven);
    Join(g, s, p, u, q, v, rules);
    var x, w := Invoke(g, v, id, c, m, rules);
    Join(g, s, p + q, v, x, w, rules);
    var y, z := Clears(g, w, id, c, m, rules);
    Join(g, s, p + q + x, w, y, z, rules);
    steps, t := p + q + x + y, z;
    assert t.calls == s.calls[id := t.calls[id]];
  }

  lemma Revokes(g: Config, s: State, id: nat, c: nat, rules: Rules) returns (steps: seq<Step>, t: State)
    requires Ready(g, s, c, 0) && id !in s.calls && s.world.wals[c].staged.Nothing?
    requires s.world.wals[c].current == Some(With(First, s.world.epoch, PREPARED))
    requires Unknown(s.world.ledger) ==> Records(s.world.ledger, s.world.owner, s.world.epoch, 0, UNKNOWN)
    ensures Leads(g, s, steps, t, rules) && t.calls == s.calls
    ensures t.world == s.world.(wals := s.world.wals[c := Wal(s.world.wals[c].revision + 1,
              Some(With(First, s.world.epoch, REVOKED)), Some(With(First, s.world.epoch, PREPARED)), Nothing)])
  {
    var f := Revoke(c, s.world.wals[c].revision, With(First, s.world.epoch, PREPARED), 0);
    var p, u := Opens(g, s, RevokeRead(id, c), f, 2, rules);
    steps, t := Then(g, s, p, u, RevokeSave(id, Promoted), rules);
    assert s.calls[id := Seen(f, 2)] - {id} == s.calls;
  }

  /** A cursor revoked straight from PREPARED under the present epoch. */
  predicate Withdrawn(s: State, c: nat) {
    && c in s.world.wals && 3 <= s.world.wals[c].revision && s.world.wals[c].staged.Nothing?
    && s.world.wals[c].current == Some(With(First, s.world.epoch, REVOKED))
    && s.world.wals[c].previous == Some(With(First, s.world.epoch, PREPARED))
  }

  lemma Witnesses(g: Config, s: State, id: nat, c: nat, rules: Rules) returns (steps: seq<Step>, t: State)
    requires Ready(g, s, c, 0) && Withdrawn(s, c) && id !in s.calls
    requires Records(s.world.ledger, s.world.owner, s.world.epoch, 0, UNKNOWN)
    ensures Leads(g, s, steps, t, rules) && t.world == s.world
    ensures t.calls == s.calls[id := Cancel(c, s.world.wals[c].revision, With(First, s.world.epoch, REVOKED), 1, s.world.owner)]
  {
    var f := Cancel(c, s.world.wals[c].revision, With(First, s.world.epoch, REVOKED), 0, s.world.owner);
    steps, t := Opens(g, s, CancelRead(id, s.world.owner, c), f, 1, rules);
  }

  lemma Cancels(g: Config, s: State, id: nat, c: nat, r: nat, rules: Rules) returns (steps: seq<Step>, t: State)
    requires c in g.sites && Owns(g, s.world, c) && id in s.calls
    requires s.calls[id] == Cancel(c, r, With(First, s.world.epoch, REVOKED), 1, s.world.owner)
    requires Records(s.world.ledger, s.world.owner, s.world.epoch, 0, UNKNOWN)
    requires rules.cancels ==> c in s.world.wals && s.world.wals[c].revision == r
    ensures Leads(g, s, steps, t, rules) && t.calls == s.calls - {id}
    ensures t.world == Outcomes(s.world, NOT_DISPATCHED)
  {
    steps := [CancelCas(id)];
    t := Apply(g, s, CancelCas(id));
    OneStep(g, s, CancelCas(id), rules);
  }

  lemma Resumes(g: Config, s: State, id: nat, c: nat, rules: Rules) returns (steps: seq<Step>, t: State)
    requires Ready(g, s, c, 0) && Withdrawn(s, c) && id !in s.calls
    requires Records(s.world.ledger, s.world.owner, s.world.epoch, 0, NOT_DISPATCHED)
    ensures Leads(g, s, steps, t, rules) && t.calls == s.calls
    ensures t.world == s.world.(wals := s.world.wals[c := Wal(s.world.wals[c].revision + 1,
              Some(First), Some(With(First, s.world.epoch, REVOKED)), Nothing)])
  {
    var f := Resume(c, s.world.wals[c].revision, With(First, s.world.epoch, REVOKED), 0);
    var p, u := Opens(g, s, ResumeRead(id, c), f, 5, rules);
    steps, t := Then(g, s, p, u, ResumeSave(id, Promoted), rules);
    assert s.calls[id := Seen(f, 5)] - {id} == s.calls;
  }

  // ---- Longer runs ----------------------------------------------------------------------

  function Blank(g: Config): State {
    State(World(0, 0, Ledger(0, None, None), map[], map c | c in g.sites :: Wal(0, None, None, Nothing),
                {}, [], map[0 := 0], {}, {}, {}), map[])
  }

  /** A store begun by its own installation, with the plan fixed. */
  lemma Opening(g: Config, c: nat, rules: Rules) returns (steps: seq<Step>, t: State)
    requires Configured(g) && c in g.sites
    ensures Initially(g, Blank(g)) && Leads(g, Blank(g), steps, t, rules)
    ensures t.calls == map[] && t.world.moved == map[] && t.world.sends == [] && t.world.ledger.entry == None
    ensures Owns(g, t.world, c) && Planned(g, t.world, c)
    ensures t.world.wals == Blank(g).world.wals[c := Wal(1, Some(First), None, Nothing)]
  {
    var s := Blank(g);
    var a := Takeover(g.sites[c].installation);
    OneStep(g, s, a, rules);
    var u := Apply(g, s, a);
    var q, v := Begins(g, u, 0, c, rules);
    Join(g, s, [a], u, q, v, rules);
    OneStep(g, v, PlanCas(c), rules);
    t := Apply(g, v, PlanCas(c));
    Join(g, s, [a] + q, v, [PlanCas(c)], t, rules);
    steps := [a] + q + [PlanCas(c)];
  }

  /** From a fresh frame to a requested start that has landed. */
  lemma Reserves(g: Config, s: State, id: nat, c: nat, m: nat, rules: Rules) returns (steps: seq<Step>, t: State)
    requires Ready(g, s, c, m) && id !in s.calls && m < g.count && StartAllowed(s.world.ledger, m)
    requires s.world.wals[c].current == Some(Base(m)) && s.world.wals[c].staged.Nothing?
    requires !Unknown(s.world.ledger)
    ensures Leads(g, s, steps, t, rules)
    ensures var r := s.world.wals[c].revision + 1;
      && t.calls == s.calls[id := Advance(c, r, Initial, m, s.world.epoch, Requested(t.world.ledger))]
      && t.world == s.world.(ledger := t.world.ledger, requests := t.world.requests, wals := s.world.wals[c :=
           Wal(r, Some(With(Base(m), s.world.epoch, PREPARED)), Some(Base(m)), Nothing)])
    ensures t.world.ledger == Changed(s.world.ledger, Entry(s.world.owner, s.world.epoch, Move(m), UNKNOWN))
  {
    var p, u := Prepares(g, s, id, c, m, rules);
    FreeAfterPut(s, u, id, c);
    var q, v := Starts(g, u, id, c, m, rules);
    Join(g, s, p, u, q, v, rules);
    steps, t := p + q, v;
  }

  /** From a fresh frame to the last proof before the provider call. */
  lemma Attempts(g: Config, s: State, id: nat, c: nat, m: nat, rules: Rules) returns (steps: seq<Step>, t: State)
    requires Ready(g, s, c, m) && id !in s.calls && m < g.count && StartAllowed(s.world.ledger, m)
    requires s.world.wals[c].current == Some(Base(m)) && s.world.wals[c].staged.Nothing?
    requires !Unknown(s.world.ledger)
    ensures Leads(g, s, steps, t, rules)
    ensures id in t.calls && t.calls == s.calls[id := t.calls[id]] && t.calls[id].Advance? && t.calls[id].phase.Cleared?
    ensures t.calls[id].ctrl == c && t.calls[id].index == m && t.calls[id].epoch == s.world.epoch
    ensures t.world.ledger == Changed(s.world.ledger, Entry(s.world.owner, s.world.epoch, Move(m), UNKNOWN))
    ensures t.world == s.world.(ledger := t.world.ledger, requests := t.world.requests, wals := t.world.wals,
                                armed := s.world.armed + {m})
    ensures t.world.wals == s.world.wals[c := Wal(s.world.wals[c].revision + 2,
              Some(With(Base(m), s.world.epoch, INVOKING)), Some(With(Base(m), s.world.epoch, PREPARED)), Nothing)]
  {
    var p, u := Reserves(g, s, id, c, m, rules);
    assert DropCall(u, id).calls == s.calls;
    var q, v := Arms(g, u, id, c, m, rules);
    Join(g, s, p, u, q, v, rules);
    steps, t := p + q, v;
  }

  lemma FreeAfterPut(s: State, t: State, id: nat, c: nat)
    requires Free(s, c) && id in t.calls && t.calls == s.calls[id := t.calls[id]] && !Holds(t.calls[id])
    ensures Free(t, c)
  {}

  lemma Sends(g: Config, s: State, id: nat, c: nat, m: nat, rules: Rules) returns (steps: seq<Step>, t: State)
    requires id in s.calls && s.calls[id].Advance? && s.calls[id].phase.Cleared? && s.calls[id].index == m
    requires s.calls[id].ctrl == c && c in g.sites && c in s.world.wals
    ensures Leads(g, s, steps, t, rules)
    ensures t.world == Shipped(s.world, Shipment(c, m, g.sites[c].target, s.calls[id].epoch))
    ensures t.calls == s.calls[id := Phased(s.calls[id], Sent)]
  {
    OneStep(g, s, Step.Send(id), rules);
    steps, t := [Step.Send(id)], Apply(g, s, Step.Send(id));
  }

  predicate Poised(g: Config, s: State, id: nat, c: nat, m: nat) {
    && id in s.calls && s.calls[id].Advance? && s.calls[id].phase.Cleared? && s.calls[id].index == m
    && s.calls[id].ctrl == c && c in g.sites && c in s.world.wals
  }

  /** Store `c` has moved the first m objects, is at rest, and may start the next one. */
  predicate AtRest(g: Config, s: State, c: nat, m: nat) {
    && s.calls == map[] && Ready(g, s, c, m) && !Unknown(s.world.ledger) && StartAllowed(s.world.ledger, m)
    && s.world.wals[c].current == Some(Base(m)) && s.world.wals[c].staged.Nothing?
    && Pattern(s.world, m, g.sites[c].target)
  }

  /** The sender dies; what it sent last arrives. */
  lemma Arrives(g: Config, s: State, id: nat, rules: Rules) returns (steps: seq<Step>, t: State)
    requires s.calls.Keys == {id} && |s.world.sends| > 0
    requires Before(s.world, s.world.sends[|s.world.sends| - 1].index)
    ensures Leads(g, s, steps, t, rules) && t.calls == map[]
    ensures t.world == Landed(s.world, s.world.sends[|s.world.sends| - 1])
  {
    var a, b := Stop(id), Land(|s.world.sends| - 1);
    var u := Apply(g, s, a);
    t := Apply(g, u, b);
    assert t.calls == map[];
    TwoSteps(g, s, a, u, b, t, rules);
    steps := [a, b];
  }

  /** The m-th object has moved for store `c`, whose cursor and entry do not know it yet. */
  predicate Arrived(g: Config, s: State, c: nat, m: nat) {
    && s.calls == map[] && c in g.sites && c in s.world.wals && Owns(g, s.world, c) && Planned(g, s.world, c)
    && At(s.world, m, g.sites[c].target) && s.world.wals[c].staged.Nothing?
    && s.world.wals[c].current == Some(With(Base(m), s.world.epoch, INVOKING))
    && Records(s.world.ledger, s.world.owner, s.world.epoch, m, UNKNOWN)
  }

  /** The inspection of an arrived object comes as far as its last proof. */
  lemma Observes(g: Config, s: State, c: nat, m: nat, rules: Rules) returns (steps: seq<Step>, t: State)
    requires Arrived(g, s, c, m)
    ensures Leads(g, s, steps, t, rules) && t.world == s.world
    ensures t.calls == map[0 := Observe(c, s.world.wals[c].revision, With(Base(m), s.world.epoch, INVOKING), 2)]
  {
    var f := Observe(c, s.world.wals[c].revision, With(Base(m), s.world.epoch, INVOKING), 0);
    steps, t := Opens(g, s, ObserveRead(0, c), f, 2, rules);
  }

  lemma Finishes(g: Config, s: State, c: nat, m: nat, r: nat, rules: Rules) returns (steps: seq<Step>, t: State)
    requires c in g.sites && Owns(g, s.world, c) && Records(s.world.ledger, s.world.owner, s.world.epoch, m, UNKNOWN)
    requires s.calls == map[0 := Observe(c, r, With(Base(m), s.world.epoch, INVOKING), 2)]
    ensures Leads(g, s, steps, t, rules)
    ensures t == State(Outcomes(s.world, COMPLETE), map[0 := Observe(c, r, With(Base(m), s.world.epoch, INVOKING), 3)])
  {
    OneStep(g, s, FinishCas(0), rules);
    steps, t := [FinishCas(0)], Apply(g, s, FinishCas(0));
  }

  /** After the receipt, the store goes on to the next object. */
  lemma GoesOn(g: Config, s: State, c: nat, m: nat, e: nat, rules: Rules) returns (steps: seq<Step>, t: State)
    requires c in s.world.wals && s.world.wals[c].staged.Nothing?
    requires s.world.wals[c].current == Some(With(Base(m), e, INVOKING))
    requires s.calls == map[0 := Observe(c, s.world.wals[c].revision, With(Base(m), e, INVOKING), 3)]
    ensures Leads(g, s, steps, t, rules) && t.calls == map[]
    ensures t.world == s.world.(wals := s.world.wals[c := Wal(s.world.wals[c].revision + 1,
              Some(Base(m + 1)), Some(With(Base(m), e, INVOKING)), Nothing)])
  {
    var f := With(Base(m), e, INVOKING);
    OneStep(g, s, ObserveSave(0, Promoted), rules);
    steps := [ObserveSave(0, Promoted)];
    t := SaveBy(s, 0, Settled(f), Promoted, None);
    assert Settled(f) == Base(m + 1);
    assert t.calls == map[];
  }

  /** The receipt of a moved object is recorded, then the store goes on to the next one. */
  lemma Settles(g: Config, s: State, c: nat, m: nat, rules: Rules) returns (steps: seq<Step>, t: State)
    requires Arrived(g, s, c, m)
    ensures Leads(g, s, steps, t, rules) && t.calls == map[]
    ensures t.world == Outcomes(s.world, COMPLETE).(wals := s.world.wals[c := Wal(s.world.wals[c].revision + 1,
              Some(Base(m + 1)), Some(With(Base(m), s.world.epoch, INVOKING)), Nothing)])
  {
    var p, u := Observes(g, s, c, m, rules);
    var q, v := Finishes(g, u, c, m, s.world.wals[c].revision, rules);
    Join(g, s, p, u, q, v, rules);
    var x, w := GoesOn(g, v, c, m, s.world.epoch, rules);
    Join(g, s, p + q, v, x, w, rules);
    steps, t := p + q + x, w;
  }

  /** From rest, the next object is sent. */
  lemma Ships(g: Config, s: State, c: nat, m: nat, rules: Rules) returns (steps: seq<Step>, t: State)
    requires AtRest(g, s, c, m) && m < g.count
    ensures Leads(g, s, steps, t, rules) && t.calls.Keys == {0}
    ensures t.world.ledger == Changed(s.world.ledger, Entry(s.world.owner, s.world.epoch, Move(m), UNKNOWN))
    ensures t.world.owner == s.world.owner && t.world.epoch == s.world.epoch && t.world.moved == s.world.moved
    ensures t.world.settlements == s.world.settlements
    ensures t.world.sends == s.world.sends + [Shipment(c, m, g.sites[c].target, s.world.epoch)]
    ensures t.world.wals == s.world.wals[c := Wal(s.world.wals[c].revision + 2,
              Some(With(Base(m), s.world.epoch, INVOKING)), Some(With(Base(m), s.world.epoch, PREPARED)), Nothing)]
  {
    var p, u := Attempts(g, s, 0, c, m, rules);
    var q, v := Sends(g, u, 0, c, m, rules);
    Join(g, s, p, u, q, v, rules);
    steps, t := p + q, v;
  }

  /** The next object is sent and arrives; its cursor and its entry do not know yet. */
  lemma Delivers(g: Config, s: State, c: nat, m: nat, rules: Rules) returns (steps: seq<Step>, t: State)
    requires AtRest(g, s, c, m) && m < g.count
    ensures Leads(g, s, steps, t, rules) && Arrived(g, t, c, m) && Pattern(t.world, m + 1, g.sites[c].target)
    ensures t.world.owner == s.world.owner && t.world.settlements == s.world.settlements
  {
    var p, u := Ships(g, s, c, m, rules);
    var q, v := Arrives(g, u, 0, rules);
    Join(g, s, p, u, q, v, rules);
    steps, t := p + q, v;
  }

  lemma MovesOne(g: Config, s: State, c: nat, m: nat, rules: Rules) returns (steps: seq<Step>, t: State)
    requires AtRest(g, s, c, m) && m < g.count
    ensures Leads(g, s, steps, t, rules) && AtRest(g, t, c, m + 1)
    ensures t.world.owner == s.world.owner && t.world.settlements == s.world.settlements
  {
    var p, u := Delivers(g, s, c, m, rules);
    var q, v := Settles(g, u, c, m, rules);
    Join(g, s, p, u, q, v, rules);
    steps, t := p + q, v;
  }

  lemma {:induction false} MovesTo(g: Config, s: State, c: nat, m: nat, n: nat, rules: Rules)
    returns (steps: seq<Step>, t: State)
    requires AtRest(g, s, c, m) && m <= n <= g.count
    ensures Leads(g, s, steps, t, rules) && AtRest(g, t, c, n)
    ensures t.world.owner == s.world.owner && t.world.settlements == s.world.settlements
    decreases n - m
  {
    if m == n {
      steps, t := [], s;
    } else {
      var p, u := MovesOne(g, s, c, m, rules);
      var q, v := MovesTo(g, u, c, m + 1, n, rules);
      Join(g, s, p, u, q, v, rules);
      steps, t := p + q, v;
    }
  }
}
