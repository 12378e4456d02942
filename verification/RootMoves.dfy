/**
  The controller as the program writes it: straight-line methods whose accesses to its store,
  to the shared document and to the provider may be interleaved with anything others do.
  Each method is a run of the protocol in which it performs a prefix of one fixed course.
 */
module RootMoves {
  import opened Basics
  import opened RootProtocol
  import opened RootOrder
  import opened RootPrefix
  import opened RootSafety
  import opened RootRuns
  import opened RootTheorems
  import opened RootEvidence
  import R = RootEarned

  /** The call that makes a step, if a call does; stopping a call is not its own doing. */
  function Caller(step: Step): Option<nat> {
    if step.Takeover? || step.PlanCas? || step.StartLands? || step.Land? || step.SettleWitness? || step.SettleCas?
       || step.Stop? then None
    else Some(step.id)
  }

  /** The steps one call has made. */
  function Own(steps: seq<Step>, id: nat): seq<Step> {
    if steps == [] then []
    else (if Caller(steps[0]) == Some(id) then [steps[0]] else []) + Own(steps[1..], id)
  }

  lemma {:induction false} OwnJoin(p: seq<Step>, q: seq<Step>, id: nat)
    ensures Own(p + q, id) == Own(p, id) + Own(q, id)
    decreases |p|
  {
    if p == [] {
      assert p + q == q;
    } else {
      OwnJoin(p[1..], q, id);
      FirstOf(p, q);
    }
  }

  lemma {:induction false} OwnIsHistory(steps: seq<Step>, id: nat, step: Step) returns (n: nat)
    requires step in Own(steps, id)
    ensures n < |steps| && steps[n] == step
    decreases |steps|
  {
    if Caller(steps[0]) == Some(id) && steps[0] == step {
      n := 0;
    } else {
      n := OwnIsHistory(steps[1..], id, step);
      n := n + 1;
    }
  }

  /** Nothing of the earlier history `p` is rewritten in `q`. */
  predicate Grown(p: seq<Step>, q: seq<Step>) { |p| <= |q| && p == q[..|p|] }

  lemma GrownOn(p: seq<Step>, q: seq<Step>, r: seq<Step>)
    requires Grown(p, q) && Grown(q, r)
    ensures Grown(p, r)
  {
    assert r[..|p|] == r[..|q|][..|p|];
  }

  /** What one `advance` does, in order. */
  predicate IsCourse(p: seq<Step>, id: nat, c: nat, prepare: Save, arm: Save) {
    && |p| == 11 && p[0] == Check(id, c) && p[1] == SavePrepared(id, prepare) && p[2] == IssueStart(id)
    && p[3] == StartConfirmed(id) && p[4] == Recheck(id) && p[5] == Lock(id) && p[6] == ProveLocked(id)
    && p[7] == Witness(id) && p[8] == Arm(id, arm) && p[9] == Clear(id) && p[10] == Step.Send(id)
  }

  /** A call reads its store, looks n times more, and then acts. */
  function Course(read: Step, n: nat, last: Step): (p: seq<Step>)
    requires IsRead(read)
    ensures |p| == n + 2 && p[0] == read && p[n + 1] == last
    ensures forall i | 1 <= i <= n :: p[i] == Look(read.id)
  {
    [read] + seq(n, _ => Look(read.id)) + [last]
  }

  /** What one inspection does: it reads the receipt, or else makes it. */
  function InspectCourse(id: nat, c: nat, receipt: Step, save: Save): (p: seq<Step>)
    ensures |p| == 5 && p[0] == ObserveRead(id, c) && p[1] == p[2] == Look(id) && p[3] == receipt && p[4] == ObserveSave(id, save)
  {
    [ObserveRead(id, c), Look(id), Look(id), receipt, ObserveSave(id, save)]
  }

  lemma SameLooks(id: nat, c: nat, some: Step, other: Step, save: Save)
    ensures InspectCourse(id, c, some, save)[..3] == InspectCourse(id, c, other, save)[..3]
  {}

  /** What a call reports: a check failed, the shared document or its own store did not confirm, or
      all done; and of an inspection that goes no further, where it found its object. */
  datatype Answer = REFUSED | UNCONFIRMED | DONE | IN_PLACE | CONFLICT | OWNER_SUPERSEDED

  /** What an inspection reports whose next look fails: the first look is the proof, after which the
      object is read; the second is the proof for a write. */
  function Finding(g: Config, s: State, id: nat, done: nat): Answer {
    if id !in s.calls || !s.calls[id].Observe? || s.calls[id].ctrl !in g.sites then REFUSED
    else
      var k, c := s.world, s.calls[id];
      if done == 1 && !InspectProof(g, k, c.ctrl, c.frame) then REFUSED
      else if Before(k, c.frame.index) then IN_PLACE
      else if !At(k, c.frame.index, g.sites[c.ctrl].target) then CONFLICT
      else if done == 1 && !(Owns(g, k, c.ctrl) && OfEpoch(k, c.frame)) then OWNER_SUPERSEDED
      else REFUSED
  }

  /** The shared world and everything that has happened in it. */
  class Domain {
    const config: Config
    var state: State
    ghost const start: State
    ghost var history: seq<Step>

    ghost predicate Valid() reads this { Initially(config, start) && Leads(config, start, history, state, Rules(false, false)) }

    constructor (g: Config, s: State)
      requires Initially(g, s)
      ensures Valid() && config == g && state == s && history == []
    {
      config, state, start, history := g, s, s, [];
    }

    /** One atomic access: it happens when its own checks pass, and otherwise changes nothing. */
    method Take(step: Step) returns (ok: bool)
      requires Valid()
      modifies this
      ensures Valid() && ok == Enabled(config, old(state), step)
      ensures ok ==> state == Apply(config, old(state), step) && history == old(history) + [step]
      ensures !ok ==> state == old(state) && history == old(history)
    {
      ok := Enabled(config, state, step);
      if ok {
        OneStep(config, state, step, Rules(false, false));
        Join(config, start, history, state, [step], Apply(config, state, step), Rules(false, false));
        state := Apply(config, state, step);
        history := history + [step];
      }
    }

    /** Whatever others attempt, in this order; call `id` is not theirs to make. */
    method Interleave(id: nat, others: seq<Step>)
      requires Valid()
      modifies this
      ensures Valid() && Grown(old(history), history) && Own(history, id) == old(Own(history, id))
    {
      var i := 0;
      while i < |others|
        invariant 0 <= i <= |others| && Valid()
        invariant Grown(old(history), history) && Own(history, id) == old(Own(history, id))
      {
        if Caller(others[i]) != Some(id) {
          OwnJoin(history, [others[i]], id);
          var _ := Take(others[i]);
        }
        i := i + 1;
      }
    }

    /** Others act, then this call makes the n-th access of its course. */
    method Next(id: nat, step: Step, others: seq<Step>, ghost course: seq<Step>, ghost n: nat) returns (ok: bool)
      requires Valid() && Caller(step) == Some(id)
      requires n < |course| && course[n] == step && Own(history, id) == course[..n]
      modifies this
      ensures Valid() && Grown(old(history), history)
      ensures Own(history, id) == course[..if ok then n + 1 else n]
    {
      Interleave(id, others);
      OwnJoin(history, [step], id);
      ok := Take(step);
    }

    /** A call looks on, until a look does not find what it must. */
    method LookOn(id: nat, n: nat, others: seq<seq<Step>>, ghost course: seq<Step>) returns (ok: bool, done: nat)
      requires Valid() && n < |others| && n < |course| && Own(history, id) == course[..1]
      requires forall i | 1 <= i <= n :: course[i] == Look(id)
      modifies this
      ensures Valid() && Grown(old(history), history)
      ensures 1 <= done <= n + 1 && ok == (done == n + 1) && Own(history, id) == course[..done]
    {
      ok, done := true, 1;
      while ok && done <= n
        invariant 1 <= done <= n + 1 && Valid() && (!ok ==> done <= n)
        invariant Grown(old(history), history) && Own(history, id) == course[..done]
        decreases n + 1 - done, ok
      {
        ghost var before := history;
        ok := Next(id, Look(id), others[done], course, done);
        GrownOn(old(history), before, history);
        if ok { done := done + 1; }
      }
    }

    /** A call reads its store, and looks on. */
    method Open(read: Step, n: nat, others: seq<seq<Step>>, ghost course: seq<Step>) returns (ok: bool, done: nat)
      requires Valid() && IsRead(read) && Own(history, read.id) == [] && n < |others| && n < |course|
      requires course[0] == read && forall i | 1 <= i <= n :: course[i] == Look(read.id)
      modifies this
      ensures Valid() && Grown(old(history), history)
      ensures done <= n + 1 && ok == (done == n + 1) && Own(history, read.id) == course[..done]
    {
      ok := Next(read.id, read, others[0], course, 0);
      done := 0;
      if ok {
        ghost var before := history;
        ok, done := LookOn(read.id, n, others, course);
        GrownOn(old(history), before, history);
      }
    }

    /** The whole course of a call that reads, looks n times and then acts. */
    method Perform(read: Step, n: nat, last: Step, others: seq<seq<Step>>) returns (answer: Answer, ghost done: nat)
      requires Valid() && IsRead(read) && Own(history, read.id) == [] && Caller(last) == Some(read.id) && |others| == n + 2
      modifies this
      ensures Valid() && Grown(old(history), history)
      ensures done <= n + 2 && Own(history, read.id) == Course(read, n, last)[..done]
      ensures answer == if done == n + 2 then DONE else if done == n + 1 then UNCONFIRMED else REFUSED
    {
      var ok;
      ok, done := Open(read, n, others, Course(read, n, last));
      if !ok { return REFUSED, done; }
      ghost var before := history;
      ok := Next(read.id, last, others[n + 1], Course(read, n, last), n + 1);
      GrownOn(old(history), before, history);
      if !ok { return UNCONFIRMED, done; }
      return DONE, n + 2;
    }
  }

  /** Whatever the methods below and everything between their accesses have done, no object was sent
      twice: when targets are told apart, or when sites are and every cancellation was current. */
  lemma DomainIsSafe(d: Domain, strict: bool)
    requires d.Valid() && Told(d.config, strict)
    requires strict ==> AllCurrent(d.config, d.start, d.history, Rules(true, false))
    ensures AtMostOnce(d.state.world) && OneInFlight(d.state.world)
    ensures strict ==> NoFalseDenial(d.state.world)
  {
    assert strict ==> Leads(d.config, d.start, d.history, d.state, Rules(true, false));
    assert Reachable(d.config, d.state, Rules(strict, false));
    ReachableSafe(d.config, d.state, strict, Rules(strict, false));
    InFlightOnce(d.config, d.state);
  }

  /** What a call has done in this domain was earned by its own checks. */
  lemma DomainEarned(d: Domain, id: nat, step: Step)
    requires d.Valid() && IsLast(step) && step in Own(d.history, id)
    ensures R.Earned(d.config, d.start, d.history, step)
  {
    var n := OwnIsHistory(d.history, id, step);
    R.ActionsAreEarned(d.config, d.start, d.history, d.state, n);
  }

  /** One controller: a store and the root it moves to. */
  class RootMoves {
    const domain: Domain
    const ctrl: nat

    constructor (d: Domain, c: nat)
      ensures domain == d && ctrl == c
    {
      domain, ctrl := d, c;
    }

    /** Takes a local cursor and then the shared entry. */
    method Reserve(id: nat, prepare: Save, others: seq<seq<Step>>, ghost course: seq<Step>) returns (answer: Answer, ghost done: nat)
      requires domain.Valid() && |others| == |course| == 11 && Own(domain.history, id) == course[..0]
      requires course[0] == Check(id, ctrl) && course[1] == SavePrepared(id, prepare)
      requires course[2] == IssueStart(id) && course[3] == StartConfirmed(id)
      modifies domain
      ensures domain.Valid() && Grown(old(domain.history), domain.history)
      ensures 0 <= done <= 4 && Own(domain.history, id) == course[..done]
      ensures answer == if done == 4 then DONE else if done < 2 then REFUSED else UNCONFIRMED
    {
      var ok := domain.Next(id, Check(id, ctrl), others[0], course, 0);
      if !ok { return REFUSED, 0; }
      ok := domain.Next(id, SavePrepared(id, prepare), others[1], course, 1);
      if !ok { return REFUSED, 1; }
      ok := domain.Next(id, IssueStart(id), others[2], course, 2);
      if !ok { return UNCONFIRMED, 2; }
      ok := domain.Next(id, StartConfirmed(id), others[3], course, 3);
      if !ok { return UNCONFIRMED, 3; }
      return DONE, 4;
    }

    /** Proves everything again, the second time under the store's lock. */
    method Prove(id: nat, others: seq<seq<Step>>, ghost course: seq<Step>) returns (answer: Answer, ghost done: nat)
      requires domain.Valid() && |others| == |course| == 11 && Own(domain.history, id) == course[..4]
      requires course[4] == Recheck(id) && course[5] == Lock(id) && course[6] == ProveLocked(id) && course[7] == Witness(id)
      modifies domain
      ensures domain.Valid() && Grown(old(domain.history), domain.history)
      ensures 4 <= done <= 8 && Own(domain.history, id) == course[..done]
      ensures answer == if done == 8 then DONE else REFUSED
    {
      var ok := domain.Next(id, Recheck(id), others[4], course, 4);
      if !ok { return REFUSED, 4; }
      ok := domain.Next(id, Lock(id), others[5], course, 5);
      if !ok { return REFUSED, 5; }
      ok := domain.Next(id, ProveLocked(id), others[6], course, 6);
      if !ok { return REFUSED, 6; }
      ok := domain.Next(id, Witness(id), others[7], course, 7);
      if !ok { return REFUSED, 7; }
      return DONE, 8;
    }

    /** Makes the possible-send boundary durable, then calls the provider. */
    method Invoke(id: nat, arm: Save, others: seq<seq<Step>>, ghost course: seq<Step>) returns (answer: Answer, ghost done: nat)
      requires domain.Valid() && |others| == |course| == 11 && Own(domain.history, id) == course[..8]
      requires course[8] == Arm(id, arm) && course[9] == Clear(id) && course[10] == Step.Send(id)
      modifies domain
      ensures domain.Valid() && Grown(old(domain.history), domain.history)
      ensures 8 <= done <= 11 && Own(domain.history, id) == course[..done]
      ensures answer == if done == 11 then DONE else REFUSED
    {
      var ok := domain.Next(id, Arm(id, arm), others[8], course, 8);
      if !ok { return REFUSED, 8; }
      ok := domain.Next(id, Clear(id), others[9], course, 9);
      if !ok { return REFUSED, 9; }
      ok := domain.Next(id, Step.Send(id), others[10], course, 10);
      if !ok { return REFUSED, 10; }
      return DONE, 11;
    }

    /** `others` says what happens before each access; `prepare` and `arm` how far each save gets.
        The call performs the first `done` steps of its course, and reports how it ended. */
    method Advance(id: nat, prepare: Save, arm: Save, others: seq<seq<Step>>, ghost course: seq<Step>)
      returns (answer: Answer, ghost done: nat)
      requires domain.Valid() && Own(domain.history, id) == [] && |others| == 11
      requires IsCourse(course, id, ctrl, prepare, arm)
      modifies domain
      ensures domain.Valid() && Grown(old(domain.history), domain.history)
      ensures done <= 11 && Own(domain.history, id) == course[..done]
      ensures answer == if done == 11 then DONE else if done == 2 || done == 3 then UNCONFIRMED else REFUSED
      ensures answer == DONE ==> R.Earned(domain.config, domain.start, domain.history, Step.Send(id))
    {
      answer, done := Reserve(id, prepare, others, course);
      if answer == DONE {
        ghost var reserved := domain.history;
        answer, done := Prove(id, others, course);
        GrownOn(old(domain.history), reserved, domain.history);
        if answer == DONE {
          ghost var proven := domain.history;
          answer, done := Invoke(id, arm, others, course);
          GrownOn(old(domain.history), proven, domain.history);
          if answer == DONE { DomainEarned(domain, id, Step.Send(id)); }
        }
      }
    }

    /** Adopts the plan, for the first time or behind the prefix that has already moved. */
    method Begin(read: Step, save: Save, others: seq<seq<Step>>) returns (answer: Answer, ghost done: nat)
      requires domain.Valid() && (read.BeginInitial? || read.BeginResumed?) && read.ctrl == ctrl
      requires Own(domain.history, read.id) == [] && |others| == 3
      modifies domain
      ensures domain.Valid() && Grown(old(domain.history), domain.history)
      ensures done <= 3 && Own(domain.history, read.id) == Course(read, 1, BeginSave(read.id, save))[..done]
      ensures answer == if done == 3 then DONE else if done == 2 then UNCONFIRMED else REFUSED
      ensures answer == DONE ==> R.Earned(domain.config, domain.start, domain.history, BeginSave(read.id, save))
    {
      answer, done := domain.Perform(read, 1, BeginSave(read.id, save), others);
      if answer == DONE { DomainEarned(domain, read.id, BeginSave(read.id, save)); }
    }

    /** Records an object seen at the target: in the document unless it is already there, then locally. */
    method Inspect(id: nat, save: Save, others: seq<seq<Step>>) returns (answer: Answer, done: nat, ghost receipt: Step)
      requires domain.Valid() && Own(domain.history, id) == [] && |others| == 6
      modifies domain
      ensures domain.Valid() && Grown(old(domain.history), domain.history)
      ensures receipt == ObserveAfter(id) || receipt == FinishCas(id)
      ensures done <= 5 && Own(domain.history, id) == InspectCourse(id, ctrl, receipt, save)[..done]
      ensures answer == if done == 5 then DONE else if done >= 3 then UNCONFIRMED else if done == 0 then REFUSED
                        else Finding(domain.config, domain.state, id, done)
      ensures answer == DONE ==> R.Earned(domain.config, domain.start, domain.history, ObserveSave(id, save))
    {
      receipt := ObserveAfter(id);
      var ok;
      ok, done := domain.Open(ObserveRead(id, ctrl), 2, others, InspectCourse(id, ctrl, receipt, save));
      if !ok && done == 0 { return REFUSED, done, receipt; }
      if !ok { return Finding(domain.config, domain.state, id, done), done, receipt; }
      ghost var before := domain.history;
      ok, receipt := Receive(id, save, others[3], others[4]);
      GrownOn(old(domain.history), before, domain.history);
      if !ok { return UNCONFIRMED, 3, receipt; }
      before := domain.history;
      ok := MoveIndex(id, save, receipt, others[5]);
      GrownOn(old(domain.history), before, domain.history);
      return if ok then DONE else UNCONFIRMED, if ok then 5 else 4, receipt;
    }

    /** The store's own index, once the receipt is read. */
    method MoveIndex(id: nat, save: Save, ghost receipt: Step, others: seq<Step>) returns (ok: bool)
      requires receipt == ObserveAfter(id) || receipt == FinishCas(id)
      requires domain.Valid() && Own(domain.history, id) == InspectCourse(id, ctrl, receipt, save)[..4]
      modifies domain
      ensures domain.Valid() && Grown(old(domain.history), domain.history)
      ensures Own(domain.history, id) == InspectCourse(id, ctrl, receipt, save)[..if ok then 5 else 4]
      ensures ok ==> R.Earned(domain.config, domain.start, domain.history, ObserveSave(id, save))
    {
      ok := domain.Next(id, ObserveSave(id, save), others, InspectCourse(id, ctrl, receipt, save), 4);
      if ok { DomainEarned(domain, id, ObserveSave(id, save)); }
    }

    /** Reads the receipt, and finishes the shared entry when it is not COMPLETE yet. */
    method Receive(id: nat, save: Save, some: seq<Step>, others: seq<Step>) returns (ok: bool, ghost receipt: Step)
      requires domain.Valid() && Own(domain.history, id) == InspectCourse(id, ctrl, ObserveAfter(id), save)[..3]
      modifies domain
      ensures domain.Valid() && Grown(old(domain.history), domain.history)
      ensures receipt == ObserveAfter(id) || receipt == FinishCas(id)
      ensures Own(domain.history, id) == InspectCourse(id, ctrl, receipt, save)[..if ok then 4 else 3]
    {
      receipt := ObserveAfter(id);
      ok := domain.Next(id, ObserveAfter(id), some, InspectCourse(id, ctrl, receipt, save), 3);
      if !ok {
        ghost var before := domain.history;
        receipt := FinishCas(id);
        SameLooks(id, ctrl, ObserveAfter(id), receipt, save);
        ok := domain.Next(id, FinishCas(id), others, InspectCourse(id, ctrl, receipt, save), 3);
        GrownOn(old(domain.history), before, domain.history);
      }
    }

    /** Fences a cursor that was never armed; the shared entry stays UNKNOWN. */
    method RevokePrepared(id: nat, save: Save, others: seq<seq<Step>>) returns (answer: Answer, ghost done: nat)
      requires domain.Valid() && Own(domain.history, id) == [] && |others| == 4
      modifies domain
      ensures domain.Valid() && Grown(old(domain.history), domain.history)
      ensures done <= 4 && Own(domain.history, id) == Course(RevokeRead(id, ctrl), 2, RevokeSave(id, save))[..done]
      ensures answer == if done == 4 then DONE else if done == 3 then UNCONFIRMED else REFUSED
      ensures answer == DONE ==> R.Earned(domain.config, domain.start, domain.history, RevokeSave(id, save))
    {
      answer, done := domain.Perform(RevokeRead(id, ctrl), 2, RevokeSave(id, save), others);
      if answer == DONE { DomainEarned(domain, id, RevokeSave(id, save)); }
    }

    /** Clears a revoked cursor: the revocation, a proof, the receipt, the revocation again, another proof. */
    method ResumeRevoked(id: nat, save: Save, others: seq<seq<Step>>) returns (answer: Answer, ghost done: nat)
      requires domain.Valid() && Own(domain.history, id) == [] && |others| == 7
      modifies domain
      ensures domain.Valid() && Grown(old(domain.history), domain.history)
      ensures done <= 7 && Own(domain.history, id) == Course(ResumeRead(id, ctrl), 5, ResumeSave(id, save))[..done]
      ensures answer == if done == 7 then DONE else if done == 6 then UNCONFIRMED else REFUSED
      ensures answer == DONE ==> R.Earned(domain.config, domain.start, domain.history, ResumeSave(id, save))
    {
      answer, done := domain.Perform(ResumeRead(id, ctrl), 5, ResumeSave(id, save), others);
      if answer == DONE { DomainEarned(domain, id, ResumeSave(id, save)); }
    }

    /** Records NOT_DISPATCHED for a revoked cursor, on what was read when the call began. */
    method SettleRevoked(id: nat, actor: nat, others: seq<seq<Step>>) returns (answer: Answer, ghost done: nat)
      requires domain.Valid() && Own(domain.history, id) == [] && |others| == 3
      modifies domain
      ensures domain.Valid() && Grown(old(domain.history), domain.history)
      ensures done <= 3 && Own(domain.history, id) == Course(CancelRead(id, actor, ctrl), 1, CancelCas(id))[..done]
      ensures answer == if done == 3 then DONE else if done == 2 then UNCONFIRMED else REFUSED
      ensures answer == DONE ==> R.Earned(domain.config, domain.start, domain.history, CancelCas(id))
    {
      answer, done := domain.Perform(CancelRead(id, actor, ctrl), 1, CancelCas(id), others);
      if answer == DONE { DomainEarned(domain, id, CancelCas(id)); }
    }

    /** Promotes what is staged, after a proof of it outside the lock. */
    method RecoverLocal(id: nat, others: seq<seq<Step>>) returns (answer: Answer, ghost done: nat)
      requires domain.Valid() && Own(domain.history, id) == [] && |others| == 3
      modifies domain
      ensures domain.Valid() && Grown(old(domain.history), domain.history)
      ensures done <= 3 && Own(domain.history, id) == Course(RecoverRead(id, ctrl), 1, Recover(id))[..done]
      ensures answer == if done == 3 then DONE else if done == 2 then UNCONFIRMED else REFUSED
      ensures answer == DONE ==> R.Earned(domain.config, domain.start, domain.history, Recover(id))
    {
      answer, done := domain.Perform(RecoverRead(id, ctrl), 1, Recover(id), others);
      if answer == DONE { DomainEarned(domain, id, Recover(id)); }
    }
  }
}
