/** Periodic clocks, idle modes and the claim-time budget, over exact (real) seconds. */
module Timing {
  import opened Basics

  datatype IdlePolicy = SLOW_DOWN | EXIT
  datatype Launcher = SSH | OS_SERVICE | EXTERNAL

  /** The commissioned profile; the cadences fixed by the owner are constants. */
  datatype Profile = Profile(
    inbox: nat, control: nat, watchdogHeartbeat: nat, fetcherHeartbeat: nat, fetcherFresh: nat,
    leaseRenew: nat, leaseStale: nat, standby: nat, supervision: real,
    visibility: nat, queue: nat, skew: nat, publicationWait: nat,
    idlePolicy: IdlePolicy, launcher: Option<(Launcher, nat)>)

  const NETWORK_FAST := 60
  const NETWORK_SLOW := 600
  const NETWORK_IDLE_AFTER := 3600.0
  const FETCHER_FAST := 20
  const FETCHER_SLOW := 1200
  const FETCHER_IDLE_AFTER := 1200.0
  const MAX_AGE := 1_000_000_000_000.0

  predicate InRange(v: nat) { 1 <= v <= 86400 }

  function Slack(p: Profile): nat { p.visibility + p.queue + 2 * p.skew }

  predicate ProfileOk(p: Profile) {
    && InRange(p.inbox) && InRange(p.control) && InRange(p.watchdogHeartbeat) && InRange(p.fetcherHeartbeat)
    && InRange(p.fetcherFresh) && InRange(p.leaseRenew) && InRange(p.leaseStale) && InRange(p.standby)
    && InRange(p.visibility) && InRange(p.queue) && InRange(p.skew) && InRange(p.publicationWait)
    && 0.01 <= p.supervision <= 1.0 && (p.launcher.Some? ==> InRange(p.launcher.value.1))
    && p.leaseStale > Slack(p) + (if p.leaseRenew < p.watchdogHeartbeat then p.watchdogHeartbeat else p.leaseRenew)
    && p.fetcherFresh > p.fetcherHeartbeat + Slack(p) && p.publicationWait > Slack(p)
  }

  // ---- Activity --------------------------------------------------------------------------------------

  function Max(a: real, b: real): real { if a < b then b else a }

  function Min(a: real, b: real): real { if a < b then a else b }

  function Abs(a: real): real { if a < 0.0 then -a else a }

  /** Age since the last newly accepted command; `known` is whether it can be trusted. */
  datatype Activity = Activity(monotonic: real, utc: real, anchorMonotonic: real, anchorUtc: real,
                               age: real, sequence: nat, known: bool)

  datatype Tick = Sample(monotonic: real, utc: real, trusted: bool) | Accepted(sequence: nat)

  function Ticked(a: Activity, skew: nat, t: Tick): Activity {
    match t
    case Sample(m, u, trusted) =>
      if m < a.monotonic then a
      else
        var elapsed, wall := m - a.monotonic, u - a.utc;
        if trusted && wall >= -(skew as real) then
          Activity(m, u, m, u, Min(MAX_AGE, a.age + Max(Max(elapsed, wall), 0.0)), a.sequence, true)
        else
          var drift := (u - a.anchorUtc) - (m - a.anchorMonotonic);
          a.(monotonic := m, utc := u, age := Min(MAX_AGE, a.age + elapsed), known := a.known && Abs(drift) <= skew as real)
    case Accepted(n) => if n == 0 || n <= a.sequence then a else a.(sequence := n, age := 0.0)
  }

  /** The image that is kept across restarts. */
  datatype Saved = Saved(age: real, sequence: nat, utc: real, known: bool)

  function Checkpoint(a: Activity): Saved { Saved(a.age, a.sequence, a.utc, a.known) }

  /** A new process trusts the wall clock for the time it was away, or not at all; what the old one
      knew of its own clock no longer counts. */
  function Restored(s: Saved, skew: nat, m: real, u: real, trusted: bool): Activity {
    var known := trusted && u - s.utc >= -(skew as real);
    Activity(m, u, m, u, if known then Min(MAX_AGE, s.age + Max(0.0, u - s.utc)) else s.age, s.sequence, known)
  }

  datatype Event = Ticks(tick: Tick) | Persists | Restarts(monotonic: real, utc: real, trusted: bool)

  /** A clock and the image of it that was persisted last. */
  datatype Life = Life(now: Activity, saved: Saved)

  function Lived(l: Life, skew: nat, e: Event): Life {
    match e
    case Ticks(t) => l.(now := Ticked(l.now, skew, t))
    case Persists => l.(saved := Checkpoint(l.now))
    case Restarts(m, u, trusted) => l.(now := Restored(l.saved, skew, m, u, trusted))
  }

  function LifeRun(l: Life, skew: nat, es: seq<Event>): Life
    decreases |es|
  {
    if es == [] then l else LifeRun(Lived(l, skew, es[0]), skew, es[1..])
  }

  /** The idle time that passed: `idle` so far, `kept` of it when the image was persisted.  A process
      counts by its monotonic clock, a restart goes back to the image and adds a trusted absence. */
  function Idle(l: Life, skew: nat, es: seq<Event>, idle: real, kept: real): real
    decreases |es|
  {
    if es == [] then idle
    else
      var next := Lived(l, skew, es[0]);
      match es[0]
      case Ticks(Sample(m, _, _)) => Idle(next, skew, es[1..], idle + Max(0.0, m - l.now.monotonic), kept)
      case Ticks(Accepted(_)) => Idle(next, skew, es[1..], idle, kept)
      case Persists => Idle(next, skew, es[1..], idle, idle)
      case Restarts(_, u, _) => Idle(next, skew, es[1..], if next.now.known then kept + Max(0.0, u - l.saved.utc) else kept, kept)
  }

  /** This event is not a command accepted for the first time. */
  predicate OnlyKnown(sequence: nat, e: Event) { e.Ticks? && e.tick.Accepted? ==> e.tick.sequence <= sequence }

  /** Idle time is never under-counted, across restarts: while no new command is accepted the age is
      at least the idle time that passed, up to its cap, and a repeated sequence changes nothing. */
  lemma {:induction false} IdleNeverUndercounted(l: Life, skew: nat, es: seq<Event>, idle: real, kept: real)
    requires Min(MAX_AGE, idle) <= l.now.age <= MAX_AGE && Min(MAX_AGE, kept) <= l.saved.age <= MAX_AGE
    requires l.now.sequence == l.saved.sequence && forall e | e in es :: OnlyKnown(l.now.sequence, e)
    ensures var t := LifeRun(l, skew, es);
      t.now.sequence == l.now.sequence && Min(MAX_AGE, Idle(l, skew, es, idle, kept)) <= t.now.age <= MAX_AGE
    decreases |es|
  {
    if es != [] {
      assert OnlyKnown(l.now.sequence, es[0]);
      var t := Lived(l, skew, es[0]);
      match es[0]
      case Ticks(Sample(m, _, _)) => IdleNeverUndercounted(t, skew, es[1..], idle + Max(0.0, m - l.now.monotonic), kept);
      case Ticks(Accepted(_)) => IdleNeverUndercounted(t, skew, es[1..], idle, kept);
      case Persists => IdleNeverUndercounted(t, skew, es[1..], idle, idle);
      case Restarts(_, u, _) =>
        IdleNeverUndercounted(t, skew, es[1..], if t.now.known then kept + Max(0.0, u - l.saved.utc) else kept, kept);
    }
  }

  /** Once trust in the clock is lost, only a trusted wall clock restores it: at a sample, or at a restart. */
  lemma {:induction false} TrustNeedsWall(l: Life, skew: nat, es: seq<Event>)
    requires !l.now.known
    requires forall e | e in es :: (e.Restarts? ==> !e.trusted) && (e.Ticks? && e.tick.Sample? ==> !e.tick.trusted)
    ensures !LifeRun(l, skew, es).now.known
    decreases |es|
  {
    if es != [] {
      assert es[0] in es;
      TrustNeedsWall(Lived(l, skew, es[0]), skew, es[1..]);
    }
  }

  class ActivityClock {
    var image: Activity
    const skew: nat

    constructor (monotonic: real, utc: real, s: nat)
      ensures image == Activity(monotonic, utc, monotonic, utc, 0.0, 0, true) && skew == s
    {
      image, skew := Activity(monotonic, utc, monotonic, utc, 0.0, 0, true), s;
    }

    constructor Restore(saved: Saved, monotonic: real, utc: real, trusted: bool, s: nat)
      ensures image == Restored(saved, s, monotonic, utc, trusted) && skew == s
    {
      skew := s;
      var elapsed := utc - saved.utc;
      var known := trusted && elapsed >= -(s as real);
      image := Activity(monotonic, utc, monotonic, utc,
                        if known then Min(MAX_AGE, saved.age + Max(0.0, elapsed)) else saved.age, saved.sequence, known);
    }

    method SampleClock(monotonic: real, utc: real, trusted: bool) returns (age: Option<real>)
      modifies this
      ensures image == Ticked(old(image), skew, Sample(monotonic, utc, trusted))
      ensures age == if monotonic < old(image).monotonic then None else Some(image.age)
    {
      if monotonic < image.monotonic { return None; }
      var elapsed, wall := monotonic - image.monotonic, utc - image.utc;
      if trusted && wall >= -(skew as real) {
        image := image.(age := Min(MAX_AGE, image.age + Max(Max(elapsed, wall), 0.0)), known := true,
                        anchorMonotonic := monotonic, anchorUtc := utc);
      } else {
        var drift := (utc - image.anchorUtc) - (monotonic - image.anchorMonotonic);
        image := image.(age := Min(MAX_AGE, image.age + elapsed), known := image.known && Abs(drift) <= skew as real);
      }
      image := image.(monotonic := monotonic, utc := utc);
      return Some(image.age);
    }
  }

  // ---- Modes -------------------------------------------------------------------------------------------

  datatype Mode = ACTIVE | BUSY | HOLD_CLOCK | SLOW | EXITED
  datatype Modes = Modes(network: nat, mode: Mode, poll: Option<nat>)

  function ModesOf(p: Profile, watchdog: Activity, fetcher: Activity, held: bool): Modes {
    var network := if !watchdog.known || watchdog.age < NETWORK_IDLE_AFTER then NETWORK_FAST else NETWORK_SLOW;
    if held then Modes(network, BUSY, Some(FETCHER_FAST))
    else if !fetcher.known then Modes(network, HOLD_CLOCK, Some(FETCHER_FAST))
    else if fetcher.age < FETCHER_IDLE_AFTER then Modes(network, ACTIVE, Some(FETCHER_FAST))
    else if p.idlePolicy.SLOW_DOWN? then Modes(network, SLOW, Some(FETCHER_SLOW))
    else Modes(network, EXITED, None)
  }

  /** The closed table that a mode refresh accepts. */
  predicate ModesOk(m: Modes) {
    (m.network == NETWORK_FAST || m.network == NETWORK_SLOW)
    && m.poll == (match m.mode case ACTIVE | BUSY | HOLD_CLOCK => Some(FETCHER_FAST) case SLOW => Some(FETCHER_SLOW) case EXITED => None)
  }

  // ---- The clock set --------------------------------------------------------------------------------------

  datatype Name = NETWORK | INBOX | FETCHER_POLL | CONTROL | WATCHDOG_HEARTBEAT | FETCHER_HEARTBEAT | LEASE | STANDBY | SUPERVISION

  datatype Clocks = Clocks(intervals: map<Name, Option<real>>, dueAt: map<Name, Option<real>>, lastNow: real)

  function Base(p: Profile, n: Name): real {
    match n
    case NETWORK => NETWORK_FAST as real case INBOX => p.inbox as real case FETCHER_POLL => FETCHER_FAST as real
    case CONTROL => p.control as real case WATCHDOG_HEARTBEAT => p.watchdogHeartbeat as real
    case FETCHER_HEARTBEAT => p.fetcherHeartbeat as real case LEASE => p.leaseRenew as real
    case STANDBY => p.standby as real case SUPERVISION => p.supervision
  }

  /** Every clock is present. */
  predicate Total(m: map<Name, Option<real>>) { forall n: Name :: n in m }

  function Started(p: Profile, now: real): Clocks {
    var intervals := map n: Name :: if n.CONTROL? || n.SUPERVISION? then None else Some(Base(p, n));
    Clocks(intervals, map n: Name :: if intervals[n].None? then None else Some(now + intervals[n].value), now)
  }

  /** The intervals a mode asks for, where it has a say. */
  function Wanted(p: Profile, m: Modes, n: Name, current: Option<real>): Option<real> {
    match n
    case NETWORK => Some(m.network as real)
    case FETCHER_POLL => if m.poll.Some? then Some(m.poll.value as real) else None
    case FETCHER_HEARTBEAT => if m.mode.EXITED? then None else Some(Base(p, n))
    case CONTROL | SUPERVISION => if m.mode.BUSY? then Some(Base(p, n)) else None
    case _ => current
  }

  predicate Refreshed(n: Name) { n.NETWORK? || n.FETCHER_POLL? || n.FETCHER_HEARTBEAT? || n.CONTROL? || n.SUPERVISION? }

  datatype Op = Due(now: real) | Completed(name: Name, now: real) | SetModes(modes: Modes, now: real)

  predicate Accepts(c: Clocks, op: Op) {
    match op
    case Due(now) => c.lastNow <= now
    case Completed(n, now) => n in c.dueAt && c.dueAt[n].Some? && n in c.intervals && c.intervals[n].Some? && c.lastNow <= now
    case SetModes(m, now) => ModesOk(m) && c.lastNow <= now
  }

  /** A refresh starts a clock that was off, and otherwise only ever brings it forward. */
  function RefreshDue(due: Option<real>, period: Option<real>, now: real): Option<real> {
    if period.None? then None
    else if due.None? then Some(now + period.value)
    else Some(Min(due.value, now + period.value))
  }

  function WithModes(p: Profile, c: Clocks, m: Modes, now: real): Clocks {
    Clocks(map n | n in c.intervals :: Wanted(p, m, n, c.intervals[n]),
           map n | n in c.dueAt && n in c.intervals ::
             if Refreshed(n) then RefreshDue(c.dueAt[n], Wanted(p, m, n, c.intervals[n]), now) else c.dueAt[n],
           now)
  }

  function After(p: Profile, c: Clocks, op: Op): Clocks {
    if !Accepts(c, op) then c
    else
      match op
      case Due(now) => c.(lastNow := now)
      case Completed(n, now) => c.(lastNow := now, dueAt := c.dueAt[n := Some(now + c.intervals[n].value)])
      case SetModes(m, now) => WithModes(p, c, m, now)
  }

  predicate ClockOk(interval: Option<real>, due: Option<real>, now: real) {
    && (due.None? <==> interval.None?)
    && (interval.Some? ==> 0.0 < interval.value && due.value <= now + interval.value)
  }

  predicate ClocksOk(c: Clocks) {
    && Total(c.intervals) && Total(c.dueAt)
    && forall n: Name :: ClockOk(c.intervals[n], c.dueAt[n], c.lastNow)
  }

  function Run(p: Profile, c: Clocks, ops: seq<Op>): Clocks
    decreases |ops|
  {
    if ops == [] then c else Run(p, After(p, c, ops[0]), ops[1..])
  }

  lemma StartedOk(p: Profile, now: real)
    requires ProfileOk(p)
    ensures ClocksOk(Started(p, now))
  {}

  lemma LaterOk(interval: Option<real>, due: Option<real>, now: real, later: real)
    requires ClockOk(interval, due, now) && now <= later
    ensures ClockOk(interval, due, later)
  {}

  lemma WantedPositive(p: Profile, m: Modes, n: Name, current: Option<real>)
    requires ProfileOk(p) && ModesOk(m) && (current.Some? ==> 0.0 < current.value)
    ensures Wanted(p, m, n, current).Some? ==> 0.0 < Wanted(p, m, n, current).value
    ensures !Refreshed(n) ==> Wanted(p, m, n, current) == current
  {}

  lemma RefreshOk(due: Option<real>, period: Option<real>, now: real)
    requires period.Some? ==> 0.0 < period.value
    ensures ClockOk(period, RefreshDue(due, period, now), now)
    ensures due.Some? && period.Some? ==> RefreshDue(due, period, now).value <= due.value
  {}

  lemma WithModesOk(p: Profile, c: Clocks, m: Modes, now: real)
    requires ProfileOk(p) && ClocksOk(c) && ModesOk(m) && c.lastNow <= now
    ensures ClocksOk(WithModes(p, c, m, now))
    ensures forall n: Name | c.dueAt[n].Some? && WithModes(p, c, m, now).dueAt[n].Some? ::
      WithModes(p, c, m, now).dueAt[n].value <= c.dueAt[n].value
  {
    var d := WithModes(p, c, m, now);
    assert Total(d.intervals) && Total(d.dueAt);
    forall n: Name
      ensures ClockOk(d.intervals[n], d.dueAt[n], now)
      ensures c.dueAt[n].Some? && d.dueAt[n].Some? ==> d.dueAt[n].value <= c.dueAt[n].value
    {
      WantedPositive(p, m, n, c.intervals[n]);
      RefreshOk(c.dueAt[n], Wanted(p, m, n, c.intervals[n]), now);
      LaterOk(c.intervals[n], c.dueAt[n], c.lastNow, now);
    }
  }

  /** A refresh that keeps a clock active never postpones it. */
  lemma AfterOk(p: Profile, c: Clocks, op: Op)
    requires ProfileOk(p) && ClocksOk(c)
    ensures ClocksOk(After(p, c, op)) && c.lastNow <= After(p, c, op).lastNow
    ensures op.SetModes? ==> forall n: Name | c.dueAt[n].Some? && After(p, c, op).dueAt[n].Some? ::
      After(p, c, op).dueAt[n].value <= c.dueAt[n].value
  {
    if Accepts(c, op) {
      if op.SetModes? {
        WithModesOk(p, c, op.modes, op.now);
      } else {
        var d := After(p, c, op);
        forall n: Name ensures ClockOk(d.intervals[n], d.dueAt[n], d.lastNow) {
          LaterOk(c.intervals[n], c.dueAt[n], c.lastNow, d.lastNow);
        }
      }
    }
  }

  /** In every run a clock is due exactly when it has an interval, and never later than one
      interval from now. */
  lemma {:induction false} RunOk(p: Profile, c: Clocks, ops: seq<Op>)
    requires ProfileOk(p) && ClocksOk(c)
    ensures ClocksOk(Run(p, c, ops)) && c.lastNow <= Run(p, c, ops).lastNow
    decreases |ops|
  {
    if ops != [] {
      AfterOk(p, c, ops[0]);
      RunOk(p, After(p, c, ops[0]), ops[1..]);
    }
  }

  /** From the start on, no clock is ever due later than its interval from the last sample. */
  lemma RunsFromStart(p: Profile, now: real, ops: seq<Op>)
    requires ProfileOk(p)
    ensures ClocksOk(Run(p, Started(p, now), ops)) && now <= Run(p, Started(p, now), ops).lastNow
  {
    StartedOk(p, now);
    RunOk(p, Started(p, now), ops);
  }

  /** The op does not change the interval of this clock, nor complete it. */
  predicate Leaves(p: Profile, n: Name, interval: real, op: Op) {
    match op
    case Due(_) => true
    case Completed(m, _) => m != n
    case SetModes(m, _) => Wanted(p, m, n, Some(interval)) == Some(interval)
  }

  lemma LeftAlone(p: Profile, c: Clocks, op: Op, n: Name, due: real, interval: real)
    requires ProfileOk(p) && ClocksOk(c) && c.intervals[n] == Some(interval) && c.dueAt[n] == Some(due)
    requires Leaves(p, n, interval, op) && due <= c.lastNow + interval
    ensures n in After(p, c, op).dueAt && n in After(p, c, op).intervals
    ensures After(p, c, op).intervals[n] == Some(interval) && After(p, c, op).dueAt[n] == Some(due)
  {
    if op.SetModes? && Accepts(c, op) {
      WantedPositive(p, op.modes, n, c.intervals[n]);
    }
  }

  lemma {:induction false} StaysPut(p: Profile, c: Clocks, ops: seq<Op>, n: Name, due: real, interval: real)
    requires ProfileOk(p) && ClocksOk(c) && c.intervals[n] == Some(interval) && due <= c.lastNow + interval
    requires c.dueAt[n] == Some(due) && forall op | op in ops :: Leaves(p, n, interval, op)
    ensures n in Run(p, c, ops).dueAt && Run(p, c, ops).dueAt[n] == Some(due)
    decreases |ops|
  {
    if ops != [] {
      assert ops[0] in ops;
      AfterOk(p, c, ops[0]);
      LeftAlone(p, c, ops[0], n, due, interval);
      StaysPut(p, After(p, c, ops[0]), ops[1..], n, due, interval);
    }
  }

  /** Two due completions of a clock whose interval stands are at least one interval apart:
      nothing is replayed after a long suspension. */
  lemma DueCompletionsSpaced(p: Profile, c: Clocks, n: Name, at: real, ops: seq<Op>, again: real)
    requires ProfileOk(p) && ClocksOk(c) && Accepts(c, Completed(n, at))
    requires forall op | op in ops :: Leaves(p, n, c.intervals[n].value, op)
    requires var d := Run(p, After(p, c, Completed(n, at)), ops);
      n in d.dueAt && d.dueAt[n].Some? && d.dueAt[n].value <= again
    ensures at + c.intervals[n].value <= again
  {
    AfterOk(p, c, Completed(n, at));
    StaysPut(p, After(p, c, Completed(n, at)), ops, n, at + c.intervals[n].value, c.intervals[n].value);
  }

  /** What `modes` computes is always accepted by a refresh. */
  lemma ModesAccepted(p: Profile, c: Clocks, watchdog: Activity, fetcher: Activity, held: bool, now: real)
    requires c.lastNow <= now
    ensures Accepts(c, SetModes(ModesOf(p, watchdog, fetcher, held), now))
    ensures var m := ModesOf(p, watchdog, fetcher, held).mode;
      m.SLOW? || m.EXITED? ==> !held && fetcher.known && FETCHER_IDLE_AFTER <= fetcher.age
  {}

  /** The order in which a refresh visits the clocks it sets. */
  function Position(n: Name): nat {
    match n
    case NETWORK => 0 case FETCHER_POLL => 1 case FETCHER_HEARTBEAT => 2 case CONTROL => 3 case SUPERVISION => 4 case _ => 5
  }

  function At(i: nat): (n: Name)
    requires i < 5
    ensures Position(n) == i && Refreshed(n) && forall m :: Position(m) == i ==> m == n
  {
    if i == 0 then NETWORK else if i == 1 then FETCHER_POLL else if i == 2 then FETCHER_HEARTBEAT
    else if i == 3 then CONTROL else SUPERVISION
  }

  class ClockSet {
    const profile: Profile
    var clocks: Clocks

    constructor (p: Profile, now: real)
      ensures profile == p && clocks == Started(p, now)
    {
      profile, clocks := p, Started(p, now);
    }

    method Complete(name: Name, now: real) returns (ok: bool)
      modifies this
      ensures ok == Accepts(old(clocks), Completed(name, now)) && clocks == After(profile, old(clocks), Completed(name, now))
    {
      ok := name in clocks.dueAt && clocks.dueAt[name].Some? && name in clocks.intervals && clocks.intervals[name].Some?
            && clocks.lastNow <= now;
      if ok {
        clocks := clocks.(lastNow := now, dueAt := clocks.dueAt[name := Some(now + clocks.intervals[name].value)]);
      }
    }

    /** The loop over the clocks that a mode has a say in. */
    method Changes(m: Modes, now: real) returns (intervals: map<Name, Option<real>>, dueAt: map<Name, Option<real>>)
      requires ClocksOk(clocks)
      ensures Total(intervals) && Total(dueAt)
      ensures forall n: Name | Position(n) == 5 :: intervals[n] == clocks.intervals[n] && dueAt[n] == clocks.dueAt[n]
      ensures forall n: Name | Position(n) < 5 ::
        intervals[n] == Wanted(profile, m, n, clocks.intervals[n])
        && dueAt[n] == RefreshDue(clocks.dueAt[n], Wanted(profile, m, n, clocks.intervals[n]), now)
    {
      intervals, dueAt := clocks.intervals, clocks.dueAt;
      var i := 0;
      while i < 5
        invariant 0 <= i <= 5 && Total(intervals) && Total(dueAt)
        invariant forall n: Name | i <= Position(n) :: intervals[n] == clocks.intervals[n] && dueAt[n] == clocks.dueAt[n]
        invariant forall n: Name | Position(n) < i ::
          intervals[n] == Wanted(profile, m, n, clocks.intervals[n])
          && dueAt[n] == RefreshDue(clocks.dueAt[n], Wanted(profile, m, n, clocks.intervals[n]), now)
      {
        var n := At(i);
        var period := Wanted(profile, m, n, intervals[n]);
        intervals, dueAt := intervals[n := period], dueAt[n := RefreshDue(dueAt[n], period, now)];
        i := i + 1;
      }
    }

    method Refresh(m: Modes, now: real) returns (ok: bool)
      requires ProfileOk(profile) && ClocksOk(clocks)
      modifies this
      ensures ok == Accepts(old(clocks), SetModes(m, now)) && clocks == After(profile, old(clocks), SetModes(m, now))
    {
      ok := ModesOk(m) && clocks.lastNow <= now;
      if !ok { return; }
      var intervals, dueAt := Changes(m, now);
      ChangesAreModes(profile, clocks, m, now, intervals, dueAt);
      clocks := Clocks(intervals, dueAt, now);
    }
  }

  lemma ChangesAreModes(p: Profile, c: Clocks, m: Modes, now: real, intervals: map<Name, Option<real>>, dueAt: map<Name, Option<real>>)
    requires ProfileOk(p) && ClocksOk(c) && ModesOk(m) && Total(intervals) && Total(dueAt)
    requires forall n: Name | Position(n) == 5 :: intervals[n] == c.intervals[n] && dueAt[n] == c.dueAt[n]
    requires forall n: Name | Position(n) < 5 ::
      intervals[n] == Wanted(p, m, n, c.intervals[n])
      && dueAt[n] == RefreshDue(c.dueAt[n], Wanted(p, m, n, c.intervals[n]), now)
    ensures Clocks(intervals, dueAt, now) == WithModes(p, c, m, now)
  {
    var goal := WithModes(p, c, m, now);
    forall n: Name ensures intervals[n] == goal.intervals[n] && dueAt[n] == goal.dueAt[n] {
      if Position(n) < 5 {
        assert Refreshed(n);
      } else {
        assert Position(n) == 5 && !Refreshed(n);
        WantedPositive(p, m, n, c.intervals[n]);
      }
    }
    SameMaps(intervals, goal.intervals);
    SameMaps(dueAt, goal.dueAt);
  }

  lemma SameMaps(a: map<Name, Option<real>>, b: map<Name, Option<real>>)
    requires Total(a) && Total(b) && forall n: Name :: a[n] == b[n]
    ensures a == b
  {
    assert a.Keys == b.Keys;
  }

  // ---- The claim-time budget --------------------------------------------------------------------------------

  datatype BudgetError = CLOCK_UNQUALIFIED | MANUAL_START_REQUIRED

  function Shortest(a: nat, b: Option<nat>): nat { if b.Some? && b.value < a then b.value else a }

  /** The longest wait for the next poll, over the fastest route that is open. */
  function Route(p: Profile, mode: Mode, routeFresh: bool): Result<nat, BudgetError> {
    var launched := if routeFresh && p.launcher.Some? then Some(p.launcher.value.1 + FETCHER_FAST) else None;
    match mode
    case HOLD_CLOCK => Err(CLOCK_UNQUALIFIED)
    case ACTIVE | BUSY => Ok(Shortest(FETCHER_FAST, launched))
    case SLOW => Ok(Shortest(FETCHER_SLOW, launched))
    case EXITED => if launched.Some? then Ok(launched.value) else Err(MANUAL_START_REQUIRED)
  }

  function ClaimBudget(p: Profile, mode: Mode, routeFresh: bool): Result<nat, BudgetError> {
    match Route(p, mode, routeFresh)
    case Err(e) => Err(e)
    case Ok(wait) => Ok(p.inbox + wait + p.visibility + p.queue + 2 * p.skew + 1)
  }

  /** One request on its way: the true time it was given, what the submitter's clock said, how long
      it waited in the transport queue, for the inbox check, to become visible and for the next
      poll, and what the fetcher's clock said at that poll. */
  datatype Delivery = Delivery(given: real, stamped: real, queued: real, inbox: real, visible: real, poll: real, read: real)

  function PollTime(d: Delivery): real { d.given + d.queued + d.inbox + d.visible + d.poll }

  predicate Within(p: Profile, wait: nat, d: Delivery) {
    && 0.0 <= d.queued <= p.queue as real && 0.0 <= d.inbox <= p.inbox as real
    && 0.0 <= d.visible <= p.visibility as real && 0.0 <= d.poll <= wait as real
    && Abs(d.stamped - d.given) <= p.skew as real && Abs(d.read - PollTime(d)) <= p.skew as real
  }

  predicate InTime(d: Delivery, ttl: nat) { d.read < d.stamped + ttl as real }

  /** A claim time is long enough for every delivery within the stated bounds exactly when it is at
      least the budget: no smaller whole number of seconds would do. */
  lemma BudgetIsExact(p: Profile, mode: Mode, routeFresh: bool, ttl: nat)
    requires ClaimBudget(p, mode, routeFresh).Ok?
    ensures (forall d | Within(p, Route(p, mode, routeFresh).value, d) :: InTime(d, ttl))
      <==> ClaimBudget(p, mode, routeFresh).value <= ttl
  {
    var wait := Route(p, mode, routeFresh).value;
    if ttl < ClaimBudget(p, mode, routeFresh).value {
      var skew := p.skew as real;
      var latest := p.queue as real + p.inbox as real + p.visibility as real + wait as real;
      var worst := Delivery(skew, 0.0, p.queue as real, p.inbox as real, p.visibility as real, wait as real, skew + latest + skew);
      assert Within(p, wait, worst) && !InTime(worst, ttl);
    } else {
      forall d | Within(p, wait, d) ensures InTime(d, ttl) {
        assert d.read <= PollTime(d) + p.skew as real && d.given <= d.stamped + p.skew as real;
      }
    }
  }

  /** The bound on the wait for a poll is the clock set's own: a poll is due within its interval. */
  lemma PollWithinRoute(p: Profile, c: Clocks, m: Modes, now: real)
    requires ProfileOk(p) && ClocksOk(c) && ModesOk(m) && c.lastNow <= now && m.poll.Some?
    ensures var d := After(p, c, SetModes(m, now));
      && d.dueAt[FETCHER_POLL].Some? && d.dueAt[FETCHER_POLL].value <= now + m.poll.value as real
      && (Route(p, m.mode, false).Ok? ==> m.poll.value == Route(p, m.mode, false).value)
  {
    AfterOk(p, c, SetModes(m, now));
  }
}
