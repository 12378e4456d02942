/**
  What the profile's bounds are for, which tables of modes there are, and when each clock is on,
  trusted or due, stated without the functions that compute it.  Small drifts between the wall
  clock and the monotonic one do not add up unnoticed.
 */
module TimingRules {
  import opened Basics
  import opened Timing

  // ---- The profile ----------------------------------------------------------------------------------

  /** One sign of life: the true time it was sent, what the sender's clock said, how long ago that was
      when the next is due, the delays on its way, and what the reader's clock said. */
  datatype Beat = Beat(sent: real, stamped: real, waited: real, queued: real, visible: real, read: real)

  predicate Ordinary(p: Profile, interval: nat, b: Beat) {
    && 0.0 <= b.waited <= interval as real && 0.0 <= b.queued <= p.queue as real && 0.0 <= b.visible <= p.visibility as real
    && Abs(b.stamped - b.sent) <= p.skew as real && Abs(b.read - (b.sent + b.waited + b.queued + b.visible)) <= p.skew as real
  }

  /** A sender that keeps its interval never looks older than this. */
  ghost predicate NeverStale(p: Profile, interval: nat, bound: nat) {
    forall b: Beat | Ordinary(p, interval, b) :: b.read - b.stamped < bound as real
  }

  lemma StaleExactly(p: Profile, interval: nat, bound: nat)
    ensures NeverStale(p, interval, bound) <==> interval + p.visibility + p.queue + 2 * p.skew < bound
  {
    if bound <= interval + p.visibility + p.queue + 2 * p.skew {
      var way := interval as real + p.queue as real + p.visibility as real;
      var worst := Beat(p.skew as real, 0.0, interval as real, p.queue as real, p.visibility as real, p.skew as real + way + p.skew as real);
      assert Ordinary(p, interval, worst);
    }
  }

  predicate Seconds(v: nat) { 0 < v <= 24 * 60 * 60 }

  /** A profile is accepted exactly when its numbers are in range and nobody who keeps the agreed
      intervals can look dead: an owner renewing its lease or beating, a fetcher beating, or a publication. */
  lemma ProfileExactly(p: Profile)
    ensures ProfileOk(p) <==>
      && Seconds(p.inbox) && Seconds(p.control) && Seconds(p.watchdogHeartbeat) && Seconds(p.fetcherHeartbeat)
      && Seconds(p.fetcherFresh) && Seconds(p.leaseRenew) && Seconds(p.leaseStale) && Seconds(p.standby)
      && Seconds(p.visibility) && Seconds(p.queue) && Seconds(p.skew) && Seconds(p.publicationWait)
      && 1.0 / 100.0 <= p.supervision <= 1.0 && (p.launcher == None || Seconds(p.launcher.value.1))
      && NeverStale(p, p.leaseRenew, p.leaseStale) && NeverStale(p, p.watchdogHeartbeat, p.leaseStale)
      && NeverStale(p, p.fetcherHeartbeat, p.fetcherFresh) && NeverStale(p, 0, p.publicationWait)
  {
    StaleExactly(p, p.leaseRenew, p.leaseStale);
    StaleExactly(p, p.watchdogHeartbeat, p.leaseStale);
    StaleExactly(p, p.fetcherHeartbeat, p.fetcherFresh);
    StaleExactly(p, 0, p.publicationWait);
  }

  // ---- Activity -----------------------------------------------------------------------------------------

  /** How far the wall clock has drifted from the monotonic one since they were last anchored. */
  function Drift(a: Activity): real { (a.utc - a.anchorUtc) - (a.monotonic - a.anchorMonotonic) }

  predicate Within(x: real, skew: nat) { -(skew as real) <= x <= skew as real }

  /** A sample ages the clock by the longest of the times that passed and may be believed; the wall
      clock is believed only when trusted and not set back by more than the skew. */
  lemma SampleExactly(a: Activity, skew: nat, m: real, u: real, trusted: bool)
    ensures var b := Ticked(a, skew, Sample(m, u, trusted));
      var wall := trusted && a.utc <= u + skew as real;
      if m < a.monotonic then b == a
      else
        && b.monotonic == m && b.utc == u && b.sequence == a.sequence
        && b.age <= MAX_AGE && b.age <= a.age + (if wall && m - a.monotonic < u - a.utc then u - a.utc else m - a.monotonic)
        && (b.age == MAX_AGE || b.age == a.age + (if wall && m - a.monotonic < u - a.utc then u - a.utc else m - a.monotonic))
        && (wall ==> b.known && b.anchorMonotonic == m && b.anchorUtc == u)
        && (!wall ==> b.anchorMonotonic == a.anchorMonotonic && b.anchorUtc == a.anchorUtc && (b.known <==> a.known && Within(Drift(b), skew)))
  {}

  /** Exactly a higher sequence than any before starts the age again; it mends no clock. */
  lemma AcceptExactly(a: Activity, skew: nat, n: nat)
    ensures Ticked(a, skew, Accepted(n)) == if a.sequence < n then a.(sequence := n, age := 0.0) else a
  {}

  /** A restart adds the absence, where the wall clock is believed, and anchors both clocks anew. */
  lemma RestartExactly(s: Saved, skew: nat, m: real, u: real, trusted: bool)
    ensures var b := Restored(s, skew, m, u, trusted);
      && b.monotonic == b.anchorMonotonic == m && b.utc == b.anchorUtc == u && b.sequence == s.sequence
      && (b.known <==> trusted && s.utc <= u + skew as real)
      && (!b.known || u <= s.utc ==> b.age == s.age || b.age == MAX_AGE < s.age)
      && (b.known && s.utc < u ==> b.age == if s.age + u - s.utc < MAX_AGE then s.age + u - s.utc else MAX_AGE)
      && Checkpoint(b) == Saved(b.age, b.sequence, u, b.known)
  {}

  function Sampled(a: Activity, skew: nat, ms: seq<(real, real)>): Activity
    decreases |ms|
  {
    if ms == [] then a else Sampled(Ticked(a, skew, Sample(ms[0].0, ms[0].1, false)), skew, ms[1..])
  }

  predicate Ascending(a: Activity, ms: seq<(real, real)>) {
    && (ms != [] ==> a.monotonic <= ms[0].0) && forall i | 0 < i < |ms| :: ms[i - 1].0 <= ms[i].0
  }

  /** Over untrusted samples a clock stays known exactly while the two clocks stay within the skew of
      each other since they were anchored: many small drifts do not add up unnoticed. */
  lemma {:induction false} TrustExactly(a: Activity, skew: nat, ms: seq<(real, real)>)
    requires Ascending(a, ms)
    ensures var b := Sampled(a, skew, ms);
      && b.anchorMonotonic == a.anchorMonotonic && b.anchorUtc == a.anchorUtc
      && (b.known <==> a.known && forall x | x in ms :: Within((x.1 - a.anchorUtc) - (x.0 - a.anchorMonotonic), skew))
    decreases |ms|
  {
    if ms != [] {
      var b := Ticked(a, skew, Sample(ms[0].0, ms[0].1, false));
      SampleExactly(a, skew, ms[0].0, ms[0].1, false);
      TrustExactly(b, skew, ms[1..]);
    }
  }

  // ---- Modes ---------------------------------------------------------------------------------------------

  /** Since when nothing has been accepted, for all that is known. */
  predicate IdleFor(a: Activity, seconds: real) { a.known && seconds <= a.age }

  lemma ModesExactly(p: Profile, watchdog: Activity, fetcher: Activity, held: bool)
    ensures var m := ModesOf(p, watchdog, fetcher, held);
      && m.network == (if IdleFor(watchdog, 3600.0) then 600 else 60)
      && (m.mode == BUSY <==> held) && (m.mode == HOLD_CLOCK <==> !held && !fetcher.known)
      && (m.mode == SLOW <==> !held && IdleFor(fetcher, 1200.0) && p.idlePolicy == SLOW_DOWN)
      && (m.mode == EXITED <==> !held && IdleFor(fetcher, 1200.0) && p.idlePolicy == EXIT)
      && m.poll == (if m.mode == EXITED then None else if m.mode == SLOW then Some(1200) else Some(20))
  {}

  /** Some profile and activity for which these are the modes. */
  ghost predicate Computable(m: Modes) {
    exists p: Profile, watchdog: Activity, fetcher: Activity, held: bool :: ModesOf(p, watchdog, fetcher, held) == m
  }

  /** A refresh accepts exactly the tables that can be computed. */
  lemma ModesOkExactly(m: Modes)
    ensures ModesOk(m) <==> Computable(m)
  {
    if ModesOk(m) {
      var p := Profile(5, 5, 30, 120, 300, 20, 120, 10, 0.25, 10, 30, 10, 120, if m.mode == EXITED then EXIT else SLOW_DOWN, None);
      var idle, recent := Activity(0.0, 0.0, 0.0, 0.0, 3600.0, 0, true), Activity(0.0, 0.0, 0.0, 0.0, 0.0, 0, true);
      var watchdog := if m.network == 600 then idle else recent;
      var fetcher := if m.mode == ACTIVE then recent else if m.mode == HOLD_CLOCK then recent.(known := false) else idle;
      assert ModesOf(p, watchdog, fetcher, m.mode == BUSY) == m;
    }
  }

  // ---- The clock set --------------------------------------------------------------------------------------

  /** Which clocks run before any mode is known, and after a refresh. */
  predicate Running(n: Name, mode: Option<Mode>) {
    && (n == CONTROL || n == SUPERVISION ==> mode == Some(BUSY))
    && (n == FETCHER_POLL || n == FETCHER_HEARTBEAT ==> mode != Some(EXITED))
  }

  /** With which interval. */
  function Period(p: Profile, n: Name, m: Modes): real {
    match n
    case NETWORK => m.network as real
    case FETCHER_POLL => if m.mode == SLOW then 1200.0 else 20.0
    case INBOX => p.inbox as real case CONTROL => p.control as real case SUPERVISION => p.supervision
    case WATCHDOG_HEARTBEAT => p.watchdogHeartbeat as real case FETCHER_HEARTBEAT => p.fetcherHeartbeat as real
    case LEASE => p.leaseRenew as real case STANDBY => p.standby as real
  }

  /** The clocks that no mode has a say in. */
  predicate Steady(n: Name) { n == INBOX || n == WATCHDOG_HEARTBEAT || n == LEASE || n == STANDBY }

  lemma StartedExactly(p: Profile, now: real)
    ensures var c := Started(p, now);
      && Total(c.intervals) && Total(c.dueAt) && c.lastNow == now
      && forall n: Name ::
           && c.intervals[n] == (if Running(n, None) then Some(Period(p, n, Modes(60, ACTIVE, Some(20)))) else None)
           && c.dueAt[n] == if Running(n, None) then Some(now + Period(p, n, Modes(60, ACTIVE, Some(20)))) else None
  {}

  lemma OpExactly(p: Profile, c: Clocks, op: Op)
    requires ClocksOk(c) && !op.SetModes?
    ensures var d := After(p, c, op);
      && d.intervals == c.intervals && d.lastNow == (if op.now < c.lastNow || (op.Completed? && c.dueAt[op.name] == None) then c.lastNow else op.now)
      && forall n: Name :: n in d.dueAt && d.dueAt[n] ==
           if op.Completed? && op.name == n && c.lastNow <= op.now && c.dueAt[n].Some? then Some(op.now + c.intervals[n].value) else c.dueAt[n]
  {}

  /** What a refresh makes of one clock: one that was running is only ever brought forward, one that
      was not starts now, and what the mode rules out stops. */
  predicate Becomes(p: Profile, n: Name, m: Modes, now: real, interval: Option<real>, due: Option<real>, newInterval: Option<real>, newDue: Option<real>) {
    if Steady(n) then newInterval == interval && newDue == due
    else if !Running(n, Some(m.mode)) then newInterval == newDue == None
    else
      var period := Period(p, n, m);
      && newInterval == Some(period) && newDue.Some?
      && (newDue == Some(now + period) || newDue == due)
      && newDue.value <= now + period && (due.Some? ==> newDue.value <= due.value)
  }

  lemma OneRefreshed(p: Profile, c: Clocks, m: Modes, now: real, n: Name)
    requires ModesOk(m) && n in c.intervals && n in c.dueAt
    ensures var d := WithModes(p, c, m, now);
      n in d.intervals && n in d.dueAt && Becomes(p, n, m, now, c.intervals[n], c.dueAt[n], d.intervals[n], d.dueAt[n])
  {}

  /** A refresh does that to every clock. */
  lemma RefreshExactly(p: Profile, c: Clocks, m: Modes, now: real)
    requires ClocksOk(c) && ModesOk(m) && c.lastNow <= now
    ensures var d := After(p, c, SetModes(m, now));
      && d.lastNow == now
      && forall n: Name :: n in d.intervals && n in d.dueAt && Becomes(p, n, m, now, c.intervals[n], c.dueAt[n], d.intervals[n], d.dueAt[n])
  {
    forall n: Name
      ensures var d := After(p, c, SetModes(m, now));
        n in d.intervals && n in d.dueAt && Becomes(p, n, m, now, c.intervals[n], c.dueAt[n], d.intervals[n], d.dueAt[n])
    {
      OneRefreshed(p, c, m, now, n);
    }
  }

  // ---- Routes -----------------------------------------------------------------------------------------------

  /** The ways a request can reach a fetcher, and how long each can take: the next poll, or a launch. */
  predicate Open(p: Profile, mode: Mode, routeFresh: bool, wait: nat) {
    || ((mode == ACTIVE || mode == BUSY) && wait == 20)
    || (mode == SLOW && wait == 1200)
    || (routeFresh && p.launcher.Some? && wait == p.launcher.value.1 + 20)
  }

  /** The wait is that of the fastest open route; without one the fetcher must be started by hand. */
  lemma RouteExactly(p: Profile, mode: Mode, routeFresh: bool)
    ensures var r := Route(p, mode, routeFresh);
      && (r == Err(CLOCK_UNQUALIFIED) <==> mode == HOLD_CLOCK)
      && (r == Err(MANUAL_START_REQUIRED) <==> mode != HOLD_CLOCK && forall wait: nat :: !Open(p, mode, routeFresh, wait))
      && (r.Ok? ==> Open(p, mode, routeFresh, r.value) && forall wait: nat | Open(p, mode, routeFresh, wait) :: r.value <= wait)
      && ClaimBudget(p, mode, routeFresh).Ok? == r.Ok?
      && (r.Err? ==> ClaimBudget(p, mode, routeFresh) == Err(r.error))
  {
    if mode == EXITED && routeFresh && p.launcher.Some? { assert Open(p, mode, routeFresh, p.launcher.value.1 + 20); }
    if mode == ACTIVE || mode == BUSY { assert Open(p, mode, routeFresh, 20); }
    if mode == SLOW { assert Open(p, mode, routeFresh, 1200); }
  }
}
