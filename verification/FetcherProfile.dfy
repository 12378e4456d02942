/**
  A fetcher's report of itself, and its compact code inside an enrollment record.  Every valid report
  has one code, every accepted code one report; which reports a fetcher can compute is narrower
  than which are valid.
 */
module FetcherProfile {
  import opened Basics
  import C = Codecs
  import T = Timing

  datatype Interpreter = PYTHON | PYTHON3 | PWSH | POWERSHELL | BASH | SH
  datatype InterpreterState = UNAVAILABLE | DISABLED | ENABLED | UNQUALIFIED
  datatype OperatingSystem = WINDOWS | LINUX | OTHER_SYSTEM
  datatype Architecture = X64 | ARM64 | X86 | OTHER_ARCHITECTURE
  datatype LaunchMode = DESKTOP_SESSION | OS_SERVICE | EXTERNAL

  const INTERPRETERS := [PYTHON, PYTHON3, PWSH, POWERSHELL, BASH, SH]
  const STATES := [UNAVAILABLE, DISABLED, ENABLED, UNQUALIFIED]
  const SYSTEMS := [WINDOWS, LINUX, OTHER_SYSTEM]
  const ARCHITECTURES := [X64, ARM64, X86, OTHER_ARCHITECTURE]
  const LAUNCH_MODES := [DESKTOP_SESSION, OS_SERVICE, EXTERNAL]
  const MODES := [T.ACTIVE, T.SLOW, T.BUSY, T.HOLD_CLOCK, T.EXITED]

  const MAX_REVISION := 0x7fff_ffff_ffff_ffff
  const MAX_TIME := 1_000_000_000_000

  datatype Info = Info(state: InterpreterState, version: Option<(int, int, int)>)
  datatype TimingPart = TimingPart(fast: int, slow: int, idleAfter: int, exits: bool, heartbeat: nat, freshFor: nat,
                                   launcher: Option<(T.Launcher, nat)>)
  datatype Polling = Polling(mode: T.Mode, poll: Option<int>, observedAt: int, clockKnown: bool, nextCheck: Option<int>)

  datatype Report = Report(
    revision: int, build: nat, system: OperatingSystem, architecture: Architecture, launch: LaunchMode,
    interpreters: map<Interpreter, Info>, inlineCommands: bool, scriptArtifacts: bool, timing: TimingPart, polling: Polling)

  predicate VersionOk(v: Option<(int, int, int)>) {
    v.Some? ==> 0 <= v.value.0 <= 65535 && 0 <= v.value.1 <= 65535 && 0 <= v.value.2 <= 65535
  }

  predicate InfoOk(i: Info) {
    VersionOk(i.version) && (i.state.ENABLED? ==> i.version.Some?) && (i.state.UNAVAILABLE? ==> i.version.None?)
  }

  /** The timing part of a report, with the defaults of everything it does not carry. */
  function ProfileOf(t: TimingPart): T.Profile {
    T.Profile(5, 5, 30, t.heartbeat, t.freshFor, 20, 120, 10, 0.25, 10, 30, 10, 120,
              if t.exits then T.EXIT else T.SLOW_DOWN, t.launcher)
  }

  function PollOf(m: T.Mode): Option<int> { match m case EXITED => None case SLOW => Some(1200) case _ => Some(20) }

  predicate PollingOk(p: Polling, exits: bool) {
    && 0 <= p.observedAt <= MAX_TIME && p.poll == PollOf(p.mode)
    && (if p.poll.None? then p.nextCheck.None? else p.nextCheck == Some(p.observedAt + p.poll.value) && p.nextCheck.value <= MAX_TIME)
    && (p.mode.SLOW? ==> p.clockKnown && !exits) && (p.mode.EXITED? ==> p.clockKnown && exits)
  }

  predicate ReportOk(r: Report) {
    && 1 <= r.revision <= MAX_REVISION
    && Total(r.interpreters) && (forall n: Interpreter :: InfoOk(r.interpreters[n]))
    && (r.inlineCommands || r.scriptArtifacts ==> exists n: Interpreter :: n in r.interpreters && r.interpreters[n].state.ENABLED?)
    && r.timing.fast == 20 && r.timing.slow == 1200 && r.timing.idleAfter == 1200 && T.ProfileOk(ProfileOf(r.timing))
    && PollingOk(r.polling, r.timing.exits)
  }

  // ---- The code ----------------------------------------------------------------------------------------

  /** Positions for enumerations, 0 or 1 for flags; what follows from the rest is left out. */
  datatype ReportCode = ReportCode(
    version: int, enrollment: int, revision: int, build: nat, system: int, architecture: int, launch: int,
    interpreters: seq<(int, Option<(int, int, int)>)>, features: seq<int>,
    exits: int, heartbeat: nat, freshFor: nat, launcher: Option<(T.Launcher, nat)>,
    mode: int, observedAt: int, clockKnown: int)

  function Bit(b: bool): int { if b then 1 else 0 }

  predicate IsBit(c: int) { c == 0 || c == 1 }

  lemma Chosen()
    ensures (forall n: Interpreter :: n in INTERPRETERS) && (forall s: InterpreterState :: s in STATES)
    ensures (forall s: OperatingSystem :: s in SYSTEMS) && (forall a: Architecture :: a in ARCHITECTURES)
    ensures (forall l: LaunchMode :: l in LAUNCH_MODES) && (forall m: T.Mode :: m in MODES)
  {
    forall n: Interpreter ensures n in INTERPRETERS {
      match n case PYTHON => assert INTERPRETERS[0] == n; case PYTHON3 => assert INTERPRETERS[1] == n;
              case PWSH => assert INTERPRETERS[2] == n; case POWERSHELL => assert INTERPRETERS[3] == n;
              case BASH => assert INTERPRETERS[4] == n; case SH => assert INTERPRETERS[5] == n;
    }
    forall s: InterpreterState ensures s in STATES {
      match s case UNAVAILABLE => assert STATES[0] == s; case DISABLED => assert STATES[1] == s;
              case ENABLED => assert STATES[2] == s; case UNQUALIFIED => assert STATES[3] == s;
    }
    forall s: OperatingSystem ensures s in SYSTEMS {
      match s case WINDOWS => assert SYSTEMS[0] == s; case LINUX => assert SYSTEMS[1] == s; case OTHER_SYSTEM => assert SYSTEMS[2] == s;
    }
    forall a: Architecture ensures a in ARCHITECTURES {
      match a case X64 => assert ARCHITECTURES[0] == a; case ARM64 => assert ARCHITECTURES[1] == a;
              case X86 => assert ARCHITECTURES[2] == a; case OTHER_ARCHITECTURE => assert ARCHITECTURES[3] == a;
    }
    forall l: LaunchMode ensures l in LAUNCH_MODES {
      match l case DESKTOP_SESSION => assert LAUNCH_MODES[0] == l; case OS_SERVICE => assert LAUNCH_MODES[1] == l;
              case EXTERNAL => assert LAUNCH_MODES[2] == l;
    }
    forall m: T.Mode ensures m in MODES {
      match m case ACTIVE => assert MODES[0] == m; case SLOW => assert MODES[1] == m; case BUSY => assert MODES[2] == m;
              case HOLD_CLOCK => assert MODES[3] == m; case EXITED => assert MODES[4] == m;
    }
  }

  function InfoCode(i: Info): (int, Option<(int, int, int)>) {
    Chosen();
    (C.Position(STATES, i.state), i.version)
  }

  predicate Total(m: map<Interpreter, Info>) { forall n: Interpreter :: n in m }

  /** The interpreters in their fixed order. */
  function InterpreterCodes(m: map<Interpreter, Info>): (r: seq<(int, Option<(int, int, int)>)>)
    requires Total(m)
    ensures |r| == 6 && forall i | 0 <= i < 6 :: r[i] == InfoCode(m[INTERPRETERS[i]])
  {
    seq(6, i requires 0 <= i < 6 => InfoCode(m[INTERPRETERS[i]]))
  }

  predicate InfoCodesOk(cs: seq<(int, Option<(int, int, int)>)>) {
    |cs| == 6 && forall i | 0 <= i < 6 :: C.Code(STATES, cs[i].0)
  }

  function InterpretersOf(cs: seq<(int, Option<(int, int, int)>)>): (m: map<Interpreter, Info>)
    requires InfoCodesOk(cs)
    ensures Total(m)
  {
    Chosen();
    map n: Interpreter :: var i := C.Position(INTERPRETERS, n); Info(STATES[cs[i].0], cs[i].1)
  }

  lemma InterpretersBack(m: map<Interpreter, Info>)
    requires Total(m)
    ensures InfoCodesOk(InterpreterCodes(m)) && InterpretersOf(InterpreterCodes(m)) == m
  {
    Chosen();
    var cs := InterpreterCodes(m);
    forall i | 0 <= i < 6 ensures C.Code(STATES, cs[i].0) { assert cs[i] == InfoCode(m[INTERPRETERS[i]]); }
    var d := InterpretersOf(cs);
    assert d.Keys == m.Keys;
    forall n: Interpreter ensures d[n] == m[n] {
      assert cs[C.Position(INTERPRETERS, n)] == InfoCode(m[n]);
    }
  }

  lemma CodesBack(cs: seq<(int, Option<(int, int, int)>)>)
    requires InfoCodesOk(cs)
    ensures InterpreterCodes(InterpretersOf(cs)) == cs
  {
    Chosen();
    DistinctChoices();
    var m := InterpretersOf(cs);
    forall i | 0 <= i < 6 ensures InterpreterCodes(m)[i] == cs[i] {
      C.PositionOf(INTERPRETERS, i);
      C.PositionOf(STATES, cs[i].0);
    }
  }

  function Compact(r: Report, enrollment: int): Result<ReportCode, C.Error> {
    if !ReportOk(r) then Err(C.PROFILE_SCHEMA)
    else if !(1 <= enrollment <= MAX_REVISION) then Err(C.ENROLLMENT_REVISION)
    else
      Chosen();
      Ok(ReportCode(1, enrollment, r.revision, r.build, C.Position(SYSTEMS, r.system), C.Position(ARCHITECTURES, r.architecture),
                    C.Position(LAUNCH_MODES, r.launch),
                    InterpreterCodes(r.interpreters),
                    [Bit(r.inlineCommands), Bit(r.scriptArtifacts)],
                    Bit(r.timing.exits), r.timing.heartbeat, r.timing.freshFor, r.timing.launcher,
                    C.Position(MODES, r.polling.mode), r.polling.observedAt, Bit(r.polling.clockKnown)))
  }

  predicate CodeOk(c: ReportCode, enrollment: int) {
    && c.version == 1 && 1 <= c.enrollment <= MAX_REVISION && c.enrollment == enrollment
    && C.Code(SYSTEMS, c.system) && C.Code(ARCHITECTURES, c.architecture) && C.Code(LAUNCH_MODES, c.launch)
    && InfoCodesOk(c.interpreters) && |c.features| == 2 && IsBit(c.features[0]) && IsBit(c.features[1]) && IsBit(c.exits)
    && C.Code(MODES, c.mode) && IsBit(c.clockKnown)
  }

  /** The report a code stands for, before it is validated. */
  function Decoded(c: ReportCode): Report
    requires CodeOk(c, c.enrollment)
  {
    var mode := MODES[c.mode];
    var poll := PollOf(mode);
    Report(c.revision, c.build, SYSTEMS[c.system], ARCHITECTURES[c.architecture], LAUNCH_MODES[c.launch],
           InterpretersOf(c.interpreters),
           c.features[0] == 1, c.features[1] == 1,
           TimingPart(20, 1200, 1200, c.exits == 1, c.heartbeat, c.freshFor, c.launcher),
           Polling(mode, poll, c.observedAt, c.clockKnown == 1, if poll.None? then None else Some(c.observedAt + poll.value)))
  }

  function Expand(c: ReportCode, enrollment: int): Result<Report, C.Error> {
    if !CodeOk(c, enrollment) then Err(C.PROFILE_CODEC)
    else if !ReportOk(Decoded(c)) then Err(C.PROFILE_SCHEMA)
    else if Compact(Decoded(c), enrollment) != Ok(c) then Err(C.PROFILE_CODEC)
    else Ok(Decoded(c))
  }

  lemma DistinctChoices()
    ensures C.Distinct(INTERPRETERS) && C.Distinct(STATES) && C.Distinct(SYSTEMS) && C.Distinct(ARCHITECTURES)
    ensures C.Distinct(LAUNCH_MODES) && C.Distinct(MODES)
  {}

  lemma CompactedOk(r: Report, enrollment: int)
    requires ReportOk(r) && 1 <= enrollment <= MAX_REVISION
    ensures CodeOk(Compact(r, enrollment).value, enrollment)
  {
    Chosen();
    InterpretersBack(r.interpreters);
  }

  lemma DecodesBack(r: Report, enrollment: int)
    requires ReportOk(r) && 1 <= enrollment <= MAX_REVISION
    ensures var c := Compact(r, enrollment).value; CodeOk(c, enrollment) && Decoded(c) == r
  {
    CompactedOk(r, enrollment);
    Chosen();
    InterpretersBack(r.interpreters);
    var d := Decoded(Compact(r, enrollment).value);
    assert d.interpreters == r.interpreters && d.system == r.system && d.architecture == r.architecture;
    assert d.launch == r.launch && d.timing == r.timing && d.polling == r.polling;
  }

  /** Every valid report survives, under the enrollment it was compacted for. */
  lemma RoundTrip(r: Report, enrollment: int)
    requires ReportOk(r) && 1 <= enrollment <= MAX_REVISION
    ensures Compact(r, enrollment).Ok? && Expand(Compact(r, enrollment).value, enrollment) == Ok(r)
    ensures forall other | other != enrollment :: Expand(Compact(r, enrollment).value, other) == Err(C.PROFILE_CODEC)
  {
    DecodesBack(r, enrollment);
  }

  lemma BitBack(c: int)
    requires IsBit(c)
    ensures Bit(c == 1) == c
  {}

  /** The closing comparison of `expand` decides nothing: whatever passes the checks before it has
      exactly this code. */
  lemma LastCheckIsRedundant(c: ReportCode, enrollment: int)
    requires CodeOk(c, enrollment) && ReportOk(Decoded(c))
    ensures Compact(Decoded(c), enrollment) == Ok(c) && Expand(c, enrollment) == Ok(Decoded(c))
  {
    DistinctChoices();
    Chosen();
    C.PositionOf(SYSTEMS, c.system);
    C.PositionOf(ARCHITECTURES, c.architecture);
    C.PositionOf(LAUNCH_MODES, c.launch);
    C.PositionOf(MODES, c.mode);
    CodesBack(c.interpreters);
    BitBack(c.exits);
    BitBack(c.clockKnown);
    assert [Bit(c.features[0] == 1), Bit(c.features[1] == 1)] == c.features;
  }

  /** So a code expands to a report exactly when it is that report's code under this enrollment. */
  lemma ExpandExactly(c: ReportCode, enrollment: int, r: Report)
    ensures Expand(c, enrollment) == Ok(r) <==> Compact(r, enrollment) == Ok(c)
    ensures Compact(r, enrollment).Ok? <==> ReportOk(r) && 1 <= enrollment <= MAX_REVISION
  {
    if Compact(r, enrollment) == Ok(c) { RoundTrip(r, enrollment); }
  }

  // ---- What a report may say ---------------------------------------------------------------------------

  /** A report is valid exactly when it is in range, each interpreter's version fits its state, some
      interpreter is enabled if anything can be run, and its timing and polling are those of a profile. */
  lemma ReportExactly(r: Report)
    ensures ReportOk(r) <==>
      && 0 < r.revision < 0x8000_0000_0000_0000 && (forall n: Interpreter :: n in r.interpreters)
      && (forall n | n in r.interpreters ::
            var i := r.interpreters[n];
            && (i.state == ENABLED ==> i.version != None) && (i.state == UNAVAILABLE ==> i.version == None)
            && (i.version.Some? ==> var (a, b, c) := i.version.value; 0 <= a < 65536 && 0 <= b < 65536 && 0 <= c < 65536))
      && ((exists n :: n in r.interpreters && r.interpreters[n].state == ENABLED) || !(r.inlineCommands || r.scriptArtifacts))
      && (r.timing.fast, r.timing.slow, r.timing.idleAfter) == (20, 1200, 1200) && T.ProfileOk(ProfileOf(r.timing))
      && PollingOk(r.polling, r.timing.exits)
  {}

  /** What a fetcher with this timing says of its own polling, from its clock and what holds it. */
  ghost predicate Computed(p: Polling, t: TimingPart, a: T.Activity, held: bool) {
    var m := T.ModesOf(ProfileOf(t), a, a, held);
    && p.mode == m.mode && p.clockKnown == a.known
    && (m.poll == None ==> p.poll == p.nextCheck == None)
    && (m.poll.Some? ==> p.poll == Some(m.poll.value) && p.nextCheck == Some(p.observedAt + m.poll.value))
  }

  ghost predicate InTime(p: Polling) { 0 <= p.observedAt <= MAX_TIME && (p.nextCheck.Some? ==> p.nextCheck.value <= MAX_TIME) }

  /** What is computed is always valid.  What is valid can be computed exactly when an active fetcher
      knows its clock and one that is held by its clock does not: the decoder does not check that. */
  lemma PollingExactly(p: Polling, t: TimingPart)
    ensures InTime(p) && (exists a, held :: Computed(p, t, a, held)) <==>
      PollingOk(p, t.exits) && (p.mode == T.ACTIVE ==> p.clockKnown) && (p.mode == T.HOLD_CLOCK ==> !p.clockKnown)
  {
    if PollingOk(p, t.exits) && (p.mode == T.ACTIVE ==> p.clockKnown) && (p.mode == T.HOLD_CLOCK ==> !p.clockKnown) {
      var age := if p.mode == T.ACTIVE then 0.0 else 1200.0;
      assert Computed(p, t, T.Activity(0.0, 0.0, 0.0, 0.0, age, 0, p.clockKnown), p.mode == T.BUSY);
    }
  }

  /** A valid report of an active fetcher that does not know its clock, which none can make. */
  lemma UncomputedIsAccepted(t: TimingPart) returns (p: Polling)
    ensures PollingOk(p, t.exits) && forall a, held :: !Computed(p, t, a, held)
  {
    p := Polling(T.ACTIVE, Some(20), 0, false, Some(20));
  }
}
