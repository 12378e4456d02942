/**
  Compact codes that replace enumerations by positions, and the one of a device's description: every
  description has exactly one code.
 */
module Codecs {
  import opened Basics

  // ---- Positions --------------------------------------------------------------------------------------

  predicate Distinct<A(==)>(s: seq<A>) { forall i, j | 0 <= i < j < |s| :: s[i] != s[j] }

  function Position<A(==)>(choices: seq<A>, x: A): (i: nat)
    requires x in choices
    ensures i < |choices| && choices[i] == x
  {
    if choices[0] == x then 0 else 1 + Position(choices[1..], x)
  }

  lemma PositionOf<A>(choices: seq<A>, i: nat)
    requires Distinct(choices) && i < |choices|
    ensures Position(choices, choices[i]) == i
  {
    var j := Position(choices, choices[i]);
    assert choices[j] == choices[i];
  }

  function Positions<A(==)>(choices: seq<A>, xs: seq<A>): (r: seq<int>)
    requires forall x | x in xs :: x in choices
    ensures |r| == |xs| && forall i | 0 <= i < |xs| :: r[i] == Position(choices, xs[i])
  {
    if xs == [] then [] else [Position(choices, xs[0])] + Positions(choices, xs[1..])
  }

  predicate Code<A>(choices: seq<A>, c: int) { 0 <= c < |choices| }

  function Choices<A>(choices: seq<A>, cs: seq<int>): (r: seq<A>)
    requires forall c | c in cs :: Code(choices, c)
    ensures |r| == |cs| && forall i | 0 <= i < |cs| :: Code(choices, cs[i]) && r[i] == choices[cs[i]]
  {
    if cs == [] then [] else assert Code(choices, cs[0]); [choices[cs[0]]] + Choices(choices, cs[1..])
  }

  lemma PositionsBack<A>(choices: seq<A>, xs: seq<A>)
    requires forall x | x in xs :: x in choices
    ensures (forall c | c in Positions(choices, xs) :: Code(choices, c)) && Choices(choices, Positions(choices, xs)) == xs
    ensures Distinct(xs) ==> Distinct(Positions(choices, xs))
  {}

  lemma ChoicesBack<A>(choices: seq<A>, cs: seq<int>)
    requires Distinct(choices) && forall c | c in cs :: Code(choices, c)
    ensures (forall x | x in Choices(choices, cs) :: x in choices) && Positions(choices, Choices(choices, cs)) == cs
    ensures Distinct(cs) ==> Distinct(Choices(choices, cs))
  {
    var xs := Choices(choices, cs);
    forall i | 0 <= i < |cs| ensures Position(choices, xs[i]) == cs[i] {
      assert Code(choices, cs[i]);
      PositionOf(choices, cs[i]);
    }
  }

  // ---- Devices ------------------------------------------------------------------------------------------

  datatype Role = WATCHDOG | FETCHER
  datatype System = WINDOWS | LINUX | OTHER_SYSTEM | UNKNOWN_SYSTEM
  datatype Arch = X64 | ARM64 | X86 | OTHER_ARCH | UNKNOWN_ARCH
  datatype Launch = DESKTOP_SESSION | OS_SERVICE | EXTERNAL | UNSUPPORTED
  datatype Transport = DRIVE_API | SHARED_FOLDER | VIA_SSH | VIA_WOL

  const ROLES := [WATCHDOG, FETCHER]
  const SYSTEMS := [WINDOWS, LINUX, OTHER_SYSTEM, UNKNOWN_SYSTEM]
  const ARCHS := [X64, ARM64, X86, OTHER_ARCH, UNKNOWN_ARCH]
  const LAUNCHES := [DESKTOP_SESSION, OS_SERVICE, EXTERNAL, UNSUPPORTED]
  const TRANSPORTS := [DRIVE_API, SHARED_FOLDER, VIA_SSH, VIA_WOL]

  /** A shared device: its capabilities and observations are never shared. */
  datatype Device = Device(id: nat, alias: nat, roles: seq<Role>, system: System, arch: Arch,
                           launch: map<Role, Launch>, transports: seq<Transport>)

  datatype Identity = Identity(id: nat, alias: nat)

  predicate DeviceOk(d: Device) {
    && d.roles != [] && Distinct(d.roles) && Distinct(d.transports)
    && (forall r :: r in d.launch <==> r in d.roles)
  }

  datatype DeviceCode = DeviceCode(version: int, revision: int, roles: seq<int>, system: int, arch: int,
                                   launch: seq<int>, transports: seq<int>)

  datatype Error = RECORD | PROFILE_CODEC | ENROLLMENT_REVISION | PROFILE_SCHEMA

  const MAX_REVISION := 0x7fff_ffff_ffff_ffff

  lemma AllChosen()
    ensures (forall r: Role :: r in ROLES) && (forall s: System :: s in SYSTEMS) && (forall a: Arch :: a in ARCHS)
    ensures (forall l: Launch :: l in LAUNCHES) && (forall t: Transport :: t in TRANSPORTS)
  {
    forall r: Role ensures r in ROLES { match r case WATCHDOG => assert ROLES[0] == r; case FETCHER => assert ROLES[1] == r; }
    forall s: System ensures s in SYSTEMS {
      match s case WINDOWS => assert SYSTEMS[0] == s; case LINUX => assert SYSTEMS[1] == s;
              case OTHER_SYSTEM => assert SYSTEMS[2] == s; case UNKNOWN_SYSTEM => assert SYSTEMS[3] == s;
    }
    forall a: Arch ensures a in ARCHS {
      match a case X64 => assert ARCHS[0] == a; case ARM64 => assert ARCHS[1] == a; case X86 => assert ARCHS[2] == a;
              case OTHER_ARCH => assert ARCHS[3] == a; case UNKNOWN_ARCH => assert ARCHS[4] == a;
    }
    forall l: Launch ensures l in LAUNCHES {
      match l case DESKTOP_SESSION => assert LAUNCHES[0] == l; case OS_SERVICE => assert LAUNCHES[1] == l;
              case EXTERNAL => assert LAUNCHES[2] == l; case UNSUPPORTED => assert LAUNCHES[3] == l;
    }
    forall t: Transport ensures t in TRANSPORTS {
      match t case DRIVE_API => assert TRANSPORTS[0] == t; case SHARED_FOLDER => assert TRANSPORTS[1] == t;
              case VIA_SSH => assert TRANSPORTS[2] == t; case VIA_WOL => assert TRANSPORTS[3] == t;
    }
  }

  function Launches(d: Device): seq<Launch>
    requires DeviceOk(d)
  {
    seq(|d.roles|, i requires 0 <= i < |d.roles| => d.launch[d.roles[i]])
  }

  function CompactDevice(d: Device, revision: int): DeviceCode
    requires DeviceOk(d)
  {
    AllChosen();
    DeviceCode(1, revision, Positions(ROLES, d.roles), Position(SYSTEMS, d.system), Position(ARCHS, d.arch),
               Positions(LAUNCHES, Launches(d)), Positions(TRANSPORTS, d.transports))
  }

  predicate CodesOk<A(==)>(choices: seq<A>, cs: seq<int>, minimum: nat) {
    minimum <= |cs| <= |choices| && Distinct(cs) && forall c | c in cs :: Code(choices, c)
  }

  predicate DeviceCodeOk(c: DeviceCode) {
    && c.version == 1 && 1 <= c.revision <= MAX_REVISION && CodesOk(ROLES, c.roles, 1) && |c.launch| == |c.roles|
    && Code(SYSTEMS, c.system) && Code(ARCHS, c.arch) && (forall l | l in c.launch :: Code(LAUNCHES, l))
    && CodesOk(TRANSPORTS, c.transports, 0)
  }

  function Zipped(roles: seq<Role>, launches: seq<Launch>): map<Role, Launch>
    requires |roles| == |launches|
  {
    if roles == [] then map[] else Zipped(roles[..|roles| - 1], launches[..|roles| - 1])[roles[|roles| - 1] := launches[|roles| - 1]]
  }

  lemma {:induction false} ZippedAt(roles: seq<Role>, launches: seq<Launch>)
    requires |roles| == |launches| && Distinct(roles)
    ensures forall r :: r in Zipped(roles, launches) <==> r in roles
    ensures forall i | 0 <= i < |roles| :: roles[i] in Zipped(roles, launches) && Zipped(roles, launches)[roles[i]] == launches[i]
    decreases |roles|
  {
    if roles != [] {
      var n := |roles| - 1;
      ZippedAt(roles[..n], launches[..n]);
      assert roles == roles[..n] + [roles[n]];
      forall i | 0 <= i < n
        ensures roles[i] in Zipped(roles, launches) && Zipped(roles, launches)[roles[i]] == launches[i]
      {
        assert roles[..n][i] == roles[i] && roles[i] != roles[n];
      }
    }
  }

  function ExpandDevice(c: DeviceCode, who: Identity): Result<Device, Error> {
    if !DeviceCodeOk(c) then Err(RECORD)
    else Ok(Device(who.id, who.alias, Choices(ROLES, c.roles), SYSTEMS[c.system], ARCHS[c.arch],
                   Zipped(Choices(ROLES, c.roles), Choices(LAUNCHES, c.launch)), Choices(TRANSPORTS, c.transports)))
  }

  /** As many distinct values as there are choices, at most. */
  lemma DistinctBounded<A>(choices: seq<A>, cs: seq<int>)
    requires Distinct(cs) && forall c | c in cs :: Code(choices, c)
    ensures |cs| <= |choices|
  {
    var s := set c | c in cs;
    DistinctSize(cs);
    BoundedSize(s, |choices|);
  }

  lemma {:induction false} DistinctSize(cs: seq<int>)
    requires Distinct(cs)
    ensures |(set c | c in cs)| == |cs|
    decreases |cs|
  {
    if cs != [] {
      DistinctSize(cs[1..]);
      assert (set c | c in cs) == {cs[0]} + (set c | c in cs[1..]);
      assert cs[0] !in cs[1..];
    }
  }

  lemma {:induction false} BoundedSize(s: set<int>, n: nat)
    requires forall c | c in s :: 0 <= c < n
    ensures |s| <= n
    decreases n
  {
    if n == 0 {
      forall c | c in s ensures false {}
    } else {
      BoundedSize(s - {n - 1}, n - 1);
    }
  }

  lemma LaunchBack(d: Device)
    requires DeviceOk(d)
    ensures Zipped(d.roles, Launches(d)) == d.launch
  {
    ZippedAt(d.roles, Launches(d));
    forall r | r in d.launch ensures Zipped(d.roles, Launches(d))[r] == d.launch[r] {
      var i :| 0 <= i < |d.roles| && d.roles[i] == r;
    }
  }

  lemma CodesFit<A>(choices: seq<A>, xs: seq<A>, minimum: nat)
    requires (forall x | x in xs :: x in choices) && Distinct(xs) && minimum <= |xs|
    ensures CodesOk(choices, Positions(choices, xs), minimum) && Choices(choices, Positions(choices, xs)) == xs
  {
    PositionsBack(choices, xs);
    DistinctBounded(choices, Positions(choices, xs));
  }

  lemma DeviceRoundTrip(d: Device, revision: int)
    requires DeviceOk(d) && 1 <= revision <= MAX_REVISION
    ensures ExpandDevice(CompactDevice(d, revision), Identity(d.id, d.alias)) == Ok(d)
  {
    AllChosen();
    CodesFit(ROLES, d.roles, 1);
    CodesFit(TRANSPORTS, d.transports, 0);
    PositionsBack(LAUNCHES, Launches(d));
    LaunchBack(d);
    var c := CompactDevice(d, revision);
    assert c.roles == Positions(ROLES, d.roles) && c.transports == Positions(TRANSPORTS, d.transports);
    assert c.launch == Positions(LAUNCHES, Launches(d));
    assert DeviceCodeOk(c);
  }

  lemma DistinctChoices()
    ensures Distinct(ROLES) && Distinct(SYSTEMS) && Distinct(ARCHS) && Distinct(LAUNCHES) && Distinct(TRANSPORTS)
  {}

  lemma LaunchesOf(roles: seq<Role>, launches: seq<Launch>, d: Device)
    requires |roles| == |launches| && Distinct(roles) && DeviceOk(d) && d.roles == roles && d.launch == Zipped(roles, launches)
    ensures Launches(d) == launches
  {
    ZippedAt(roles, launches);
  }

  lemma ExpandedDeviceOk(c: DeviceCode, who: Identity)
    requires DeviceCodeOk(c)
    ensures DeviceOk(ExpandDevice(c, who).value)
  {
    DistinctChoices();
    ChoicesBack(ROLES, c.roles);
    ChoicesBack(TRANSPORTS, c.transports);
    ZippedAt(Choices(ROLES, c.roles), Choices(LAUNCHES, c.launch));
  }

  /** And back: a code that is accepted is the one code of what it stands for. */
  lemma DeviceCodeUnique(c: DeviceCode, who: Identity)
    requires ExpandDevice(c, who).Ok?
    ensures DeviceOk(ExpandDevice(c, who).value) && CompactDevice(ExpandDevice(c, who).value, c.revision) == c
  {
    ExpandedDeviceOk(c, who);
    var d := ExpandDevice(c, who).value;
    DistinctChoices();
    ChoicesBack(ROLES, c.roles);
    ChoicesBack(LAUNCHES, c.launch);
    ChoicesBack(TRANSPORTS, c.transports);
    LaunchesOf(d.roles, Choices(LAUNCHES, c.launch), d);
    PositionOf(SYSTEMS, c.system);
    PositionOf(ARCHS, c.arch);
    var b := CompactDevice(d, c.revision);
    assert b.roles == c.roles && b.launch == c.launch && b.transports == c.transports;
    assert b.system == c.system && b.arch == c.arch;
  }
}
