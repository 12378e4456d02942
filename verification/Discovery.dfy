/**
  The discovery catalogue: what a batch of observations may do to identities, endpoints and the
  quarantine.  New identities are fresh, as random ones are taken to be.
 */
module Discovery {
  import opened Basics

  datatype Method = NEIGHBOR_CACHE | ICMP | FIXED_HELPER | OTHER
  datatype Address = Address(version: nat, value: nat)
  datatype Network = Network(version: nat, first: nat, last: nat, prefix: nat)
  datatype Interface = Interface(index: nat, networks: seq<Network>)
  datatype Scope = Scope(interfaces: seq<Interface>, methods: set<Method>, maxObservations: nat, validFor: nat)

  /** An endpoint is an interface and an address. */
  datatype Key = Key(interface: nat, address: Address)
  datatype Observation = Observation(key: Key, source: Method, observedAt: int, validFor: nat, online: bool,
                                     hardware: Option<nat>, name: Option<nat>)

  datatype Binding = Binding(device: nat, key: Key, observedAt: int)
  datatype Trust = Trust(enrolled: set<nat>, bindings: seq<Binding>)

  /** `Numbered(n)` is the alias minted for slot n. */
  datatype Alias = Numbered(slot: nat) | Named(id: nat)
  datatype Entry = Entry(device: nat, alias: Alias, endpoints: seq<Observation>)
  datatype Reason =
    | VERIFIED_IDENTITY_CONFLICT | IDENTITY_UNCONFIRMED | ADDRESS_IDENTITY_CHANGED | HINT_COLLISION
    | CAPACITY_FULL | ENDPOINT_CAPACITY
  datatype Row = Row(reason: Reason, observation: Observation)
  datatype Image = Image(revision: nat, entries: seq<Option<Entry>>, quarantine: seq<Option<Row>>, overflow: bool)

  datatype Outcome = OUT_OF_SCOPE | CLOCK_UNCERTAIN | STALE | OLDER_OBSERVATION | OBSERVED | Quarantined(reason: Reason)
  datatype Error =
    | DISCOVERY_BATCH | DISCOVERY_FRESHNESS_POLICY | DISCOVERY_BINDING_CONFLICT | DISCOVERY_REVISION_EXHAUSTED | DISCOVERY_IMAGE_BOUND

  const MAX_REVISION := 0x7fff_ffff_ffff_ffff

  // ---- Scope, clock and trust -----------------------------------------------------------------------

  predicate Multicast(a: Address) {
    if a.version == 4 then a.value / 0x1000_0000 == 14
    else a.value / 0x1_0000_0000_0000_0000_0000_0000_0000_00 == 0xff
  }

  predicate InNetwork(a: Address, n: Network) {
    a.version == n.version && n.first <= a.value <= n.last && !(n.version == 4 && n.prefix < 31 && a.value == n.last)
  }

  predicate Permits(s: Scope, o: Observation) {
    && o.source in s.methods && o.key.address.value != 0 && !Multicast(o.key.address)
    && o.key.address != Address(4, 0xffff_ffff)
    && exists i | 0 <= i < |s.interfaces| :: s.interfaces[i].index == o.key.interface
         && exists n | n in s.interfaces[i].networks :: InNetwork(o.key.address, n)
  }

  datatype Age = FRESH | UNCERTAIN | OLD

  function Freshness(o: Observation, now: int, trusted: bool): Age {
    if !trusted || o.observedAt > now then UNCERTAIN
    else if now - o.observedAt < o.validFor then FRESH else OLD
  }

  predicate Proves(t: Trust, o: Observation, device: nat) {
    o.source.FIXED_HELPER? && o.online && Binding(device, o.key, o.observedAt) in t.bindings
  }

  predicate Matches(b: Binding, o: Observation) { b.key == o.key && b.observedAt == o.observedAt }

  /** The first device whose binding is for this very observation. */
  function FirstBound(bindings: seq<Binding>, o: Observation): (r: Option<nat>)
    ensures r.None? <==> forall b | b in bindings :: !Matches(b, o)
    ensures r.Some? ==> Binding(r.value, o.key, o.observedAt) in bindings
  {
    if bindings == [] then None
    else if Matches(bindings[0], o) then Some(bindings[0].device)
    else FirstBound(bindings[1..], o)
  }

  /** The device an observation is proven to be, if the bindings agree on one. */
  function Proven(t: Trust, o: Observation): (r: Result<Option<nat>, Error>)
    ensures r.Ok? ==> forall d: nat :: r.value == Some(d) <==> Proves(t, o, d)
    ensures r.Err? ==> exists c, d :: c != d && Proves(t, o, c) && Proves(t, o, d)
  {
    if !o.source.FIXED_HELPER? || !o.online then Ok(None)
    else
      var d := FirstBound(t.bindings, o);
      if d.None? then Ok(None)
      else if forall b | b in t.bindings && Matches(b, o) :: b.device == d.value then Ok(d)
      else
        assert exists c, d :: c != d && Proves(t, o, c) && Proves(t, o, d) by {
          var b :| b in t.bindings && Matches(b, o) && b.device != d.value;
          assert b == Binding(b.device, o.key, o.observedAt);
          assert Proves(t, o, b.device) && Proves(t, o, d.value);
        }
        Err(DISCOVERY_BINDING_CONFLICT)
  }

  // ---- One observation --------------------------------------------------------------------------------

  predicate HasKey(e: Entry, k: Key) { exists j :: 0 <= j < |e.endpoints| && e.endpoints[j].key == k }

  predicate HasHint(e: Entry, h: Option<nat>) { exists j :: 0 <= j < |e.endpoints| && e.endpoints[j].hardware == h }

  /** Where the endpoint with this key is listed. */
  function Place(s: seq<Observation>, k: Key): (j: nat)
    requires exists i :: 0 <= i < |s| && s[i].key == k
    ensures j < |s| && s[j].key == k
  {
    if s[0].key == k then 0
    else
      assert exists i :: 0 <= i < |s[1..]| && s[1..][i].key == k by {
        var i :| 0 <= i < |s| && s[i].key == k;
        assert s[1..][i - 1] == s[i];
      }
      1 + Place(s[1..], k)
  }

  /** The first slot, if any, that satisfies a test on its entry. */
  function FirstSlot(entries: seq<Option<Entry>>, test: Entry -> bool): (r: Option<nat>)
    ensures r.Some? ==> r.value < |entries| && entries[r.value].Some? && test(entries[r.value].value)
    ensures r.Some? ==> forall i | 0 <= i < r.value && entries[i].Some? :: !test(entries[i].value)
    ensures r.None? ==> forall i | 0 <= i < |entries| && entries[i].Some? :: !test(entries[i].value)
  {
    if entries == [] then None
    else if entries[0].Some? && test(entries[0].value) then Some(0)
    else
      var rest := FirstSlot(entries[1..], test);
      assert forall i | 0 < i < |entries| :: entries[i] == entries[1..][i - 1];
      if rest.Some? then Some(rest.value + 1) else None
  }

  /** The first free place. */
  function Vacant<T>(s: seq<Option<T>>): (r: Option<nat>)
    ensures r.Some? ==> r.value < |s| && s[r.value].None? && forall i | 0 <= i < r.value :: s[i].Some?
    ensures r.None? ==> forall i | 0 <= i < |s| :: s[i].Some?
  {
    if s == [] then None
    else if s[0].None? then Some(0)
    else
      var rest := Vacant(s[1..]);
      assert forall i | 0 < i < |s| :: s[i] == s[1..][i - 1];
      if rest.Some? then Some(rest.value + 1) else None
  }

  predicate SameRow(r: Option<Row>, reason: Reason, k: Key) {
    r.Some? && r.value.reason == reason && r.value.observation.key == k
  }

  /** The row of this reason and endpoint, or else the first free one. */
  function RowFor(q: seq<Option<Row>>, reason: Reason, k: Key): (r: Option<nat>)
    ensures r.Some? ==> r.value < |q| && SameRow(q[r.value], reason, k)
    ensures r.None? ==> forall i | 0 <= i < |q| :: !SameRow(q[i], reason, k)
  {
    if q == [] then None
    else if SameRow(q[0], reason, k) then Some(0)
    else
      var rest := RowFor(q[1..], reason, k);
      assert forall i | 0 < i < |q| :: q[i] == q[1..][i - 1];
      if rest.Some? then Some(rest.value + 1) else None
  }

  function Kept(img: Image, reason: Reason, o: Observation): Image {
    match RowFor(img.quarantine, reason, o.key)
    case Some(i) =>
      if img.quarantine[i].value.observation.observedAt < o.observedAt
      then img.(quarantine := img.quarantine[i := Some(Row(reason, o))]) else img
    case None =>
      match Vacant(img.quarantine)
      case Some(i) => img.(quarantine := img.quarantine[i := Some(Row(reason, o))])
      case None => img.(overflow := true)
  }

  function Without(s: seq<Observation>, j: nat): seq<Observation>
    requires j < |s|
  {
    s[..j] + s[j + 1..]
  }

  /** Entry `e` after it is seen at this endpoint: the older record of the endpoint, if any, goes. */
  function Seen(e: Entry, o: Observation): Entry {
    e.(endpoints := (if HasKey(e, o.key) then Without(e.endpoints, Place(e.endpoints, o.key)) else e.endpoints) + [o])
  }

  function SeenAt(img: Image, slot: nat, o: Observation): Image
    requires slot < |img.entries| && img.entries[slot].Some?
  {
    img.(entries := img.entries[slot := Some(Seen(img.entries[slot].value, o))])
  }

  /** An endpoint that already belongs to the device in `slot`. */
  function Reobserved(img: Image, slot: nat, o: Observation, proven: Option<nat>, t: Trust): (Outcome, Image)
    requires slot < |img.entries| && img.entries[slot].Some? && HasKey(img.entries[slot].value, o.key)
  {
    var owner := img.entries[slot].value;
    var previous := owner.endpoints[Place(owner.endpoints, o.key)];
    if proven.Some? && proven.value != owner.device then
      (Quarantined(VERIFIED_IDENTITY_CONFLICT), Kept(img, VERIFIED_IDENTITY_CONFLICT, o))
    else if proven.None? && owner.device in t.enrolled then
      (Quarantined(IDENTITY_UNCONFIRMED), Kept(img, IDENTITY_UNCONFIRMED, o))
    else if proven.None? && previous.hardware.Some? && o.hardware != previous.hardware then
      (Quarantined(ADDRESS_IDENTITY_CHANGED), Kept(img, ADDRESS_IDENTITY_CHANGED, o))
    else if o.observedAt < previous.observedAt then (OLDER_OBSERVATION, img)
    else (OBSERVED, SeenAt(img, slot, o))
  }

  /** A new endpoint: of the proven device, or of a device that is minted for it. */
  function FirstObserved(img: Image, selected: Option<nat>, o: Observation, minted: nat): (Outcome, Image)
    requires selected.Some? ==> selected.value < |img.entries| && img.entries[selected.value].Some?
  {
    if selected.Some? then
      if |img.entries[selected.value].value.endpoints| >= 8
      then (Quarantined(ENDPOINT_CAPACITY), Kept(img, ENDPOINT_CAPACITY, o))
      else (OBSERVED, SeenAt(img, selected.value, o))
    else if o.hardware.Some? && FirstSlot(img.entries, (e: Entry) => HasHint(e, o.hardware)).Some? then
      (Quarantined(HINT_COLLISION), Kept(img, HINT_COLLISION, o))
    else
      match Vacant(img.entries)
      case None => (Quarantined(CAPACITY_FULL), Kept(img, CAPACITY_FULL, o))
      case Some(slot) =>
        if FirstSlot(img.entries, (e: Entry) => e.alias == Numbered(slot)).Some?
        then (Quarantined(CAPACITY_FULL), Kept(img, CAPACITY_FULL, o))
        else (OBSERVED, img.(entries := img.entries[slot := Some(Entry(minted, Numbered(slot), [o]))]))
  }

  /** What surrounds a batch. */
  datatype Context = Context(scope: Scope, now: int, trust: Trust, clockTrusted: bool)

  function Observed(img: Image, o: Observation, c: Context, minted: nat): Result<(Outcome, Image), Error> {
    if !Permits(c.scope, o) then Ok((OUT_OF_SCOPE, img))
    else if Freshness(o, c.now, c.clockTrusted) != FRESH then
      Ok((if Freshness(o, c.now, c.clockTrusted).OLD? then STALE else CLOCK_UNCERTAIN, img))
    else if o.validFor > c.scope.validFor then Err(DISCOVERY_FRESHNESS_POLICY)
    else
      match Proven(c.trust, o)
      case Err(e) => Err(e)
      case Ok(proven) =>
        var selected := if proven.Some? then FirstSlot(img.entries, (e: Entry) => e.device == proven.value) else None;
        if proven.Some? && selected.None? then
          Ok((Quarantined(VERIFIED_IDENTITY_CONFLICT), Kept(img, VERIFIED_IDENTITY_CONFLICT, o)))
        else
          match FirstSlot(img.entries, (e: Entry) => HasKey(e, o.key))
          case Some(slot) => Ok(Reobserved(img, slot, o, proven, c.trust))
          case None => Ok(FirstObserved(img, selected, o, minted))
  }

  // ---- Invariants ----------------------------------------------------------------------------------------

  predicate Owns(entries: seq<Option<Entry>>, i: nat, k: Key) {
    i < |entries| && entries[i].Some? && HasKey(entries[i].value, k)
  }

  predicate KeysDistinct(e: Entry) {
    forall a, b | 0 <= a < b < |e.endpoints| :: e.endpoints[a].key != e.endpoints[b].key
  }

  /** Distinct identities and aliases, at most eight endpoints each, every endpoint in one place,
      every (reason, endpoint) in at most one quarantine row. */
  ghost predicate CatalogueOk(img: Image) {
    && (forall i, j | 0 <= i < j < |img.entries| && img.entries[i].Some? && img.entries[j].Some? ::
          img.entries[i].value.device != img.entries[j].value.device && img.entries[i].value.alias != img.entries[j].value.alias)
    && (forall i | 0 <= i < |img.entries| && img.entries[i].Some? ::
          |img.entries[i].value.endpoints| <= 8 && KeysDistinct(img.entries[i].value))
    && (forall i, j, k | Owns(img.entries, i, k) && Owns(img.entries, j, k) :: i == j)
    && RowsDistinct(img.quarantine)
  }

  predicate Clash(a: Option<Row>, b: Option<Row>) {
    a.Some? && b.Some? && a.value.reason == b.value.reason && a.value.observation.key == b.value.observation.key
  }

  predicate RowsDistinct(q: seq<Option<Row>>) { forall i, j | 0 <= i < j < |q| :: !Clash(q[i], q[j]) }

  /** Rows stay where they are, for the same reason and endpoint, and only get newer. */
  predicate RowsEvolve(p: seq<Option<Row>>, q: seq<Option<Row>>) {
    |q| == |p| && forall i | 0 <= i < |p| && p[i].Some? ::
      Clash(p[i], q[i]) && p[i].value.observation.observedAt <= q[i].value.observation.observedAt
  }

  function SeenTime(e: Entry, k: Key): int
    requires HasKey(e, k)
  {
    e.endpoints[Place(e.endpoints, k)].observedAt
  }

  /** What no observation undoes: identities keep their slots, endpoints their devices and their
      newest time, quarantine rows their place, overflow its mark; an enrolled device changes
      only if one of these observations is proven to be it. */
  ghost predicate Evolves(a: Image, b: Image, t: Trust, os: seq<Observation>) {
    && b.revision == a.revision && |b.entries| == |a.entries|
    && (forall i | 0 <= i < |a.entries| && a.entries[i].Some? ::
          b.entries[i].Some? && b.entries[i].value.device == a.entries[i].value.device
          && b.entries[i].value.alias == a.entries[i].value.alias)
    && (forall i: nat, k | Owns(a.entries, i, k) :: Owns(b.entries, i, k)
          && SeenTime(a.entries[i].value, k) <= SeenTime(b.entries[i].value, k))
    && (forall i | 0 <= i < |a.entries| && a.entries[i].Some? && a.entries[i].value.device in t.enrolled
          && b.entries[i] != a.entries[i] :: exists o :: o in os && Proves(t, o, a.entries[i].value.device))
    && RowsEvolve(a.quarantine, b.quarantine)
    && (a.overflow ==> b.overflow)
  }

  lemma EvolvesOn(a: Image, b: Image, c: Image, t: Trust, os: seq<Observation>)
    requires Evolves(a, b, t, os) && Evolves(b, c, t, os)
    ensures Evolves(a, c, t, os)
  {}

  lemma PlaceIs(s: seq<Observation>, k: Key, j: nat)
    requires j < |s| && s[j].key == k && forall a, b | 0 <= a < b < |s| :: s[a].key != s[b].key
    ensures Place(s, k) == j
  {}

  /** Which record of `e` is the a-th one of `Seen(e, o)`. */
  function Origin(e: Entry, o: Observation, a: nat): nat {
    if HasKey(e, o.key) && Place(e.endpoints, o.key) <= a then a + 1 else a
  }

  lemma SeenLast(e: Entry, o: Observation)
    ensures var s := Seen(e, o).endpoints;
      |s| == (if HasKey(e, o.key) then |e.endpoints| else |e.endpoints| + 1) && s[|s| - 1] == o
  {}

  lemma SeenBefore(e: Entry, o: Observation, a: nat)
    requires a < |Seen(e, o).endpoints| - 1
    ensures Origin(e, o, a) < |e.endpoints| && Seen(e, o).endpoints[a] == e.endpoints[Origin(e, o, a)]
    ensures KeysDistinct(e) ==> Seen(e, o).endpoints[a].key != o.key
  {
    if HasKey(e, o.key) {
      var s, j := e.endpoints, Place(e.endpoints, o.key);
      assert Seen(e, o).endpoints == Without(s, j) + [o];
      assert Without(s, j)[a] == if j <= a then s[a + 1] else s[a];
    }
  }

  lemma SeenDistinct(e: Entry, o: Observation)
    requires KeysDistinct(e)
    ensures KeysDistinct(Seen(e, o))
  {
    SeenLast(e, o);
    var s := Seen(e, o).endpoints;
    forall a, b | 0 <= a < b < |s| ensures s[a].key != s[b].key {
      SeenBefore(e, o, a);
      if b < |s| - 1 {
        SeenBefore(e, o, b);
        assert Origin(e, o, a) < Origin(e, o, b);
      }
    }
  }

  lemma SeenItself(e: Entry, o: Observation)
    requires KeysDistinct(e)
    ensures HasKey(Seen(e, o), o.key) && SeenTime(Seen(e, o), o.key) == o.observedAt
  {
    SeenLast(e, o);
    SeenDistinct(e, o);
    var s := Seen(e, o).endpoints;
    PlaceIs(s, o.key, |s| - 1);
  }

  lemma SeenOther(e: Entry, o: Observation, k: Key)
    requires KeysDistinct(e) && HasKey(e, k) && k != o.key
    ensures HasKey(Seen(e, o), k) && SeenTime(Seen(e, o), k) == SeenTime(e, k)
  {
    SeenLast(e, o);
    SeenDistinct(e, o);
    var i := Place(e.endpoints, k);
    var at := if HasKey(e, o.key) && Place(e.endpoints, o.key) < i then i - 1 else i;
    SeenBefore(e, o, at);
    assert Origin(e, o, at) == i;
    PlaceIs(Seen(e, o).endpoints, k, at);
  }

  lemma SeenOnly(e: Entry, o: Observation, k: Key)
    requires HasKey(Seen(e, o), k)
    ensures HasKey(e, k) || k == o.key
  {
    SeenLast(e, o);
    var s := Seen(e, o).endpoints;
    var j :| 0 <= j < |s| && s[j].key == k;
    if j < |s| - 1 { SeenBefore(e, o, j); }
  }

  lemma SeenKey(e: Entry, o: Observation, k: Key)
    requires KeysDistinct(e)
    ensures HasKey(Seen(e, o), k) <==> HasKey(e, k) || k == o.key
    ensures k == o.key ==> SeenTime(Seen(e, o), k) == o.observedAt
    ensures HasKey(e, k) && k != o.key ==> SeenTime(Seen(e, o), k) == SeenTime(e, k)
  {
    if k == o.key {
      SeenItself(e, o);
    } else {
      if HasKey(e, k) { SeenOther(e, o, k); }
      if HasKey(Seen(e, o), k) { SeenOnly(e, o, k); }
    }
  }

  /** Seeing a device again at an endpoint. */
  lemma SeenKeeps(e: Entry, o: Observation)
    requires KeysDistinct(e) && |e.endpoints| <= 8 && (HasKey(e, o.key) || |e.endpoints| < 8)
    requires HasKey(e, o.key) ==> SeenTime(e, o.key) <= o.observedAt
    ensures var f := Seen(e, o);
      && f.device == e.device && f.alias == e.alias && KeysDistinct(f) && |f.endpoints| <= 8
      && (forall k :: HasKey(f, k) <==> HasKey(e, k) || k == o.key)
      && (forall k | HasKey(e, k) :: SeenTime(e, k) <= SeenTime(f, k))
  {
    SeenLast(e, o);
    SeenDistinct(e, o);
    forall k ensures HasKey(Seen(e, o), k) <==> HasKey(e, k) || k == o.key { SeenKey(e, o, k); }
    forall k | HasKey(e, k) ensures SeenTime(e, k) <= SeenTime(Seen(e, o), k) { SeenKey(e, o, k); }
  }

  /** Rewriting one entry with the same identity. */
  lemma RewriteKeeps(img: Image, slot: nat, f: Entry, k0: Key, t: Trust, os: seq<Observation>)
    requires CatalogueOk(img) && slot < |img.entries| && img.entries[slot].Some?
    requires var e := img.entries[slot].value;
      && f.device == e.device && f.alias == e.alias && KeysDistinct(f) && |f.endpoints| <= 8
      && (forall k :: HasKey(f, k) <==> HasKey(e, k) || k == k0)
      && (forall k | HasKey(e, k) :: SeenTime(e, k) <= SeenTime(f, k))
      && (e.device in t.enrolled ==> exists o :: o in os && Proves(t, o, e.device))
    requires forall i: nat | Owns(img.entries, i, k0) :: i == slot
    ensures var u := img.(entries := img.entries[slot := Some(f)]);
      CatalogueOk(u) && Evolves(img, u, t, os)
  {
    var u := img.(entries := img.entries[slot := Some(f)]);
    forall i: nat, j: nat, k | Owns(u.entries, i, k) && Owns(u.entries, j, k) ensures i == j {
      assert i != slot ==> Owns(img.entries, i, k);
      assert j != slot ==> Owns(img.entries, j, k);
      assert (i == slot || j == slot) && k != k0 ==> Owns(img.entries, slot, k);
    }
  }

  lemma KeptRows(img: Image, reason: Reason, o: Observation)
    requires RowsDistinct(img.quarantine)
    ensures var q := Kept(img, reason, o).quarantine; RowsDistinct(q) && RowsEvolve(img.quarantine, q)
  {
    var q := Kept(img, reason, o).quarantine;
    var at := RowFor(img.quarantine, reason, o.key);
    forall i, j | 0 <= i < j < |q| ensures !Clash(q[i], q[j]) {
      assert !Clash(img.quarantine[i], img.quarantine[j]);
      assert at.None? ==> !SameRow(img.quarantine[i], reason, o.key) && !SameRow(img.quarantine[j], reason, o.key);
    }
  }

  lemma KeptKeeps(img: Image, reason: Reason, o: Observation, t: Trust, os: seq<Observation>)
    requires CatalogueOk(img)
    ensures CatalogueOk(Kept(img, reason, o)) && Evolves(img, Kept(img, reason, o), t, os)
  {
    KeptRows(img, reason, o);
    var u := Kept(img, reason, o);
    assert u.entries == img.entries;
  }

  predicate Known(img: Image, device: nat) {
    exists i :: 0 <= i < |img.entries| && img.entries[i].Some? && img.entries[i].value.device == device
  }

  lemma MintKeeps(img: Image, slot: nat, o: Observation, minted: nat, t: Trust, os: seq<Observation>)
    requires CatalogueOk(img) && slot < |img.entries| && img.entries[slot].None?
    requires !Known(img, minted) && (forall i: nat :: !Owns(img.entries, i, o.key))
    requires forall i | 0 <= i < |img.entries| && img.entries[i].Some? :: img.entries[i].value.alias != Numbered(slot)
    ensures var u := img.(entries := img.entries[slot := Some(Entry(minted, Numbered(slot), [o]))]);
      CatalogueOk(u) && Evolves(img, u, t, os)
  {
    var e := Entry(minted, Numbered(slot), [o]);
    var u := img.(entries := img.entries[slot := Some(e)]);
    assert forall k | HasKey(e, k) :: k == o.key;
    forall i: nat, j: nat, k | Owns(u.entries, i, k) && Owns(u.entries, j, k) ensures i == j {
      assert i != slot ==> Owns(img.entries, i, k);
      assert j != slot ==> Owns(img.entries, j, k);
    }
  }

  lemma SeenAtKeeps(img: Image, slot: nat, o: Observation, t: Trust, os: seq<Observation>)
    requires CatalogueOk(img) && slot < |img.entries| && img.entries[slot].Some?
    requires var e := img.entries[slot].value;
      && (HasKey(e, o.key) || (|e.endpoints| < 8 && forall i: nat :: !Owns(img.entries, i, o.key)))
      && (HasKey(e, o.key) ==> SeenTime(e, o.key) <= o.observedAt)
      && (e.device in t.enrolled ==> o in os && Proves(t, o, e.device))
    ensures CatalogueOk(SeenAt(img, slot, o)) && Evolves(img, SeenAt(img, slot, o), t, os)
  {
    var e := img.entries[slot].value;
    SeenKeeps(e, o);
    forall i: nat | Owns(img.entries, i, o.key) ensures i == slot {
      if HasKey(e, o.key) { assert Owns(img.entries, slot, o.key); }
    }
    RewriteKeeps(img, slot, Seen(e, o), o.key, t, os);
  }

  lemma ReobservedKeeps(img: Image, slot: nat, o: Observation, proven: Option<nat>, t: Trust, os: seq<Observation>)
    requires CatalogueOk(img) && Owns(img.entries, slot, o.key) && o in os && Proven(t, o) == Ok(proven)
    ensures var u := Reobserved(img, slot, o, proven, t).1; CatalogueOk(u) && Evolves(img, u, t, os)
  {
    var owner := img.entries[slot].value;
    var (outcome, u) := Reobserved(img, slot, o, proven, t);
    if outcome.Quarantined? {
      KeptKeeps(img, outcome.reason, o, t, os);
    } else if outcome.OBSERVED? {
      SeenAtKeeps(img, slot, o, t, os);
    }
  }

  lemma FirstObservedKeeps(img: Image, selected: Option<nat>, o: Observation, minted: nat, t: Trust, os: seq<Observation>)
    requires CatalogueOk(img) && o in os && !Known(img, minted) && (forall i: nat :: !Owns(img.entries, i, o.key))
    requires selected.None? || (selected.value < |img.entries| && img.entries[selected.value].Some?
               && Proves(t, o, img.entries[selected.value].value.device))
    ensures var u := FirstObserved(img, selected, o, minted).1; CatalogueOk(u) && Evolves(img, u, t, os)
  {
    var (outcome, u) := FirstObserved(img, selected, o, minted);
    if outcome.Quarantined? {
      KeptKeeps(img, outcome.reason, o, t, os);
    } else if selected.Some? {
      assert !HasKey(img.entries[selected.value].value, o.key) by { assert !Owns(img.entries, selected.value, o.key); }
      SeenAtKeeps(img, selected.value, o, t, os);
    } else {
      MintKeeps(img, Vacant(img.entries).value, o, minted, t, os);
    }
  }

  /** New identities are minted ones. */
  predicate Mints(a: Image, b: Image, minted: nat) {
    && |a.entries| == |b.entries|
    && forall i | 0 <= i < |a.entries| && a.entries[i].None? && b.entries[i].Some? :: b.entries[i].value.device == minted
  }

  lemma ReobservedMints(img: Image, slot: nat, o: Observation, proven: Option<nat>, t: Trust, minted: nat)
    requires slot < |img.entries| && img.entries[slot].Some? && HasKey(img.entries[slot].value, o.key)
    ensures Mints(img, Reobserved(img, slot, o, proven, t).1, minted)
  {}

  lemma FirstObservedMints(img: Image, selected: Option<nat>, o: Observation, minted: nat)
    requires selected.Some? ==> selected.value < |img.entries| && img.entries[selected.value].Some?
    ensures Mints(img, FirstObserved(img, selected, o, minted).1, minted)
  {}

  lemma ObservedMints(img: Image, o: Observation, c: Context, minted: nat)
    requires Observed(img, o, c, minted).Ok?
    ensures Mints(img, Observed(img, o, c, minted).value.1, minted)
  {
    if Permits(c.scope, o) && Freshness(o, c.now, c.clockTrusted).FRESH? {
      var proven := Proven(c.trust, o).value;
      var selected := if proven.Some? then FirstSlot(img.entries, (e: Entry) => e.device == proven.value) else None;
      var owner := FirstSlot(img.entries, (e: Entry) => HasKey(e, o.key));
      if owner.Some? {
        ReobservedMints(img, owner.value, o, proven, c.trust, minted);
      } else {
        FirstObservedMints(img, selected, o, minted);
      }
    }
  }

  lemma ObservedKeeps(img: Image, o: Observation, c: Context, minted: nat, os: seq<Observation>)
    requires CatalogueOk(img) && o in os && !Known(img, minted) && Observed(img, o, c, minted).Ok?
    ensures var u := Observed(img, o, c, minted).value.1; CatalogueOk(u) && Evolves(img, u, c.trust, os)
  {
    if Permits(c.scope, o) && Freshness(o, c.now, c.clockTrusted).FRESH? {
      var proven := Proven(c.trust, o).value;
      var selected := if proven.Some? then FirstSlot(img.entries, (e: Entry) => e.device == proven.value) else None;
      if proven.Some? && selected.None? {
        KeptKeeps(img, VERIFIED_IDENTITY_CONFLICT, o, c.trust, os);
      } else {
        var owner := FirstSlot(img.entries, (e: Entry) => HasKey(e, o.key));
        if owner.Some? {
          ReobservedKeeps(img, owner.value, o, proven, c.trust, os);
        } else {
          FirstObservedKeeps(img, selected, o, minted, c.trust, os);
        }
      }
    }
  }

  // ---- Batches ---------------------------------------------------------------------------------------------

  /** The observations one after another; the first refusal ends the batch. */
  function Folded(img: Image, os: seq<Observation>, c: Context, minted: seq<nat>): Result<(seq<Outcome>, Image), Error>
    requires |minted| == |os|
    decreases |os|
  {
    if os == [] then Ok(([], img))
    else
      var n := |os| - 1;
      match Folded(img, os[..n], c, minted[..n])
      case Err(e) => Err(e)
      case Ok(before) =>
        match Observed(before.1, os[n], c, minted[n])
        case Err(e) => Err(e)
        case Ok(last) => Ok((before.0 + [last.0], last.1))
  }

  /** The whole of `observe`: nothing is kept of a refused batch, one too long for its scope is
      refused outright, and the revision rises exactly when something changed; `fits` is the size
      limit of the image. */
  function Batch(img: Image, os: seq<Observation>, c: Context, minted: seq<nat>, fits: bool): Result<(seq<Outcome>, Image), Error>
    requires |minted| == |os|
  {
    if |os| > c.scope.maxObservations then Err(DISCOVERY_BATCH)
    else
      match Folded(img, os, c, minted)
      case Err(e) => Err(e)
      case Ok(r) =>
        if r.1 == img then Ok(r)
        else if img.revision >= MAX_REVISION then Err(DISCOVERY_REVISION_EXHAUSTED)
        else if !fits then Err(DISCOVERY_IMAGE_BOUND)
        else Ok((r.0, r.1.(revision := img.revision + 1)))
  }

  /** Random identities: new to the image and to each other. */
  ghost predicate NewIdentities(img: Image, minted: seq<nat>) {
    && (forall m | m in minted :: !Known(img, m))
    && (forall i, j | 0 <= i < j < |minted| :: minted[i] != minted[j])
  }

  lemma EvolvesSelf(img: Image, t: Trust, os: seq<Observation>)
    ensures Evolves(img, img, t, os)
  {}

  lemma MintsKnown(a: Image, b: Image, minted: nat, d: nat, t: Trust, os: seq<Observation>)
    requires Evolves(a, b, t, os) && Mints(a, b, minted) && Known(b, d)
    ensures Known(a, d) || d == minted
  {
    var i :| 0 <= i < |b.entries| && b.entries[i].Some? && b.entries[i].value.device == d;
    if a.entries[i].Some? { assert a.entries[i].value.device == d; }
  }

  lemma {:induction false} FoldedKeeps(img: Image, os: seq<Observation>, c: Context, minted: seq<nat>, all: seq<Observation>)
    requires CatalogueOk(img) && |minted| == |os| && NewIdentities(img, minted)
    requires (forall o | o in os :: o in all) && Folded(img, os, c, minted).Ok?
    ensures var u := Folded(img, os, c, minted).value.1;
      && CatalogueOk(u) && Evolves(img, u, c.trust, all)
      && (forall d | Known(u, d) :: Known(img, d) || d in minted)
    decreases |os|
  {
    if os == [] {
      EvolvesSelf(img, c.trust, all);
    } else {
      var n := |os| - 1;
      FoldedKeeps(img, os[..n], c, minted[..n], all);
      var before := Folded(img, os[..n], c, minted[..n]).value.1;
      assert !Known(before, minted[n]) by {
        assert minted[n] !in minted[..n];
      }
      ObservedKeeps(before, os[n], c, minted[n], all);
      ObservedMints(before, os[n], c, minted[n]);
      var u := Observed(before, os[n], c, minted[n]).value.1;
      EvolvesOn(img, before, u, c.trust, all);
      forall d | Known(u, d) ensures Known(img, d) || d in minted {
        MintsKnown(before, u, minted[n], d, c.trust, all);
      }
    }
  }

  /** Every accepted batch keeps the catalogue's invariant and everything `Evolves` lists; its
      revision rises by one if and only if the image changed. */
  lemma BatchKeeps(img: Image, os: seq<Observation>, c: Context, minted: seq<nat>, fits: bool)
    requires CatalogueOk(img) && |minted| == |os| && NewIdentities(img, minted) && Batch(img, os, c, minted, fits).Ok?
    ensures var (outcomes, u) := Batch(img, os, c, minted, fits).value;
      && |outcomes| == |os| <= c.scope.maxObservations && CatalogueOk(u) && Evolves(img, u.(revision := img.revision), c.trust, os)
      && (if u.(revision := img.revision) == img then u == img else u.revision == img.revision + 1)
      && (forall d | Known(u, d) :: Known(img, d) || d in minted)
  {
    FoldedKeeps(img, os, c, minted, os);
    FoldedLength(img, os, c, minted);
    var (outcomes, u) := Batch(img, os, c, minted, fits).value;
    var v := Folded(img, os, c, minted).value.1;
    assert u.entries == v.entries && u.quarantine == v.quarantine;
    forall d | Known(u, d) ensures Known(img, d) || d in minted { assert Known(v, d); }
  }

  lemma {:induction false} FoldedLength(img: Image, os: seq<Observation>, c: Context, minted: seq<nat>)
    requires |minted| == |os| && Folded(img, os, c, minted).Ok?
    ensures |Folded(img, os, c, minted).value.0| == |os|
    ensures Folded(img, os, c, minted).value.1.revision == img.revision
    decreases |os|
  {
    if os != [] {
      var n := |os| - 1;
      FoldedLength(img, os[..n], c, minted[..n]);
      RevisionStays(Folded(img, os[..n], c, minted[..n]).value.1, os[n], c, minted[n]);
    }
  }

  lemma RevisionStays(img: Image, o: Observation, c: Context, minted: nat)
    requires Observed(img, o, c, minted).Ok?
    ensures Observed(img, o, c, minted).value.1.revision == img.revision
  {}

  /** What an outcome says: a recorded observation is the newest record of its endpoint and
      nothing else changes; a quarantined one is in its row, or in a newer one, or has marked the
      overflow, and no entry changes; any other outcome changes nothing. */
  lemma OutcomeMeans(img: Image, o: Observation, c: Context, minted: nat)
    requires Observed(img, o, c, minted).Ok?
    ensures var (outcome, u) := Observed(img, o, c, minted).value;
      if outcome.OBSERVED? then
        && u.quarantine == img.quarantine && u.overflow == img.overflow
        && exists i :: 0 <= i < |u.entries| && u.entries[i].Some? && Latest(u.entries[i].value, o)
                       && u.entries == img.entries[i := u.entries[i]]
      else if outcome.Quarantined? then u.entries == img.entries && Recorded(u, outcome.reason, o)
      else u == img
  {
    var (outcome, u) := Observed(img, o, c, minted).value;
    if outcome.OBSERVED? { RecordedOnce(img, o, c, minted); }
    if outcome.Quarantined? {
      assert u == Kept(img, outcome.reason, o);
      KeptRecords(img, outcome.reason, o);
    }
  }

  predicate Latest(e: Entry, o: Observation) { |e.endpoints| > 0 && e.endpoints[|e.endpoints| - 1] == o }

  predicate Recorded(img: Image, reason: Reason, o: Observation) {
    || img.overflow
    || exists i :: 0 <= i < |img.quarantine| && SameRow(img.quarantine[i], reason, o.key)
                   && o.observedAt <= img.quarantine[i].value.observation.observedAt
  }

  lemma KeptRecords(img: Image, reason: Reason, o: Observation)
    ensures Recorded(Kept(img, reason, o), reason, o)
  {
    var u := Kept(img, reason, o);
    if !u.overflow {
      var at := if RowFor(img.quarantine, reason, o.key).Some? then RowFor(img.quarantine, reason, o.key).value
                else Vacant(img.quarantine).value;
      assert SameRow(u.quarantine[at], reason, o.key);
    }
  }

  lemma RecordedOnce(img: Image, o: Observation, c: Context, minted: nat)
    requires Observed(img, o, c, minted).Ok? && Observed(img, o, c, minted).value.0.OBSERVED?
    ensures var u := Observed(img, o, c, minted).value.1;
      && u.quarantine == img.quarantine && u.overflow == img.overflow
      && exists i :: 0 <= i < |u.entries| && u.entries[i].Some? && Latest(u.entries[i].value, o)
                     && u.entries == img.entries[i := u.entries[i]]
  {
    var u := Observed(img, o, c, minted).value.1;
    var owner := FirstSlot(img.entries, (e: Entry) => HasKey(e, o.key));
    var proven := Proven(c.trust, o).value;
    var selected := if proven.Some? then FirstSlot(img.entries, (e: Entry) => e.device == proven.value) else None;
    var at := if owner.Some? then owner.value else if selected.Some? then selected.value else Vacant(img.entries).value;
    assert Latest(u.entries[at].value, o);
  }

  predicate Unused(entries: seq<Option<Entry>>, device: nat, alias: Alias) {
    forall i | 0 <= i < |entries| && entries[i].Some? ::
      entries[i].value.device != device && entries[i].value.alias != alias
  }

  lemma SeedKeeps(img: Image, slot: nat, device: nat, alias: Alias)
    requires slot < |img.entries| && img.entries[slot].None? && Unused(img.entries, device, alias)
    ensures CatalogueOk(img) ==>
      CatalogueOk(img.(entries := img.entries[slot := Some(Entry(device, alias, []))], revision := img.revision + 1))
  {
    var entries := img.entries[slot := Some(Entry(device, alias, []))];
    assert forall i: nat, k | Owns(entries, i, k) :: Owns(img.entries, i, k);
  }

  // ---- The catalogue as the program writes it ----------------------------------------------------------------

  class Catalogue {
    var image: Image

    constructor (img: Image)
      ensures image == img
    {
      image := img;
    }

    /** Adopts an identity that exists already, in a slot that is free. */
    method Seed(slot: nat, device: nat, alias: Alias, fits: bool) returns (ok: bool)
      modifies this
      ensures ok <==> (slot < |old(image).entries| && old(image).entries[slot].None? && fits
        && old(image).revision < MAX_REVISION && Unused(old(image).entries, device, alias))
      ensures image == if ok then old(image).(entries := old(image).entries[slot := Some(Entry(device, alias, []))],
                                              revision := old(image).revision + 1) else old(image)
      ensures CatalogueOk(old(image)) ==> CatalogueOk(image)
    {
      if slot >= |image.entries| || image.entries[slot].Some? || image.revision >= MAX_REVISION || !fits { return false; }
      var i := 0;
      while i < |image.entries|
        invariant 0 <= i <= |image.entries|
        invariant image == old(image) && Unused(image.entries[..i], device, alias)
      {
        if image.entries[i].Some? && (image.entries[i].value.device == device || image.entries[i].value.alias == alias) {
          return false;
        }
        i := i + 1;
      }
      assert image.entries[..i] == image.entries;
      SeedKeeps(image, slot, device, alias);
      image := image.(entries := image.entries[slot := Some(Entry(device, alias, []))], revision := image.revision + 1);
      return true;
    }

    /** A batch is worked through in order on a copy, which replaces the image only at the end. */
    method Observe(os: seq<Observation>, c: Context, minted: seq<nat>, fits: bool) returns (r: Result<seq<Outcome>, Error>)
      requires |minted| == |os|
      modifies this
      ensures match Batch(old(image), os, c, minted, fits)
        case Err(e) => r == Err(e) && image == old(image)
        case Ok(b) => r == Ok(b.0) && image == b.1
      ensures CatalogueOk(old(image)) && NewIdentities(old(image), minted) ==> CatalogueOk(image)
    {
      if |os| > c.scope.maxObservations { return Err(DISCOVERY_BATCH); }
      var value, outcomes := image, [];
      var n := 0;
      while n < |os|
        invariant 0 <= n <= |os| && image == old(image)
        invariant Folded(image, os[..n], c, minted[..n]) == Ok((outcomes, value))
      {
        assert os[..n + 1][..n] == os[..n] && minted[..n + 1][..n] == minted[..n];
        var one := Observed(value, os[n], c, minted[n]);
        if one.Err? {
          FoldedStops(image, os, c, minted, n + 1);
          return Err(one.error);
        }
        outcomes, value := outcomes + [one.value.0], one.value.1;
        n := n + 1;
      }
      assert os[..n] == os && minted[..n] == minted;
      if CatalogueOk(image) && NewIdentities(image, minted) && Batch(image, os, c, minted, fits).Ok? {
        BatchKeeps(image, os, c, minted, fits);
      }
      if value != image {
        if image.revision >= MAX_REVISION { return Err(DISCOVERY_REVISION_EXHAUSTED); }
        if !fits { return Err(DISCOVERY_IMAGE_BOUND); }
        image := value.(revision := image.revision + 1);
      }
      return Ok(outcomes);
    }
  }

  /** A refusal part-way is the refusal of the whole batch. */
  lemma {:induction false} FoldedStops(img: Image, os: seq<Observation>, c: Context, minted: seq<nat>, n: nat)
    requires |minted| == |os| && n <= |os| && Folded(img, os[..n], c, minted[..n]).Err?
    ensures Folded(img, os, c, minted) == Folded(img, os[..n], c, minted[..n])
    decreases |os| - n
  {
    if n == |os| {
      assert os[..n] == os && minted[..n] == minted;
    } else {
      assert os[..n + 1][..n] == os[..n] && minted[..n + 1][..n] == minted[..n];
      FoldedStops(img, os, c, minted, n + 1);
    }
  }
}
