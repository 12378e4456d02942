/**
  Which answer an observation gets, stated on devices, endpoints, hardware hints and trust alone:
  the exact condition of OBSERVED and of each reason for quarantine, and where an observation is
  recorded.  Over batches, a recorded hint changes only by proof, and nothing is recorded or
  quarantined but the batch's own admissible observations.
 */
module DiscoveryRules {
  import opened Basics
  import opened Discovery

  // ---- Scope and freshness ---------------------------------------------------------------------------

  /** An address of its version. */
  predicate AddressOk(a: Address) {
    if a.version == 4 then a.value < 0x1_0000_0000 else a.value < 0x1_0000_0000_0000_0000_0000_0000_0000_0000
  }

  /** Neither unspecified, multicast, nor the limited broadcast. */
  predicate Unicast(a: Address) {
    if a.version == 4 then 1 <= a.value <= 0xdfff_ffff || 0xf000_0000 <= a.value <= 0xffff_fffe
    else 1 <= a.value <= 0xfeff_ffff_ffff_ffff_ffff_ffff_ffff_ffff
  }

  /** The hosts of a network: all of it, less its broadcast address where it has one. */
  predicate Host(a: Address, n: Network) {
    a.version == n.version && n.first <= a.value <= if n.version == 4 && n.prefix <= 30 then n.last - 1 else n.last
  }

  predicate Reached(s: Scope, o: Observation) {
    exists i, n :: i in s.interfaces && n in i.networks && i.index == o.key.interface && Host(o.key.address, n)
  }

  /** An observation is in scope exactly when its method is and its endpoint is a host of a network
      of its interface. */
  lemma ScopeExactly(s: Scope, o: Observation)
    requires AddressOk(o.key.address)
    ensures Permits(s, o) <==> o.source in s.methods && Unicast(o.key.address) && Reached(s, o)
  {
    forall a, n ensures InNetwork(a, n) <==> Host(a, n) {}
    if Permits(s, o) {
      var i :| 0 <= i < |s.interfaces| && s.interfaces[i].index == o.key.interface
        && exists n | n in s.interfaces[i].networks :: InNetwork(o.key.address, n);
      var n :| n in s.interfaces[i].networks && InNetwork(o.key.address, n);
      assert s.interfaces[i] in s.interfaces && Host(o.key.address, n);
    }
    if Reached(s, o) {
      var i, n :| i in s.interfaces && n in i.networks && i.index == o.key.interface && Host(o.key.address, n);
      var j :| 0 <= j < |s.interfaces| && s.interfaces[j] == i;
      assert InNetwork(o.key.address, n);
    }
  }

  /** It counts from when it was made until its validity ends, by a clock that is trusted. */
  predicate Timely(c: Context, o: Observation) {
    c.clockTrusted && o.observedAt <= c.now < o.observedAt + o.validFor
  }

  /** In scope, fresh, and no longer valid than the scope allows. */
  predicate Admissible(c: Context, o: Observation) { Permits(c.scope, o) && Timely(c, o) && o.validFor <= c.scope.validFor }

  // ---- Records -----------------------------------------------------------------------------------------

  /** The record of an endpoint. */
  function RecordAt(e: Entry, k: Key): (o: Observation)
    requires HasKey(e, k)
    ensures o in e.endpoints && o.key == k
  {
    e.endpoints[Place(e.endpoints, k)]
  }

  lemma SeenRecord(e: Entry, o: Observation, k: Key)
    requires KeysDistinct(e) && HasKey(Seen(e, o), k)
    ensures k != o.key ==> HasKey(e, k)
    ensures RecordAt(Seen(e, o), k) == if k == o.key then o else RecordAt(e, k)
  {
    SeenLast(e, o);
    SeenDistinct(e, o);
    var s := Seen(e, o).endpoints;
    if k == o.key {
      PlaceIs(s, k, |s| - 1);
    } else {
      SeenOnly(e, o, k);
      var i := Place(e.endpoints, k);
      var at := if HasKey(e, o.key) && Place(e.endpoints, o.key) < i then i - 1 else i;
      SeenBefore(e, o, at);
      assert Origin(e, o, at) == i;
      PlaceIs(s, k, at);
    }
  }

  // ---- The answers ---------------------------------------------------------------------------------------

  /** The device of a slot. */
  predicate Is(img: Image, i: nat, d: nat) { i < |img.entries| && img.entries[i].Some? && img.entries[i].value.device == d }

  ghost predicate Unproven(t: Trust, o: Observation) { forall d: nat :: !Proves(t, o, d) }

  /** Nothing about the endpoint says that it is another machine: this is the device it is proven to
      be, or an unproven one whose hint is as before, or was not known before. */
  ghost predicate StillIs(img: Image, i: nat, o: Observation, t: Trust)
    requires Owns(img.entries, i, o.key)
  {
    var e := img.entries[i].value;
    || Proves(t, o, e.device)
    || (Unproven(t, o) && e.device !in t.enrolled
        && (RecordAt(e, o.key).hardware == None || RecordAt(e, o.key).hardware == o.hardware))
  }

  /** Some device bears the observation's hint. */
  ghost predicate Borne(img: Image, o: Observation) {
    o.hardware.Some? && exists i: nat, k :: Owns(img.entries, i, k) && RecordAt(img.entries[i].value, k).hardware == o.hardware
  }

  /** The slot a new device would get, if it can get one. */
  ghost predicate Opening(img: Image, i: nat) {
    && i < |img.entries| && img.entries[i] == None && (forall j | 0 <= j < i :: img.entries[j] != None)
    && forall j | 0 <= j < |img.entries| && img.entries[j].Some? :: img.entries[j].value.alias != Numbered(i)
  }

  /** When each answer is given, about an observation that is in scope and fresh. */
  ghost predicate Grounds(img: Image, o: Observation, t: Trust, outcome: Outcome) {
    match outcome
    case OBSERVED =>
      if exists i: nat :: Owns(img.entries, i, o.key) then
        exists i: nat :: Owns(img.entries, i, o.key) && StillIs(img, i, o, t)
                         && RecordAt(img.entries[i].value, o.key).observedAt <= o.observedAt
      else
        || (exists i: nat, d: nat :: Is(img, i, d) && Proves(t, o, d) && |img.entries[i].value.endpoints| < 8)
        || (Unproven(t, o) && !Borne(img, o) && exists i :: Opening(img, i))
    case OLDER_OBSERVATION =>
      exists i: nat :: Owns(img.entries, i, o.key) && StillIs(img, i, o, t) && o.observedAt < RecordAt(img.entries[i].value, o.key).observedAt
    case Quarantined(reason) =>
      (match reason
       case VERIFIED_IDENTITY_CONFLICT =>
         exists d: nat :: Proves(t, o, d) && ((forall i: nat :: !Is(img, i, d)) || exists i: nat :: Owns(img.entries, i, o.key) && !Is(img, i, d))
       case IDENTITY_UNCONFIRMED =>
         Unproven(t, o) && exists i: nat :: Owns(img.entries, i, o.key) && img.entries[i].value.device in t.enrolled
       case ADDRESS_IDENTITY_CHANGED =>
         Unproven(t, o) && (exists i: nat :: Owns(img.entries, i, o.key) && img.entries[i].value.device !in t.enrolled
                              && RecordAt(img.entries[i].value, o.key).hardware.Some?
                              && RecordAt(img.entries[i].value, o.key).hardware != o.hardware)
       case HINT_COLLISION => Unproven(t, o) && (forall i: nat :: !Owns(img.entries, i, o.key)) && Borne(img, o)
       case CAPACITY_FULL =>
         Unproven(t, o) && (forall i: nat :: !Owns(img.entries, i, o.key)) && !Borne(img, o) && forall i: nat :: !Opening(img, i)
       case ENDPOINT_CAPACITY =>
         (forall i: nat :: !Owns(img.entries, i, o.key))
         && exists i: nat, d: nat :: Is(img, i, d) && Proves(t, o, d) && |img.entries[i].value.endpoints| >= 8)
    case _ => false
  }

  /** When each answer is given. */
  ghost predicate Answers(img: Image, o: Observation, c: Context, outcome: Outcome) {
    match outcome
    case OUT_OF_SCOPE => !Permits(c.scope, o)
    case CLOCK_UNCERTAIN => Permits(c.scope, o) && (!c.clockTrusted || c.now < o.observedAt)
    case STALE => Permits(c.scope, o) && c.clockTrusted && o.observedAt + o.validFor <= c.now
    case _ => Permits(c.scope, o) && Timely(c, o) && Grounds(img, o, c.trust, outcome)
  }

  lemma OneOwner(img: Image, o: Observation, i: nat)
    requires CatalogueOk(img) && Owns(img.entries, i, o.key)
    ensures forall j: nat | Owns(img.entries, j, o.key) :: j == i
  {}

  lemma OneSlot(img: Image, d: nat, i: nat)
    requires CatalogueOk(img) && Is(img, i, d)
    ensures forall j: nat | Is(img, j, d) :: j == i
  {}

  lemma BorneIs(img: Image, o: Observation)
    requires CatalogueOk(img) && o.hardware.Some?
    ensures Borne(img, o) <==> FirstSlot(img.entries, (e: Entry) => HasHint(e, o.hardware)).Some?
  {
    var first := FirstSlot(img.entries, (e: Entry) => HasHint(e, o.hardware));
    if first.Some? {
      var e := img.entries[first.value].value;
      var j :| 0 <= j < |e.endpoints| && e.endpoints[j].hardware == o.hardware;
      assert HasKey(e, e.endpoints[j].key);
      PlaceIs(e.endpoints, e.endpoints[j].key, j);
      assert Owns(img.entries, first.value, e.endpoints[j].key);
    }
    if Borne(img, o) {
      var i: nat, k :| Owns(img.entries, i, k) && RecordAt(img.entries[i].value, k).hardware == o.hardware;
      assert HasHint(img.entries[i].value, o.hardware);
    }
  }

  /** The slot of the device that an observation is proven to be. */
  function Selected(img: Image, proven: Option<nat>): Option<nat> {
    if proven.Some? then FirstSlot(img.entries, (e: Entry) => e.device == proven.value) else None
  }

  lemma SelectedIs(img: Image, proven: Option<nat>)
    requires CatalogueOk(img) && proven.Some?
    ensures Selected(img, proven).None? ==> forall i: nat :: !Is(img, i, proven.value)
    ensures Selected(img, proven).Some? ==> Is(img, Selected(img, proven).value, proven.value)
  {}

  lemma ReobservedReason(img: Image, slot: nat, o: Observation, proven: Option<nat>, t: Trust)
    requires CatalogueOk(img) && Owns(img.entries, slot, o.key) && Proven(t, o) == Ok(proven)
    requires proven.Some? ==> exists i: nat :: Is(img, i, proven.value)
    ensures Grounds(img, o, t, Reobserved(img, slot, o, proven, t).0)
  {
    OneOwner(img, o, slot);
    assert proven.None? ==> Unproven(t, o);
    assert proven.Some? ==> Proves(t, o, proven.value);
    if proven.Some? && proven.value != img.entries[slot].value.device { assert !Is(img, slot, proven.value); }
  }

  lemma FirstObservedReason(img: Image, o: Observation, proven: Option<nat>, t: Trust, minted: nat)
    requires CatalogueOk(img) && (forall i: nat :: !Owns(img.entries, i, o.key)) && Proven(t, o) == Ok(proven)
    requires proven.Some? ==> Selected(img, proven).Some?
    ensures Grounds(img, o, t, FirstObserved(img, Selected(img, proven), o, minted).0)
  {
    if proven.Some? {
      SelectedIs(img, proven);
      assert Is(img, Selected(img, proven).value, proven.value) && Proves(t, o, proven.value);
    } else {
      assert Unproven(t, o);
      if o.hardware.Some? { BorneIs(img, o); }
      OpeningIs(img);
    }
  }

  lemma OpeningIs(img: Image)
    ensures match Vacant(img.entries)
      case None => forall i: nat :: !Opening(img, i)
      case Some(slot) =>
        if FirstSlot(img.entries, (e: Entry) => e.alias == Numbered(slot)).Some? then forall i: nat :: !Opening(img, i)
        else Opening(img, slot)
  {
    var v := Vacant(img.entries);
    if v.Some? {
      forall i: nat | Opening(img, i) ensures i == v.value {}
    }
  }

  /** An answer of `observe` is given exactly when its reason holds, on the catalogue as it then is. */
  lemma AnswersExactly(img: Image, o: Observation, c: Context, minted: nat)
    requires CatalogueOk(img) && Observed(img, o, c, minted).Ok?
    ensures Answers(img, o, c, Observed(img, o, c, minted).value.0)
  {
    if Permits(c.scope, o) && Freshness(o, c.now, c.clockTrusted) == FRESH {
      var proven := Proven(c.trust, o).value;
      var owner := FirstSlot(img.entries, (e: Entry) => HasKey(e, o.key));
      if proven.Some? {
        SelectedIs(img, proven);
        assert Proves(c.trust, o, proven.value);
      }
      if !(proven.Some? && Selected(img, proven).None?) {
        if owner.Some? {
          assert Owns(img.entries, owner.value, o.key);
          ReobservedReason(img, owner.value, o, proven, c.trust);
        } else {
          FirstObservedReason(img, o, proven, c.trust, minted);
        }
      }
    }
  }

  /** A batch is refused exactly for an observation in scope and fresh that claims to last longer than the
      scope allows, or that is proven to be two devices. */
  lemma RefusedExactly(img: Image, o: Observation, c: Context, minted: nat)
    ensures Observed(img, o, c, minted).Err? <==>
      && Permits(c.scope, o) && Timely(c, o)
      && (c.scope.validFor < o.validFor || exists a: nat, b: nat :: a != b && Proves(c.trust, o, a) && Proves(c.trust, o, b))
    ensures Observed(img, o, c, minted).Err? ==>
      Observed(img, o, c, minted).error
        == if c.scope.validFor < o.validFor then DISCOVERY_FRESHNESS_POLICY else DISCOVERY_BINDING_CONFLICT
  {}

  lemma UnprovenExclude(img: Image, o: Observation, t: Trust, x: Outcome, y: Outcome)
    requires CatalogueOk(img) && Unproven(t, o) && Grounds(img, o, t, x) && Grounds(img, o, t, y)
    ensures x == y
  {
    if i: nat :| Owns(img.entries, i, o.key) {
      OneOwner(img, o, i);
    }
  }

  lemma ProvenExclude(img: Image, o: Observation, t: Trust, d: nat, x: Outcome, y: Outcome)
    requires CatalogueOk(img) && Proves(t, o, d) && (forall e: nat | Proves(t, o, e) :: e == d)
    requires Grounds(img, o, t, x) && Grounds(img, o, t, y)
    ensures x == y
  {
    if i: nat :| Owns(img.entries, i, o.key) {
      OneOwner(img, o, i);
      assert Proves(t, o, img.entries[i].value.device) ==> Is(img, i, d);
    }
    if j: nat :| Is(img, j, d) { OneSlot(img, d, j); }
  }

  lemma ReasonsExclude(img: Image, o: Observation, t: Trust, x: Outcome, y: Outcome)
    requires CatalogueOk(img) && Proven(t, o).Ok? && Grounds(img, o, t, x) && Grounds(img, o, t, y)
    ensures x == y
  {
    var proven := Proven(t, o).value;
    if proven.Some? {
      assert Proves(t, o, proven.value);
      ProvenExclude(img, o, t, proven.value, x, y);
    } else {
      assert Unproven(t, o);
      UnprovenExclude(img, o, t, x, y);
    }
  }

  /** So the reasons decide: an observation gets the one answer whose reason holds. */
  lemma AnsweredExactly(img: Image, o: Observation, c: Context, minted: nat, outcome: Outcome)
    requires CatalogueOk(img) && Observed(img, o, c, minted).Ok?
    ensures Observed(img, o, c, minted).value.0 == outcome <==> Answers(img, o, c, outcome)
  {
    var given := Observed(img, o, c, minted).value.0;
    AnswersExactly(img, o, c, minted);
    if Answers(img, o, c, outcome) && Timely(c, o) && Permits(c.scope, o) {
      ReasonsExclude(img, o, c.trust, given, outcome);
    }
  }

  // ---- Where an observation is recorded -----------------------------------------------------------------

  /** The endpoint has this record, in a slot of this device, and nothing else has changed. */
  predicate RecordedIn(img: Image, u: Image, i: nat, o: Observation) {
    && u == img.(entries := u.entries) && |u.entries| == |img.entries| && i < |img.entries| && Owns(u.entries, i, o.key)
    && RecordAt(u.entries[i].value, o.key) == o && (forall j | 0 <= j < |img.entries| && j != i :: u.entries[j] == img.entries[j])
    && (forall x | x in u.entries[i].value.endpoints && x != o :: x.key != o.key && img.entries[i].Some? && x in img.entries[i].value.endpoints)
    && (img.entries[i].Some? ==>
          && u.entries[i].value.device == img.entries[i].value.device && u.entries[i].value.alias == img.entries[i].value.alias
          && forall x | x in img.entries[i].value.endpoints && x.key != o.key :: x in u.entries[i].value.endpoints)
  }

  lemma SeenHas(e: Entry, o: Observation)
    requires KeysDistinct(e)
    ensures HasKey(Seen(e, o), o.key) && RecordAt(Seen(e, o), o.key) == o
    ensures forall x | x in Seen(e, o).endpoints && x != o :: x.key != o.key && x in e.endpoints
    ensures forall x | x in e.endpoints && x.key != o.key :: x in Seen(e, o).endpoints
  {
    SeenItself(e, o);
    SeenRecord(e, o, o.key);
    SeenLast(e, o);
    var s := Seen(e, o).endpoints;
    forall x | x in s && x != o ensures x.key != o.key && x in e.endpoints {
      var a :| 0 <= a < |s| && s[a] == x;
      SeenBefore(e, o, a);
    }
    forall x | x in e.endpoints && x.key != o.key ensures x in s {
      var i :| 0 <= i < |e.endpoints| && e.endpoints[i] == x;
      assert HasKey(e, x.key);
      PlaceIs(e.endpoints, x.key, i);
      SeenOther(e, o, x.key);
      SeenRecord(e, o, x.key);
    }
  }

  /** The slot that an observation is recorded in. */
  ghost predicate GoesTo(img: Image, u: Image, i: nat, o: Observation, t: Trust, minted: nat) {
    && RecordedIn(img, u, i, o)
    && (if exists j: nat :: Owns(img.entries, j, o.key) then Owns(img.entries, i, o.key)
        else if exists d: nat :: Proves(t, o, d) then Proves(t, o, u.entries[i].value.device) && img.entries[i].Some?
        else Opening(img, i) && u.entries[i] == Some(Entry(minted, Numbered(i), [o])))
  }

  lemma SeenAtIs(img: Image, i: nat, o: Observation)
    requires CatalogueOk(img) && i < |img.entries| && img.entries[i].Some?
    ensures RecordedIn(img, SeenAt(img, i, o), i, o) && Is(SeenAt(img, i, o), i, img.entries[i].value.device)
  {
    SeenHas(img.entries[i].value, o);
  }

  lemma MintedIs(img: Image, i: nat, o: Observation, minted: nat)
    requires i < |img.entries| && img.entries[i] == None
    ensures RecordedIn(img, img.(entries := img.entries[i := Some(Entry(minted, Numbered(i), [o]))]), i, o)
  {
    assert HasKey(Entry(minted, Numbered(i), [o]), o.key) by { assert [o][0].key == o.key; }
    PlaceIs([o], o.key, 0);
  }

  lemma FirstRecordedExactly(img: Image, o: Observation, proven: Option<nat>, t: Trust, minted: nat) returns (i: nat)
    requires CatalogueOk(img) && (forall j: nat :: !Owns(img.entries, j, o.key)) && Proven(t, o) == Ok(proven)
    requires proven.Some? ==> Selected(img, proven).Some?
    requires FirstObserved(img, Selected(img, proven), o, minted).0.OBSERVED?
    ensures GoesTo(img, FirstObserved(img, Selected(img, proven), o, minted).1, i, o, t, minted)
  {
    if proven.Some? {
      SelectedIs(img, proven);
      i := Selected(img, proven).value;
      SeenAtIs(img, i, o);
      assert Proves(t, o, proven.value);
    } else {
      OpeningIs(img);
      i := Vacant(img.entries).value;
      MintedIs(img, i, o, minted);
      assert Unproven(t, o);
    }
  }

  /** What is OBSERVED is recorded for the device that has the endpoint, or else for the one that it is
      proven to be, or else for a new one in the first free slot. */
  lemma RecordedExactly(img: Image, o: Observation, c: Context, minted: nat) returns (i: nat)
    requires CatalogueOk(img) && Observed(img, o, c, minted).Ok? && Observed(img, o, c, minted).value.0.OBSERVED?
    ensures GoesTo(img, Observed(img, o, c, minted).value.1, i, o, c.trust, minted)
  {
    var owner := FirstSlot(img.entries, (e: Entry) => HasKey(e, o.key));
    if owner.Some? {
      i := owner.value;
      assert Owns(img.entries, i, o.key);
      SeenAtIs(img, i, o);
    } else {
      i := FirstRecordedExactly(img, o, Proven(c.trust, o).value, c.trust, minted);
    }
  }

  // ---- Hardware hints over a batch -----------------------------------------------------------------------

  /** The hint last recorded for an endpoint of the device in slot i. */
  function HintAt(img: Image, i: nat, k: Key): Option<nat>
    requires Owns(img.entries, i, k)
  {
    RecordAt(img.entries[i].value, k).hardware
  }

  ghost predicate ProvenIn(t: Trust, os: seq<Observation>, k: Key, d: nat) { exists o :: o in os && o.key == k && Proves(t, o, d) }

  /** A known hint stays, unless one of these observations is proven to be that device at that endpoint. */
  ghost predicate HintsStand(a: Image, b: Image, t: Trust, os: seq<Observation>) {
    forall i: nat, k | Owns(a.entries, i, k) && HintAt(a, i, k).Some? ::
      && Owns(b.entries, i, k) && b.entries[i].value.device == a.entries[i].value.device
      && (HintAt(b, i, k) == HintAt(a, i, k) || ProvenIn(t, os, k, a.entries[i].value.device))
  }

  lemma ObservedHints(img: Image, o: Observation, c: Context, minted: nat, os: seq<Observation>)
    requires CatalogueOk(img) && Observed(img, o, c, minted).Ok? && o in os
    ensures HintsStand(img, Observed(img, o, c, minted).value.1, c.trust, os)
  {
    var (outcome, u) := Observed(img, o, c, minted).value;
    OutcomeMeans(img, o, c, minted);
    if outcome.OBSERVED? {
      AnswersExactly(img, o, c, minted);
      var i := RecordedExactly(img, o, c, minted);
      forall j: nat, k | Owns(img.entries, j, k) && HintAt(img, j, k).Some?
        ensures Owns(u.entries, j, k) && u.entries[j].value.device == img.entries[j].value.device
        ensures HintAt(u, j, k) == HintAt(img, j, k) || ProvenIn(c.trust, os, k, img.entries[j].value.device)
      {
        HintAfter(img, u, i, o, c.trust, os, j, k);
      }
    }
  }

  lemma HintAfter(img: Image, u: Image, i: nat, o: Observation, t: Trust, os: seq<Observation>, j: nat, k: Key)
    requires CatalogueOk(img) && RecordedIn(img, u, i, o) && o in os && Grounds(img, o, t, OBSERVED)
    requires (exists j: nat :: Owns(img.entries, j, o.key)) ==> Owns(img.entries, i, o.key)
    requires Owns(img.entries, j, k) && HintAt(img, j, k).Some?
    ensures Owns(u.entries, j, k) && u.entries[j].value.device == img.entries[j].value.device
    ensures HintAt(u, j, k) == HintAt(img, j, k) || ProvenIn(t, os, k, img.entries[j].value.device)
  {
    if j == i {
      if k == o.key {
        OneOwner(img, o, i);
        assert StillIs(img, i, o, t);
      } else {
        var x := RecordAt(img.entries[i].value, k);
        assert x in u.entries[i].value.endpoints;
        var a :| 0 <= a < |u.entries[i].value.endpoints| && u.entries[i].value.endpoints[a] == x;
        assert HasKey(u.entries[i].value, k);
        var y := RecordAt(u.entries[i].value, k);
        assert y != o && y in img.entries[i].value.endpoints;
        SameRecord(img.entries[i].value, x, y);
      }
    }
  }

  lemma SameRecord(e: Entry, x: Observation, y: Observation)
    requires KeysDistinct(e) && x in e.endpoints && y in e.endpoints && x.key == y.key
    ensures x == y
  {
    var a :| 0 <= a < |e.endpoints| && e.endpoints[a] == x;
    var b :| 0 <= b < |e.endpoints| && e.endpoints[b] == y;
    assert a == b;
  }

  lemma HintsStandOn(a: Image, b: Image, c: Image, t: Trust, os: seq<Observation>)
    requires HintsStand(a, b, t, os) && HintsStand(b, c, t, os)
    requires Evolves(b, c, t, os)
    ensures HintsStand(a, c, t, os)
  {}

  lemma {:induction false} FoldedHints(img: Image, os: seq<Observation>, c: Context, minted: seq<nat>, all: seq<Observation>)
    requires CatalogueOk(img) && |minted| == |os| && NewIdentities(img, minted)
    requires (forall o | o in os :: o in all) && Folded(img, os, c, minted).Ok?
    ensures HintsStand(img, Folded(img, os, c, minted).value.1, c.trust, all)
    decreases |os|
  {
    if os != [] {
      var n := |os| - 1;
      FoldedHints(img, os[..n], c, minted[..n], all);
      FoldedKeeps(img, os[..n], c, minted[..n], all);
      var before := Folded(img, os[..n], c, minted[..n]).value.1;
      assert !Known(before, minted[n]) by { assert minted[n] !in minted[..n]; }
      ObservedHints(before, os[n], c, minted[n], all);
      ObservedKeeps(before, os[n], c, minted[n], all);
      HintsStandOn(img, before, Observed(before, os[n], c, minted[n]).value.1, c.trust, all);
    }
  }

  /** Over a whole batch the hint of an endpoint, once known, changes only by an observation that is
      proven to be its device. */
  lemma BatchHintsStand(img: Image, os: seq<Observation>, c: Context, minted: seq<nat>, fits: bool)
    requires CatalogueOk(img) && |minted| == |os| && NewIdentities(img, minted) && Batch(img, os, c, minted, fits).Ok?
    ensures HintsStand(img, Batch(img, os, c, minted, fits).value.1, c.trust, os)
  {
    FoldedHints(img, os, c, minted, os);
    assert Batch(img, os, c, minted, fits).value.1.entries == Folded(img, os, c, minted).value.1.entries;
  }

  /** An unproven observation is recorded beside another bearer of its hint only at an endpoint that was
      known already, with this hint or with none. */
  lemma NewBearer(img: Image, o: Observation, c: Context, minted: nat)
    requires CatalogueOk(img) && Observed(img, o, c, minted).Ok? && Observed(img, o, c, minted).value.0.OBSERVED?
    requires Unproven(c.trust, o) && Borne(img, o)
    ensures exists i: nat :: Owns(img.entries, i, o.key) && (HintAt(img, i, o.key) == None || HintAt(img, i, o.key) == o.hardware)
  {
    AnswersExactly(img, o, c, minted);
  }

  /** With none it always is: a device first seen without a hint takes on the next one, whoever bears it. */
  lemma AdoptsHint(img: Image, o: Observation, c: Context, minted: nat, i: nat)
    requires CatalogueOk(img) && Admissible(c, o) && Unproven(c.trust, o) && o.hardware.Some?
    requires Owns(img.entries, i, o.key) && img.entries[i].value.device !in c.trust.enrolled
    requires HintAt(img, i, o.key) == None && RecordAt(img.entries[i].value, o.key).observedAt <= o.observedAt
    ensures Observed(img, o, c, minted).Ok? && Observed(img, o, c, minted).value.0 == OBSERVED
    ensures Owns(Observed(img, o, c, minted).value.1.entries, i, o.key) && HintAt(Observed(img, o, c, minted).value.1, i, o.key) == o.hardware
  {
    RefusedExactly(img, o, c, minted);
    assert StillIs(img, i, o, c.trust);
    AnsweredExactly(img, o, c, minted, OBSERVED);
    var j := RecordedExactly(img, o, c, minted);
    OneOwner(img, o, i);
  }

  /** One such image: the second device takes on the hint of the first. */
  lemma HintsMeet() returns (img: Image, o: Observation, c: Context)
    ensures CatalogueOk(img) && Admissible(c, o) && Unproven(c.trust, o) && Borne(img, o)
    ensures Owns(img.entries, 1, o.key) && img.entries[1].value.device !in c.trust.enrolled
    ensures HintAt(img, 1, o.key) == None && RecordAt(img.entries[1].value, o.key).observedAt <= o.observedAt
    ensures forall k | Owns(img.entries, 0, k) :: k != o.key
  {
    var net := Network(4, 0, 255, 24);
    var x := Observation(Key(3, Address(4, 1)), NEIGHBOR_CACHE, 100, 60, false, Some(11), None);
    var y := Observation(Key(3, Address(4, 2)), NEIGHBOR_CACHE, 100, 60, false, None, None);
    var e, f := Entry(5, Numbered(0), [x]), Entry(6, Numbered(1), [y]);
    img := Image(1, [Some(e), Some(f)], [], false);
    o := y.(observedAt := 110, hardware := Some(11));
    c := Context(Scope([Interface(3, [net])], {NEIGHBOR_CACHE}, 8, 60), 110, Trust({}, []), true);
    assert Host(o.key.address, net) && net in c.scope.interfaces[0].networks && c.scope.interfaces[0] in c.scope.interfaces;
    ScopeExactly(c.scope, o);
    OneRecord(e, x);
    OneRecord(f, y);
    assert Owns(img.entries, 1, o.key) && Owns(img.entries, 0, x.key);
  }

  lemma OneRecord(e: Entry, x: Observation)
    requires e.endpoints == [x]
    ensures forall k :: HasKey(e, k) <==> k == x.key
    ensures KeysDistinct(e) && RecordAt(e, x.key) == x
  {
    assert e.endpoints[0].key == x.key;
  }

  // ---- What a batch can record ------------------------------------------------------------------------------

  /** Every record, of a device or in quarantine, was there before or is one of these observations and admissible. */
  ghost predicate OnlySeen(a: Image, b: Image, c: Context, os: seq<Observation>) {
    && |b.entries| == |a.entries| && |b.quarantine| == |a.quarantine|
    && (forall i, x | 0 <= i < |b.entries| && b.entries[i].Some? && x in b.entries[i].value.endpoints ::
          (a.entries[i].Some? && x in a.entries[i].value.endpoints) || (x in os && Admissible(c, x)))
    && (forall i | 0 <= i < |b.quarantine| && b.quarantine[i].Some? ::
          b.quarantine[i] == a.quarantine[i] || (b.quarantine[i].value.observation in os && Admissible(c, b.quarantine[i].value.observation)))
  }

  lemma KeptSeen(img: Image, reason: Reason, o: Observation, c: Context, os: seq<Observation>)
    requires o in os && Admissible(c, o)
    ensures OnlySeen(img, Kept(img, reason, o), c, os)
  {}

  lemma ObservedSeen(img: Image, o: Observation, c: Context, minted: nat, os: seq<Observation>)
    requires CatalogueOk(img) && Observed(img, o, c, minted).Ok? && o in os
    ensures OnlySeen(img, Observed(img, o, c, minted).value.1, c, os)
  {
    var (outcome, u) := Observed(img, o, c, minted).value;
    AnswersExactly(img, o, c, minted);
    RefusedExactly(img, o, c, minted);
    if outcome.OBSERVED? {
      var i := RecordedExactly(img, o, c, minted);
    } else if outcome.Quarantined? {
      assert u == Kept(img, outcome.reason, o);
      KeptSeen(img, outcome.reason, o, c, os);
    } else {
      OutcomeMeans(img, o, c, minted);
    }
  }

  lemma OnlySeenOn(a: Image, b: Image, d: Image, c: Context, os: seq<Observation>)
    requires OnlySeen(a, b, c, os) && OnlySeen(b, d, c, os)
    ensures OnlySeen(a, d, c, os)
  {}

  lemma {:induction false} FoldedSeen(img: Image, os: seq<Observation>, c: Context, minted: seq<nat>, all: seq<Observation>)
    requires CatalogueOk(img) && |minted| == |os| && NewIdentities(img, minted)
    requires (forall o | o in os :: o in all) && Folded(img, os, c, minted).Ok?
    ensures OnlySeen(img, Folded(img, os, c, minted).value.1, c, all)
    decreases |os|
  {
    if os != [] {
      var n := |os| - 1;
      FoldedSeen(img, os[..n], c, minted[..n], all);
      FoldedKeeps(img, os[..n], c, minted[..n], all);
      var before := Folded(img, os[..n], c, minted[..n]).value.1;
      ObservedSeen(before, os[n], c, minted[n], all);
      OnlySeenOn(img, before, Observed(before, os[n], c, minted[n]).value.1, c, all);
    }
  }

  /** A batch records nothing but its own admissible observations. */
  lemma BatchOnlySeen(img: Image, os: seq<Observation>, c: Context, minted: seq<nat>, fits: bool)
    requires CatalogueOk(img) && |minted| == |os| && NewIdentities(img, minted) && Batch(img, os, c, minted, fits).Ok?
    ensures OnlySeen(img, Batch(img, os, c, minted, fits).value.1, c, os)
  {
    FoldedSeen(img, os, c, minted, os);
    var u, v := Batch(img, os, c, minted, fits).value.1, Folded(img, os, c, minted).value.1;
    assert u.entries == v.entries && u.quarantine == v.quarantine;
  }

  /** Besides its observations a batch is refused for its length alone, or, when it would change
      the image, for an exhausted revision or an image that does not fit. */
  lemma BatchExactly(img: Image, os: seq<Observation>, c: Context, minted: seq<nat>, fits: bool)
    requires |minted| == |os| && !Folded(img, os, c, minted).Err?
    ensures var r := Batch(img, os, c, minted, fits);
      var changed := Folded(img, os, c, minted).value.1 != img;
      && (r.Ok? <==> |os| <= c.scope.maxObservations && (changed ==> img.revision < MAX_REVISION && fits))
      && (r == Err(DISCOVERY_BATCH) <==> c.scope.maxObservations < |os|)
      && (r == Err(DISCOVERY_REVISION_EXHAUSTED) <==> |os| <= c.scope.maxObservations && changed && MAX_REVISION <= img.revision)
      && (r.Ok? && changed ==> r.value.1.revision == img.revision + 1 && r.value.1.(revision := img.revision) == Folded(img, os, c, minted).value.1)
      && (r.Ok? && !changed ==> r.value.1 == img)
  {
    FoldedLength(img, os, c, minted);
  }
}
