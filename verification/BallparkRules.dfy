/**
  Which documents show a catalogue, where a device is written, and which draft may be published:
  stated on rows, codes and headers.  After a publication exactly the drafts made from that very
  candidate can follow, so none is published over a catalogue it has not seen.
 */
module BallparkRules {
  import opened Basics
  import C = Codecs
  import opened Ballpark

  // ---- Reading ------------------------------------------------------------------------------------

  /** A row shows a device at a revision exactly when discovery adopted it under that identity and
      alias and the row carries its one code. */
  predicate Shows(row: Row, revision: nat, d: C.Device) {
    && C.DeviceOk(d) && 1 <= revision <= MAX_REVISION
    && row.discovery == Some(C.Identity(d.id, d.alias)) && row.code == Some(C.CompactDevice(d, revision))
  }

  lemma ReadIsShown(row: Row, revision: nat, d: C.Device)
    requires Device(row, revision) == Ok(d)
    ensures Shows(row, revision, d)
  {
    C.DeviceCodeUnique(row.code.value, row.discovery.value);
  }

  lemma DeviceExactly(row: Row, revision: nat, d: C.Device)
    ensures Device(row, revision) == Ok(d) <==> Shows(row, revision, d)
  {
    if Device(row, revision) == Ok(d) {
      ReadIsShown(row, revision, d);
    } else if Shows(row, revision, d) {
      C.DeviceRoundTrip(d, revision);
    }
  }

  lemma {:induction false} ReadAt(rows: seq<Row>, slots: seq<nat>, revision: nat, i: nat)
    requires InRange(slots, |rows|) && DevicesAt(rows, slots, revision).Ok? && i < |slots|
    ensures var ds := DevicesAt(rows, slots, revision).value; |ds| == |slots| && Device(rows[slots[i]], revision) == Ok(ds[i])
    decreases |slots|
  {
    if i > 0 {
      ReadAt(rows, slots[1..], revision, i - 1);
    } else if |slots| > 1 {
      ReadAt(rows, slots[1..], revision, 0);
    } else {
      assert slots[1..] == [];
    }
  }

  lemma DevicesExactly(rows: seq<Row>, slots: seq<nat>, revision: nat, ds: seq<C.Device>)
    requires InRange(slots, |rows|)
    ensures DevicesAt(rows, slots, revision) == Ok(ds)
      <==> |ds| == |slots| && forall i | 0 <= i < |slots| :: Shows(rows[slots[i]], revision, ds[i])
  {
    if DevicesAt(rows, slots, revision) == Ok(ds) {
      if slots != [] { ReadAt(rows, slots, revision, 0); }
      forall i | 0 <= i < |slots| ensures Shows(rows[slots[i]], revision, ds[i]) {
        ReadAt(rows, slots, revision, i);
        ReadIsShown(rows[slots[i]], revision, ds[i]);
      }
    } else if |ds| == |slots| && forall i | 0 <= i < |slots| :: Shows(rows[slots[i]], revision, ds[i]) {
      forall i | 0 <= i < |slots| ensures Device(rows[slots[i]], revision) == Ok(ds[i]) {
        DeviceExactly(rows[slots[i]], revision, ds[i]);
      }
      ReadsBack(rows, slots, ds, revision);
    }
  }

  /** The registry names this catalogue and, under one decision and revision, the rows that show its devices. */
  predicate Published(doc: Document, c: Catalogue) {
    && CatalogueOk(c) && doc.registry.Some? && doc.settings.Some?
    && var h, s := doc.registry.value, doc.settings.value;
       && h.digest == c && h.revision == h.generation == s.generation == s.revision == c.revision
       && h.operation == h.decision == s.operation
       && |h.slots| == |c.devices| && C.Distinct(h.slots)
       && forall i | 0 <= i < |h.slots| :: h.slots[i] < |doc.rows| && Shows(doc.rows[h.slots[i]], c.revision, c.devices[i])
  }

  /** A document reads as a catalogue exactly when it publishes that one. */
  lemma SharedExactly(doc: Document, c: Catalogue)
    ensures Shared(doc) == Ok(c) <==> Published(doc, c)
  {
    if doc.registry.Some? && InRange(doc.registry.value.slots, |doc.rows|) {
      var h := doc.registry.value;
      DevicesExactly(doc.rows, h.slots, h.revision, c.devices);
      if C.Distinct(h.slots) { SlotsFit(h.slots, |doc.rows|); }
    }
  }

  // ---- Slots -----------------------------------------------------------------------------------------

  predicate Found(rows: seq<Row>, id: nat, s: nat) { s < |rows| && rows[s].discovery.Some? && rows[s].discovery.value.id == id }

  /** Every row discovered as this device bears its alias. */
  predicate Agreed(rows: seq<Row>, d: C.Device, from: nat) {
    forall s | from <= s < |rows| && Found(rows, d.id, s) :: rows[s].discovery.value.alias == d.alias
  }

  lemma {:induction false} MatchingExactly(rows: seq<Row>, d: C.Device, from: nat)
    requires from <= |rows|
    ensures Matching(rows, d, from) == if Agreed(rows, d, from) then Ok(Rows(rows, d.id, from)) else Err(BALLPARK_IDENTITY_CONFLICT)
    decreases |rows| - from
  {
    if from < |rows| {
      MatchingExactly(rows, d, from + 1);
      if Found(rows, d.id, from) && rows[from].discovery.value.alias != d.alias { assert !Agreed(rows, d, from); }
    }
  }

  /** The rows discovered as a device, in order. */
  function Rows(rows: seq<Row>, id: nat, from: nat): seq<nat>
    requires from <= |rows|
    decreases |rows| - from
  {
    if from == |rows| then []
    else if Found(rows, id, from) then [from] + Rows(rows, id, from + 1)
    else Rows(rows, id, from + 1)
  }

  lemma {:induction false} RowsAre(rows: seq<Row>, id: nat, from: nat, s: nat)
    requires from <= |rows|
    ensures s in Rows(rows, id, from) <==> from <= s && Found(rows, id, s)
    decreases |rows| - from
  {
    if from < |rows| { RowsAre(rows, id, from + 1, s); }
  }

  lemma {:induction false} RowsRise(rows: seq<Row>, id: nat, from: nat, i: nat, j: nat)
    requires from <= |rows| && i < j < |Rows(rows, id, from)|
    ensures Rows(rows, id, from)[i] < Rows(rows, id, from)[j]
    decreases |rows| - from
  {
    var rest := Rows(rows, id, from + 1);
    if !Found(rows, id, from) {
      RowsRise(rows, id, from + 1, i, j);
    } else if i > 0 {
      RowsRise(rows, id, from + 1, i - 1, j - 1);
    } else {
      assert rest[j - 1] in rest;
      RowsAre(rows, id, from + 1, rest[j - 1]);
    }
  }

  /** This row is the only one discovered as the device. */
  ghost predicate Only(rows: seq<Row>, id: nat, s: nat) { Found(rows, id, s) && forall t: nat | Found(rows, id, t) :: t == s }

  /** A device has a slot exactly when one row alone was discovered as it, under its alias, and can take
      another generation. */
  lemma SlotExactly(rows: seq<Row>, d: C.Device, s: nat)
    ensures var r := SlotOf(rows, d);
      && (r == Ok(s) <==> Only(rows, d.id, s) && rows[s].discovery.value.alias == d.alias && rows[s].generation < MAX_REVISION)
      && (r == Err(BALLPARK_IDENTITY_CONFLICT) <==> !Agreed(rows, d, 0))
      && (r == Err(BALLPARK_DISCOVERY_NOT_PUBLISHED) <==> Agreed(rows, d, 0) && forall t: nat :: !Only(rows, d.id, t))
      && (r == Err(BALLPARK_GENERATION_EXHAUSTED) <==>
            Agreed(rows, d, 0) && exists t: nat :: Only(rows, d.id, t) && MAX_REVISION <= rows[t].generation)
  {
    MatchingExactly(rows, d, 0);
    var found := Rows(rows, d.id, 0);
    forall t: nat ensures t in found <==> Found(rows, d.id, t) { RowsAre(rows, d.id, 0, t); }
    if |found| == 1 {
      assert found[0] in found;
      assert Only(rows, d.id, found[0]);
    } else if |found| > 1 {
      RowsRise(rows, d.id, 0, 0, 1);
      assert found[0] in found && found[1] in found;
      assert forall t: nat :: !Only(rows, d.id, t);
    }
  }

  // ---- Publishing ----------------------------------------------------------------------------------------

  /** A draft may be published exactly over the catalogue it was made from, or over none, and not
      once a configuration has begun. */
  lemma BaseExactly(doc: Document, draft: Draft)
    ensures BaseFault(doc, draft) == None <==>
      && (doc.settings.Some? ==> !doc.settings.value.configured)
      && (if draft.base.Some? then Published(doc, draft.base.value) else doc.registry == None && doc.settings == None)
    ensures BaseFault(doc, draft) == Some(CONFIGURATION_TRANSACTION_REQUIRED) <==> doc.settings.Some? && doc.settings.value.configured
    ensures BaseFault(doc, draft).Some? ==>
      BaseFault(doc, draft) == Some(CONFIGURATION_TRANSACTION_REQUIRED) || BaseFault(doc, draft) == Some(BALLPARK_REVISION_CONFLICT)
  {
    if draft.base.Some? { SharedExactly(doc, draft.base.value); }
  }

  /** Publishing writes each device's code into its own row, one generation on, and the header that
      names them; no other row changes. */
  lemma WritesExactly(doc: Document, draft: Draft, slots: seq<nat>)
    requires CatalogueOk(draft.candidate) && SlotsOf(doc.rows, draft.candidate.devices) == Ok(slots)
    ensures |slots| == |draft.candidate.devices| && InRange(slots, |doc.rows|)
    ensures var (c, t) := (draft.candidate, Proposed(doc, draft, slots));
      && Published(t, c) && t.registry.value.slots == slots && t.registry.value.decision == draft.decision && !t.settings.value.configured
      && |t.rows| == |doc.rows|
      && (forall i | 0 <= i < |slots| ::
            && Only(doc.rows, c.devices[i].id, slots[i])
            && t.rows[slots[i]].generation == doc.rows[slots[i]].generation + 1 && t.rows[slots[i]].operation == draft.decision)
      && (forall j | 0 <= j < |t.rows| && j !in slots :: t.rows[j] == doc.rows[j])
  {
    PublishThenShared(doc, draft, slots);
    SharedExactly(Proposed(doc, draft, slots), draft.candidate);
    PublishedFacts(doc, draft, slots);
    forall i | 0 <= i < |slots| ensures Only(doc.rows, draft.candidate.devices[i].id, slots[i]) {
      SlotsAre(doc.rows, draft.candidate.devices, i);
      SlotExactly(doc.rows, draft.candidate.devices[i], slots[i]);
    }
  }

  lemma {:induction false} SlotsAre(rows: seq<Row>, ds: seq<C.Device>, i: nat)
    requires SlotsOf(rows, ds).Ok? && i < |ds|
    ensures |SlotsOf(rows, ds).value| == |ds| && SlotOf(rows, ds[i]) == Ok(SlotsOf(rows, ds).value[i])
    decreases |ds|
  {
    SlotsOfIs(rows, ds);
    if i < |ds| - 1 { SlotsAre(rows, ds[..|ds| - 1], i); } else { SlotsOfIs(rows, ds[..|ds| - 1]); }
  }

  /** Once published, exactly the drafts made from that very candidate can follow: no draft is
      published over a catalogue it has not seen. */
  lemma OnlyItsSuccessorFollows(doc: Document, draft: Draft, slots: seq<nat>, next: Draft)
    requires CatalogueOk(draft.candidate) && SlotsOf(doc.rows, draft.candidate.devices) == Ok(slots)
    ensures |slots| == |draft.candidate.devices| && InRange(slots, |doc.rows|)
    ensures BaseFault(Proposed(doc, draft, slots), next) == None <==> next.base == Some(draft.candidate)
  {
    PublishThenShared(doc, draft, slots);
  }
}
