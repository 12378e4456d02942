/**
  Publishing a catalogue of devices into the shared document, and reading it back.  A publication
  writes each device into the one row that discovery adopted it in, and a header that names those
  rows; a reading accepts exactly the documents that show a catalogue in this way.
 */
module Ballpark {
  import opened Basics
  import C = Codecs

  const MAX_REVISION := 0x7fff_ffff_ffff_ffff

  /** A target's catalogue row: the identity discovery adopted and the published description. */
  datatype Row = Row(generation: nat, operation: nat, discovery: Option<C.Identity>, code: Option<C.DeviceCode>)

  datatype Catalogue = Catalogue(revision: nat, devices: seq<C.Device>)

  /** The registry header; its digest is that of the whole catalogue. */
  datatype Header = Header(generation: nat, operation: nat, revision: nat, slots: seq<nat>, digest: Catalogue, decision: nat)

  datatype Settings = Settings(generation: nat, operation: nat, revision: nat, configured: bool)

  datatype Document = Document(registry: Option<Header>, settings: Option<Settings>, rows: seq<Row>)

  datatype Error =
    | CONFIGURATION_TRANSACTION_REQUIRED | BALLPARK_AUTHORITY_BINDING | DOCUMENT_BUDGET
    | BALLPARK_REVISION_CONFLICT | BALLPARK_IDENTITY_CONFLICT
    | BALLPARK_DISCOVERY_NOT_PUBLISHED | BALLPARK_GENERATION_EXHAUSTED | BALLPARK_RECORD | BALLPARK_RECORD_DIGEST

  predicate CatalogueOk(c: Catalogue) {
    && 1 <= c.revision <= MAX_REVISION && c.devices != []
    && (forall d | d in c.devices :: C.DeviceOk(d))
    && (forall i, j | 0 <= i < j < |c.devices| :: c.devices[i].id != c.devices[j].id)
  }

  // ---- Reading -------------------------------------------------------------------------------------

  predicate InRange(slots: seq<nat>, n: nat) { forall i | 0 <= i < |slots| :: slots[i] < n }

  predicate HeaderOk(h: Header, capacity: nat) {
    && 1 <= h.revision <= MAX_REVISION && 1 <= |h.slots| <= capacity && C.Distinct(h.slots)
    && InRange(h.slots, capacity)
  }

  function Device(row: Row, revision: nat): Result<C.Device, Error> {
    if row.discovery.None? || row.code.None? || row.code.value.revision != revision then Err(BALLPARK_RECORD)
    else
      match C.ExpandDevice(row.code.value, row.discovery.value)
      case Err(_) => Err(BALLPARK_RECORD)
      case Ok(d) => Ok(d)
  }

  function DevicesAt(rows: seq<Row>, slots: seq<nat>, revision: nat): Result<seq<C.Device>, Error>
    requires InRange(slots, |rows|)
  {
    if slots == [] then Ok([])
    else
      match Device(rows[slots[0]], revision)
      case Err(e) => Err(e)
      case Ok(d) =>
        match DevicesAt(rows, slots[1..], revision)
        case Err(e) => Err(e)
        case Ok(ds) => Ok([d] + ds)
  }

  /** `shared`: one coherent reading of one document. */
  function Shared(doc: Document): Result<Catalogue, Error> {
    if doc.registry.None? || doc.settings.None? then Err(BALLPARK_RECORD)
    else
      var h, s := doc.registry.value, doc.settings.value;
      if !HeaderOk(h, |doc.rows|) || h.generation != h.revision || h.operation != h.decision || s.operation != h.decision
         || s.generation != h.revision || s.revision != h.revision then Err(BALLPARK_RECORD)
      else
        match DevicesAt(doc.rows, h.slots, h.revision)
        case Err(e) => Err(e)
        case Ok(ds) =>
          var c := Catalogue(h.revision, ds);
          if !CatalogueOk(c) then Err(BALLPARK_RECORD)
          else if c != h.digest then Err(BALLPARK_RECORD_DIGEST)
          else Ok(c)
  }

  // ---- Publishing ----------------------------------------------------------------------------------

  /** `base` is the catalogue the draft was made from, if it was made from one. */
  datatype Draft = Draft(base: Option<Catalogue>, candidate: Catalogue, decision: nat)

  predicate Is(row: Row, id: nat) { row.discovery.Some? && row.discovery.value.id == id }

  /** The rows of a device, in order, unless one of them bears another alias. */
  function Matching(rows: seq<Row>, d: C.Device, from: nat): Result<seq<nat>, Error>
    requires from <= |rows|
    decreases |rows| - from
  {
    if from == |rows| then Ok([])
    else if Is(rows[from], d.id) && rows[from].discovery.value.alias != d.alias then Err(BALLPARK_IDENTITY_CONFLICT)
    else
      match Matching(rows, d, from + 1)
      case Err(e) => Err(e)
      case Ok(rest) => Ok(if Is(rows[from], d.id) then [from] + rest else rest)
  }

  function SlotOf(rows: seq<Row>, d: C.Device): Result<nat, Error> {
    match Matching(rows, d, 0)
    case Err(e) => Err(e)
    case Ok(found) =>
      if |found| != 1 then Err(BALLPARK_DISCOVERY_NOT_PUBLISHED)
      else if found[0] >= |rows| || rows[found[0]].generation >= MAX_REVISION then Err(BALLPARK_GENERATION_EXHAUSTED)
      else Ok(found[0])
  }

  function SlotsOf(rows: seq<Row>, ds: seq<C.Device>): Result<seq<nat>, Error> {
    if ds == [] then Ok([])
    else
      match SlotsOf(rows, ds[..|ds| - 1])
      case Err(e) => Err(e)
      case Ok(before) =>
        match SlotOf(rows, ds[|ds| - 1])
        case Err(e) => Err(e)
        case Ok(s) => Ok(before + [s])
  }

  function Described(row: Row, d: C.Device, revision: nat, decision: nat): Row
    requires C.DeviceOk(d)
  {
    row.(generation := row.generation + 1, operation := decision, code := Some(C.CompactDevice(d, revision)))
  }

  /** The rows with each device described in its slot. */
  function Published(rows: seq<Row>, slots: seq<nat>, ds: seq<C.Device>, revision: nat, decision: nat): (r: seq<Row>)
    requires |slots| == |ds| && InRange(slots, |rows|) && forall d | d in ds :: C.DeviceOk(d)
    ensures |r| == |rows|
  {
    if ds == [] then rows
    else
      var n := |ds| - 1;
      Published(rows, slots[..n], ds[..n], revision, decision)[slots[n] := Described(rows[slots[n]], ds[n], revision, decision)]
  }

  function Proposed(doc: Document, draft: Draft, slots: seq<nat>): Document
    requires |slots| == |draft.candidate.devices| && InRange(slots, |doc.rows|) && CatalogueOk(draft.candidate)
  {
    var c := draft.candidate;
    Document(Some(Header(c.revision, draft.decision, c.revision, slots, c, draft.decision)),
             Some(Settings(c.revision, draft.decision, c.revision, false)),
             Published(doc.rows, slots, c.devices, c.revision, draft.decision))
  }

  function BaseFault(doc: Document, draft: Draft): Option<Error> {
    if doc.settings.Some? && doc.settings.value.configured then Some(CONFIGURATION_TRANSACTION_REQUIRED)
    else if draft.base.None? then if doc.registry.None? && doc.settings.None? then None else Some(BALLPARK_REVISION_CONFLICT)
    else if Shared(doc) != Ok(draft.base.value) then Some(BALLPARK_REVISION_CONFLICT)
    else None
  }

  // ---- Proofs ---------------------------------------------------------------------------------------

  lemma {:induction false} MatchingIs(rows: seq<Row>, d: C.Device, from: nat)
    requires from <= |rows| && Matching(rows, d, from).Ok?
    ensures forall s | s in Matching(rows, d, from).value ::
      from <= s < |rows| && Is(rows[s], d.id) && rows[s].discovery.value.alias == d.alias
    decreases |rows| - from
  {
    if from < |rows| { MatchingIs(rows, d, from + 1); }
  }

  /** A slot is found exactly for a device that one row, under the right alias, has discovered. */
  lemma {:induction false} SlotsOfIs(rows: seq<Row>, ds: seq<C.Device>)
    requires SlotsOf(rows, ds).Ok?
    ensures var slots := SlotsOf(rows, ds).value;
      && |slots| == |ds|
      && forall i | 0 <= i < |slots| ::
           slots[i] < |rows| && rows[slots[i]].discovery == Some(C.Identity(ds[i].id, ds[i].alias))
           && rows[slots[i]].generation < MAX_REVISION
    decreases |ds|
  {
    if ds != [] {
      SlotsOfIs(rows, ds[..|ds| - 1]);
      MatchingIs(rows, ds[|ds| - 1], 0);
    }
  }

  lemma {:induction false} PublishedElsewhere(rows: seq<Row>, slots: seq<nat>, ds: seq<C.Device>, revision: nat, decision: nat, j: nat)
    requires |slots| == |ds| && InRange(slots, |rows|) && (forall d | d in ds :: C.DeviceOk(d))
    requires j < |rows| && j !in slots
    ensures Published(rows, slots, ds, revision, decision)[j] == rows[j]
    decreases |ds|
  {
    if ds != [] {
      var n := |ds| - 1;
      assert slots[n] in slots;
      PublishedElsewhere(rows, slots[..n], ds[..n], revision, decision, j);
    }
  }

  lemma {:induction false} PublishedSlot(rows: seq<Row>, slots: seq<nat>, ds: seq<C.Device>, revision: nat, decision: nat, i: nat)
    requires |slots| == |ds| && InRange(slots, |rows|) && (forall d | d in ds :: C.DeviceOk(d)) && C.Distinct(slots)
    requires i < |ds|
    ensures Published(rows, slots, ds, revision, decision)[slots[i]] == Described(rows[slots[i]], ds[i], revision, decision)
    decreases |ds|
  {
    var n := |ds| - 1;
    if i < n {
      assert slots[i] != slots[n] && slots[..n][i] == slots[i] && ds[..n][i] == ds[i];
      PublishedSlot(rows, slots[..n], ds[..n], revision, decision, i);
    }
  }

  lemma PublishedAt(rows: seq<Row>, slots: seq<nat>, ds: seq<C.Device>, revision: nat, decision: nat)
    requires |slots| == |ds| && InRange(slots, |rows|) && (forall d | d in ds :: C.DeviceOk(d)) && C.Distinct(slots)
    ensures var r := Published(rows, slots, ds, revision, decision);
      && (forall i | 0 <= i < |ds| :: r[slots[i]] == Described(rows[slots[i]], ds[i], revision, decision))
      && (forall j | 0 <= j < |rows| && j !in slots :: r[j] == rows[j])
  {
    var r := Published(rows, slots, ds, revision, decision);
    forall i | 0 <= i < |ds| ensures r[slots[i]] == Described(rows[slots[i]], ds[i], revision, decision) {
      PublishedSlot(rows, slots, ds, revision, decision, i);
    }
    forall j | 0 <= j < |rows| && j !in slots ensures r[j] == rows[j] {
      PublishedElsewhere(rows, slots, ds, revision, decision, j);
    }
  }

  lemma DescribedReads(row: Row, d: C.Device, revision: nat, decision: nat)
    requires C.DeviceOk(d) && 1 <= revision <= MAX_REVISION && row.discovery == Some(C.Identity(d.id, d.alias))
    ensures Device(Described(row, d, revision, decision), revision) == Ok(d)
  {
    C.DeviceRoundTrip(d, revision);
  }

  lemma {:induction false} ReadsBack(rows: seq<Row>, slots: seq<nat>, ds: seq<C.Device>, revision: nat)
    requires |slots| == |ds| && InRange(slots, |rows|)
    requires forall i | 0 <= i < |ds| :: Device(rows[slots[i]], revision) == Ok(ds[i])
    ensures DevicesAt(rows, slots, revision) == Ok(ds)
    decreases |slots|
  {
    if slots != [] {
      assert Device(rows[slots[0]], revision) == Ok(ds[0]);
      forall i | 0 <= i < |ds[1..]| ensures Device(rows[slots[1..][i]], revision) == Ok(ds[1..][i]) {
        assert ds[1..][i] == ds[i + 1] && slots[1..][i] == slots[i + 1];
      }
      ReadsBack(rows, slots[1..], ds[1..], revision);
      assert [ds[0]] + ds[1..] == ds;
    }
  }

  lemma SlotsFit(slots: seq<nat>, capacity: nat)
    requires C.Distinct(slots) && InRange(slots, capacity)
    ensures |slots| <= capacity
  {
    var codes := seq(|slots|, i requires 0 <= i < |slots| => slots[i] as int);
    C.DistinctSize(codes);
    C.BoundedSize((set c | c in codes), capacity);
  }

  /** Where a candidate is written: distinct slots, each with its device described, no other row touched. */
  lemma PublishedFacts(doc: Document, draft: Draft, slots: seq<nat>)
    requires CatalogueOk(draft.candidate) && SlotsOf(doc.rows, draft.candidate.devices) == Ok(slots)
    ensures |slots| == |draft.candidate.devices| && InRange(slots, |doc.rows|) && C.Distinct(slots)
    ensures var rows := Published(doc.rows, slots, draft.candidate.devices, draft.candidate.revision, draft.decision);
      && (forall i | 0 <= i < |slots| ::
            rows[slots[i]] == Described(doc.rows[slots[i]], draft.candidate.devices[i], draft.candidate.revision, draft.decision))
      && (forall j | 0 <= j < |rows| && j !in slots :: rows[j] == doc.rows[j])
  {
    var ds := draft.candidate.devices;
    SlotsOfIs(doc.rows, ds);
    forall i, j | 0 <= i < j < |slots| ensures slots[i] != slots[j] { assert ds[i].id != ds[j].id; }
    PublishedAt(doc.rows, slots, ds, draft.candidate.revision, draft.decision);
  }

  lemma PublishedReads(doc: Document, draft: Draft, slots: seq<nat>)
    requires CatalogueOk(draft.candidate) && SlotsOf(doc.rows, draft.candidate.devices) == Ok(slots)
    ensures |slots| == |draft.candidate.devices| && InRange(slots, |doc.rows|)
    ensures DevicesAt(Published(doc.rows, slots, draft.candidate.devices, draft.candidate.revision, draft.decision),
                      slots, draft.candidate.revision) == Ok(draft.candidate.devices)
  {
    var ds, revision := draft.candidate.devices, draft.candidate.revision;
    PublishedFacts(doc, draft, slots);
    SlotsOfIs(doc.rows, ds);
    var rows := Published(doc.rows, slots, ds, revision, draft.decision);
    forall i | 0 <= i < |ds| ensures Device(rows[slots[i]], revision) == Ok(ds[i]) {
      DescribedReads(doc.rows[slots[i]], ds[i], revision, draft.decision);
    }
    ReadsBack(rows, slots, ds, revision);
  }

  /** Whatever was published reads back as the candidate, so the closing comparison of `changes`
      always passes; rows of other targets are untouched. */
  lemma PublishThenShared(doc: Document, draft: Draft, slots: seq<nat>)
    requires CatalogueOk(draft.candidate) && SlotsOf(doc.rows, draft.candidate.devices) == Ok(slots)
    ensures |slots| == |draft.candidate.devices| && InRange(slots, |doc.rows|)
    ensures Shared(Proposed(doc, draft, slots)) == Ok(draft.candidate)
  {
    PublishedFacts(doc, draft, slots);
    PublishedReads(doc, draft, slots);
    SlotsFit(slots, |doc.rows|);
  }

  /** What `changes` proposes: the candidate can be read from it, and other rows are kept. */
  lemma ProposedOk(doc: Document, draft: Draft, slots: seq<nat>)
    requires CatalogueOk(draft.candidate) && SlotsOf(doc.rows, draft.candidate.devices) == Ok(slots)
    ensures |slots| == |draft.candidate.devices| && InRange(slots, |doc.rows|)
    ensures Shared(Proposed(doc, draft, slots)) == Ok(draft.candidate) && |Proposed(doc, draft, slots).rows| == |doc.rows|
    ensures KeepsRows(doc.rows, Proposed(doc, draft, slots).rows)
  {
    PublishThenShared(doc, draft, slots);
    DescribedOnly(doc, draft, slots);
  }

  /** Every row keeps its discovery, and is unchanged or one generation on. */
  predicate KeepsRows(rows: seq<Row>, r: seq<Row>) {
    |r| == |rows| && forall j | 0 <= j < |rows| ::
      r[j].discovery == rows[j].discovery && (r[j] == rows[j] || r[j].generation == rows[j].generation + 1)
  }

  /** The first n devices have been described, in the rows `r`. */
  ghost predicate SoFar(rows: seq<Row>, ds: seq<C.Device>, n: nat, slots: seq<nat>, r: seq<Row>, revision: nat, decision: nat) {
    && n <= |ds| && |slots| == n && (forall d | d in ds :: C.DeviceOk(d))
    && SlotsOf(rows, ds[..n]) == Ok(slots) && InRange(slots, |rows|)
    && r == Published(rows, slots, ds[..n], revision, decision)
  }

  lemma OneMoreSlot(rows: seq<Row>, ds: seq<C.Device>, n: nat, slots: seq<nat>)
    requires n < |ds| && SlotsOf(rows, ds[..n]) == Ok(slots) && InRange(slots, |rows|)
    ensures SlotOf(rows, ds[n]).Err? ==> SlotsOf(rows, ds[..n + 1]) == Err(SlotOf(rows, ds[n]).error)
    ensures SlotOf(rows, ds[n]).Ok? ==>
      var more := slots + [SlotOf(rows, ds[n]).value];
      SlotsOf(rows, ds[..n + 1]) == Ok(more) && InRange(more, |rows|)
  {
    assert ds[..n + 1][..n] == ds[..n];
  }

  lemma OneMorePublished(rows: seq<Row>, slots: seq<nat>, ds: seq<C.Device>, n: nat, s: nat, revision: nat, decision: nat)
    requires n < |ds| && |slots| == n && InRange(slots + [s], |rows|) && InRange(slots, |rows|) && s < |rows|
    requires forall d | d in ds :: C.DeviceOk(d)
    ensures Published(rows, slots + [s], ds[..n + 1], revision, decision)
      == Published(rows, slots, ds[..n], revision, decision)[s := Described(rows[s], ds[n], revision, decision)]
  {
    assert ds[..n + 1][..n] == ds[..n] && (slots + [s])[..n] == slots;
  }

  lemma OneMore(rows: seq<Row>, ds: seq<C.Device>, n: nat, slots: seq<nat>, r: seq<Row>, revision: nat, decision: nat)
    requires SoFar(rows, ds, n, slots, r, revision, decision) && n < |ds|
    ensures SlotOf(rows, ds[n]).Err? ==> SlotsOf(rows, ds[..n + 1]) == Err(SlotOf(rows, ds[n]).error)
    ensures SlotOf(rows, ds[n]).Ok? ==>
      var s := SlotOf(rows, ds[n]).value;
      && s < |rows| && |r| == |rows| && C.DeviceOk(ds[n])
      && SoFar(rows, ds, n + 1, slots + [s], r[s := Described(rows[s], ds[n], revision, decision)], revision, decision)
  {
    OneMoreSlot(rows, ds, n, slots);
    if SlotOf(rows, ds[n]).Ok? {
      OneMorePublished(rows, slots, ds, n, SlotOf(rows, ds[n]).value, revision, decision);
    }
  }

  /** The loop over the devices. */
  method Describe(rows: seq<Row>, ds: seq<C.Device>, revision: nat, decision: nat)
    returns (fault: Option<Error>, slots: seq<nat>, r: seq<Row>)
    requires forall d | d in ds :: C.DeviceOk(d)
    ensures fault == (match SlotsOf(rows, ds) case Err(e) => Some(e) case Ok(_) => None)
    ensures fault.None? ==>
      SlotsOf(rows, ds) == Ok(slots) && |slots| == |ds| && InRange(slots, |rows|)
      && r == Published(rows, slots, ds, revision, decision)
  {
    fault, slots, r := None, [], rows;
    var n := 0;
    while n < |ds|
      invariant 0 <= n <= |ds| && fault.None? && SoFar(rows, ds, n, slots, r, revision, decision)
    {
      OneMore(rows, ds, n, slots, r, revision, decision);
      var slot := SlotOf(rows, ds[n]);
      if slot.Err? {
        SlotsOfStops(rows, ds, n + 1);
        return Some(slot.error), slots, r;
      }
      r := r[slot.value := Described(rows[slot.value], ds[n], revision, decision)];
      slots := slots + [slot.value];
      n := n + 1;
    }
    assert ds[..n] == ds;
  }

  /** `changes`: the base must still fit, every device needs its slot, and the result must keep the
      byte budgets and read back as the candidate.  `bound` says whether the document is that of the
      chosen storage, `within` whether a document passes its own checks of shape and size. */
  method Changes(doc: Document, draft: Draft, bound: bool, within: Document -> bool) returns (r: Result<Document, Error>)
    requires CatalogueOk(draft.candidate)
    ensures r.Ok? <==>
      && bound && BaseFault(doc, draft).None? && SlotsOf(doc.rows, draft.candidate.devices).Ok?
      && var slots := SlotsOf(doc.rows, draft.candidate.devices).value;
         |slots| == |draft.candidate.devices| && InRange(slots, |doc.rows|) && within(Proposed(doc, draft, slots))
    ensures r.Ok? ==> r.value == Proposed(doc, draft, SlotsOf(doc.rows, draft.candidate.devices).value)
    ensures r.Ok? ==> Shared(r.value) == Ok(draft.candidate) && KeepsRows(doc.rows, r.value.rows)
    ensures r.Err? ==>
      var base, slots := BaseFault(doc, draft), SlotsOf(doc.rows, draft.candidate.devices);
      r.error == if base == Some(CONFIGURATION_TRANSACTION_REQUIRED) then base.value
                 else if !bound then BALLPARK_AUTHORITY_BINDING
                 else if base.Some? then base.value
                 else if slots.Err? then slots.error
                 else DOCUMENT_BUDGET
  {
    var base := BaseFault(doc, draft);
    if base == Some(CONFIGURATION_TRANSACTION_REQUIRED) { return Err(CONFIGURATION_TRANSACTION_REQUIRED); }
    if !bound { return Err(BALLPARK_AUTHORITY_BINDING); }
    if base.Some? { return Err(base.value); }
    var c := draft.candidate;
    var fault, slots, rows := Describe(doc.rows, c.devices, c.revision, draft.decision);
    if fault.Some? { return Err(fault.value); }
    ProposedOk(doc, draft, slots);
    var proposed := Document(Some(Header(c.revision, draft.decision, c.revision, slots, c, draft.decision)),
                             Some(Settings(c.revision, draft.decision, c.revision, false)), rows);
    assert proposed == Proposed(doc, draft, slots);
    if !within(proposed) { return Err(DOCUMENT_BUDGET); }
    if Shared(proposed) != Ok(c) { return Err(BALLPARK_RECORD_DIGEST); }
    return Ok(proposed);
  }

  lemma {:induction false} SlotsOfStops(rows: seq<Row>, ds: seq<C.Device>, n: nat)
    requires n <= |ds| && SlotsOf(rows, ds[..n]).Err?
    ensures SlotsOf(rows, ds) == SlotsOf(rows, ds[..n])
    decreases |ds| - n
  {
    if n == |ds| {
      assert ds[..n] == ds;
    } else {
      assert ds[..n + 1][..n] == ds[..n];
      SlotsOfStops(rows, ds, n + 1);
    }
  }

  lemma DescribedOnly(doc: Document, draft: Draft, slots: seq<nat>)
    requires CatalogueOk(draft.candidate) && SlotsOf(doc.rows, draft.candidate.devices) == Ok(slots)
    requires |slots| == |draft.candidate.devices| && InRange(slots, |doc.rows|)
    ensures forall j | 0 <= j < |doc.rows| ::
      var r := Proposed(doc, draft, slots).rows[j];
      r.discovery == doc.rows[j].discovery && (r == doc.rows[j] || r.generation == doc.rows[j].generation + 1)
  {
    PublishedFacts(doc, draft, slots);
    var rows := Proposed(doc, draft, slots).rows;
    forall j | 0 <= j < |doc.rows|
      ensures rows[j].discovery == doc.rows[j].discovery && (rows[j] == doc.rows[j] || rows[j].generation == doc.rows[j].generation + 1)
    {
      if j in slots {
        var i :| 0 <= i < |slots| && slots[i] == j;
        assert rows[slots[i]] == Described(doc.rows[slots[i]], draft.candidate.devices[i], draft.candidate.revision, draft.decision);
      }
    }
  }
}
