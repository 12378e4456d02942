/** The records of a capacity and their budgets; texts are as in section 4 of RFC 8259, compact. */
module Layout {
  import opened Basics

  const MAX_DOCUMENT_BYTES := 524288
  const MAX_GENERATION := 0x7fff_ffff_ffff_ffff

  datatype Capacity = Capacity(devices: nat, ingress: nat, history: nat, quarantine: nat)

  predicate Legal(c: Capacity) {
    1 <= c.devices <= 64 && 1 <= c.ingress <= 16 && 1 <= c.history <= 128 && 1 <= c.quarantine <= 32
  }

  datatype GlobalKind = LEADERSHIP | FORCE_REQUEST | COMMISSIONING | SETTINGS | SUMMARY | REGISTRY
  datatype TargetKind = CATALOGUE | WORK | RESULT | CANCEL | ACK | STATUS
  datatype PoolKind = INGRESS | HISTORY | QUARANTINE

  datatype Slot =
    | Global(kind: GlobalKind) | Target(index: nat, part: TargetKind) | Artifact(index: nat, output: bool)
    | Pool(pool: PoolKind, index: nat)

  function Budget(s: Slot): nat {
    match s
    case Global(k) =>
      (match k case LEADERSHIP => 2048 case FORCE_REQUEST => 1024 case COMMISSIONING => 4096
               case SETTINGS => 4096 case SUMMARY => 8192 case REGISTRY => 4096)
    case Target(_, k) =>
      (match k case CATALOGUE => 1024 case WORK => 1536 case RESULT => 1536 case CANCEL => 384 case ACK => 384 case STATUS => 512)
    case Artifact(_, _) => 512
    case Pool(k, _) => (match k case INGRESS => 1024 case HISTORY => 384 case QUARANTINE => 512)
  }

  function Size(c: Capacity, k: PoolKind): nat {
    match k case INGRESS => c.ingress case HISTORY => c.history case QUARANTINE => c.quarantine
  }

  /** `Capacity.worst_case_bytes`. */
  function WorstCase(c: Capacity): nat {
    32768 + c.devices * 5376 + 2 * c.devices * 512 + c.ingress * 1024 + c.history * 384 + c.quarantine * 512
  }

  lemma WorstCaseBound(c: Capacity)
    requires Legal(c)
    ensures WorstCase(c) <= MAX_DOCUMENT_BYTES
    ensures WorstCase(c) == MAX_DOCUMENT_BYTES <==> c == Capacity(64, 16, 128, 32)
  {}

  // ---- The slots of a capacity ---------------------------------------------------------------------

  const GLOBALS := [Global(LEADERSHIP), Global(FORCE_REQUEST), Global(COMMISSIONING), Global(SETTINGS), Global(SUMMARY), Global(REGISTRY)]

  function Device(i: nat): seq<Slot> {
    [Target(i, CATALOGUE), Target(i, WORK), Target(i, RESULT), Target(i, CANCEL), Target(i, ACK), Target(i, STATUS),
     Artifact(i, false), Artifact(i, true)]
  }

  function Devices(n: nat): seq<Slot> { if n == 0 then [] else Devices(n - 1) + Device(n - 1) }

  function PoolSlots(k: PoolKind, n: nat): seq<Slot> { if n == 0 then [] else PoolSlots(k, n - 1) + [Pool(k, n - 1)] }

  function Slots(c: Capacity): seq<Slot> {
    GLOBALS + Devices(c.devices) + PoolSlots(INGRESS, c.ingress) + PoolSlots(HISTORY, c.history) + PoolSlots(QUARANTINE, c.quarantine)
  }

  predicate In(c: Capacity, s: Slot) {
    match s
    case Global(_) => true
    case Target(i, _) => i < c.devices
    case Artifact(i, _) => i < c.devices
    case Pool(k, i) => i < Size(c, k)
  }

  lemma DeviceMembers(i: nat, s: Slot)
    ensures s in Device(i) <==> (s.Target? || s.Artifact?) && s.index == i
  {
    var d := Device(i);
    if s.Target? && s.index == i {
      match s.part
      case CATALOGUE => assert d[0] == s; case WORK => assert d[1] == s; case RESULT => assert d[2] == s;
      case CANCEL => assert d[3] == s; case ACK => assert d[4] == s; case STATUS => assert d[5] == s;
    } else if s.Artifact? && s.index == i {
      assert d[if s.output then 7 else 6] == s;
    }
  }

  lemma GlobalMembers(s: Slot)
    ensures s in GLOBALS <==> s.Global?
  {
    if s.Global? {
      match s.kind
      case LEADERSHIP => assert GLOBALS[0] == s; case FORCE_REQUEST => assert GLOBALS[1] == s;
      case COMMISSIONING => assert GLOBALS[2] == s; case SETTINGS => assert GLOBALS[3] == s;
      case SUMMARY => assert GLOBALS[4] == s; case REGISTRY => assert GLOBALS[5] == s;
    }
  }

  lemma {:induction false} DevicesMembers(n: nat, s: Slot)
    ensures s in Devices(n) <==> (s.Target? || s.Artifact?) && s.index < n
    decreases n
  {
    if n != 0 {
      DevicesMembers(n - 1, s);
      DeviceMembers(n - 1, s);
    }
  }

  lemma {:induction false} PoolMembers(k: PoolKind, n: nat, s: Slot)
    ensures s in PoolSlots(k, n) <==> s.Pool? && s.pool == k && s.index < n
    decreases n
  {
    if n != 0 { PoolMembers(k, n - 1, s); }
  }

  lemma SlotsMembers(c: Capacity, s: Slot)
    ensures s in Slots(c) <==> In(c, s)
  {
    GlobalMembers(s);
    DevicesMembers(c.devices, s);
    PoolMembers(INGRESS, c.ingress, s);
    PoolMembers(HISTORY, c.history, s);
    PoolMembers(QUARANTINE, c.quarantine, s);
  }

  // ---- Sums of budgets ------------------------------------------------------------------------------

  function Total(s: seq<Slot>): nat { if s == [] then 0 else Budget(s[0]) + Total(s[1..]) }

  lemma {:induction false} TotalJoin(a: seq<Slot>, b: seq<Slot>)
    ensures Total(a + b) == Total(a) + Total(b)
    decreases |a|
  {
    if a == [] {
      assert a + b == b;
    } else {
      TotalJoin(a[1..], b);
      assert (a + b)[0] == a[0] && (a + b)[1..] == a[1..] + b;
    }
  }

  lemma {:induction false} DevicesTotal(n: nat)
    ensures Total(Devices(n)) == n * 6400 && |Devices(n)| == n * 8
    decreases n
  {
    if n != 0 {
      DevicesTotal(n - 1);
      TotalJoin(Devices(n - 1), Device(n - 1));
      var d := Device(n - 1);
      assert Total(d) == 6400 by {
        TotalJoin(d[..4], d[4..]);
        assert d == d[..4] + d[4..];
        assert Total(d[..4]) == 4480 by { assert d[..4] == [d[0], d[1], d[2], d[3]]; FourTotal(d[0], d[1], d[2], d[3]); }
        assert Total(d[4..]) == 1920 by { assert d[4..] == [d[4], d[5], d[6], d[7]]; FourTotal(d[4], d[5], d[6], d[7]); }
      }
    }
  }

  lemma FourTotal(a: Slot, b: Slot, c: Slot, d: Slot)
    ensures Total([a, b, c, d]) == Budget(a) + Budget(b) + Budget(c) + Budget(d)
  {
    assert [a, b, c, d][1..] == [b, c, d] && [b, c, d][1..] == [c, d] && [c, d][1..] == [d] && [d][1..] == [];
    assert Total([d]) == Budget(d) && Total([c, d]) == Budget(c) + Total([d]);
    assert Total([b, c, d]) == Budget(b) + Total([c, d]);
  }

  lemma {:induction false} PoolTotal(k: PoolKind, n: nat)
    ensures Total(PoolSlots(k, n)) == n * Budget(Pool(k, 0)) && |PoolSlots(k, n)| == n
    decreases n
  {
    if n != 0 {
      PoolTotal(k, n - 1);
      TotalJoin(PoolSlots(k, n - 1), [Pool(k, n - 1)]);
      assert [Pool(k, n - 1)][1..] == [];
    }
  }

  /** The budgets of all slots leave 9216 bytes of the worst case for the header. */
  lemma SlotsTotal(c: Capacity)
    ensures Total(Slots(c)) + 9216 == WorstCase(c) && 6 <= |Slots(c)|
  {
    var d, i := Devices(c.devices), PoolSlots(INGRESS, c.ingress);
    var h, q := PoolSlots(HISTORY, c.history), PoolSlots(QUARANTINE, c.quarantine);
    TotalJoin(GLOBALS, d);
    TotalJoin(GLOBALS + d, i);
    TotalJoin(GLOBALS + d + i, h);
    TotalJoin(GLOBALS + d + i + h, q);
    DevicesTotal(c.devices);
    PoolTotal(INGRESS, c.ingress);
    PoolTotal(HISTORY, c.history);
    PoolTotal(QUARANTINE, c.quarantine);
    assert Total(GLOBALS) == 23552 by {
      assert GLOBALS == [GLOBALS[0], GLOBALS[1], GLOBALS[2], GLOBALS[3]] + [GLOBALS[4], GLOBALS[5]];
      TotalJoin([GLOBALS[0], GLOBALS[1], GLOBALS[2], GLOBALS[3]], [GLOBALS[4], GLOBALS[5]]);
      FourTotal(GLOBALS[0], GLOBALS[1], GLOBALS[2], GLOBALS[3]);
      assert [GLOBALS[4], GLOBALS[5]][1..] == [GLOBALS[5]] && [GLOBALS[5]][1..] == [];
    }
  }

  function Removed(b: seq<Slot>, j: nat): seq<Slot>
    requires j < |b|
  {
    b[..j] + b[j + 1..]
  }

  lemma Parted<T>(b: seq<T>, j: nat)
    requires j < |b|
    ensures b == b[..j] + [b[j]] + b[j + 1..]
  {}

  lemma RemovedElements(b: seq<Slot>, j: nat)
    requires j < |b|
    ensures multiset(Removed(b, j)) == multiset(b) - multiset{b[j]} && |Removed(b, j)| == |b| - 1
  {
    Parted(b, j);
  }

  lemma RemovedTotal(b: seq<Slot>, j: nat)
    requires j < |b|
    ensures Total(b) == Budget(b[j]) + Total(Removed(b, j))
  {
    Parted(b, j);
    TotalSplit(b[..j], b[j], b[j + 1..]);
  }

  lemma TotalSplit(x: seq<Slot>, s: Slot, y: seq<Slot>)
    ensures Total(x + [s] + y) == Budget(s) + Total(x + y)
  {
    TotalJoin(x + [s], y);
    TotalJoin(x, [s]);
    TotalJoin(x, y);
    assert [s][1..] == [];
  }

  /** The order of the keys does not matter to a sum. */
  lemma {:induction false} TotalOrder(a: seq<Slot>, b: seq<Slot>)
    requires multiset(a) == multiset(b)
    ensures Total(a) == Total(b) && |a| == |b|
    decreases |a|
  {
    assert |multiset(a)| == |a| && |multiset(b)| == |b|;
    if a != [] {
      assert a[0] in multiset(b);
      var j :| 0 <= j < |b| && b[j] == a[0];
      RemovedElements(a, 0);
      RemovedElements(b, j);
      RemovedTotal(a, 0);
      RemovedTotal(b, j);
      TotalOrder(Removed(a, 0), Removed(b, j));
    }
  }

  // ---- Texts ---------------------------------------------------------------------------------------

  /** One member of an object: its encoded name and its encoded value. */
  datatype Member = Member(name: string, value: string)

  function MemberText(m: Member): string { m.name + ":" + m.value }

  function Joined(ms: seq<Member>): string
    requires ms != []
  {
    if |ms| == 1 then MemberText(ms[0]) else MemberText(ms[0]) + "," + Joined(ms[1..])
  }

  function ObjectText(ms: seq<Member>): string { if ms == [] then "{}" else "{" + Joined(ms) + "}" }

  function Lengths(ms: seq<Member>): nat { if ms == [] then 0 else |MemberText(ms[0])| + Lengths(ms[1..]) }

  /** An object is as long as its members, a separator between each two, and its braces. */
  lemma {:induction false} ObjectLength(ms: seq<Member>)
    requires ms != []
    ensures |Joined(ms)| == Lengths(ms) + |ms| - 1 && |ObjectText(ms)| == Lengths(ms) + |ms| + 1
    decreases |ms|
  {
    if |ms| == 1 {
      assert ms[1..] == [];
    } else {
      ObjectLength(ms[1..]);
    }
  }

  function Quoted(s: string): string { "\"" + s + "\"" }

  function Digits(n: nat): string {
    if n < 10 then ["0123456789"[n]] else Digits(n / 10) + ["0123456789"[n % 10]]
  }

  function Pow10(k: nat): nat { if k == 0 then 1 else 10 * Pow10(k - 1) }

  lemma {:induction false} DigitsLength(n: nat, k: nat)
    requires 0 < k && n < Pow10(k)
    ensures 0 < |Digits(n)| <= k
    decreases k
  {
    if 10 <= n {
      assert n / 10 < Pow10(k - 1);
      DigitsLength(n / 10, k - 1);
    }
  }

  lemma Powers()
    ensures Pow10(3) == 1000 && Pow10(19) == 10_000_000_000_000_000_000
  {
    assert Pow10(2) == 100;
    assert Pow10(3) == 1000;
    assert Pow10(5) == 10 * Pow10(4) == 100_000;
    assert Pow10(7) == 10 * Pow10(6) == 10_000_000;
    assert Pow10(9) == 10 * Pow10(8) == 1_000_000_000;
    assert Pow10(11) == 10 * Pow10(10) == 100_000_000_000;
    assert Pow10(13) == 10 * Pow10(12) == 10_000_000_000_000;
    assert Pow10(15) == 10 * Pow10(14) == 1_000_000_000_000_000;
    assert Pow10(17) == 10 * Pow10(16) == 100_000_000_000_000_000;
    assert Pow10(19) == 10 * Pow10(18) == 10_000_000_000_000_000_000;
  }

  // ---- Documents ------------------------------------------------------------------------------------

  datatype Retention = FREE | BUSY | UNREAD | UNKNOWN | RETAINED | CONSUMED

  /** `operation` and `body` are encoded texts. */
  datatype Record = Record(generation: nat, operation: Option<string>, retention: Retention, body: Option<string>)

  datatype Document = Document(domain: string, revision: nat, capacity: Capacity, records: map<Slot, Record>)

  const Empty := Record(0, None, FREE, None)

  function OrNull(t: Option<string>): string { if t.Some? then t.value else "null" }

  function RetentionText(r: Retention): string {
    match r case FREE => "FREE" case BUSY => "BUSY" case UNREAD => "UNREAD" case UNKNOWN => "UNKNOWN"
            case RETAINED => "RETAINED" case CONSUMED => "CONSUMED"
  }

  function RecordText(r: Record): string {
    ObjectText([Member(Quoted("body"), OrNull(r.body)), Member(Quoted("generation"), Digits(r.generation)),
                Member(Quoted("operation_id"), OrNull(r.operation)), Member(Quoted("retention"), Quoted(RetentionText(r.retention)))])
  }

  function Pad(n: nat): string { if n < 10 then "00" + Digits(n) else if n < 100 then "0" + Digits(n) else Digits(n) }

  function Name(s: Slot): string {
    match s
    case Global(k) => "global." + (match k case LEADERSHIP => "leadership" case FORCE_REQUEST => "force_request"
                                   case COMMISSIONING => "commissioning" case SETTINGS => "settings" case SUMMARY => "summary"
                                   case REGISTRY => "registry")
    case Target(i, k) => "target." + Pad(i) + "." + (match k case CATALOGUE => "catalogue" case WORK => "work"
                                   case RESULT => "result" case CANCEL => "cancel" case ACK => "ack" case STATUS => "status")
    case Artifact(i, output) => "artifact." + Pad(i) + (if output then ".output" else ".input")
    case Pool(k, i) => (match k case INGRESS => "ingress." case HISTORY => "history." case QUARANTINE => "quarantine.") + Pad(i)
  }

  function Row(s: Slot, r: Record): Member { Member(Quoted(Name(s)), RecordText(r)) }

  /** The byte budget of one record, with its key, as an object of its own. */
  predicate Within(s: Slot, r: Record) { |ObjectText([Row(s, r)])| <= Budget(s) }

  predicate RecordOk(s: Slot, r: Record) {
    && r.generation <= MAX_GENERATION && (r.retention.FREE? ==> r.operation.None? && r.body.None?) && Within(s, r)
  }

  /** Everything `validate_document` checks before the size of the whole. */
  ghost predicate Checked(d: Document) {
    && Legal(d.capacity) && |d.domain| == 36 && 1 <= d.revision <= MAX_GENERATION
    && (forall s :: s in d.records <==> In(d.capacity, s))
    && (forall s | s in d.records :: RecordOk(s, d.records[s]))
  }

  /** A record is accepted exactly for a generation in range, an empty rest if it is free, and a text
      that, as an object of its own with its key, is within the slot's budget; what else it holds is open. */
  lemma RecordExactly(s: Slot, r: Record)
    ensures RecordOk(s, r) <==>
      && r.generation < 0x8000_0000_0000_0000 && (r.retention == FREE ==> r.operation == None && r.body == None)
      && |Quoted(Name(s))| + |RecordText(r)| + 3 <= Budget(s)
  {
    ObjectLength([Row(s, r)]);
    assert [Row(s, r)][1..] == [];
  }

  function Rows(d: Document, order: seq<Slot>): seq<Member>
    requires forall s | s in order :: s in d.records
  {
    if order == [] then [] else [Row(order[0], d.records[order[0]])] + Rows(d, order[1..])
  }

  function CapacityText(c: Capacity): string {
    ObjectText([Member(Quoted("devices"), Digits(c.devices)), Member(Quoted("history"), Digits(c.history)),
                Member(Quoted("ingress"), Digits(c.ingress)), Member(Quoted("quarantine"), Digits(c.quarantine))])
  }

  /** `order` is the order in which the record keys are written. */
  function DocumentText(d: Document, order: seq<Slot>): string
    requires forall s | s in order :: s in d.records
  {
    PageText(CapacityText(d.capacity), d.domain, Digits(d.revision), ObjectText(Rows(d, order)))
  }

  function PageText(capacity: string, domain: string, revision: string, records: string): string {
    ObjectText([Member(Quoted("capacity"), capacity),
                Member(Quoted("compatibility_status"), Quoted("UNRELEASED")),
                Member(Quoted("domain_id"), Quoted(domain)),
                Member(Quoted("layout_revision"), revision),
                Member(Quoted("layout_version"), Digits(1)),
                Member(Quoted("records"), records)])
  }

  lemma PageLength(capacity: string, domain: string, revision: string, records: string)
    ensures |PageText(capacity, domain, revision, records)| == |capacity| + |domain| + |revision| + |records| + 113
  {
    SixMembers([Member(Quoted("capacity"), capacity),
                Member(Quoted("compatibility_status"), Quoted("UNRELEASED")),
                Member(Quoted("domain_id"), Quoted(domain)),
                Member(Quoted("layout_revision"), revision),
                Member(Quoted("layout_version"), Digits(1)),
                Member(Quoted("records"), records)]);
  }

  lemma {:induction false} RowsWithin(d: Document, order: seq<Slot>)
    requires forall s | s in order :: s in d.records && Within(s, d.records[s])
    ensures |Rows(d, order)| == |order| && Lengths(Rows(d, order)) + 2 * |order| <= Total(order)
    decreases |order|
  {
    if order != [] {
      RowsWithin(d, order[1..]);
      ObjectLength([Row(order[0], d.records[order[0]])]);
      assert [Row(order[0], d.records[order[0]])][1..] == [];
      assert Rows(d, order)[1..] == Rows(d, order[1..]);
    }
  }

  lemma FourMembers(a: Member, b: Member, c: Member, d: Member)
    ensures |ObjectText([a, b, c, d])| == |MemberText(a)| + |MemberText(b)| + |MemberText(c)| + |MemberText(d)| + 5
  {
    ObjectLength([a, b, c, d]);
    assert [a, b, c, d][1..] == [b, c, d] && [b, c, d][1..] == [c, d] && [c, d][1..] == [d] && [d][1..] == [];
    assert Lengths([d]) == |MemberText(d)| && Lengths([c, d]) == |MemberText(c)| + Lengths([d]);
    assert Lengths([b, c, d]) == |MemberText(b)| + Lengths([c, d]);
  }

  lemma SixMembers(ms: seq<Member>)
    requires |ms| == 6
    ensures |ObjectText(ms)| == |MemberText(ms[0])| + |MemberText(ms[1])| + |MemberText(ms[2])| + |MemberText(ms[3])|
      + |MemberText(ms[4])| + |MemberText(ms[5])| + 7
  {
    ObjectLength(ms);
    LengthsFrom(ms, 0); LengthsFrom(ms, 1); LengthsFrom(ms, 2); LengthsFrom(ms, 3); LengthsFrom(ms, 4); LengthsFrom(ms, 5);
    assert ms[0..] == ms && ms[6..] == [];
  }

  lemma LengthsFrom(ms: seq<Member>, i: nat)
    requires i < |ms|
    ensures Lengths(ms[i..]) == |MemberText(ms[i])| + Lengths(ms[i + 1..])
  {
    assert ms[i..][1..] == ms[i + 1..];
  }

  lemma CapacityLength(c: Capacity)
    requires Legal(c)
    ensures |CapacityText(c)| <= 64
  {
    Powers();
    DigitsLength(c.devices, 3);
    DigitsLength(c.history, 3);
    DigitsLength(c.ingress, 3);
    DigitsLength(c.quarantine, 3);
    FourMembers(Member(Quoted("devices"), Digits(c.devices)), Member(Quoted("history"), Digits(c.history)),
                Member(Quoted("ingress"), Digits(c.ingress)), Member(Quoted("quarantine"), Digits(c.quarantine)));
  }

  /** Records within their budgets make the whole document fit the worst case of its capacity, and
      so the absolute limit, in whatever order its keys are written: the last size check of
      `validate_document` can never fail. */
  lemma BudgetsImplyDocumentBound(d: Document, order: seq<Slot>)
    requires Checked(d) && multiset(order) == multiset(Slots(d.capacity))
    requires forall s | s in order :: s in d.records
    ensures |DocumentText(d, order)| <= WorstCase(d.capacity) <= MAX_DOCUMENT_BYTES
  {
    WorstCaseBound(d.capacity);
    SlotsTotal(d.capacity);
    TotalOrder(order, Slots(d.capacity));
    RowsWithin(d, order);
    ObjectLength(Rows(d, order));
    CapacityLength(d.capacity);
    Powers();
    DigitsLength(d.revision, 19);
    PageLength(CapacityText(d.capacity), d.domain, Digits(d.revision), ObjectText(Rows(d, order)));
  }

  // ---- Expansion ------------------------------------------------------------------------------------

  datatype Error = SHRINK_REQUIRES_MIGRATION | NO_CAPACITY_CHANGE | LAYOUT_REVISION_EXHAUSTED

  predicate Covers(big: Capacity, small: Capacity) {
    small.devices <= big.devices && small.ingress <= big.ingress && small.history <= big.history && small.quarantine <= big.quarantine
  }

  /** The slots as the program collects them, target by target and pool by pool. */
  method CollectSlots(c: Capacity) returns (s: seq<Slot>)
    ensures s == Slots(c)
  {
    s := GLOBALS;
    var i := 0;
    while i < c.devices
      invariant 0 <= i <= c.devices && s == GLOBALS + Devices(i)
    {
      s := s + Device(i);
      i := i + 1;
    }
    var before := s;
    i := 0;
    while i < c.ingress
      invariant 0 <= i <= c.ingress && s == before + PoolSlots(INGRESS, i)
    {
      s := s + [Pool(INGRESS, i)];
      i := i + 1;
    }
    before := s;
    i := 0;
    while i < c.history
      invariant 0 <= i <= c.history && s == before + PoolSlots(HISTORY, i)
    {
      s := s + [Pool(HISTORY, i)];
      i := i + 1;
    }
    before := s;
    i := 0;
    while i < c.quarantine
      invariant 0 <= i <= c.quarantine && s == before + PoolSlots(QUARANTINE, i)
    {
      s := s + [Pool(QUARANTINE, i)];
      i := i + 1;
    }
  }

  /** Gives every slot that is not there yet an empty record. */
  method FillSlots(kept: map<Slot, Record>, slots: seq<Slot>) returns (records: map<Slot, Record>)
    ensures forall s :: s in records <==> s in kept || s in slots
    ensures forall s | s in records :: records[s] == if s in kept then kept[s] else Empty
  {
    records := kept;
    var i := 0;
    while i < |slots|
      invariant 0 <= i <= |slots|
      invariant forall s :: s in records <==> s in kept || s in slots[..i]
      invariant forall s | s in records :: records[s] == if s in kept then kept[s] else Empty
    {
      if slots[i] !in records { records := records[slots[i] := Empty]; }
      i := i + 1;
    }
    assert slots[..i] == slots;
  }

  /** Every record is kept as it is; the new slots start empty; the result is again a valid document. */
  method ExpandDocument(d: Document, c: Capacity) returns (r: Result<Document, Error>)
    requires Checked(d) && Legal(c)
    ensures r.Err? <==> !Covers(c, d.capacity) || c == d.capacity || d.revision == MAX_GENERATION
    ensures r.Ok? ==>
      var e := r.value;
      && e.capacity == c && e.domain == d.domain && e.revision == d.revision + 1 && Checked(e)
      && forall s | s in e.records :: e.records[s] == if s in d.records then d.records[s] else Empty
  {
    if !Covers(c, d.capacity) { return Err(SHRINK_REQUIRES_MIGRATION); }
    if c == d.capacity { return Err(NO_CAPACITY_CHANGE); }
    if d.revision >= MAX_GENERATION { return Err(LAYOUT_REVISION_EXHAUSTED); }
    var slots := CollectSlots(c);
    var records := FillSlots(d.records, slots);
    ExpandedOk(d, c, records);
    return Ok(Document(d.domain, d.revision + 1, c, records));
  }

  lemma CoversIn(big: Capacity, small: Capacity, s: Slot)
    requires Covers(big, small) && In(small, s)
    ensures In(big, s)
  {}

  lemma ExpandedKeys(c: Capacity, small: Capacity, kept: set<Slot>, s: Slot)
    requires Covers(c, small) && (s in kept <==> In(small, s))
    ensures s in kept || s in Slots(c) <==> In(c, s)
  {
    SlotsMembers(c, s);
    if s in kept { CoversIn(c, small, s); }
  }

  lemma ExpandedOk(d: Document, c: Capacity, records: map<Slot, Record>)
    requires Checked(d) && Legal(c) && Covers(c, d.capacity)
    requires forall s :: s in records <==> s in d.records || s in Slots(c)
    requires forall s | s in records :: records[s] == if s in d.records then d.records[s] else Empty
    ensures forall s :: s in records <==> In(c, s)
    ensures forall s | s in records :: RecordOk(s, records[s])
  {
    forall s ensures s in records <==> In(c, s) {
      ExpandedKeys(c, d.capacity, d.records.Keys, s);
    }
    forall s | s in records ensures RecordOk(s, records[s]) {
      if s in d.records {
        assert RecordOk(s, d.records[s]);
      } else {
        EmptyWithin(c, s);
      }
    }
  }

  lemma EmptyText()
    ensures |RecordText(Empty)| <= 70
  {
    assert Digits(0) == "0";
    FourMembers(Member(Quoted("body"), "null"), Member(Quoted("generation"), "0"), Member(Quoted("operation_id"), "null"),
                Member(Quoted("retention"), Quoted("FREE")));
  }

  lemma PadLength(n: nat)
    requires n < 1000
    ensures |Pad(n)| <= 5
  {
    Powers();
    DigitsLength(n, 3);
  }

  lemma NameLength(c: Capacity, s: Slot)
    requires Legal(c) && In(c, s)
    ensures |Name(s)| <= 30
  {
    if !s.Global? { PadLength(s.index); }
  }

  /** An empty record fits the smallest budget, so an expansion is always a valid document. */
  lemma EmptyWithin(c: Capacity, s: Slot)
    requires Legal(c) && In(c, s)
    ensures RecordOk(s, Empty)
  {
    EmptyText();
    NameLength(c, s);
    ObjectLength([Row(s, Empty)]);
    assert [Row(s, Empty)][1..] == [];
    assert 384 <= Budget(s);
  }

  function EmptyDocument(domain: string, c: Capacity): Document {
    Document(domain, 1, c, map s | s in Slots(c) :: Empty)
  }

  /** Provisioning starts from a document that its own checks accept, for every legal capacity. */
  lemma EmptyDocumentOk(domain: string, c: Capacity)
    requires Legal(c) && |domain| == 36
    ensures Checked(EmptyDocument(domain, c)) && EmptyDocument(domain, c).records.Keys == (set s | s in Slots(c))
  {
    var d := EmptyDocument(domain, c);
    forall s ensures s in d.records <==> In(c, s) { SlotsMembers(c, s); }
    forall s | s in d.records ensures RecordOk(s, d.records[s]) {
      assert d.records[s] == Empty;
      SlotsMembers(c, s);
      EmptyWithin(c, s);
    }
  }

  // ---- Provisioning -----------------------------------------------------------------------------------

  datatype Progress = NOT_STARTED | MAYBE | DONE(id: nat)

  /** What a resumed provisioning may do: only objects known not to be started may be created, and
      it is finished exactly when all are confirmed; one object never serves two keys. */
  method ProvisioningPlan(keys: seq<Slot>, receipts: map<Slot, Progress>)
    returns (ok: bool, create: seq<Slot>, inspect: seq<Slot>, ready: bool)
    requires (forall k | k in keys :: k in receipts) && (forall i, j | 0 <= i < j < |keys| :: keys[i] != keys[j])
    ensures ok <==> forall i, j | 0 <= i < j < |keys| && receipts[keys[i]].DONE? && receipts[keys[j]].DONE? ::
      receipts[keys[i]].id != receipts[keys[j]].id
    ensures ok ==> forall k :: k in create <==> k in keys && receipts[k].NOT_STARTED?
    ensures ok ==> forall k :: k in inspect <==> k in keys && receipts[k].MAYBE?
    ensures ok ==> (ready <==> forall k | k in keys :: receipts[k].DONE?)
  {
    ok, create, inspect, ready := true, [], [], false;
    var known: set<nat> := {};
    var i := 0;
    while i < |keys|
      invariant 0 <= i <= |keys|
      invariant forall o :: o in known <==> exists j :: 0 <= j < i && receipts[keys[j]] == DONE(o)
      invariant forall a, b | 0 <= a < b < i && receipts[keys[a]].DONE? && receipts[keys[b]].DONE? ::
        receipts[keys[a]].id != receipts[keys[b]].id
      invariant forall k :: k in create <==> k in keys[..i] && receipts[k].NOT_STARTED?
      invariant forall k :: k in inspect <==> k in keys[..i] && receipts[k].MAYBE?
    {
      var p := receipts[keys[i]];
      if p.DONE? {
        if p.id in known { return false, [], [], false; }
        known := known + {p.id};
      } else if p.NOT_STARTED? {
        create := create + [keys[i]];
      } else {
        inspect := inspect + [keys[i]];
      }
      i := i + 1;
    }
    assert keys[..i] == keys;
    ready := create == [] && inspect == [];
    if !ready {
      var k := if create != [] then create[0] else inspect[0];
      assert k in keys && !receipts[k].DONE?;
    }
  }
}
