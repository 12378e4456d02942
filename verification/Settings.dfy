/**
  The protected settings store: one committed frame, one staged frame, and saves that can be
  lost at any point.  A torn staged write never decodes, because a frame carries its digest.
 */
module Settings {
  import opened Basics

  const MAX_REVISION := 0x7fff_ffff_ffff_ffff

  datatype Frame<T> = Frame(revision: nat, payload: T, previous: Option<T>)
  datatype Raw<T> = Whole(frame: Frame<T>) | Torn

  /** `settings.json` is only ever replaced by the atomic promotion, so it is never torn. */
  datatype Store<T> = Store(current: Option<Frame<T>>, pending: Option<Raw<T>>)

  datatype Error =
    | SETTINGS_INVALID | SETTINGS_CHANGED_RELOAD_REQUIRED | SETTINGS_RECOVERY_REQUIRED
    | SETTINGS_REVISION_EXHAUSTED | SETTINGS_TOO_LARGE | SETTINGS_UNREADABLE | SETTINGS_RECOVERY_CONFLICT
    | INTERRUPTED

  /** Where a transaction is cut off, if it is: before staging, while writing the staged file,
      after it, or after the promotion. */
  datatype Fault = Unharmed | BeforeStage | DuringStage | AfterStage | AfterPromote

  function Revision<T>(s: Store<T>): nat { if s.current.Some? then s.current.value.revision else 0 }

  function Payload<T>(s: Store<T>): Option<T> { if s.current.Some? then Some(s.current.value.payload) else None }

  /** The frame that a save of `payload` would commit. */
  function Successor<T>(s: Store<T>, payload: T): Frame<T> { Frame(Revision(s) + 1, payload, Payload(s)) }

  predicate Empty<T>(s: Store<T>) { s.current.None? && s.pending.None? }

  // ---- What each operation does ------------------------------------------------------------------

  function ReadResult<T>(s: Store<T>): Result<Option<Frame<T>>, Error> {
    if s.pending.Some? then Err(SETTINGS_RECOVERY_REQUIRED) else Ok(s.current)
  }

  /** `fits` says whether the encoded frame is within the size limit. */
  function SaveFault<T>(s: Store<T>, expected: int, fits: bool): Option<Error> {
    if expected < 0 then Some(SETTINGS_INVALID)
    else if Revision(s) != expected then Some(SETTINGS_CHANGED_RELOAD_REQUIRED)
    else if s.pending.Some? then Some(SETTINGS_RECOVERY_REQUIRED)
    else if expected >= MAX_REVISION then Some(SETTINGS_REVISION_EXHAUSTED)
    else if !fits then Some(SETTINGS_TOO_LARGE)
    else None
  }

  function Interrupted<T>(s: Store<T>, f: Frame<T>, fault: Fault): Store<T> {
    match fault
    case BeforeStage => s
    case DuringStage => s.(pending := Some(Torn))
    case AfterStage => s.(pending := Some(Whole(f)))
    case AfterPromote | Unharmed => Store(Some(f), None)
  }

  function RecoverFault<T(==)>(s: Store<T>): Option<Error> {
    if s.pending.None? then None
    else if s.pending.value.Torn? then Some(SETTINGS_UNREADABLE)
    else if s.pending.value.frame.revision != Revision(s) + 1 || s.pending.value.frame.previous != Payload(s)
    then Some(SETTINGS_RECOVERY_CONFLICT)
    else None
  }

  // ---- The store as the program writes it ------------------------------------------------------------

  /** The held native port: reads, one exclusive stage, one atomic promotion. */
  class NativePort<T(==)> {
    var files: Store<T>

    constructor ()
      ensures Empty(files)
    {
      files := Store(None, None);
    }

    method Stage(raw: Raw<T>)
      requires files.pending.None?
      modifies this
      ensures files == old(files).(pending := Some(raw))
    {
      files := files.(pending := Some(raw));
    }

    method Promote()
      requires files.pending.Some? && files.pending.value.Whole?
      modifies this
      ensures files == Store(Some(old(files).pending.value.frame), None)
    {
      files := Store(Some(files.pending.value.frame), None);
    }
  }

  class PrivateSettings<T(==)> {
    const native: NativePort<T>

    constructor (port: NativePort<T>)
      ensures native == port
    {
      native := port;
    }

    method Read() returns (r: Result<Option<Frame<T>>, Error>)
      ensures r == ReadResult(native.files)
    {
      if native.files.pending.Some? { return Err(SETTINGS_RECOVERY_REQUIRED); }
      return Ok(native.files.current);
    }

    method Save(payload: T, expected: int, fits: bool, fault: Fault) returns (r: Result<Frame<T>, Error>)
      modifies native
      ensures var s := old(native.files);
        match SaveFault(s, expected, fits)
        case Some(e) => r == Err(e) && native.files == s
        case None =>
          && native.files == Interrupted(s, Successor(s, payload), fault)
          && r == if fault == Unharmed then Ok(Successor(s, payload)) else Err(INTERRUPTED)
    {
      if expected < 0 { return Err(SETTINGS_INVALID); }
      var current := native.files.current;
      var revision := if current.Some? then current.value.revision else 0;
      if revision != expected { return Err(SETTINGS_CHANGED_RELOAD_REQUIRED); }
      if native.files.pending.Some? { return Err(SETTINGS_RECOVERY_REQUIRED); }
      if expected >= MAX_REVISION { return Err(SETTINGS_REVISION_EXHAUSTED); }
      var frame := Frame(revision + 1, payload, if current.Some? then Some(current.value.payload) else None);
      if !fits { return Err(SETTINGS_TOO_LARGE); }
      if fault == BeforeStage { return Err(INTERRUPTED); }
      native.Stage(if fault == DuringStage then Torn else Whole(frame));
      if fault == DuringStage || fault == AfterStage { return Err(INTERRUPTED); }
      native.Promote();
      if fault == AfterPromote { return Err(INTERRUPTED); }
      return Ok(frame);
    }

    /** Inspects the complete candidate; a lost payload is never reconstructed. */
    method RecoverPending() returns (r: Result<Option<Frame<T>>, Error>)
      modifies native
      ensures var s := old(native.files);
        match RecoverFault(s)
        case Some(e) => r == Err(e) && native.files == s
        case None =>
          if s.pending.None? then r == Ok(s.current) && native.files == s
          else r == Ok(Some(s.pending.value.frame)) && native.files == Store(Some(s.pending.value.frame), None)
    {
      var pending, current := native.files.pending, native.files.current;
      if pending.None? { return Ok(current); }
      if pending.value.Torn? { return Err(SETTINGS_UNREADABLE); }
      var candidate := pending.value.frame;
      if candidate.revision != (if current.Some? then current.value.revision else 0) + 1
         || candidate.previous != (if current.Some? then Some(current.value.payload) else None) {
        return Err(SETTINGS_RECOVERY_CONFLICT);
      }
      native.Promote();
      return Ok(Some(candidate));
    }
  }

  // ---- The committed chain ------------------------------------------------------------------------------

  /** `log` lists every frame ever committed: revisions 1, 2, 3, ... each over its predecessor. */
  predicate Chain<T(==)>(log: seq<Frame<T>>) {
    forall i | 0 <= i < |log| :: Follows(log, i)
  }

  predicate Follows<T(==)>(log: seq<Frame<T>>, i: nat)
    requires i < |log|
  {
    && log[i].revision == i + 1
    && log[i].previous == if i == 0 then None else Some(log[i - 1].payload)
  }

  /** The store ends its chain, and a complete staged frame is the one that would follow. */
  predicate Linear<T(==)>(s: Store<T>, log: seq<Frame<T>>) {
    && Chain(log)
    && s.current == (if log == [] then None else Some(log[|log| - 1]))
    && (s.pending.Some? && s.pending.value.Whole? ==> s.pending.value.frame == Successor(s, s.pending.value.frame.payload))
  }

  datatype Op<T> = Saving(payload: T, expected: int, fits: bool, fault: Fault) | Recovering(lost: bool)

  /** The store after one operation; a recovery may be lost just before its promotion. */
  function After<T(==)>(s: Store<T>, op: Op<T>): Store<T> {
    match op
    case Saving(payload, expected, fits, fault) =>
      if SaveFault(s, expected, fits).Some? then s else Interrupted(s, Successor(s, payload), fault)
    case Recovering(lost) =>
      if RecoverFault(s).Some? || s.pending.None? || lost then s else Store(Some(s.pending.value.frame), None)
  }

  function Run<T(==)>(s: Store<T>, ops: seq<Op<T>>): Store<T>
    decreases |ops|
  {
    if ops == [] then s else Run(After(s, ops[0]), ops[1..])
  }

  function Logged<T(==)>(s: Store<T>, t: Store<T>, log: seq<Frame<T>>): seq<Frame<T>> {
    if t.current == s.current || t.current.None? then log else log + [t.current.value]
  }

  lemma ChainGrows<T>(log: seq<Frame<T>>, f: Frame<T>)
    requires Chain(log) && f.revision == |log| + 1
    requires f.previous == if log == [] then None else Some(log[|log| - 1].payload)
    ensures Chain(log + [f])
  {
    var all := log + [f];
    forall i | 0 <= i < |all| ensures Follows(all, i) {
      if i < |log| { assert Follows(log, i); }
    }
  }

  lemma StaysLinear<T>(s: Store<T>, op: Op<T>, log: seq<Frame<T>>)
    requires Linear(s, log)
    ensures Linear(After(s, op), Logged(s, After(s, op), log))
  {
    var t := After(s, op);
    if t.current != s.current {
      assert t.current.value == Successor(s, t.current.value.payload);
      assert log != [] ==> Follows(log, |log| - 1);
      ChainGrows(log, t.current.value);
    }
  }

  /** Every run, however it is cut off, commits one linear chain that extends the one before. */
  lemma {:induction false} RunsStayLinear<T>(s: Store<T>, ops: seq<Op<T>>, log: seq<Frame<T>>) returns (all: seq<Frame<T>>)
    requires Linear(s, log)
    ensures Linear(Run(s, ops), all) && |log| <= |all| && all[..|log|] == log && |all| <= |log| + |ops|
    decreases |ops|
  {
    if ops == [] {
      all := log;
    } else {
      var t := After(s, ops[0]);
      StaysLinear(s, ops[0], log);
      all := RunsStayLinear(t, ops[1..], Logged(s, t, log));
      assert all[..|log|] == all[..|Logged(s, t, log)|][..|log|];
    }
  }

  /** After a save that was cut off, and any recovery, the store holds the old frame or exactly
      the intended one; which of the two is settled by whether a whole frame was staged. */
  lemma InterruptedSaveSettles<T>(s: Store<T>, log: seq<Frame<T>>, payload: T, fault: Fault)
    requires Linear(s, log) && SaveFault(s, |log|, true).None?
    ensures var t := After(After(s, Saving(payload, |log|, true, fault)), Recovering(false));
      t.current == if fault.BeforeStage? || fault.DuringStage? then s.current else Some(Successor(s, payload))
  {}

  /** A store can be recovered exactly when its staged file is not torn; a torn one refuses
      every operation from then on and keeps its committed frame. */
  lemma {:induction false} TornIsFinal<T>(s: Store<T>, log: seq<Frame<T>>, ops: seq<Op<T>>)
    requires Linear(s, log)
    ensures RecoverFault(s).None? <==> s.pending != Some(Torn)
    ensures s.pending == Some(Torn) ==> Run(s, ops) == s
    decreases |ops|
  {
    if ops != [] && s.pending == Some(Torn) {
      assert After(s, ops[0]) == s;
      TornIsFinal(s, log, ops[1..]);
    }
  }

  /** Once a save from some revision is committed, every later save from it is told to reload. */
  lemma OneSavePerRevision<T>(s: Store<T>, log: seq<Frame<T>>, a: T, expected: int, between: seq<Op<T>>, fits: bool)
    requires Linear(s, log) && SaveFault(s, expected, true).None?
    ensures var t := Run(After(s, Saving(a, expected, true, Unharmed)), between);
      SaveFault(t, expected, fits) == Some(SETTINGS_CHANGED_RELOAD_REQUIRED)
  {
    var t := After(s, Saving(a, expected, true, Unharmed));
    StaysLinear(s, Saving(a, expected, true, Unharmed), log);
    var all := RunsStayLinear(t, between, Logged(s, t, log));
    assert log != [] ==> Follows(log, |log| - 1);
    assert Follows(all, |all| - 1);
  }

  // ---- What is refused, and where a frame comes from -----------------------------------------------------

  /** A save is refused exactly for a bad or outdated revision, a staged file, an exhausted revision or
      its size, in this order; an accepted one leaves what it had reached. */
  lemma SaveExactly<T>(s: Store<T>, payload: T, expected: int, fits: bool, fault: Fault)
    ensures var (e, t) := (SaveFault(s, expected, fits), After(s, Saving(payload, expected, fits, fault)));
      var next := Frame(Revision(s) + 1, payload, if s.current.Some? then Some(s.current.value.payload) else None);
      var reached := expected == Revision(s) && s.pending == None;
      && (e == None <==> reached && expected < MAX_REVISION && fits)
      && (e == Some(SETTINGS_INVALID) <==> expected < 0)
      && (e == Some(SETTINGS_CHANGED_RELOAD_REQUIRED) <==> 0 <= expected != Revision(s))
      && (e == Some(SETTINGS_RECOVERY_REQUIRED) <==> expected == Revision(s) && s.pending.Some?)
      && (e == Some(SETTINGS_REVISION_EXHAUSTED) <==> reached && MAX_REVISION <= expected)
      && (e == Some(SETTINGS_TOO_LARGE) <==> reached && expected < MAX_REVISION && !fits)
      && if e.Some? || fault == BeforeStage then t == s
         else if fault == DuringStage then t == Store(s.current, Some(Torn))
         else if fault == AfterStage then t == Store(s.current, Some(Whole(next)))
         else t == Store(Some(next), None)
  {}

  /** A store is read exactly while nothing is staged, and then as what is committed. */
  lemma ReadExactly<T>(s: Store<T>, f: Option<Frame<T>>)
    ensures ReadResult(s) == Ok(f) <==> s == Store(f, None)
    ensures ReadResult(s).Err? ==> ReadResult(s) == Err(SETTINGS_RECOVERY_REQUIRED)
  {}

  /** A recovery promotes exactly a whole staged frame that follows the committed one; a torn file
      cannot be read, and any other frame is a conflict. */
  lemma RecoverExactly<T>(s: Store<T>, lost: bool)
    ensures var (e, t) := (RecoverFault(s), After(s, Recovering(lost)));
      && (e == Some(SETTINGS_UNREADABLE) <==> s.pending == Some(Torn))
      && (e == Some(SETTINGS_RECOVERY_CONFLICT) <==>
            exists f :: s.pending == Some(Whole(f)) && !(f.revision == Revision(s) + 1 && f.previous == Payload(s)))
      && (forall f | s.pending == Some(Whole(f)) && f.revision == Revision(s) + 1 && f.previous == Payload(s) ::
            e == None && t == if lost then s else Store(Some(f), None))
      && (s.pending == None || e.Some? ==> t == s)
  {}

  /** The store after the first n operations. */
  function At<T(==)>(s: Store<T>, ops: seq<Op<T>>, n: nat): Store<T>
    requires n <= |ops|
    decreases n
  {
    if n == 0 then s else After(At(s, ops, n - 1), ops[n - 1])
  }

  /** Committed, or staged whole. */
  predicate Holds<T(==)>(s: Store<T>, f: Frame<T>) { s.current == Some(f) || s.pending == Some(Whole(f)) }

  /** In every run each frame was put there by a save that nothing refused, over the revision before it. */
  lemma {:induction false} HeldWasSaved<T>(s: Store<T>, ops: seq<Op<T>>, n: nat, f: Frame<T>) returns (i: nat)
    requires n <= |ops| && Holds(At(s, ops, n), f) && !Holds(s, f)
    ensures i < n && ops[i].Saving? && ops[i].payload == f.payload && ops[i].fits && ops[i].expected == f.revision - 1
    ensures var u := At(s, ops, i); Revision(u) == f.revision - 1 && Payload(u) == f.previous && u.pending == None
    decreases n
  {
    if Holds(At(s, ops, n - 1), f) {
      i := HeldWasSaved(s, ops, n - 1, f);
    } else {
      i := n - 1;
      match ops[i]
      case Saving(payload, expected, fits, fault) => SaveExactly(At(s, ops, i), payload, expected, fits, fault);
      case Recovering(lost) => RecoverExactly(At(s, ops, i), lost);
    }
  }
}
