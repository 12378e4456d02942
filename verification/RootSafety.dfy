/**
  At most one provider call for each object.  The invariant needs the controllers to be told
  apart: either no two of them share both installation and target and every cancellation is
  current (`strict`), or no two of them share a target at all.  An inherited settlement that is
  not current only marks an attempt COMPLETE too early, which this invariant lives with.  The
  lemmas below go through the kinds of step one by one: what completes, cancels or starts an
  entry, what rewrites a store, what sends, and what only reads.
 */
module RootSafety {
  import opened Basics
  import opened RootProtocol
  import opened RootOrder
  import opened RootPrefix

  ghost predicate DistinctTargets(g: Config) {
    forall c, d | c in g.sites && d in g.sites && g.sites[c].target == g.sites[d].target :: c == d
  }

  ghost predicate DistinctSites(g: Config) {
    forall c, d | c in g.sites && d in g.sites && g.sites[c] == g.sites[d] :: c == d
  }

  ghost predicate Told(g: Config, strict: bool) { if strict then DistinctSites(g) else DistinctTargets(g) }

  /** The ledger records this attempt, as UNKNOWN or already as COMPLETE. */
  predicate Standing(l: Ledger, owner: nat, e: nat, i: nat) {
    Records(l, owner, e, i, UNKNOWN) || Records(l, owner, e, i, COMPLETE)
  }

  /** The object of an unarmed cursor is unsent, or the cursor's epoch ended without an entry, or
      the receipt of an older attempt keeps it from starting. */
  predicate Fresh(g: Config, k: World, c: nat, e: nat, i: nat, strict: bool)
    requires c in g.sites
  {
    || i !in k.sent
    || (strict && k.epoch > e && !Standing(k.ledger, g.sites[c].installation, e, i))
    || (strict && Receipt(k.ledger, i) && k.ledger.entry.value.epoch < e)
  }

  predicate FrameFresh(g: Config, k: World, c: nat, f: Frame, strict: bool)
    requires c in g.sites
  {
    f.pending.Some? && !Invokes(f) ==> Fresh(g, k, c, f.pending.value.epoch, f.index, strict)
  }

  predicate WalFresh(g: Config, k: World, c: nat, w: Wal, strict: bool)
    requires c in g.sites
  {
    && (w.current.Some? ==> FrameFresh(g, k, c, w.current.value, strict))
    && (w.staged.Whole? ==> FrameFresh(g, k, c, w.staged.frame, strict))
  }

  /** A sent object that has not moved is guarded by its sender's cursor and by the shared entry. */
  predicate Held(g: Config, k: World, x: Shipment, strict: bool) {
    && x.ctrl in g.sites && x.ctrl in k.wals
    && (x.index !in k.moved ==>
          && k.wals[x.ctrl].current.Some? && k.wals[x.ctrl].current.value.index == x.index
          && k.wals[x.ctrl].current.value.pending == Some(Cursor(x.epoch, INVOKING))
          && (strict ==> Standing(k.ledger, g.sites[x.ctrl].installation, x.epoch, x.index)))
  }

  /** This frame is the possible-send boundary of object `i` and the shared entry knows it. */
  predicate Guards(g: Config, k: World, c: nat, f: Frame, i: nat)
    requires c in g.sites
  {
    && f.index == i && Invokes(f)
    && Standing(k.ledger, g.sites[c].installation, f.pending.value.epoch, i)
  }

  predicate GuardedBy(g: Config, k: World, c: nat, i: nat) {
    && c in g.sites && c in k.wals
    && (|| (k.wals[c].current.Some? && Guards(g, k, c, k.wals[c].current.value, i))
        || (k.wals[c].staged.Whole? && Guards(g, k, c, k.wals[c].staged.frame, i)))
  }

  /** An object with a durable possible-send boundary has moved, or is still guarded. */
  predicate Guarded(g: Config, k: World, i: nat) {
    i in k.moved || exists c | c in k.wals :: GuardedBy(g, k, c, i)
  }

  predicate NotDispatched(l: Ledger, i: nat) {
    l.entry.Some? && l.entry.value.operation == Move(i) && l.entry.value.outcome == NOT_DISPATCHED
  }

  ghost predicate ArmedSafe(g: Config, k: World) {
    && (forall i {:trigger Guarded(g, k, i)} | i in k.armed :: Guarded(g, k, i))
    && (forall i | NotDispatched(k.ledger, i) :: i !in k.armed)
  }

  /** A start was requested only by a store that has come as far. */
  predicate RequestKept(g: Config, k: World, r: Request, c: nat) {
    c in g.sites && c in k.wals && g.sites[c].installation == r.owner && Planned(g, k, c) ==>
      k.wals[c].current.Some? && r.index <= k.wals[c].current.value.index
  }

  ghost predicate WorldSafe(g: Config, k: World, strict: bool) {
    && (forall c | c in k.wals :: c in g.sites && WalFresh(g, k, c, k.wals[c], strict))
    && (forall n | 0 <= n < |k.sends| :: Held(g, k, k.sends[n], strict))
    && AtMostOnce(k)
    && (strict ==> ArmedSafe(g, k) && forall r, c | r in k.requests && c in k.wals :: RequestKept(g, k, r, c))
  }

  predicate CallSafe(g: Config, k: World, c: Call, strict: bool) {
    && c.ctrl in g.sites && c.ctrl in k.wals
    && (c.Advance? && Present(k, c) ==>
          && (Rank(c.phase) == 0 ==> Fresh(g, k, c.ctrl, c.epoch, c.index, strict))
          && (3 <= Rank(c.phase) <= 9 && strict ==>
                Standing(k.ledger, g.sites[c.ctrl].installation, c.epoch, c.index))
          && (8 <= Rank(c.phase) <= 9 ==> c.index !in k.sent))
  }

  ghost predicate Safe(g: Config, s: State, strict: bool) {
    && WorldSafe(g, s.world, strict)
    && (forall id | id in s.calls :: CallSafe(g, s.world, s.calls[id], strict))
  }

  lemma InitiallySafe(g: Config, s: State, strict: bool)
    requires Initially(g, s)
    ensures Safe(g, s, strict)
  {}

  /** Two claims under one epoch, or any two when targets differ, are one store's. */
  lemma OneClaim(g: Config, k: World, c: nat, d: nat, e: nat, e': nat, strict: bool)
    requires Told(g, strict) && c in g.sites && d in g.sites && Claim(g, k, c, e) && Claim(g, k, d, e')
    requires strict ==> e == e'
    ensures c == d
  {}

  // ---- Calls ---------------------------------------------------------------------------

  lemma PutSafe(g: Config, s: State, id: nat, c: Call, strict: bool)
    requires Safe(g, s, strict) && CallSafe(g, s.world, c, strict)
    ensures Safe(g, PutCall(s, id, c), strict)
  {}

  lemma DropSafe(g: Config, s: State, id: nat, strict: bool)
    requires Safe(g, s, strict)
    ensures Safe(g, DropCall(s, id), strict)
  {}

  // ---- Shared document and provider ------------------------------------------------------

  /** Stores and sends stay, moves grow, and no old UNKNOWN entry appears or is lost. */
  ghost predicate Steady(k: World, t: World) {
    && t.wals == k.wals && t.sends == k.sends && t.sent == k.sent && t.armed == k.armed && k.epoch <= t.epoch
    && (forall i | i in k.moved :: i in t.moved)
    && (Unknown(k.ledger) ==> t.ledger.entry == k.ledger.entry)
    && (forall i | Receipt(k.ledger, i) && t.ledger.entry != k.ledger.entry :: i in k.moved)
    && (t.ledger.entry == k.ledger.entry || Unknown(t.ledger))
  }

  predicate CallFresh(g: Config, k: World, c: Call, strict: bool) {
    c.Advance? && c.ctrl in g.sites && c.ctrl in k.wals && Present(k, c) && Rank(c.phase) == 0 ==>
      Fresh(g, k, c.ctrl, c.epoch, c.index, strict)
  }

  /** A call that relies on the entry has not sent its object, so it has not moved. */
  lemma ReliesUnmoved(g: Config, k: World, c: Call)
    requires WorldOk(g, k) && WorldSafe(g, k, true) && CallOk(g, k, c) && CallSafe(g, k, c, true)
    requires c.Advance? && Present(k, c) && 3 <= Rank(c.phase) <= 9
    ensures Standing(k.ledger, g.sites[c.ctrl].installation, c.epoch, c.index) && c.index !in k.moved
  {
    assert WalFresh(g, k, c.ctrl, k.wals[c.ctrl], true);
    assert k.wals[c.ctrl].current == Some(View(c));
  }

  lemma SteadyArmed(g: Config, k: World, u: World)
    requires ArmedSafe(g, k) && Steady(k, u)
    ensures ArmedSafe(g, u)
  {
    forall i | i in u.armed ensures Guarded(g, u, i) {
      assert Guarded(g, k, i);
      if i !in k.moved {
        var c :| c in k.wals && GuardedBy(g, k, c, i);
        assert GuardedBy(g, u, c, i);
      }
    }
  }

  lemma SteadyCall(g: Config, k: World, u: World, c: Call, strict: bool)
    requires WorldOk(g, k) && WorldSafe(g, k, strict) && Steady(k, u)
    requires CallOk(g, k, c) && CallSafe(g, k, c, strict) && CallFresh(g, u, c, strict)
    ensures CallSafe(g, u, c, strict)
  {
    if strict && c.Advance? && Present(k, c) && 3 <= Rank(c.phase) <= 9 { ReliesUnmoved(g, k, c); }
  }

  lemma SteadySafe(g: Config, s: State, t: State, strict: bool)
    requires Ordered(g, s) && Safe(g, s, strict) && Steady(s.world, t.world) && t.calls == s.calls
    requires forall c | c in s.world.wals :: c in g.sites && WalFresh(g, t.world, c, s.world.wals[c], strict)
    requires forall id | id in s.calls :: CallFresh(g, t.world, s.calls[id], strict)
    requires strict ==> forall r, c | r in t.world.requests && c in t.world.wals :: RequestKept(g, t.world, r, c)
    ensures Safe(g, t, strict)
  {
    var k, u := s.world, t.world;
    forall n | 0 <= n < |u.sends| ensures Held(g, u, u.sends[n], strict) { assert Held(g, k, k.sends[n], strict); }
    if strict { SteadyArmed(g, k, u); }
    forall id | id in s.calls ensures CallSafe(g, u, s.calls[id], strict) { SteadyCall(g, k, u, s.calls[id], strict); }
  }

  /** This call does not rely on the present entry. */
  predicate Indifferent(g: Config, k: World, c: Call) {
    && c.ctrl in g.sites && c.ctrl in k.wals
    && (c.Advance? && Present(k, c) && 3 <= Rank(c.phase) <= 9 ==>
          !Standing(k.ledger, g.sites[c.ctrl].installation, c.epoch, c.index))
  }

  /** Nobody still relies on the present entry. */
  ghost predicate Unused(g: Config, s: State) {
    && (forall c, i | c in s.world.wals && GuardedBy(g, s.world, c, i) :: i in s.world.moved)
    && (forall id | id in s.calls :: Indifferent(g, s.world, s.calls[id]))
  }

  /** Completing an attempt, early or not, takes nothing from those who rely on it. */
  lemma CompleteSafe(g: Config, s: State, strict: bool)
    requires Safe(g, s, strict) && Unknown(s.world.ledger)
    ensures Safe(g, s.(world := Outcomes(s.world, COMPLETE)), strict)
  {
    var k := s.world;
    var t := Outcomes(k, COMPLETE);
    forall n | 0 <= n < |t.sends| ensures Held(g, t, t.sends[n], strict) { assert Held(g, k, k.sends[n], strict); }
    if strict {
      forall i | i in t.armed ensures Guarded(g, t, i) {
        assert Guarded(g, k, i);
        if i !in k.moved {
          var c :| c in k.wals && GuardedBy(g, k, c, i);
          assert GuardedBy(g, t, c, i);
        }
      }
      forall r, c | r in t.requests && c in t.wals ensures RequestKept(g, t, r, c) { assert RequestKept(g, k, r, c); }
    }
  }

  lemma CancelledSafe(g: Config, s: State, strict: bool)
    requires Safe(g, s, strict) && Unknown(s.world.ledger) && (strict ==> Unused(g, s))
    requires strict ==>
      s.world.ledger.entry.value.operation.Move? && s.world.ledger.entry.value.operation.index !in s.world.armed
    ensures Safe(g, s.(world := Outcomes(s.world, NOT_DISPATCHED)), strict)
  {
    var k := s.world;
    var t := Outcomes(k, NOT_DISPATCHED);
    forall n | 0 <= n < |t.sends| ensures Held(g, t, t.sends[n], strict) {
      assert Held(g, k, k.sends[n], strict);
      if strict && k.sends[n].index !in k.moved { assert GuardedBy(g, k, k.sends[n].ctrl, k.sends[n].index); }
    }
    if strict {
      forall i | i in t.armed ensures Guarded(g, t, i) { assert Guarded(g, k, i); }
      forall r, c | r in t.requests && c in t.wals ensures RequestKept(g, t, r, c) { assert RequestKept(g, k, r, c); }
    }
    forall id | id in s.calls ensures CallSafe(g, t, s.calls[id], strict) {
      assert CallSafe(g, k, s.calls[id], strict) && (strict ==> Indifferent(g, k, s.calls[id]));
    }
  }

  /** The cursor of store `c` is REVOKED, for the very entry. */
  predicate Disowned(g: Config, k: World, c: nat) {
    && c in g.sites && c in k.wals && k.wals[c].current.Some?
    && var f := k.wals[c].current.value;
       && f.pending.Some? && f.pending.value.dispatch.REVOKED?
       && Records(k.ledger, g.sites[c].installation, f.pending.value.epoch, f.index, UNKNOWN)
  }

  /** Then it is nobody's boundary. */
  lemma DisownedBy(g: Config, k: World, c: nat, d: nat, i: nat)
    requires Told(g, true) && WorldOk(g, k) && Disowned(g, k, c) && d in k.wals
    ensures !GuardedBy(g, k, d, i)
  {
    assert WalOk(g, k, c, k.wals[c]) && WalOk(g, k, d, k.wals[d]);
    var e := k.wals[c].current.value.pending.value.epoch;
    if GuardedBy(g, k, d, i) { OneClaim(g, k, c, d, e, e, true); }
  }

  lemma DisownedCall(g: Config, k: World, c: nat, d: Call)
    requires Told(g, true) && WorldOk(g, k) && Disowned(g, k, c) && CallOk(g, k, d)
    ensures Indifferent(g, k, d)
  {
    assert WalOk(g, k, c, k.wals[c]);
    if d.Advance? && d.epoch == k.ledger.entry.value.epoch && g.sites[d.ctrl].installation == g.sites[c].installation {
      OneClaim(g, k, c, d.ctrl, d.epoch, d.epoch, true);
    }
  }

  lemma CancelUnused(g: Config, s: State, c: nat)
    requires Told(g, true) && Ordered(g, s) && Safe(g, s, true) && Disowned(g, s.world, c)
    ensures Unused(g, s)
    ensures s.world.wals[c].current.value.index !in s.world.armed
  {
    var k, f := s.world, s.world.wals[c].current.value;
    forall d, i | d in k.wals && GuardedBy(g, k, d, i) ensures false { DisownedBy(g, k, c, d, i); }
    forall id | id in s.calls ensures Indifferent(g, k, s.calls[id]) { DisownedCall(g, k, c, s.calls[id]); }
    assert WalFresh(g, k, c, k.wals[c], true);
    assert f.index in k.armed ==> Guarded(g, k, f.index);
  }

  // ---- Saves ---------------------------------------------------------------------------------

  /** The rewritten store keeps every boundary it guards, unless the object has moved. */
  ghost predicate KeepsGuards(g: Config, k: World, c: nat, w: Wal) {
    forall i | GuardedBy(g, k, c, i) && i !in k.moved ::
      || (w.current.Some? && Guards(g, k, c, w.current.value, i))
      || (w.staged.Whole? && Guards(g, k, c, w.staged.frame, i))
  }

  lemma RewriteArmed(g: Config, k: World, c: nat, w: Wal, armed: set<nat>)
    requires ArmedSafe(g, k) && c in g.sites && c in k.wals && KeepsGuards(g, k, c, w)
    requires forall i | i in armed && i !in k.armed ::
      GuardedBy(g, Rewritten(k, c, w, armed), c, i) && !NotDispatched(k.ledger, i)
    ensures ArmedSafe(g, Rewritten(k, c, w, armed))
  {
    var t := Rewritten(k, c, w, armed);
    forall i | i in t.armed ensures Guarded(g, t, i) {
      if i in k.armed {
        assert Guarded(g, k, i);
        if i !in k.moved {
          var d :| d in k.wals && GuardedBy(g, k, d, i);
          assert GuardedBy(g, t, d, i);
        }
      } else {
        assert GuardedBy(g, t, c, i);
      }
    }
  }

  /** What a rewrite of store `c` may do: it is a new revision or stages something, leaves no cursor
      behind that still guards a send, and keeps the boundaries that it guards. */
  ghost predicate Rewrites(g: Config, k: World, c: nat, w: Wal, armed: set<nat>, strict: bool)
    requires c in g.sites && c in k.wals
  {
    var v := k.wals[c];
    && WalFresh(g, k, c, w, strict) && k.armed <= armed && Forward(v, w)
    && (w.revision > v.revision || !w.staged.Nothing?)
    && (w.current == v.current || (v.current.Some? && Invokes(v.current.value) ==> v.current.value.index in k.moved))
    && (strict ==>
          && KeepsGuards(g, k, c, w)
          && forall i | i in armed && i !in k.armed ::
               GuardedBy(g, Rewritten(k, c, w, armed), c, i) && !NotDispatched(k.ledger, i))
  }

  lemma RewriteWorld(g: Config, k: World, c: nat, w: Wal, armed: set<nat>, strict: bool)
    requires WorldSafe(g, k, strict) && c in g.sites && c in k.wals && Rewrites(g, k, c, w, armed, strict)
    ensures WorldSafe(g, Rewritten(k, c, w, armed), strict)
  {
    var t := Rewritten(k, c, w, armed);
    forall n | 0 <= n < |t.sends| ensures Held(g, t, t.sends[n], strict) { assert Held(g, k, k.sends[n], strict); }
    if strict {
      RewriteArmed(g, k, c, w, armed);
      forall r, d | r in t.requests && d in t.wals ensures RequestKept(g, t, r, d) { assert RequestKept(g, k, r, d); }
    }
  }

  lemma RewriteCall(g: Config, k: World, c: nat, w: Wal, armed: set<nat>, call: Call, strict: bool)
    requires c in g.sites && c in k.wals && Rewrites(g, k, c, w, armed, strict)
    requires CallOk(g, k, call) && CallSafe(g, k, call, strict)
    ensures CallSafe(g, Rewritten(k, c, w, armed), call, strict)
  {}

  lemma RewriteSafe(g: Config, s: State, c: nat, w: Wal, armed: set<nat>, strict: bool)
    requires Ordered(g, s) && Safe(g, s, strict) && c in g.sites && c in s.world.wals
    requires Rewrites(g, s.world, c, w, armed, strict)
    ensures Safe(g, s.(world := Rewritten(s.world, c, w, armed)), strict)
  {
    RewriteWorld(g, s.world, c, w, armed, strict);
    forall id | id in s.calls ensures CallSafe(g, Rewritten(s.world, c, w, armed), s.calls[id], strict) {
      RewriteCall(g, s.world, c, w, armed, s.calls[id], strict);
    }
  }

  lemma RecoverSafe(g: Config, s: State, c: nat, strict: bool)
    requires Ordered(g, s) && Safe(g, s, strict) && c in s.world.wals && s.world.wals[c].staged.Whole?
    ensures Safe(g, s.(world := Recovered(s.world, c)), strict)
  {
    var w := s.world.wals[c];
    assert WalOk(g, s.world, c, w);
    assert WalFresh(g, s.world, c, w, strict);
    var v := Wal(w.revision + 1, Some(w.staged.frame), w.current, Nothing);
    assert KeepsGuards(g, s.world, c, v);
    RewriteSafe(g, s, c, v, s.world.armed, strict);
    assert Recovered(s.world, c) == Rewritten(s.world, c, v, s.world.armed);
  }

  /** A save that arms nothing. */
  lemma PlainSaveSafe(g: Config, s: State, c: nat, f: Frame, how: Save, strict: bool)
    requires Ordered(g, s) && Safe(g, s, strict) && c in g.sites && c in s.world.wals
    requires Savable(g, s.world, c, f) && !Invokes(f) && FrameFresh(g, s.world, c, f, strict)
    ensures Safe(g, s.(world := SavedTo(s.world, c, f, how)), strict)
  {
    var w := s.world.wals[c];
    assert WalFresh(g, s.world, c, w, strict);
    assert KeepsGuards(g, s.world, c, Write(w, f, how));
    RewriteSafe(g, s, c, Write(w, f, how), s.world.armed, strict);
    assert SavedTo(s.world, c, f, how) == Rewritten(s.world, c, Write(w, f, how), s.world.armed);
  }

  lemma ArmSafe(g: Config, s: State, c: nat, f: Frame, how: Save, strict: bool)
    requires Ordered(g, s) && Safe(g, s, strict) && c in g.sites && c in s.world.wals
    requires Savable(g, s.world, c, f) && Invokes(f)
    requires strict ==> Standing(s.world.ledger, g.sites[c].installation, f.pending.value.epoch, f.index)
    ensures Safe(g, s.(world := SavedTo(s.world, c, f, how)), strict)
    ensures f.index !in s.world.sent
  {
    var w := s.world.wals[c];
    assert WalFresh(g, s.world, c, w, strict);
    assert KeepsGuards(g, s.world, c, Write(w, f, how));
    RewriteSafe(g, s, c, Write(w, f, how), Arming(s.world, f, how), strict);
    assert SavedTo(s.world, c, f, how) == Rewritten(s.world, c, Write(w, f, how), Arming(s.world, f, how));
  }

  // ---- The provider call ------------------------------------------------------------------------

  /** What the sender knows: its armed cursor is in force and the object was never sent. */
  predicate Sending(g: Config, k: World, x: Shipment, strict: bool) {
    && x.ctrl in g.sites && x.ctrl in k.wals && Claim(g, k, x.ctrl, x.epoch) && x.index !in k.sent
    && k.wals[x.ctrl].current.Some? && k.wals[x.ctrl].staged.Nothing? && k.wals[x.ctrl].current.value.index == x.index
    && k.wals[x.ctrl].current.value.pending == Some(Cursor(x.epoch, INVOKING))
    && (strict ==> Standing(k.ledger, g.sites[x.ctrl].installation, x.epoch, x.index))
  }

  lemma OthersStayFresh(g: Config, k: World, x: Shipment, d: nat, e: nat, i: nat, strict: bool)
    requires Told(g, strict) && Sending(g, k, x, strict) && d in g.sites && d != x.ctrl
    requires Claim(g, k, d, e) && Fresh(g, k, d, e, i, strict) && x.epoch <= k.epoch
    ensures Fresh(g, Shipped(k, x), d, e, i, strict)
  {
    if !strict {
      OneClaim(g, k, d, x.ctrl, e, x.epoch, strict);
    } else if e == x.epoch {
      OneClaim(g, k, d, x.ctrl, e, e, strict);
    }
  }

  lemma ShipSafe(g: Config, k: World, x: Shipment, strict: bool)
    requires Told(g, strict) && WorldOk(g, k) && WorldSafe(g, k, strict) && Sending(g, k, x, strict)
    ensures WorldSafe(g, Shipped(k, x), strict)
  {
    var t := Shipped(k, x);
    forall c | c in t.wals ensures WalFresh(g, t, c, t.wals[c], strict) {
      var w := k.wals[c];
      assert WalOk(g, k, c, w) && WalFresh(g, k, c, w, strict);
      if c != x.ctrl && w.current.Some? && w.current.value.pending.Some? && !Invokes(w.current.value) {
        OthersStayFresh(g, k, x, c, w.current.value.pending.value.epoch, w.current.value.index, strict);
      }
      if c != x.ctrl && w.staged.Whole? && w.staged.frame.pending.Some? && !Invokes(w.staged.frame) {
        OthersStayFresh(g, k, x, c, w.staged.frame.pending.value.epoch, w.staged.frame.index, strict);
      }
    }
    forall n | 0 <= n < |t.sends| ensures Held(g, t, t.sends[n], strict) {
      if n < |k.sends| { assert Held(g, k, k.sends[n], strict); }
    }
    forall n | 0 <= n < |k.sends| ensures k.sends[n].index != x.index { assert ShipmentOk(g, k, k.sends[n]); }
    if strict {
      forall i | i in t.armed ensures Guarded(g, t, i) {
        assert Guarded(g, k, i);
        if i !in k.moved {
          var c :| c in k.wals && GuardedBy(g, k, c, i);
          assert GuardedBy(g, t, c, i);
        }
      }
      forall r, c | r in t.requests && c in t.wals ensures RequestKept(g, t, r, c) { assert RequestKept(g, k, r, c); }
    }
  }

  lemma ShipKeepsCall(g: Config, k: World, x: Shipment, c: Call, strict: bool)
    requires Told(g, strict) && WorldOk(g, k) && CallOk(g, k, c) && CallSafe(g, k, c, strict) && Sending(g, k, x, strict)
    requires c.ctrl == x.ctrl ==> !Holds(c)
    ensures CallSafe(g, Shipped(k, x), c, strict)
  {
    if c.Advance? && Present(k, c) {
      if c.ctrl == x.ctrl {
        assert k.wals[x.ctrl].current == Some(View(c));
      } else if Rank(c.phase) == 0 {
        OthersStayFresh(g, k, x, c.ctrl, c.epoch, c.index, strict);
      }
    }
  }

  lemma ShippedSafe(g: Config, s: State, id: nat, strict: bool)
    requires Told(g, strict) && Ordered(g, s) && Safe(g, s, strict)
    requires id in s.calls && s.calls[id].Advance? && s.calls[id].ctrl in g.sites && Holds(s.calls[id])
    requires Sending(g, s.world, ShipmentOf(g, s.calls[id]), strict)
    ensures Safe(g, State(Shipped(s.world, ShipmentOf(g, s.calls[id])), s.calls - {id}), strict)
  {
    var k, x := s.world, ShipmentOf(g, s.calls[id]);
    ShipSafe(g, k, x, strict);
    forall j | j in s.calls && j != id ensures CallSafe(g, Shipped(k, x), s.calls[j], strict) {
      assert Apart(s.calls[id], s.calls[j]);
      ShipKeepsCall(g, k, x, s.calls[j], strict);
    }
  }

  lemma GoesOnSafe(g: Config, k: World, calls: map<nat, Call>, id: nat, c: Call, strict: bool)
    requires Safe(g, State(k, calls - {id}), strict) && CallSafe(g, k, c, strict)
    ensures Safe(g, State(k, calls[id := c]), strict)
  {
    forall j | j in calls && j != id ensures CallSafe(g, k, calls[j], strict) { assert j in calls - {id}; }
  }

  lemma SendSafe(g: Config, s: State, step: Step, strict: bool)
    requires Told(g, strict) && Ordered(g, s) && Safe(g, s, strict) && step.Send? && CallReady(g, s, step)
    ensures Safe(g, ApplyCall(g, s, step), strict)
  {
    var c := s.calls[step.id];
    assert CallOk(g, s.world, c) && CallSafe(g, s.world, c, strict);
    ShippedSafe(g, s, step.id, strict);
    GoesOnSafe(g, Shipped(s.world, ShipmentOf(g, c)), s.calls, step.id, Phased(c, Sent), strict);
  }

  // ---- Saves, with their calls -------------------------------------------------------------------

  lemma PlainStepSafe(g: Config, s: State, id: nat, f: Frame, how: Save, strict: bool)
    requires Ordered(g, s) && Safe(g, s, strict) && id in s.calls && s.calls[id].ctrl in g.sites
    requires s.calls[id].ctrl in s.world.wals && Savable(g, s.world, s.calls[id].ctrl, f) && !Invokes(f)
    requires FrameFresh(g, s.world, s.calls[id].ctrl, f, strict)
    ensures Safe(g, SaveBy(s, id, f, how, None), strict)
  {
    PlainSaveSafe(g, s, s.calls[id].ctrl, f, how, strict);
    DropSafe(g, s.(world := SavedTo(s.world, s.calls[id].ctrl, f, how)), id, strict);
  }

  /** A save whose caller goes on unless it is cut off. */
  lemma ContinueSafe(g: Config, s: State, id: nat, f: Frame, how: Save, next: Call, strict: bool)
    requires id in s.calls && s.calls[id].ctrl in s.world.wals
    requires Safe(g, s.(world := SavedTo(s.world, s.calls[id].ctrl, f, how)), strict)
    requires how == Promoted ==> CallSafe(g, SavedTo(s.world, s.calls[id].ctrl, f, how), next, strict)
    ensures Safe(g, SaveBy(s, id, f, how, Some(next)), strict)
  {
    var t := s.(world := SavedTo(s.world, s.calls[id].ctrl, f, how));
    if how == Promoted { PutSafe(g, t, id, next, strict); } else { DropSafe(g, t, id, strict); }
  }

  lemma PrepareSafe(g: Config, s: State, step: Step, strict: bool)
    requires Ordered(g, s) && Safe(g, s, strict) && step.SavePrepared? && SaveReady(g, s, step)
    ensures Safe(g, ApplySave(g, s, step), strict)
  {
    var c := s.calls[step.id];
    var next := Advanced(c, Saved);
    assert CallOk(g, s.world, c) && CallSafe(g, s.world, c, strict);
    PlainSaveSafe(g, s, c.ctrl, View(next), step.how, strict);
    ContinueSafe(g, s, step.id, View(next), step.how, next, strict);
  }

  lemma ArmedCallSafe(g: Config, s: State, step: Step, strict: bool)
    requires Ordered(g, s) && Safe(g, s, strict) && step.Arm? && SaveReady(g, s, step)
    ensures var next := Advanced(s.calls[step.id], Armed);
      && Savable(g, s.world, next.ctrl, View(next))
      && (strict ==> Standing(s.world.ledger, g.sites[next.ctrl].installation, next.epoch, next.index))
      && (next.index !in s.world.sent ==> CallSafe(g, SavedTo(s.world, next.ctrl, View(next), Promoted), next, strict))
  {
    assert CallOk(g, s.world, s.calls[step.id]) && CallSafe(g, s.world, s.calls[step.id], strict);
    ArmSavable(g, s, step);
  }

  lemma ArmStepSafe(g: Config, s: State, step: Step, strict: bool)
    requires Ordered(g, s) && Safe(g, s, strict) && step.Arm? && SaveReady(g, s, step)
    ensures Safe(g, ApplySave(g, s, step), strict)
  {
    var next := Advanced(s.calls[step.id], Armed);
    ArmedCallSafe(g, s, step, strict);
    ArmSafe(g, s, next.ctrl, View(next), step.how, strict);
    ContinueSafe(g, s, step.id, View(next), step.how, next, strict);
  }

  lemma RevokeSaveSafe(g: Config, s: State, step: Step, strict: bool)
    requires Ordered(g, s) && Safe(g, s, strict) && step.RevokeSave? && SaveReady(g, s, step)
    ensures Safe(g, ApplySave(g, s, step), strict)
  {
    var c := s.calls[step.id];
    assert CallOk(g, s.world, c) && WalOk(g, s.world, c.ctrl, s.world.wals[c.ctrl]);
    assert WalFresh(g, s.world, c.ctrl, s.world.wals[c.ctrl], strict);
    PlainStepSafe(g, s, step.id, RevokedFrame(c.frame), step.how, strict);
  }

  /** The other saves after which a call is over leave no cursor. */
  lemma LastStepSafe(g: Config, s: State, step: Step, strict: bool)
    requires Ordered(g, s) && Safe(g, s, strict) && (step.BeginSave? || step.ResumeSave?) && SaveReady(g, s, step)
    ensures Safe(g, ApplySave(g, s, step), strict)
  {
    var c := s.calls[step.id];
    assert CallOk(g, s.world, c) && WalOk(g, s.world, c.ctrl, s.world.wals[c.ctrl]);
    PlainStepSafe(g, s, step.id, if c.Begin? then c.first else c.frame.(pending := None), step.how, strict);
  }

  lemma ObserveSaveSafe(g: Config, s: State, step: Step, strict: bool)
    requires Ordered(g, s) && Safe(g, s, strict) && step.ObserveSave? && SaveReady(g, s, step)
    ensures Safe(g, ApplySave(g, s, step), strict)
  {
    ObserveSavable(g, s, step.id, step.how);
    PlainStepSafe(g, s, step.id, Settled(s.calls[step.id].frame), step.how, strict);
  }

  // ---- Every step ---------------------------------------------------------------------------------

  lemma SaveStepSafe(g: Config, s: State, step: Step, strict: bool)
    requires Ordered(g, s) && Safe(g, s, strict) && IsSave(step) && SaveReady(g, s, step)
    ensures Safe(g, ApplySave(g, s, step), strict)
  {
    if step.SavePrepared? { PrepareSafe(g, s, step, strict); }
    else if step.Arm? { ArmStepSafe(g, s, step, strict); }
    else if step.RevokeSave? { RevokeSaveSafe(g, s, step, strict); }
    else if step.ObserveSave? { ObserveSaveSafe(g, s, step, strict); }
    else { LastStepSafe(g, s, step, strict); }
  }

  /** A start that lands under a receipt of this very object comes from a store that is past it. */
  lemma LandedKeepsFresh(g: Config, s: State, r: Request, c: nat, e: nat, i: nat, strict: bool)
    requires Ordered(g, s) && Safe(g, s, strict) && SharedReady(g, s, StartLands(r))
    requires c in g.sites && c in s.world.wals && Claim(g, s.world, c, e) && Fresh(g, s.world, c, e, i, strict)
    requires s.world.wals[c].current.Some? ==> s.world.wals[c].current.value.index <= i
    ensures Fresh(g, s.world.(ledger := After(r)), c, e, i, strict)
  {
    var k := s.world;
    if i in k.sent && Receipt(k.ledger, i) && k.ledger.entry.value.epoch < e {
      NothingStartsOver(g, k, r, i);
      assert strict ==> RequestKept(g, k, r, c);
    }
  }

  lemma StartLandsSafe(g: Config, s: State, r: Request, strict: bool)
    requires Ordered(g, s) && Safe(g, s, strict) && SharedReady(g, s, StartLands(r))
    ensures Safe(g, ApplyShared(g, s, StartLands(r)), strict)
  {
    var k, t := s.world, s.world.(ledger := After(r));
    assert RequestOk(g, k, r);
    forall i | Receipt(k.ledger, i) ensures i in k.moved || t.ledger.entry == k.ledger.entry { NothingStartsOver(g, k, r, i); }
    forall c | c in k.wals ensures c in g.sites && WalFresh(g, t, c, k.wals[c], strict) {
      var w := k.wals[c];
      assert WalOk(g, k, c, w) && WalFresh(g, k, c, w, strict);
      if w.current.Some? && w.current.value.pending.Some? && !Invokes(w.current.value) {
        LandedKeepsFresh(g, s, r, c, w.current.value.pending.value.epoch, w.current.value.index, strict);
      }
      if w.staged.Whole? && w.staged.frame.pending.Some? && !Invokes(w.staged.frame) {
        LandedKeepsFresh(g, s, r, c, w.staged.frame.pending.value.epoch, w.staged.frame.index, strict);
      }
    }
    forall id | id in s.calls ensures CallFresh(g, t, s.calls[id], strict) {
      var c := s.calls[id];
      assert CallOk(g, k, c) && CallSafe(g, k, c, strict);
      if c.Advance? && Present(k, c) && Rank(c.phase) == 0 {
        LandedKeepsFresh(g, s, r, c.ctrl, c.epoch, c.index, strict);
      }
    }
    if strict {
      forall q, c | q in t.requests && c in t.wals ensures RequestKept(g, t, q, c) { assert RequestKept(g, k, q, c); }
    }
    SteadySafe(g, s, s.(world := t), strict);
  }

  lemma SameEntryWal(g: Config, k: World, u: World, c: nat, w: Wal, strict: bool)
    requires c in g.sites && WalFresh(g, k, c, w, strict) && Steady(k, u) && u.ledger.entry == k.ledger.entry
    ensures WalFresh(g, u, c, w, strict)
  {}

  lemma SameEntryKept(g: Config, k: World, u: World, r: Request, c: nat)
    requires RequestOk(g, k, r) && RequestKept(g, k, r, c) && u.wals == k.wals
    requires k.ledger.plan.Some? ==> u.ledger.plan == k.ledger.plan
    ensures RequestKept(g, u, r, c)
  {}

  /** The entry stays as it is. */
  lemma SameEntrySafe(g: Config, s: State, t: State, strict: bool)
    requires Ordered(g, s) && Safe(g, s, strict) && Steady(s.world, t.world) && t.calls == s.calls
    requires t.world.ledger.entry == s.world.ledger.entry && t.world.requests == s.world.requests
    requires s.world.ledger.plan.Some? ==> t.world.ledger.plan == s.world.ledger.plan
    ensures Safe(g, t, strict)
  {
    var k, u := s.world, t.world;
    forall c | c in k.wals ensures c in g.sites && WalFresh(g, u, c, k.wals[c], strict) {
      SameEntryWal(g, k, u, c, k.wals[c], strict);
    }
    forall id | id in s.calls ensures CallFresh(g, u, s.calls[id], strict) { assert CallSafe(g, k, s.calls[id], strict); }
    if strict {
      forall r, c | r in u.requests && c in u.wals ensures RequestKept(g, u, r, c) { SameEntryKept(g, k, u, r, c); }
    }
    SteadySafe(g, s, t, strict);
  }

  lemma CancelSafe(g: Config, s: State, step: Step, strict: bool)
    requires Told(g, strict) && Ordered(g, s) && Safe(g, s, strict) && step.CancelCas? && SharedReady(g, s, step)
    requires strict ==> Current(g, s, step, Rules(true, false))
    ensures Safe(g, ApplyShared(g, s, step), strict)
  {
    assert CallOk(g, s.world, s.calls[step.id]);
    if strict { CancelUnused(g, s, s.calls[step.id].ctrl); }
    CancelledSafe(g, s, strict);
    DropSafe(g, s.(world := Outcomes(s.world, NOT_DISPATCHED)), step.id, strict);
  }

  lemma FinishSafe(g: Config, s: State, step: Step, strict: bool)
    requires Ordered(g, s) && Safe(g, s, strict) && step.FinishCas? && SharedReady(g, s, step)
    ensures Safe(g, ApplyShared(g, s, step), strict)
  {
    CompleteSafe(g, s, strict);
    assert CallSafe(g, s.world, s.calls[step.id], strict);
    PutSafe(g, s.(world := Outcomes(s.world, COMPLETE)), step.id, Looked(s.calls[step.id]), strict);
  }

  lemma RecoverStepSafe(g: Config, s: State, step: Step, strict: bool)
    requires Ordered(g, s) && Safe(g, s, strict) && step.Recover? && SharedReady(g, s, step)
    ensures Safe(g, ApplyShared(g, s, step), strict)
  {
    RecoverSafe(g, s, s.calls[step.id].ctrl, strict);
    DropSafe(g, s.(world := Recovered(s.world, s.calls[step.id].ctrl)), step.id, strict);
  }

  /** The steps that leave the entry as it is. */
  lemma OtherSharedSafe(g: Config, s: State, step: Step, strict: bool)
    requires step.Takeover? || step.PlanCas? || step.Land? || step.SettleWitness?
    requires Ordered(g, s) && Safe(g, s, strict) && SharedReady(g, s, step)
    ensures Safe(g, ApplyShared(g, s, step), strict)
  {
    SameEntrySafe(g, s, ApplyShared(g, s, step), strict);
  }

  lemma SharedStepSafe(g: Config, s: State, step: Step, strict: bool)
    requires Told(g, strict) && Ordered(g, s) && Safe(g, s, strict) && IsShared(step) && SharedReady(g, s, step)
    requires strict ==> Current(g, s, step, Rules(true, false))
    ensures Safe(g, ApplyShared(g, s, step), strict)
  {
    if step.FinishCas? { FinishSafe(g, s, step, strict); }
    else if step.CancelCas? { CancelSafe(g, s, step, strict); }
    else if step.SettleCas? { CompleteSafe(g, s, strict); }
    else if step.Recover? { RecoverStepSafe(g, s, step, strict); }
    else if step.StartLands? { StartLandsSafe(g, s, step.request, strict); }
    else { OtherSharedSafe(g, s, step, strict); }
  }

  /** An object that its store may start has not been sent, or its receipt is older. */
  lemma CheckedFresh(g: Config, s: State, step: Step, strict: bool)
    requires Told(g, strict) && Ordered(g, s) && Safe(g, s, strict) && step.Check? && ReadReady(g, s, step)
    ensures Fresh(g, s.world, step.ctrl, s.world.epoch, Stored(s.world, step.ctrl).index, strict)
  {
    var k, i := s.world, Stored(s.world, step.ctrl).index;
    if i in k.sent {
      assert HasSend(k, i);
      var n :| 0 <= n < |k.sends| && k.sends[n].index == i;
      assert ShipmentOk(g, k, k.sends[n]) && Held(g, k, k.sends[n], strict);
    }
  }

  lemma ReadStepSafe(g: Config, s: State, step: Step, strict: bool)
    requires Told(g, strict) && Ordered(g, s) && Safe(g, s, strict) && IsRead(step) && ReadReady(g, s, step)
    ensures Safe(g, PutCall(s, step.id, Opened(g, s, step)), strict)
  {
    if step.Check? { CheckedFresh(g, s, step, strict); }
    PutSafe(g, s, step.id, Opened(g, s, step), strict);
  }

  lemma PhaseSafe(g: Config, s: State, id: nat, p: Phase, strict: bool)
    requires Safe(g, s, strict) && id in s.calls && s.calls[id].Advance?
    requires Rank(p) == Rank(s.calls[id].phase) + 1 && Rank(p) != 8
    requires p.Started? && strict ==>
      s.calls[id].ctrl in g.sites &&
      Standing(s.world.ledger, g.sites[s.calls[id].ctrl].installation, s.calls[id].epoch, s.calls[id].index)
    ensures Safe(g, PutCall(s, id, Phased(s.calls[id], p)), strict)
  {
    assert CallSafe(g, s.world, s.calls[id], strict);
    PutSafe(g, s, id, Phased(s.calls[id], p), strict);
  }

  lemma RequestedSafe(g: Config, s: State, r: Request, strict: bool)
    requires Ordered(g, s) && Safe(g, s, strict)
    requires strict ==> forall c | c in s.world.wals :: RequestKept(g, s.world, r, c)
    ensures Safe(g, s.(world := s.world.(requests := s.world.requests + {r})), strict)
  {
    var k := s.world;
    var t := k.(requests := k.requests + {r});
    forall c | c in k.wals ensures c in g.sites && WalFresh(g, t, c, k.wals[c], strict) {
      assert WalFresh(g, k, c, k.wals[c], strict);
    }
    forall id | id in s.calls ensures CallFresh(g, t, s.calls[id], strict) { assert CallSafe(g, k, s.calls[id], strict); }
    if strict {
      forall q, c | q in t.requests && c in t.wals ensures RequestKept(g, t, q, c) { assert RequestKept(g, k, q, c); }
    }
    SteadySafe(g, s, s.(world := t), strict);
  }

  lemma StartSafe(g: Config, s: State, step: Step, strict: bool)
    requires Told(g, strict) && Ordered(g, s) && Safe(g, s, strict) && step.IssueStart? && CallReady(g, s, step)
    ensures Safe(g, ApplyCall(g, s, step), strict)
  {
    var k := s.world;
    var r := Request(k.owner, k.epoch, s.calls[step.id].index, k.ledger);
    assert CallOk(g, k, s.calls[step.id]);
    if strict {
      forall c | c in k.wals ensures RequestKept(g, k, r, c) {}
    }
    RequestedSafe(g, s, r, strict);
    PhaseSafe(g, s.(world := k.(requests := k.requests + {r})), step.id, Requested(After(r)), strict);
  }

  lemma ConfirmedStands(g: Config, s: State, step: Step)
    requires Ordered(g, s) && IsPhase(step) && PhaseReady(g, s, step)
    ensures step.id in s.calls && s.calls[step.id].Advance?
    ensures var c := s.calls[step.id];
      PhaseOf(step).Started? ==> c.ctrl in g.sites && Standing(s.world.ledger, g.sites[c.ctrl].installation, c.epoch, c.index)
  {
    if step.StartConfirmed? { assert CallOk(g, s.world, s.calls[step.id]); }
  }

  lemma PhaseStepSafe(g: Config, s: State, step: Step, strict: bool)
    requires Ordered(g, s) && Safe(g, s, strict) && IsPhase(step) && PhaseReady(g, s, step)
    ensures Safe(g, PutCall(s, step.id, Phased(s.calls[step.id], PhaseOf(step))), strict)
  {
    PhaseFollows(g, s, step);
    ConfirmedStands(g, s, step);
    PhaseSafe(g, s, step.id, PhaseOf(step), strict);
  }

  lemma LookStepSafe(g: Config, s: State, step: Step, strict: bool)
    requires Safe(g, s, strict) && (step.Look? || step.ObserveAfter?) && CallReady(g, s, step)
    ensures Safe(g, ApplyCall(g, s, step), strict)
  {
    assert CallSafe(g, s.world, s.calls[step.id], strict);
    PutSafe(g, s, step.id, Looked(s.calls[step.id]), strict);
  }

  lemma CallStepSafe(g: Config, s: State, step: Step, strict: bool)
    requires Told(g, strict) && Ordered(g, s) && Safe(g, s, strict) && IsCall(step) && CallReady(g, s, step)
    ensures Safe(g, ApplyCall(g, s, step), strict)
  {
    if step.IssueStart? { StartSafe(g, s, step, strict); }
    else if step.Send? { SendSafe(g, s, step, strict); }
    else if step.Stop? { DropSafe(g, s, step.id, strict); }
    else { LookStepSafe(g, s, step, strict); }
  }

  lemma StepSafe(g: Config, s: State, step: Step, strict: bool)
    requires Told(g, strict) && Ordered(g, s) && Safe(g, s, strict) && Enabled(g, s, step)
    requires strict ==> Current(g, s, step, Rules(true, false))
    ensures Safe(g, Apply(g, s, step), strict)
  {
    if IsSave(step) {
      SaveStepSafe(g, s, step, strict);
    } else if IsShared(step) {
      SharedStepSafe(g, s, step, strict);
    } else if IsPhase(step) {
      PhaseStepSafe(g, s, step, strict);
    } else if IsRead(step) {
      ReadStepSafe(g, s, step, strict);
    } else {
      CallStepSafe(g, s, step, strict);
    }
  }
}
