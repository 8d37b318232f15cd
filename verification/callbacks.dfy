/**
 * Callbacks fire at most once. A callback handed to the painter is armed
 * while its command is queued or its update pending; every operation either
 * keeps it armed or fires it once and drops it, so the callbacks armed before
 * plus those handed in equal the callbacks armed after plus those fired.
 */
module Callbacks {
  import opened Text
  import opened Records
  import opened Versions
  import opened Commands
  import opened Push
  import opened Protocol

  /** The handle a callback adds to the armed pool: none for `nullptr`. */
  function Arms(cb: Callback): multiset<nat> {
    if cb.Fn? then multiset{cb.handle} else multiset{}
  }

  /** Handles of the callbacks still held by queued commands. */
  function ArmedCmds(cmds: seq<Command>): multiset<nat>
    decreases |cmds|
  {
    if cmds == [] then multiset{} else ArmedCmds(cmds[..|cmds| - 1]) + Arms(cmds[|cmds| - 1].callback)
  }

  /** Handles of the callbacks held by pending updates. */
  function ArmedUpdates(ups: seq<Update>): multiset<nat>
    decreases |ups|
  {
    if ups == [] then multiset{} else ArmedUpdates(ups[..|ups| - 1]) + multiset{ups[|ups| - 1].handle}
  }

  /** Handles of the callbacks invoked in `f`, each as often as it was invoked. */
  function FiredHandles(f: seq<Fired>): multiset<nat>
    decreases |f|
  {
    if f == [] then multiset{} else FiredHandles(f[..|f| - 1]) + multiset{f[|f| - 1].handle}
  }

  /** Everything the painter may still call back. */
  function Armed(s: Painter): multiset<nat> {
    ArmedCmds(s.cmds) + ArmedUpdates(s.updates)
  }

  /**
   * From `s` to `t`, with the callbacks `added` handed in: the firing log only
   * grows, and what was armed or handed in is now armed or has fired, once.
   */
  predicate Conserves(s: Painter, t: Painter, added: multiset<nat>) {
    && |s.fired| <= |t.fired| && t.fired[..|s.fired|] == s.fired
    && Armed(s) + added == Armed(t) + FiredHandles(t.fired[|s.fired|..])
  }

  lemma {:induction false} FiredHandlesAppend(a: seq<Fired>, b: seq<Fired>)
    ensures FiredHandles(a + b) == FiredHandles(a) + FiredHandles(b)
    decreases |b|
  {
    if b != [] {
      var b' := b[..|b| - 1];
      FiredHandlesAppend(a, b');
      assert (a + b)[..|a + b| - 1] == a + b' && (a + b)[|a + b| - 1] == b[|b| - 1];
      var last := multiset{b[|b| - 1].handle};
      assert FiredHandles(a + b) == FiredHandles(a + b') + last;
      assert FiredHandles(b) == FiredHandles(b') + last;
    } else {
      assert a + b == a;
    }
  }

  /** What `CancelCommands` fires is exactly what the removed commands held. */
  lemma {:induction false} CancelArmed(cmds: seq<Command>, connid: nat)
    ensures var r := CancelCmds(cmds, connid);
      ArmedCmds(cmds) == ArmedCmds(r.kept) + FiredHandles(r.fired)
    decreases |cmds|
  {
    if cmds != [] {
      var n := |cmds| - 1;
      var init := cmds[..n];
      CancelArmed(init, connid);
      var c := cmds[n];
      var prev := CancelCmds(init, connid);
      CancelCmdsStep(cmds, n, connid);
      assert cmds[..n + 1] == cmds;
      var r := CancelCmds(cmds, connid);
      assert ArmedCmds(cmds) == ArmedCmds(init) + Arms(c.callback);
      if Cancels(connid, c) {
        var f := CallBack(c, false).1;
        FiredHandlesAppend(prev.fired, f);
        assert FiredHandles(f) == Arms(c.callback);
        assert r.kept == prev.kept && r.fired == prev.fired + f;
        MovedToFired(ArmedCmds(init), ArmedCmds(prev.kept), FiredHandles(prev.fired), Arms(c.callback));
      } else {
        ArmedCmdsSnoc(prev.kept, c);
        assert r.kept == prev.kept + [c] && r.fired == prev.fired;
        StayedArmed(ArmedCmds(init), ArmedCmds(prev.kept), FiredHandles(prev.fired), Arms(c.callback));
      }
    }
  }

  /** Bookkeeping for a handle that fires: it joins the fired side. */
  lemma MovedToFired(a: multiset<nat>, k: multiset<nat>, f: multiset<nat>, x: multiset<nat>)
    requires a == k + f
    ensures a + x == k + (f + x)
  {
  }

  /** Bookkeeping for a handle that stays armed: it joins the armed side. */
  lemma StayedArmed(a: multiset<nat>, k: multiset<nat>, f: multiset<nat>, x: multiset<nat>)
    requires a == k + f
    ensures a + x == (k + x) + f
  {
  }

  /** Appending a command arms its callback. */
  lemma ArmedCmdsSnoc(a: seq<Command>, c: Command)
    ensures ArmedCmds(a + [c]) == ArmedCmds(a) + Arms(c.callback)
  {
    assert (a + [c])[..|a|] == a;
  }

  /** What the resolution fires is exactly what the resolved updates held. */
  lemma {:induction false} ResolveArmed(ups: seq<Update>, d: nat)
    ensures var r := Resolve(ups, d);
      ArmedUpdates(ups) == ArmedUpdates(r.pending) + FiredHandles(r.fired)
    decreases |ups|
  {
    if ups != [] {
      var init := ups[..|ups| - 1];
      ResolveArmed(init, d);
      var u := ups[|ups| - 1];
      var prev := Resolve(init, d);
      var r := Resolve(ups, d);
      var x := multiset{u.handle};
      assert ArmedUpdates(ups) == ArmedUpdates(init) + x;
      if u.version <= d {
        assert r.fired == prev.fired + [Fired(u.handle, true)];
        FiredHandlesAppend(prev.fired, [Fired(u.handle, true)]);
        assert FiredHandles([Fired(u.handle, true)]) == x;
        MovedToFired(ArmedUpdates(init), ArmedUpdates(prev.pending), FiredHandles(prev.fired), x);
      } else {
        assert r.pending == prev.pending + [u];
        assert r.pending[..|r.pending| - 1] == prev.pending;
        StayedArmed(ArmedUpdates(init), ArmedUpdates(prev.pending), FiredHandles(prev.fired), x);
      }
    }
  }

  /** `CancelUpdates` fires every pending update once. */
  lemma {:induction false} FailAllArmed(ups: seq<Update>)
    ensures FiredHandles(FailAll(ups)) == ArmedUpdates(ups)
    decreases |ups|
  {
    if ups != [] {
      FailAllArmed(ups[..|ups| - 1]);
      var f := FailAll(ups);
      assert f[..|f| - 1] == FailAll(ups[..|ups| - 1]);
    }
  }

  /** Queues that hold the same callbacks position by position arm the same handles. */
  lemma {:induction false} SameCallbacksArmed(a: seq<Command>, b: seq<Command>)
    requires |a| == |b|
    requires forall i :: 0 <= i < |a| ==> a[i].callback == b[i].callback
    ensures ArmedCmds(a) == ArmedCmds(b)
    decreases |a|
  {
    if a != [] {
      SameCallbacksArmed(a[..|a| - 1], b[..|b| - 1]);
    }
  }

  /** The front command's callback and those behind it make up the queue's. */
  lemma {:induction false} FrontArmed(cmds: seq<Command>)
    requires cmds != []
    ensures ArmedCmds(cmds) == Arms(cmds[0].callback) + ArmedCmds(cmds[1..])
    decreases |cmds|
  {
    if |cmds| > 1 {
      var init := cmds[..|cmds| - 1];
      FrontArmed(init);
      assert init[1..] == cmds[1..][..|cmds[1..]| - 1];
    } else {
      assert cmds[..0] == [];
    }
  }

  /** Multiset bookkeeping for two parts of the state: each part's balance gives the whole's. */
  lemma Split(c: multiset<nat>, u: multiset<nat>, addc: multiset<nat>, addu: multiset<nat>,
              c': multiset<nat>, u': multiset<nat>, fc: multiset<nat>, fu: multiset<nat>)
    requires c + addc == c' + fc && u + addu == u' + fu
    ensures (c + u) + (addc + addu) == (c' + u') + (fc + fu)
  {
    forall x ensures ((c + u) + (addc + addu))[x] == ((c' + u') + (fc + fu))[x] {
      assert (c + addc)[x] == (c' + fc)[x];
      assert (u + addu)[x] == (u' + fu)[x];
    }
  }

  /** Multiset bookkeeping for two steps in a row. */
  lemma Chain(a: multiset<nat>, x: multiset<nat>, b: multiset<nat>, f: multiset<nat>,
              y: multiset<nat>, c: multiset<nat>, g: multiset<nat>)
    requires a + x == b + f && b + y == c + g
    ensures a + (x + y) == c + (f + g)
  {
    forall h ensures (a + (x + y))[h] == (c + (f + g))[h] {
      assert (a + x)[h] == (b + f)[h];
      assert (b + y)[h] == (c + g)[h];
    }
  }

  /** A pass leaves every command callback where it was. */
  lemma PassCmdsArmed(s: Painter, w: World)
    ensures ArmedCmds(Pass(s, w).cmds) == ArmedCmds(s.cmds)
  {
    PassFields(s, w);
    PushFront(s.conns, s.cmds, s.outbox, s.snapVersion, s.snapshot, w);
    var t := Pass(s, w);
    forall i | 0 <= i < |s.cmds| ensures s.cmds[i].callback == t.cmds[i].callback {
      if i > 0 { assert t.cmds[i] == t.cmds[1..][i - 1]; }
    }
    SameCallbacksArmed(s.cmds, t.cmds);
  }

  /** What a pass fires is exactly what the updates it resolves or cancels held. */
  lemma PassUpdatesArmed(s: Painter, w: World)
    ensures var t := Pass(s, w);
      && |s.fired| <= |t.fired| && t.fired[..|s.fired|] == s.fired
      && ArmedUpdates(s.updates) + multiset{} == ArmedUpdates(t.updates) + FiredHandles(t.fired[|s.fired|..])
  {
    PassFields(s, w);
    PassDelivered(s, w);
    var t := Pass(s, w);
    if s.conns == [] && s.snapDelivered != 0 {
      FailAllArmed(s.updates);
      assert t.fired[|s.fired|..] == FailAll(s.updates);
    } else if s.snapDelivered != t.snapDelivered {
      var r := Resolve(s.updates, t.snapDelivered);
      ResolveArmed(s.updates, t.snapDelivered);
      assert t.fired[|s.fired|..] == r.fired;
    } else {
      assert t.fired[|s.fired|..] == [];
    }
  }

  /** The balance of the queue and the balance of the updates make up the balance of the state. */
  lemma ConservesByParts(s: Painter, t: Painter, addc: multiset<nat>, addu: multiset<nat>,
                         fc: multiset<nat>, fu: multiset<nat>)
    requires |s.fired| <= |t.fired| && t.fired[..|s.fired|] == s.fired
    requires ArmedCmds(s.cmds) + addc == ArmedCmds(t.cmds) + fc
    requires ArmedUpdates(s.updates) + addu == ArmedUpdates(t.updates) + fu
    requires FiredHandles(t.fired[|s.fired|..]) == fc + fu
    ensures Conserves(s, t, addc + addu)
  {
    Split(ArmedCmds(s.cmds), ArmedUpdates(s.updates), addc, addu, ArmedCmds(t.cmds), ArmedUpdates(t.updates), fc, fu);
  }

  /** A pass never fires a command callback and fires each resolved or cancelled update once. */
  lemma PassConserves(s: Painter, w: World)
    ensures Conserves(s, Pass(s, w), multiset{})
  {
    PassCmdsArmed(s, w);
    PassUpdatesArmed(s, w);
    var t := Pass(s, w);
    var f := FiredHandles(t.fired[|s.fired|..]);
    assert ArmedCmds(s.cmds) + multiset{} == ArmedCmds(t.cmds) + multiset{};
    assert multiset{} + f == f;
    ConservesByParts(s, t, multiset{}, multiset{}, multiset{}, f);
  }

  /** `CancelCommands` moves each selected callback from armed to fired. */
  lemma CancelCommandsConserves(s: Painter, connid: nat)
    ensures Conserves(s, CancelCommands(s, connid), multiset{})
  {
    CancelArmed(s.cmds, connid);
    var t := CancelCommands(s, connid);
    var r := CancelCmds(s.cmds, connid);
    assert t.fired[|s.fired|..] == r.fired;
    ConservesByParts(s, t, multiset{}, multiset{}, FiredHandles(r.fired), multiset{});
  }

  /** A reply fires the front command's callback, if it has one, and nothing else. */
  lemma HandleReplyConserves(s: Painter, body: string)
    ensures Conserves(s, HandleReply(s, body), multiset{})
  {
    ReplyValidation(s, body);
    var t := HandleReply(s, body);
    if ReplyAccepted(s.cmds, body) {
      FrontArmed(s.cmds);
      var f := Fire(s.cmds[0].callback, ReplyResult(s.cmds[0].name, SplitReply(body).value.1));
      assert t.fired[|s.fired|..] == f;
      assert FiredHandles(f) == Arms(s.cmds[0].callback);
      ConservesByParts(s, t, multiset{}, multiset{}, FiredHandles(f), multiset{});
    } else {
      assert t.fired[|s.fired|..] == [];
    }
  }

  lemma ConservesTrans(s: Painter, t: Painter, u: Painter, a: multiset<nat>, b: multiset<nat>)
    requires Conserves(s, t, a) && Conserves(t, u, b)
    ensures Conserves(s, u, a + b)
  {
    var f := t.fired[|s.fired|..];
    var g := u.fired[|t.fired|..];
    LogExtends(s.fired, t.fired, u.fired);
    FiredHandlesAppend(f, g);
    Chain(Armed(s), a, Armed(t), FiredHandles(f), b, Armed(u), FiredHandles(g));
  }

  /** Two extensions of a log in a row extend it by both parts, in order. */
  lemma LogExtends(x: seq<Fired>, y: seq<Fired>, z: seq<Fired>)
    requires |x| <= |y| <= |z| && y[..|x|] == x && z[..|y|] == y
    ensures z[..|x|] == x && z[|x|..] == y[|x|..] + z[|y|..]
  {
    assert z[..|x|] == z[..|y|][..|x|];
  }

  /** A step that touches neither the queue, the updates nor the firing log conserves trivially. */
  lemma QuietConserves(s: Painter, t: Painter)
    requires t.cmds == s.cmds && t.updates == s.updates && t.fired == s.fired
    ensures Conserves(s, t, multiset{})
  {
    assert t.fired[|s.fired|..] == [];
  }

  /** What a message does before its pass fires only callbacks that were armed, each once. */
  lemma HandleConserves(s: Painter, k: nat, connid: nat, m: Inbound, parse: string -> nat, w: World)
    requires k < |s.conns|
    ensures Conserves(s, Handle(s, k, connid, m, parse, w), multiset{})
  {
    var s1 := Handle(s, k, connid, m, parse, w);
    match m
    case ConnClosed =>
      var s0 := s.(conns := s.conns[..k] + s.conns[k + 1..]);
      QuietConserves(s, s0);
      CancelCommandsConserves(s0, connid);
      ConservesTrans(s, s0, s1, multiset{}, multiset{});
    case Reply(body) =>
      HandleReplyConserves(s, body);
    case _ =>
      QuietConserves(s, s1);
  }

  /** `ProcessData` hands in nothing, so it can only fire callbacks that were armed, each once. */
  lemma ProcessDataConserves(s: Painter, connid: nat, arg: string, parse: string -> nat, w: World)
    ensures Conserves(s, ProcessData(s, connid, arg, parse, w), multiset{})
  {
    var m := Decode(arg);
    var t := ProcessData(s, connid, arg, parse, w);
    if m.ConnReady? {
      var s0 := s.(conns := s.conns + [NewConn(connid)], hadConn := true);
      QuietConserves(s, s0);
      PassConserves(s0, w);
      ConservesTrans(s, s0, t, multiset{}, multiset{});
    } else {
      var k := FindConn(s.conns, connid);
      if k == |s.conns| || m.Quit? {
        QuietConserves(s, t);
      } else {
        var s1 := Handle(s, k, connid, m, parse, w);
        HandleConserves(s, k, connid, m, parse, w);
        PassConserves(s1, w);
        assert t == Pass(s1, w);
        ConservesTrans(s, s1, t, multiset{}, multiset{});
      }
    }
  }

  /** A callback fired on the spot or stored with the update: `CanvasUpdated` adds its callback once. */
  lemma CanvasUpdatedConserves(s: Painter, ver: nat, cb: Callback, snapshot: string, shown: bool, w: World)
    ensures Conserves(s, CanvasUpdated(s, ver, cb, snapshot, shown, w), Arms(cb))
  {
    var t := CanvasUpdated(s, ver, cb, snapshot, shown, w);
    if AlreadyDelivered(s, ver) {
      FiredOnTheSpot(s, t, cb, true);
    } else if !shown {
      FiredOnTheSpot(s, t, cb, false);
    } else {
      var s1 := TakeSnapshot(s, ver, snapshot);
      QuietConserves(s, s1);
      PassConserves(s1, w);
      var s2 := Pass(s1, w);
      ConservesTrans(s, s1, s2, multiset{}, multiset{});
      StoreConserves(s2, ver, cb);
      ConservesTrans(s, s2, t, multiset{}, Arms(cb));
      assert multiset{} + Arms(cb) == Arms(cb);
    }
  }

  /** Storing the callback with a pending update hands it in without firing anything. */
  lemma StoreConserves(s: Painter, ver: nat, cb: Callback)
    ensures Conserves(s, if cb.Fn? then s.(updates := s.updates + [Update(ver, cb.handle)]) else s, Arms(cb))
  {
    var t := if cb.Fn? then s.(updates := s.updates + [Update(ver, cb.handle)]) else s;
    assert t.fired[|s.fired|..] == [];
    if cb.Fn? {
      assert t.updates[..|t.updates| - 1] == s.updates;
      ConservesByParts(s, t, multiset{}, multiset{cb.handle}, multiset{}, multiset{});
      assert multiset{} + multiset{cb.handle} == Arms(cb);
    } else {
      ConservesByParts(s, t, multiset{}, multiset{}, multiset{}, multiset{});
      assert multiset{} + multiset{} == Arms(cb);
    }
  }

  /** A callback called at once and not stored is handed in and fired in the same step. */
  lemma FiredOnTheSpot(s: Painter, t: Painter, cb: Callback, ok: bool)
    requires t.cmds == s.cmds && t.updates == s.updates && t.fired == s.fired + Fire(cb, ok)
    ensures Conserves(s, t, Arms(cb))
  {
    assert t.fired[|s.fired|..] == Fire(cb, ok);
    assert FiredHandles(Fire(cb, ok)) == Arms(cb);
  }

  /**
   * `DoWhenReady` adds its callback once, except for `JSON`, whose callback
   * is dropped without ever being called.
   */
  lemma DoWhenReadyConserves(s: Painter, name: string, arg: string, cb: Callback, batch: nat, w: World)
    ensures Conserves(s, DoWhenReady(s, name, arg, cb, batch, w), if name == "JSON" then multiset{} else Arms(cb))
  {
    var t := DoWhenReady(s, name, arg, cb, batch, w);
    if name == "JSON" {
      QuietConserves(s, t);
    } else if batch == 0 {
      FiredOnTheSpot(s, t, cb, false);
    } else {
      var (cmds, cnt) := Submit(s.cmds, s.cmdsCnt, name, arg, cb, batch);
      var s1 := s.(cmds := cmds, cmdsCnt := cnt);
      assert cmds[..|cmds| - 1] == s.cmds;
      assert s1.fired[|s.fired|..] == [];
      ConservesByParts(s, s1, Arms(cb), multiset{}, multiset{}, multiset{});
      PassConserves(s1, w);
      ConservesTrans(s, s1, t, Arms(cb) + multiset{}, multiset{});
      assert Arms(cb) + multiset{} + multiset{} == Arms(cb);
    }
  }

  /** The destructor fires every armed callback once and leaves none armed. */
  lemma CloseConserves(s: Painter)
    ensures Conserves(s, Close(s), multiset{})
    ensures Armed(Close(s)) == multiset{}
  {
    CancelAllEmpties(s.cmds);
    var s1 := CancelCommands(s, 0);
    CancelCommandsConserves(s, 0);
    FailAllArmed(s1.updates);
    var t := Close(s);
    assert t.fired[|s1.fired|..] == FailAll(s1.updates);
    ConservesTrans(s, s1, t, multiset{}, multiset{});
  }

  /**
   * Over any stretch of operations that conserves, a handle fires at most as
   * often as it was armed at the start or handed in since: a callback handed
   * in once fires at most once.
   */
  lemma AtMostOnce(s: Painter, t: Painter, added: multiset<nat>, h: nat)
    requires Conserves(s, t, added)
    ensures FiredHandles(t.fired[|s.fired|..])[h] <= Armed(s)[h] + added[h]
  {
    var f := FiredHandles(t.fired[|s.fired|..]);
    assert (Armed(s) + added)[h] == (Armed(t) + f)[h];
  }
}
