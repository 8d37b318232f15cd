/**
 * The invariant the painter's state keeps between calls: one command in
 * flight at the front, unfinished commands with counter-issued ids in order,
 * a delivered version in step with the connections, pending updates still
 * waiting for a newer version, and retired commands that can no longer fire.
 */
module Invariants {
  import opened Text
  import opened Records
  import opened Versions
  import opened Commands
  import opened Push
  import opened Protocol

  /** A retired command is finished and its callback has been used up. */
  predicate RetiredDone(r: seq<Command>) {
    forall i :: 0 <= i < |r| ==> r[i].ready && r[i].callback == Null
  }

  /** The parts of the invariant about the queue, the connections seen and the retired commands. */
  predicate QueueInv(s: Painter) {
    && SingleFlight(s.cmds) && Unfinished(s.cmds) && IdsIssued(s.cmds, s.cmdsCnt)
    && (s.conns != [] ==> s.hadConn)
    && RetiredDone(s.retired)
  }

  /** Every pending update waits for a version not yet delivered (0 waits for any change). */
  predicate PendingAhead(s: Painter) {
    forall i :: 0 <= i < |s.updates| ==> s.updates[i].version == 0 || s.updates[i].version > s.snapDelivered
  }

  predicate Inv(s: Painter) {
    && QueueInv(s)
    && PendingAhead(s)
    && s.snapDelivered == MaxDelivered(s.conns)
  }

  /** A fresh painter satisfies the invariant. */
  lemma InitialInv()
    ensures Inv(Initial())
  {
  }

  /** Changing only the running flag and binding of commands keeps them unfinished with their ids. */
  lemma SameIdsKeepQueue(a: seq<Command>, b: seq<Command>, cnt: nat)
    requires |a| == |b| && Unfinished(a) && IdsIssued(a, cnt)
    requires forall i :: 0 <= i < |a| ==> b[i].id == a[i].id && b[i].ready == a[i].ready && b[i].result == a[i].result
    ensures Unfinished(b) && IdsIssued(b, cnt)
  {
  }

  /** Taking the front off the queue keeps the rest of the queue invariant. */
  lemma DropFrontKeepsQueue(cmds: seq<Command>, cnt: nat)
    requires cmds != [] && SingleFlight(cmds) && Unfinished(cmds) && IdsIssued(cmds, cnt)
    ensures SingleFlight(cmds[1..]) && Unfinished(cmds[1..]) && IdsIssued(cmds[1..], cnt)
  {
    var t := cmds[1..];
    forall i, j | 0 <= i < j < |t|
      ensures IsDecimal(t[i].id) && IsDecimal(t[j].id) && ParseNat(t[i].id) < ParseNat(t[j].id)
    {
      assert t[i] == cmds[i + 1] && t[j] == cmds[j + 1];
    }
  }

  /** A pass keeps the queue invariant: it only sets the front running and binds it. */
  lemma PassKeepsQueue(s: Painter, w: World)
    requires QueueInv(s)
    ensures QueueInv(Pass(s, w)) && Pass(s, w).retired == s.retired
  {
    PassFields(s, w);
    PassCommands(s, w, 0);
    PushFront(s.conns, s.cmds, s.outbox, s.snapVersion, s.snapshot, w);
    var t := Pass(s, w);
    forall i | 0 <= i < |s.cmds|
      ensures t.cmds[i].id == s.cmds[i].id && t.cmds[i].ready == s.cmds[i].ready && t.cmds[i].result == s.cmds[i].result
    {
      if i > 0 { assert t.cmds[i] == t.cmds[1..][i - 1]; }
    }
    SameIdsKeepQueue(s.cmds, t.cmds, s.cmdsCnt);
  }

  /**
   * A pass re-establishes the whole invariant: whatever happened to the
   * connections before it, the delivered version is recomputed from them and
   * pending updates it covers are gone.
   */
  lemma PassInv(s: Painter, w: World)
    requires QueueInv(s) && PendingAhead(s)
    ensures Inv(Pass(s, w)) && Pass(s, w).retired == s.retired
  {
    PassKeepsQueue(s, w);
    PassDelivered(s, w);
    PassUpdates(s, w);
    var t := Pass(s, w);
    if s.conns != [] && t.snapDelivered != s.snapDelivered {
      forall i | 0 <= i < |t.updates| ensures t.updates[i].version > t.snapDelivered {
        assert t.updates[i] in t.updates;
      }
    }
  }

  /** Handling a reply keeps the queue invariant; the front that leaves is retired used up. */
  lemma ReplyKeepsQueue(s: Painter, body: string)
    requires QueueInv(s)
    ensures var t := HandleReply(s, body);
      QueueInv(t) && t.updates == s.updates && t.snapDelivered == s.snapDelivered
  {
    ReplyValidation(s, body);
    if ReplyAccepted(s.cmds, body) {
      DropFrontKeepsQueue(s.cmds, s.cmdsCnt);
    }
  }

  /**
   * A `REPLY:` body with no `:` (lines 497-500) leaves the id empty. On the
   * invariant a running front has a non-empty counter id, so the comparison
   * of line 506 fails and only the mismatch is logged: `separ + 1` (line 509)
   * is never evaluated with a null `separ`.
   */
  lemma NoSeparatorMismatch(s: Painter, body: string)
    requires Inv(s) && SplitReply(body).None?
    requires s.cmds != [] && s.cmds[0].running
    ensures s.cmds[0].id != ""
    ensures HandleReply(s, body) == s.(effects := s.effects + [Logged(ReplyIdMismatch)])
  {
    assert IsDecimal(s.cmds[0].id) && ParseNat(s.cmds[0].id) >= 1;
  }

  /** Cancelling keeps the queue invariant, and what it removes is retired used up. */
  lemma CancelKeepsQueue(s: Painter, connid: nat)
    requires QueueInv(s)
    ensures var t := CancelCommands(s, connid);
      QueueInv(t) && t.updates == s.updates && t.snapDelivered == s.snapDelivered && t.conns == s.conns
  {
    CancelKeepsSingleFlight(s.cmds, connid);
    CancelKeepsOrder(s.cmds, connid);
    var r := CancelCmds(s.cmds, connid);
    CancelSelects(s.cmds, connid);
    SubsequenceKeepsIds(r.kept, s.cmds, s.cmdsCnt);
    var t := CancelCommands(s, connid);
    forall i | 0 <= i < |t.retired| ensures t.retired[i].ready && t.retired[i].callback == Null {
      if i >= |s.retired| { assert t.retired[i] == r.removed[i - |s.retired|]; }
    }
  }

  /** What a message does before its pass keeps the invariant's parts the pass needs. */
  lemma HandleKeepsQueue(s: Painter, k: nat, connid: nat, m: Inbound, parse: string -> nat, w: World)
    requires k < |s.conns| && QueueInv(s) && PendingAhead(s)
    ensures var t := Handle(s, k, connid, m, parse, w);
      QueueInv(t) && PendingAhead(t)
  {
    match m
    case ConnClosed =>
      CancelKeepsQueue(s.(conns := s.conns[..k] + s.conns[k + 1..]), connid);
    case Reply(body) =>
      ReplyKeepsQueue(s, body);
    case _ =>
  }

  /** `ProcessData` keeps the invariant, whatever the viewer sends. */
  lemma ProcessDataInv(s: Painter, connid: nat, arg: string, parse: string -> nat, w: World)
    requires Inv(s)
    ensures Inv(ProcessData(s, connid, arg, parse, w))
  {
    var m := Decode(arg);
    if m.ConnReady? {
      PassInv(s.(conns := s.conns + [NewConn(connid)], hadConn := true), w);
    } else {
      var k := FindConn(s.conns, connid);
      if k < |s.conns| && !m.Quit? {
        HandleKeepsQueue(s, k, connid, m, parse, w);
        PassInv(Handle(s, k, connid, m, parse, w), w);
      }
    }
  }

  /** On the invariant a pass leaves the delivered version where it was. */
  lemma PassKeepsDelivered(s: Painter, w: World)
    requires Inv(s)
    ensures Pass(s, w).snapDelivered == s.snapDelivered
  {
    PassDelivered(s, w);
  }

  /**
   * `IsCanvasModified` (line 155) measured against the viewers: after any
   * push pass, and on the invariant at every moment, the canvas counts as
   * modified for an id exactly when that id is not the largest version any
   * viewer has confirmed.
   */
  lemma CanvasModifiedAgainstViewers(s: Painter, w: World, id: nat)
    ensures IsCanvasModified(Pass(s, w), id) <==> id != MaxDelivered(s.conns)
    ensures Inv(s) ==> (IsCanvasModified(s, id) <==> id != MaxDelivered(s.conns))
  {
    PassDelivered(s, w);
  }

  /** `CanvasUpdated` keeps the invariant; the callback it stores waits for a newer version. */
  lemma CanvasUpdatedInv(s: Painter, ver: nat, cb: Callback, snapshot: string, shown: bool, w: World)
    requires Inv(s)
    ensures Inv(CanvasUpdated(s, ver, cb, snapshot, shown, w))
  {
    if !AlreadyDelivered(s, ver) && shown {
      var s1 := TakeSnapshot(s, ver, snapshot);
      PassInv(s1, w);
      PassKeepsDelivered(s1, w);
    }
  }

  /**
   * On the invariant the fast path answers `true` only for a version the wait
   * predicate would already report delivered.
   */
  lemma FastPathDelivered(s: Painter, ver: nat)
    requires Inv(s) && AlreadyDelivered(s, ver)
    ensures CheckDeliveredVersion(s, ver) == 1
  {
  }

  /**
   * A shown update that is not already delivered keeps its callback pending,
   * behind the ones queued before, until a version at least `ver` is
   * delivered (for `ver` 0, until the delivered version next changes); the
   * snapshot pushed is the new one.
   */
  lemma CanvasUpdatedQueues(s: Painter, ver: nat, h: nat, snapshot: string, w: World)
    requires Inv(s) && !AlreadyDelivered(s, ver)
    ensures var t := CanvasUpdated(s, ver, Fn(h), snapshot, true, w);
      && t.snapVersion == ver && t.snapshot == snapshot
      && t.updates == s.updates + [Update(ver, h)]
      && t.fired == s.fired
      && t.snapDelivered == s.snapDelivered
      && (ver == 0 || CheckDeliveredVersion(t, ver) != 1)
  {
    var s1 := TakeSnapshot(s, ver, snapshot);
    PassKeepsDelivered(s1, w);
    PassUpdates(s1, w);
  }

  /** `DoWhenReady` keeps the invariant. */
  lemma DoWhenReadyInv(s: Painter, name: string, arg: string, cb: Callback, batch: nat, w: World)
    requires Inv(s)
    ensures Inv(DoWhenReady(s, name, arg, cb, batch, w))
  {
    if name != "JSON" && batch != 0 {
      SubmitKeepsQueue(s.cmds, s.cmdsCnt, name, arg, cb, batch);
      var (cmds, cnt) := Submit(s.cmds, s.cmdsCnt, name, arg, cb, batch);
      PassInv(s.(cmds := cmds, cmdsCnt := cnt), w);
    }
  }

  /**
   * A queued action gets a fresh id, different from every command still
   * queued, and is appended behind them; when it can run it is dispatched to
   * the batch connection only.
   */
  lemma DoWhenReadyQueues(s: Painter, name: string, arg: string, cb: Callback, batch: nat, w: World)
    requires Inv(s) && name != "JSON" && batch != 0
    ensures var t := DoWhenReady(s, name, arg, cb, batch, w);
      && t.cmdsCnt == s.cmdsCnt + 1
      && |t.cmds| == |s.cmds| + 1
      && t.cmds[|s.cmds|].id == NatToString(t.cmdsCnt)
      && (forall i :: 0 <= i < |s.cmds| ==> s.cmds[i].id != t.cmds[|s.cmds|].id)
      && t.cmds[|s.cmds|].name == name && t.cmds[|s.cmds|].arg == arg && t.cmds[|s.cmds|].callback == cb
      && t.cmds[|s.cmds|].connId == batch
  {
    SubmitKeepsQueue(s.cmds, s.cmdsCnt, name, arg, cb, batch);
    var (cmds, cnt) := Submit(s.cmds, s.cmdsCnt, name, arg, cb, batch);
    var s1 := s.(cmds := cmds, cmdsCnt := cnt);
    PassKeepsCommand(s1, w, |s.cmds|);
  }

  /**
   * A pass keeps every queued command's identity, request and callback, and
   * the binding of a command already bound.
   */
  lemma PassKeepsCommand(s: Painter, w: World, j: nat)
    requires j < |s.cmds|
    ensures var c := s.cmds[j];
      var d := Pass(s, w).cmds[j];
      && |Pass(s, w).cmds| == |s.cmds|
      && d.id == c.id && d.name == c.name && d.arg == c.arg && d.callback == c.callback
      && (c.connId != 0 ==> d.connId == c.connId)
  {
    PassFields(s, w);
    PushFront(s.conns, s.cmds, s.outbox, s.snapVersion, s.snapshot, w);
    var q := PushAll(s.conns, s.cmds, s.outbox, s.snapVersion, s.snapshot, w);
    if j > 0 {
      assert q.cmds[j] == q.cmds[1..][j - 1] == s.cmds[1..][j - 1];
    }
  }

  /** `AddPanel` keeps the invariant. */
  lemma AddPanelInv(s: Painter, hasWindow: bool, shown: bool, addr: string, batch: nat, w: World)
    requires Inv(s)
    ensures Inv(AddPanel(s, hasWindow, shown, addr, batch, w).0)
  {
    if hasWindow && shown && addr != "" {
      DoWhenReadyInv(s, "ADDPANEL:" + addr, "AddPanel", Null, batch, w);
    }
  }
}
