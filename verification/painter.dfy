/**
 * `TCanvasPainter` itself (TCanvasPainter.cxx:94-212, 220-705): an object
 * whose methods update its fields in place. Each method is proved to leave the
 * object in the state the matching function of the specification modules
 * computes, and the public ones keep the invariant of `Invariants`.
 */
module WebPainter {
  import opened Text
  import opened Records
  import opened Versions
  import opened Commands
  import opened Push
  import opened Protocol
  import opened Invariants

  /**
   * Lines 275-323 for one connection: nothing when the channel cannot send,
   * else the front command, the requested menu or the current snap.
   */
  method ServeConnection(conn: Conn, queue: seq<Command>, v: nat, snap: string, w: World)
    returns (served: Conn, queue': seq<Command>, msg: seq<Sent>)
    ensures Served(served, queue', msg) == Serve(conn, queue, v, snap, w)
  {
    served, queue', msg := conn, queue, [];
    if conn.connId !in w.canSend {
      return;
    }
    if conn.drawReady && queue != [] && !queue[0].running && (queue[0].connId == 0 || queue[0].connId == conn.connId) {
      var front := queue[0].(running := true, connId := conn.connId);
      queue' := queue[0 := front];
      msg := [Sent(conn.connId, Cmd(front.id, front.name))];
    } else if conn.getMenu != "" {
      var target := DrawableId(conn.getMenu);
      if target in w.drawables {
        msg := [Sent(conn.connId, Menu(conn.getMenu, w.drawables[target]))];
      }
      served := conn.(getMenu := "");
    } else if conn.send != v {
      served := conn.(send := v);
      msg := [Sent(conn.connId, Snap(v, snap))];
    }
  }

  /** The loop of `CheckDataToSend` (lines 267-324) over the connections `cs`, the queue and the outbox. */
  method PushLoop(cs: seq<Conn>, queue0: seq<Command>, out0: seq<Sent>, v: nat, snap: string, w: World)
    returns (done: seq<Conn>, queue: seq<Command>, out: seq<Sent>, delivered: nat)
    ensures Progress(done, queue, out, delivered) == PushAll(cs, queue0, out0, v, snap, w)
  {
    done, queue, out, delivered := [], queue0, out0, 0;
    var i := 0;
    while i < |cs|
      invariant 0 <= i <= |cs|
      invariant PushAll(cs[..i], queue0, out0, v, snap, w) == Progress(done, queue, out, delivered)
    {
      var conn := cs[i];
      PushAllStep(cs, i, queue0, out0, v, snap, w);
      if conn.delivered != 0 && (delivered == 0 || delivered < conn.delivered) {
        delivered := conn.delivered;
      }
      var served, msg;
      served, queue, msg := ServeConnection(conn, queue, v, snap, w);
      done, out := done + [served], out + msg;
      i := i + 1;
    }
    assert cs[..i] == cs;
  }

  /** The loop of `CancelCommands(connid)` (lines 249-260) over the queue `all`, front to back. */
  method CancelLoop(all: seq<Command>, connid: nat) returns (kept: seq<Command>, removed: seq<Command>, calls: seq<Fired>)
    ensures Cancelled(kept, removed, calls) == CancelCmds(all, connid)
  {
    kept, removed, calls := [], [], [];
    var i := 0;
    while i < |all|
      invariant 0 <= i <= |all|
      invariant CancelCmds(all[..i], connid) == Cancelled(kept, removed, calls)
    {
      var cmd := all[i];
      CancelCmdsStep(all, i, connid);
      if connid == 0 || cmd.connId == connid {
        var (done, f) := CallBack(cmd, false);
        calls := calls + f;
        removed := removed + [done.(ready := true, running := false)];
      } else {
        kept := kept + [cmd];
      }
      i := i + 1;
    }
    assert all[..i] == all;
  }

  class CanvasPainter {
    var conns: seq<Conn>          // fWebConn
    var hadConn: bool             // fHadWebConn
    var cmds: seq<Command>        // fCmds
    var cmdsCnt: nat              // fCmdsCnt
    var snapVersion: nat          // fSnapshotVersion
    var snapshot: string          // fSnapshot
    var snapDelivered: nat        // fSnapshotDelivered
    var updates: seq<Update>      // fUpdatesLst
    var nextDumpName: string      // fNextDumpName
    var outbox: seq<Sent>         // messages handed to fWindow->Send
    var fired: seq<Fired>         // callback invocations
    var effects: seq<Effect>      // calls into the outside world
    var retired: seq<Command>     // commands that left fCmds

    /** The object's state as a value. */
    function Model(): Painter
      reads this
    {
      Painter(conns, hadConn, cmds, cmdsCnt, snapVersion, snapshot, snapDelivered, updates,
              nextDumpName, outbox, fired, effects, retired)
    }

    ghost predicate Valid()
      reads this
    {
      Inv(Model())
    }

    /** `TCanvasPainter(canv)`: no connection, no command, nothing delivered. */
    constructor ()
      ensures Model() == Initial() && Valid()
    {
      conns, hadConn, cmds, cmdsCnt := [], false, [], 0;
      snapVersion, snapshot, snapDelivered, updates, nextDumpName := 0, "", 0, [], "";
      outbox, fired, effects, retired := [], [], [], [];
      InitialInv();
    }

    /** The connection search of `ProcessData` (lines 447-455); reads only. */
    method FindConnection(connid: nat) returns (k: nat)
      ensures k == FindConn(conns, connid)
      ensures k <= |conns| && (k < |conns| ==> conns[k].connId == connid)
      ensures forall j :: 0 <= j < k ==> conns[j].connId != connid
    {
      k := 0;
      while k < |conns| && conns[k].connId != connid
        invariant k <= |conns|
        invariant forall j :: 0 <= j < k ==> conns[j].connId != connid
      {
        k := k + 1;
      }
    }

    /** `CancelUpdates` (lines 232-241): each pending update fails and is erased in turn. */
    method CancelUpdates()
      modifies this
      ensures Model() == Versions.CancelUpdates(old(Model()))
    {
      snapDelivered := 0;
      var ups := updates;
      var calls: seq<Fired> := [];
      while ups != []
        invariant |ups| <= |updates| && ups == updates[|updates| - |ups|..]
        invariant calls == FailAll(updates[..|updates| - |ups|])
        decreases |ups|
      {
        ghost var done := |updates| - |ups|;
        assert updates[..done + 1][..done] == updates[..done];
        calls := calls + [Fired(ups[0].handle, false)];
        ups := ups[1..];
      }
      assert updates[..|updates|] == updates;
      updates, fired := ups, fired + calls;
    }

    /** `CancelCommands(connid)` (lines 247-261). */
    method CancelCommands(connid: nat)
      modifies this
      ensures Model() == Commands.CancelCommands(old(Model()), connid)
    {
      var kept, removed, calls := CancelLoop(cmds, connid);
      cmds, retired, fired := kept, retired + removed, fired + calls;
    }

    /** Lines 333-341: updates covered by `delivered` fire `true` and are erased, in order. */
    method ResolveUpdates(delivered: nat)
      modifies this
      ensures var r := Resolve(old(updates), delivered);
        Model() == old(Model()).(updates := r.pending, fired := old(fired) + r.fired)
    {
      var ups := updates;
      var pending: seq<Update> := [];
      var calls: seq<Fired> := [];
      var j := 0;
      while j < |ups|
        invariant 0 <= j <= |ups|
        invariant Resolve(ups[..j], delivered) == Resolved(pending, calls)
      {
        assert ups[..j + 1][..j] == ups[..j];
        var u := ups[j];
        if u.version <= delivered {
          calls := calls + [Fired(u.handle, true)];
        } else {
          pending := pending + [u];
        }
        j := j + 1;
      }
      assert ups[..j] == ups;
      updates, fired := pending, fired + calls;
    }

    /**
     * `CheckDataToSend` (lines 266-343): at most one message per connection,
     * then the delivered version is recomputed and the pending updates are
     * cancelled or resolved.
     */
    method CheckDataToSend(w: World)
      modifies this
      ensures Model() == Pass(old(Model()), w)
    {
      ghost var s0 := Model();
      var delivered;
      conns, cmds, outbox, delivered := PushLoop(conns, cmds, outbox, snapVersion, snapshot, w);
      ghost var s1 := Model();
      assert s1 == s0.(conns := conns, cmds := cmds, outbox := outbox);
      if conns == [] && snapDelivered != 0 {
        CancelUpdates();
        assert Model() == Versions.CancelUpdates(s1);
        return;
      }
      if snapDelivered != delivered {
        snapDelivered := delivered;
        ResolveUpdates(delivered);
        ghost var r := Resolve(s1.updates, delivered);
        assert Model() == s1.(snapDelivered := delivered, updates := r.pending, fired := s1.fired + r.fired);
      }
    }

    /** `FrontCommandReplied(reply)` (lines 676-705). */
    method FrontCommandReplied(reply: string)
      requires cmds != []
      modifies this
      ensures Model() == FrontReplied(old(Model()), reply)
    {
      var cmd := cmds[0];
      cmds := cmds[1..];
      var result := false;
      var e: seq<Effect> := [];
      if cmd.name == "SVG" || cmd.name == "PNG" || cmd.name == "JPEG" {
        if reply == "" {
          e := [Logged(ImageFailed(cmd.arg))];
        } else {
          e := [WriteImage(cmd.arg, reply)];
          result := true;
        }
      } else if StartsWith(cmd.name, "ADDPANEL:") {
        result := reply == "true";
      } else {
        e := [Logged(UnknownCommand(cmd.name))];
      }
      assert result == ReplyResult(cmd.name, reply) && e == ReplyEffects(cmd, reply);
      var (done, f) := CallBack(cmd.(ready := true, result := result), result);
      effects, retired, fired := effects + e, retired + [done], fired + f;
    }

    /** `SaveCreatedFile(reply)` (lines 653-671). */
    method SaveCreatedFile(body: string)
      modifies this
      ensures Model() == Protocol.SaveCreatedFile(old(Model()), body)
    {
      match SplitHead(body)
      case None =>
        Emit(Logged(NoSaveSeparator));
      case Some((fname, data)) =>
        Emit(SaveFile(fname, data));
    }

    /** The `REPLY:` branch (lines 494-510): the three checks, then the front command completes. */
    method HandleReplyMessage(body: string)
      modifies this
      ensures Model() == HandleReply(old(Model()), body)
    {
      var parts := SplitReply(body);
      var id := if parts.Some? then parts.value.0 else "";
      if cmds == [] {
        Emit(Logged(ReplyWithoutCommand));
      } else if !cmds[0].running {
        Emit(Logged(FrontNotRunning));
      } else if cmds[0].id != id || parts.None? {
        Emit(Logged(ReplyIdMismatch));
      } else {
        FrontCommandReplied(parts.value.1);
      }
    }

    /** The `OBJEXEC:` branch (lines 516-530). */
    method ExecObjectMessage(body: string, w: World)
      modifies this
      ensures Model() == ExecObject(old(Model()), body, w)
    {
      match SplitHead(body) {
        case None =>
        case Some((id, instr)) =>
          var d := DrawableId(id);
          if d in w.drawables && instr != "" {
            Emit(Execute(d, instr));
          }
      }
    }

    /** The record of the connection at position `k` becomes `c`. */
    method SetConnection(k: nat, c: Conn)
      requires k < |conns|
      modifies this
      ensures Model() == old(Model()).(conns := old(conns)[k := c])
    {
      conns := conns[k := c];
    }

    /** A call into the outside world, or a diagnostic, is recorded. */
    method Emit(e: Effect)
      modifies this
      ensures Model() == old(Model()).(effects := old(effects) + [e])
    {
      effects := effects + [e];
    }

    /** The `CONN_CLOSED` branch (lines 464-472): the record goes, then its commands are cancelled. */
    method ConnectionClosed(k: nat, connid: nat)
      requires k < |conns|
      modifies this
      ensures Model() == Commands.CancelCommands(old(Model()).(conns := old(conns)[..k] + old(conns)[k + 1..]), connid)
    {
      conns := conns[..k] + conns[k + 1..];
      CancelCommands(connid);
    }

    /** Lines 464-533 for a message `m` from the known connection at position `k`. */
    method HandleMessage(k: nat, connid: nat, m: Inbound, parse: string -> nat, w: World)
      requires k < |conns|
      modifies this
      ensures Model() == Handle(old(Model()), k, connid, m, parse, w)
    {
      var conn := conns[k];
      match m {
        case ConnClosed =>
          ConnectionClosed(k, connid);
        case SnapDone(v) =>
          SetConnection(k, conn.(drawReady := true, delivered := parse(v)));
        case RReady(_) =>
          SetConnection(k, conn.(drawReady := true));
        case GetMenu(t) =>
          SetConnection(k, conn.(getMenu := t));
        case Reload =>
          SetConnection(k, conn.(send := 0));
        case Interrupt =>
          Emit(SetInterrupt);
        case Reply(body) =>
          HandleReplyMessage(body);
        case Save(body) =>
          SaveCreatedFile(body);
        case ObjExec(body) =>
          ExecObjectMessage(body, w);
        case Unrecognized(a) =>
          Emit(Logged(NotRecognized(a)));
        case _ =>
      }
    }

    /**
     * `ProcessData(connid, arg)` (lines 435-536). `parse` is what `std::stoll`
     * reads from a `SNAPDONE:` version.
     */
    method ProcessData(connid: nat, arg: string, parse: string -> nat, w: World)
      requires Valid()
      modifies this
      ensures Valid()
      ensures Model() == Protocol.ProcessData(old(Model()), connid, arg, parse, w)
    {
      ghost var s0 := Model();
      ProcessDataInv(s0, connid, arg, parse, w);
      var m := Decode(arg);
      if m.ConnReady? {
        conns := conns + [NewConn(connid)];
        hadConn := true;
        ghost var s1 := Model();
        assert s1 == s0.(conns := s0.conns + [NewConn(connid)], hadConn := true);
        CheckDataToSend(w);
        assert Model() == Pass(s1, w);
        return;
      }
      var k := FindConnection(connid);
      if k == |conns| {
        return;
      }
      if m.Quit? {
        Emit(Terminate);
        return;
      }
      HandleMessage(k, connid, m, parse, w);
      ghost var s1 := Model();
      assert s1 == Handle(s0, k, connid, m, parse, w);
      CheckDataToSend(w);
      assert Model() == Pass(s1, w);
    }

    /** `if (callback) callback(ok)`: a set callback is called once with `ok`. */
    method Call(cb: Callback, ok: bool)
      modifies this
      ensures Model() == old(Model()).(fired := old(fired) + Fire(cb, ok))
    {
      if cb.Fn? {
        fired := fired + [Fired(cb.handle, ok)];
      }
    }

    /** Lines 362-363 and 622-626: the new version and its JSON, written to the pending dump file first. */
    method TakeSnapshot(ver: nat, snap: string)
      modifies this
      ensures Model() == Protocol.TakeSnapshot(old(Model()), ver, snap)
    {
      snapVersion := ver;
      if nextDumpName != "" {
        Emit(DumpJson(nextDumpName));
        nextDumpName := "";
      }
      snapshot := snap;
    }

    /**
     * `CanvasUpdated(ver, async, callback)` (lines 349-379). `snap` is the
     * JSON `CreateSnapshot` produces and `shown` is `fWindow && fWindow->IsShown()`.
     */
    method CanvasUpdated(ver: nat, cb: Callback, snap: string, shown: bool, w: World)
      requires Valid()
      modifies this
      ensures Valid()
      ensures Model() == Protocol.CanvasUpdated(old(Model()), ver, cb, snap, shown, w)
    {
      ghost var s0 := Model();
      CanvasUpdatedInv(s0, ver, cb, snap, shown, w);
      if ver != 0 && snapDelivered != 0 && ver <= snapDelivered {
        Call(cb, true);
        return;
      }
      TakeSnapshot(ver, snap);
      ghost var s1 := Model();
      if !shown {
        Call(cb, false);
        return;
      }
      CheckDataToSend(w);
      ghost var s2 := Model();
      assert s2 == Pass(s1, w);
      if cb.Fn? {
        updates := updates + [Update(ver, cb.handle)];
      }
    }

    /** Lines 404-405: the action is queued under the next id, bound to `batch`. */
    method Enqueue(name: string, arg: string, cb: Callback, batch: nat)
      modifies this
      ensures var (c, n) := Submit(old(cmds), old(cmdsCnt), name, arg, cb, batch);
        Model() == old(Model()).(cmds := c, cmdsCnt := n)
    {
      cmdsCnt := cmdsCnt + 1;
      cmds := cmds + [Command(NatToString(cmdsCnt), name, arg, false, false, false, cb, batch)];
    }

    /**
     * `DoWhenReady(name, arg, async, callback)` (lines 384-430) up to the wait.
     * `batch` is what `fWindow->MakeBatch()` returns.
     */
    method DoWhenReady(name: string, arg: string, cb: Callback, batch: nat, w: World)
      requires Valid()
      modifies this
      ensures Valid()
      ensures Model() == Protocol.DoWhenReady(old(Model()), name, arg, cb, batch, w)
    {
      ghost var s0 := Model();
      DoWhenReadyInv(s0, name, arg, cb, batch, w);
      if name == "JSON" {
        nextDumpName := arg;
        return;
      }
      if batch == 0 {
        Call(cb, false);
        return;
      }
      Enqueue(name, arg, cb, batch);
      ghost var s1 := Model();
      CheckDataToSend(w);
      assert Model() == Pass(s1, w);
    }

    /** `AddPanel(win)` (lines 575-604). */
    method AddPanel(hasWindow: bool, shown: bool, addr: string, batch: nat, w: World) returns (ok: bool)
      requires Valid()
      modifies this
      ensures Valid()
      ensures (Model(), ok) == Protocol.AddPanel(old(Model()), hasWindow, shown, addr, batch, w)
    {
      AddPanelInv(Model(), hasWindow, shown, addr, batch, w);
      if !hasWindow {
        Emit(Logged(PanelWithoutWindow));
        return false;
      }
      if !shown {
        Emit(Logged(PanelWindowHidden));
        return false;
      }
      if addr == "" {
        Emit(Logged(PanelNoAddress));
        return false;
      }
      DoWhenReady("ADDPANEL:" + addr, "AddPanel", Null, batch, w);
      return true;
    }

    /** `~TCanvasPainter` (lines 208-214): every command, then every update, fails. */
    method Close()
      modifies this
      ensures Model() == Protocol.Close(old(Model()))
    {
      CancelCommands(0);
      CancelUpdates();
    }
  }
}
