/**
 * The painter's entry points on its state: the text protocol a viewer speaks
 * (`ProcessData`, TCanvasPainter.cxx:435-536), a canvas update
 * (`CanvasUpdated`, lines 349-379), a queued action (`DoWhenReady`,
 * lines 384-430), `AddPanel` (lines 575-604) and the destructor (lines 208-214).
 */
module Protocol {
  import opened Text
  import opened Records
  import opened Versions
  import opened Commands
  import opened Push

  /** The messages `ProcessData` tells apart, each with the text after its tag. */
  datatype Inbound =
    | ConnReady                 // "CONN_READY", from the window itself
    | ConnClosed                // "CONN_CLOSED", from the window itself
    | Ready(rest: string)       // "READY..."
    | SnapDone(version: string) // "SNAPDONE:<version>"
    | RReady(rest: string)      // "RREADY:..."
    | GetMenu(target: string)   // "GETMENU:<drawable id>"
    | Quit                      // "QUIT"
    | Reload                    // "RELOAD"
    | Interrupt                 // "INTERRUPT"
    | Reply(body: string)       // "REPLY:<id>:<payload>"
    | Save(body: string)        // "SAVE:<file>:<base64>"
    | ObjExec(body: string)     // "OBJEXEC:<drawable id>:<instruction>"
    | Unrecognized(arg: string) // anything else

  /** How `ProcessData` classifies `arg`: its tests, in the order the source makes them (lines 437-531). */
  function Decode(arg: string): Inbound {
    if arg == "CONN_READY" then ConnReady
    else if arg == "CONN_CLOSED" then ConnClosed
    else if StartsWith(arg, "READY") then Ready(arg[5..])
    else if StartsWith(arg, "SNAPDONE:") then SnapDone(arg[9..])
    else if StartsWith(arg, "RREADY:") then RReady(arg[7..])
    else if StartsWith(arg, "GETMENU:") then GetMenu(arg[8..])
    else if arg == "QUIT" then Quit
    else if arg == "RELOAD" then Reload
    else if arg == "INTERRUPT" then Interrupt
    else if StartsWith(arg, "REPLY:") then Reply(arg[6..])
    else if StartsWith(arg, "SAVE:") then Save(arg[5..])
    else if StartsWith(arg, "OBJEXEC:") then ObjExec(arg[8..])
    else Unrecognized(arg)
  }

  /** The text a viewer (or the window) sends for each message. */
  function Encode(m: Inbound): string {
    match m
    case ConnReady => "CONN_READY"
    case ConnClosed => "CONN_CLOSED"
    case Ready(rest) => "READY" + rest
    case SnapDone(v) => "SNAPDONE:" + v
    case RReady(rest) => "RREADY:" + rest
    case GetMenu(t) => "GETMENU:" + t
    case Quit => "QUIT"
    case Reload => "RELOAD"
    case Interrupt => "INTERRUPT"
    case Reply(b) => "REPLY:" + b
    case Save(b) => "SAVE:" + b
    case ObjExec(b) => "OBJEXEC:" + b
    case Unrecognized(a) => a
  }

  /** A message other than `Unrecognized`, or an unrecognized text that really matches no tag. */
  predicate WellFormed(m: Inbound) {
    m.Unrecognized? ==> Decode(m.arg).Unrecognized?
  }

  /** `t + rest` starts with `t`, and what follows the tag is `rest`. */
  lemma Tagged(t: string, rest: string)
    ensures StartsWith(t + rest, t) && (t + rest)[|t|..] == rest
  {
    assert (t + rest)[..|t|] == t;
  }

  /** A text that differs from `t` at position `i` neither starts with `t` nor equals it. */
  lemma Mismatch(s: string, t: string, i: nat)
    requires i < |s| && i < |t| && s[i] != t[i]
    ensures !StartsWith(s, t) && s != t
  {
  }

  /** The tags tested before `QUIT` are read back as themselves. */
  lemma DecodeEncodeEarly(m: Inbound)
    requires m.Ready? || m.SnapDone? || m.RReady? || m.GetMenu?
    ensures Decode(Encode(m)) == m
  {
    var e := Encode(m);
    match m
    case Ready(rest) =>
      Tagged("READY", rest);
      Mismatch(e, "CONN_READY", 0);
      Mismatch(e, "CONN_CLOSED", 0);
    case SnapDone(v) =>
      Tagged("SNAPDONE:", v);
      Mismatch(e, "CONN_READY", 0);
      Mismatch(e, "CONN_CLOSED", 0);
      Mismatch(e, "READY", 0);
    case RReady(rest) =>
      Tagged("RREADY:", rest);
      Mismatch(e, "CONN_READY", 0);
      Mismatch(e, "CONN_CLOSED", 0);
      Mismatch(e, "READY", 1);
      Mismatch(e, "SNAPDONE:", 0);
    case GetMenu(t) =>
      Tagged("GETMENU:", t);
      Mismatch(e, "CONN_READY", 0);
      Mismatch(e, "CONN_CLOSED", 0);
      Mismatch(e, "READY", 0);
      Mismatch(e, "SNAPDONE:", 0);
      Mismatch(e, "RREADY:", 0);
  }

  /** The tags tested after `INTERRUPT` are read back as themselves. */
  lemma DecodeEncodeLate(m: Inbound)
    requires m.Reply? || m.Save? || m.ObjExec?
    ensures Decode(Encode(m)) == m
  {
    var e := Encode(m);
    Mismatch(e, "CONN_READY", 0);
    Mismatch(e, "CONN_CLOSED", 0);
    Mismatch(e, "GETMENU:", 0);
    Mismatch(e, "QUIT", 0);
    Mismatch(e, "INTERRUPT", 0);
    match m
    case Reply(b) =>
      Tagged("REPLY:", b);
      Mismatch(e, "READY", 2);
      Mismatch(e, "SNAPDONE:", 0);
      Mismatch(e, "RREADY:", 1);
      Mismatch(e, "RELOAD", 2);
    case Save(b) =>
      Tagged("SAVE:", b);
      Mismatch(e, "READY", 0);
      Mismatch(e, "SNAPDONE:", 1);
      Mismatch(e, "RREADY:", 0);
      Mismatch(e, "RELOAD", 0);
      Mismatch(e, "REPLY:", 0);
    case ObjExec(b) =>
      Tagged("OBJEXEC:", b);
      Mismatch(e, "READY", 0);
      Mismatch(e, "SNAPDONE:", 0);
      Mismatch(e, "RREADY:", 0);
      Mismatch(e, "RELOAD", 0);
      Mismatch(e, "REPLY:", 0);
      Mismatch(e, "SAVE:", 0);
  }

  /** Every message is read back as itself: decoding inverts encoding. */
  lemma DecodeEncode(m: Inbound)
    requires WellFormed(m)
    ensures Decode(Encode(m)) == m
  {
    var e := Encode(m);
    if m.Ready? || m.SnapDone? || m.RReady? || m.GetMenu? {
      DecodeEncodeEarly(m);
    } else if m.Reply? || m.Save? || m.ObjExec? {
      DecodeEncodeLate(m);
    } else if m.Quit? {
      assert e[0] == 'Q';
    } else if m.Reload? {
      assert e[0] == 'R' && e[2] == 'L';
    } else if m.Interrupt? {
      assert e[0] == 'I';
    }
  }

  /** Nothing a viewer sends is lost by the classification: encoding inverts decoding. */
  lemma EncodeDecode(arg: string)
    ensures Encode(Decode(arg)) == arg
    ensures WellFormed(Decode(arg))
  {
    if StartsWith(arg, "READY") { assert arg == arg[..5] + arg[5..]; }
    else if StartsWith(arg, "SNAPDONE:") { assert arg == arg[..9] + arg[9..]; }
    else if StartsWith(arg, "RREADY:") { assert arg == arg[..7] + arg[7..]; }
    else if StartsWith(arg, "GETMENU:") { assert arg == arg[..8] + arg[8..]; }
    else if StartsWith(arg, "REPLY:") { assert arg == arg[..6] + arg[6..]; }
    else if StartsWith(arg, "SAVE:") { assert arg == arg[..5] + arg[5..]; }
    else if StartsWith(arg, "OBJEXEC:") { assert arg == arg[..8] + arg[8..]; }
  }

  /**
   * The search at lines 447-455: the position of the first record for
   * `connid`, or `|conns|` when there is none.
   */
  function FindConn(conns: seq<Conn>, connid: nat): (k: nat)
    ensures k <= |conns|
    ensures k < |conns| ==> conns[k].connId == connid
    ensures forall j :: 0 <= j < k ==> conns[j].connId != connid
    decreases |conns|
  {
    if conns == [] then 0
    else if conns[0].connId == connid then 0
    else 1 + FindConn(conns[1..], connid)
  }

  /** `SaveCreatedFile` (lines 653-671): `<file>:<data>` writes the file, anything else is logged. */
  function SaveCreatedFile(s: Painter, body: string): (t: Painter)
    ensures SplitHead(body).Some? ==>
      t == s.(effects := s.effects + [SaveFile(SplitHead(body).value.0, SplitHead(body).value.1)])
    ensures SplitHead(body).None? ==> t == s.(effects := s.effects + [Logged(NoSaveSeparator)])
  {
    match SplitHead(body)
    case None => s.(effects := s.effects + [Logged(NoSaveSeparator)])
    case Some((fname, data)) => s.(effects := s.effects + [SaveFile(fname, data)])
  }

  /**
   * The `OBJEXEC:` branch (lines 516-530): a non-empty instruction for a known
   * drawable is executed on it; everything else, the canvas itself included,
   * is ignored.
   */
  function ExecObject(s: Painter, body: string, w: World): (t: Painter)
    ensures var h := SplitHead(body);
      h.Some? && DrawableId(h.value.0) in w.drawables && h.value.1 != "" ==>
        t == s.(effects := s.effects + [Execute(DrawableId(h.value.0), h.value.1)])
    ensures var h := SplitHead(body);
      !(h.Some? && DrawableId(h.value.0) in w.drawables && h.value.1 != "") ==> t == s
  {
    match SplitHead(body)
    case None => s
    case Some((id, instr)) =>
      var d := DrawableId(id);
      if d in w.drawables && instr != "" then s.(effects := s.effects + [Execute(d, instr)]) else s
  }

  /**
   * The instruction a viewer sends as `OBJEXEC:<id>:<instr>` (lines 518-526)
   * reaches the drawable `id` names, up to its first `#`, exactly as sent;
   * an unknown drawable or an empty instruction changes nothing.
   */
  lemma {:induction false} ExecObjectJoin(s: Painter, id: string, instr: string, w: World)
    requires id != [] && ':' !in id
    ensures DrawableId(id) in w.drawables && instr != "" ==>
      ExecObject(s, id + ":" + instr, w) == s.(effects := s.effects + [Execute(DrawableId(id), instr)])
    ensures DrawableId(id) !in w.drawables || instr == "" ==> ExecObject(s, id + ":" + instr, w) == s
  {
    SplitHeadJoin(id, instr);
  }

  /**
   * What a message from the known connection at position `k` does before the
   * closing push pass (lines 464-533).
   */
  function Handle(s: Painter, k: nat, connid: nat, m: Inbound, parse: string -> nat, w: World): (t: Painter)
    requires k < |s.conns|
    ensures t.outbox == s.outbox
  {
    var c := s.conns[k];
    match m
    case ConnClosed => CancelCommands(s.(conns := s.conns[..k] + s.conns[k + 1..]), connid)
    case SnapDone(v) => s.(conns := s.conns[k := c.(drawReady := true, delivered := parse(v))])
    case RReady(_) => s.(conns := s.conns[k := c.(drawReady := true)])
    case GetMenu(t) => s.(conns := s.conns[k := c.(getMenu := t)])
    case Reload => s.(conns := s.conns[k := c.(send := 0)])
    case Interrupt => s.(effects := s.effects + [SetInterrupt])
    case Reply(body) => HandleReply(s, body)
    case Save(body) => SaveCreatedFile(s, body)
    case ObjExec(body) => ExecObject(s, body, w)
    case Unrecognized(a) => s.(effects := s.effects + [Logged(NotRecognized(a))])
    case _ => s
  }

  /**
   * `ProcessData(connid, arg)`: a new connection is recorded and served; a
   * message from an unknown connection is dropped; `QUIT` terminates without
   * a push pass; every other message is handled and followed by a push pass.
   * `parse` is the number `std::stoll` reads from a `SNAPDONE:` version text.
   * Messages already sent stay sent: the outbox only grows.
   */
  function ProcessData(s: Painter, connid: nat, arg: string, parse: string -> nat, w: World): (t: Painter)
    ensures |t.outbox| >= |s.outbox| && t.outbox[..|s.outbox|] == s.outbox
  {
    var m := Decode(arg);
    if m.ConnReady? then Pass(s.(conns := s.conns + [NewConn(connid)], hadConn := true), w)
    else
      var k := FindConn(s.conns, connid);
      if k == |s.conns| then s
      else if m.Quit? then s.(effects := s.effects + [Terminate])
      else Pass(Handle(s, k, connid, m, parse, w), w)
  }

  /** A message from a connection the painter does not know changes nothing at all. */
  lemma UnknownConnectionIgnored(s: Painter, connid: nat, arg: string, parse: string -> nat, w: World)
    requires arg != "CONN_READY"
    requires forall i :: 0 <= i < |s.conns| ==> s.conns[i].connId != connid
    ensures ProcessData(s, connid, arg, parse, w) == s
  {
  }

  /** `QUIT` from a known connection asks the window manager to terminate and does nothing else. */
  lemma QuitOnlyTerminates(s: Painter, connid: nat, parse: string -> nat, w: World)
    requires exists i :: 0 <= i < |s.conns| && s.conns[i].connId == connid
    ensures ProcessData(s, connid, "QUIT", parse, w) == s.(effects := s.effects + [Terminate])
  {
    var i :| 0 <= i < |s.conns| && s.conns[i].connId == connid;
    assert FindConn(s.conns, connid) <= i;
    assert !StartsWith("QUIT", "READY");
    assert !StartsWith("QUIT", "RREADY:");
  }

  /**
   * `RELOAD` (line 491) makes the viewer receive the current snapshot again in
   * the pass that follows, when there is one (a version above 0) and no menu
   * request of the viewer goes first, unless that pass gives it the front
   * command instead; then its record still owes the snapshot (`fSend` is 0)
   * and the front it took is running.
   */
  lemma ReloadResends(s: Painter, connid: nat, parse: string -> nat, w: World)
    requires FindConn(s.conns, connid) < |s.conns|
    requires s.conns[FindConn(s.conns, connid)].getMenu == ""
    requires connid in w.canSend && s.snapVersion != 0
    ensures var t := ProcessData(s, connid, "RELOAD", parse, w);
      var k := FindConn(s.conns, connid);
      || Sent(connid, Snap(s.snapVersion, s.snapshot)) in t.outbox[|s.outbox|..]
      || (&& t.cmds != s.cmds && t.cmds != [] && t.cmds[0].connId == connid && t.cmds[0].running
          && k < |t.conns| && t.conns[k] == s.conns[k].(send := 0)
          && t.snapVersion == s.snapVersion && t.snapshot == s.snapshot)
  {
    var k := FindConn(s.conns, connid);
    ReloadPass(s, connid, parse, w);
    SnapshotOwed(s.(conns := s.conns[k := s.conns[k].(send := 0)]), k, w);
  }

  /** `RELOAD` from a known connection is its record's `fSend` reset to 0, then a pass. */
  lemma ReloadPass(s: Painter, connid: nat, parse: string -> nat, w: World)
    requires FindConn(s.conns, connid) < |s.conns|
    ensures var k := FindConn(s.conns, connid);
      ProcessData(s, connid, "RELOAD", parse, w) == Pass(s.(conns := s.conns[k := s.conns[k].(send := 0)]), w)
  {
    var k := FindConn(s.conns, connid);
    DecodeEncode(Reload);
    assert Decode("RELOAD") == Reload;
    assert Handle(s, k, connid, Reload, parse, w) == s.(conns := s.conns[k := s.conns[k].(send := 0)]);
  }

  /**
   * The snapshot `RELOAD` asks for is not lost: it goes out in the pass that
   * follows the message, or, when that pass sends the viewer the front
   * command, in the next pass in which the channel can send to it.
   */
  lemma ReloadResendsLater(s: Painter, connid: nat, parse: string -> nat, w: World, w2: World)
    requires FindConn(s.conns, connid) < |s.conns|
    requires s.conns[FindConn(s.conns, connid)].getMenu == ""
    requires connid in w.canSend && connid in w2.canSend && s.snapVersion != 0
    ensures var t := ProcessData(s, connid, "RELOAD", parse, w);
      || Sent(connid, Snap(s.snapVersion, s.snapshot)) in t.outbox[|s.outbox|..]
      || Sent(connid, Snap(s.snapVersion, s.snapshot)) in Pass(t, w2).outbox[|t.outbox|..]
  {
    var k := FindConn(s.conns, connid);
    var s1 := s.(conns := s.conns[k := s.conns[k].(send := 0)]);
    ReloadPass(s, connid, parse, w);
    SnapshotOwed(s1, k, w);
    var t := Pass(s1, w);
    if Sent(connid, Snap(s.snapVersion, s.snapshot)) !in t.outbox[|s.outbox|..] {
      SnapshotOwed(t, k, w2);
    }
  }

  /**
   * After `CONN_CLOSED` the closed viewer's record is gone and no queued
   * command is bound to it any longer: the commands it served or was meant to
   * serve were cancelled, and the following pass binds commands only to the
   * remaining connections.
   */
  lemma ClosedConnectionReleased(s: Painter, connid: nat, parse: string -> nat, w: World)
    requires ConnsWith(s.conns, connid) == 1
    ensures var t := ProcessData(s, connid, "CONN_CLOSED", parse, w);
      && ConnsWith(t.conns, connid) == 0
      && |t.conns| == |s.conns| - 1
      && forall i :: 0 <= i < |t.cmds| ==> t.cmds[i].connId != connid
  {
    var k := FindConn(s.conns, connid);
    ConnsWithPositive(s.conns, connid);
    assert k < |s.conns|;
    var s1 := Handle(s, k, connid, ConnClosed, parse, w);
    ClosedCancels(s, k, connid, parse, w);
    assert Decode("CONN_CLOSED") == ConnClosed;
    assert ProcessData(s, connid, "CONN_CLOSED", parse, w) == Pass(s1, w);
    PassKeepsUnbound(s1, connid, w);
  }

  /** Closing the only record of `connid` removes it and cancels every command bound to it. */
  lemma ClosedCancels(s: Painter, k: nat, connid: nat, parse: string -> nat, w: World)
    requires k < |s.conns| && s.conns[k].connId == connid && ConnsWith(s.conns, connid) == 1
    ensures var s1 := Handle(s, k, connid, ConnClosed, parse, w);
      && ConnsWith(s1.conns, connid) == 0 && |s1.conns| == |s.conns| - 1
      && forall i :: 0 <= i < |s1.cmds| ==> s1.cmds[i].connId != connid
  {
    ConnsWithRemove(s.conns, k);
    CancelSelects(s.cmds, connid);
    var s1 := Handle(s, k, connid, ConnClosed, parse, w);
    forall i | 0 <= i < |s1.cmds| ensures s1.cmds[i].connId != connid {
      assert s1.cmds[i] in s1.cmds;
    }
  }

  /** A pass binds no command to a connection that has no record. */
  lemma PassKeepsUnbound(s: Painter, x: nat, w: World)
    requires ConnsWith(s.conns, x) == 0
    requires forall i :: 0 <= i < |s.cmds| ==> s.cmds[i].connId != x
    ensures var t := Pass(s, w);
      && ConnsWith(t.conns, x) == 0 && |t.conns| == |s.conns|
      && forall i :: 0 <= i < |t.cmds| ==> t.cmds[i].connId != x
  {
    PushKeepsConns(s.conns, s.cmds, s.outbox, s.snapVersion, s.snapshot, w);
    PushFront(s.conns, s.cmds, s.outbox, s.snapVersion, s.snapshot, w);
    PassFields(s, w);
    var q := PushAll(s.conns, s.cmds, s.outbox, s.snapVersion, s.snapshot, w);
    ConnsWithSame(s.conns, q.conns, x);
    if q.cmds != s.cmds {
      ConnsWithPositive(s.conns, q.cmds[0].connId);
    }
    forall i | 0 <= i < |q.cmds| ensures q.cmds[i].connId != x {
      if i > 0 { assert q.cmds[i] == q.cmds[1..][i - 1] == s.cmds[1..][i - 1]; }
    }
  }

  /** Some record has id `x` exactly when the count of records with id `x` is positive. */
  lemma {:induction false} ConnsWithPositive(cs: seq<Conn>, x: nat)
    ensures ConnsWith(cs, x) > 0 <==> exists i :: 0 <= i < |cs| && cs[i].connId == x
    decreases |cs|
  {
    if cs != [] {
      var init := cs[..|cs| - 1];
      ConnsWithPositive(init, x);
      if ConnsWith(init, x) > 0 {
        var i :| 0 <= i < |init| && init[i].connId == x;
        assert cs[i] == init[i];
      }
      if exists i :: 0 <= i < |cs| && cs[i].connId == x {
        var i :| 0 <= i < |cs| && cs[i].connId == x;
        if i < |init| { assert init[i] == cs[i]; }
      }
    }
  }

  /** Removing the record at `k` lowers the count for its id by one and leaves the others. */
  lemma {:induction false} ConnsWithRemove(cs: seq<Conn>, k: nat)
    requires k < |cs|
    ensures forall x :: ConnsWith(cs[..k] + cs[k + 1..], x) == ConnsWith(cs, x) - (if cs[k].connId == x then 1 else 0)
    decreases |cs|
  {
    var init := cs[..|cs| - 1];
    if k == |cs| - 1 {
      assert cs[..k] + cs[k + 1..] == init;
    } else {
      ConnsWithRemove(init, k);
      var r := cs[..k] + cs[k + 1..];
      assert r[..|r| - 1] == init[..k] + init[k + 1..];
      assert r[|r| - 1] == cs[|cs| - 1];
      assert init[k] == cs[k];
    }
  }

  /** Two connection lists that agree on every id have the same counts. */
  lemma {:induction false} ConnsWithSame(a: seq<Conn>, b: seq<Conn>, x: nat)
    requires |a| == |b|
    requires forall i :: 0 <= i < |a| ==> a[i].connId == b[i].connId
    ensures ConnsWith(a, x) == ConnsWith(b, x)
    decreases |a|
  {
    if a != [] {
      ConnsWithSame(a[..|a| - 1], b[..|b| - 1], x);
    }
  }

  /**
   * Lines 362-363: the version becomes current and the snapshot is rebuilt;
   * a pending dump name is written out once and cleared (lines 622-626).
   * `snapshot` stands for the JSON `CreateSnapshot` produces.
   */
  function TakeSnapshot(s: Painter, ver: nat, snapshot: string): (t: Painter)
    ensures t.snapVersion == ver && t.snapshot == snapshot && t.nextDumpName == ""
    ensures t.effects == s.effects + (if s.nextDumpName != "" then [DumpJson(s.nextDumpName)] else [])
    ensures t == s.(snapVersion := ver, snapshot := snapshot, nextDumpName := "", effects := t.effects)
  {
    s.(snapVersion := ver, snapshot := snapshot, nextDumpName := "",
       effects := s.effects + (if s.nextDumpName != "" then [DumpJson(s.nextDumpName)] else []))
  }

  /** Line 355: the version asked for is already on every screen that counts. */
  predicate AlreadyDelivered(s: Painter, ver: nat) {
    ver != 0 && s.snapDelivered != 0 && ver <= s.snapDelivered
  }

  /**
   * `CanvasUpdated(ver, async, callback)`: the fast path answers `true`
   * at once; otherwise the snapshot is rebuilt, a hidden window answers
   * `false`, and a shown one gets a push pass and keeps the callback until
   * the version is delivered. `shown` is `fWindow && fWindow->IsShown()`.
   */
  function CanvasUpdated(s: Painter, ver: nat, cb: Callback, snapshot: string, shown: bool, w: World): Painter {
    if AlreadyDelivered(s, ver) then s.(fired := s.fired + Fire(cb, true))
    else
      var s1 := TakeSnapshot(s, ver, snapshot);
      if !shown then s1.(fired := s1.fired + Fire(cb, false))
      else
        var s2 := Pass(s1, w);
        if cb.Fn? then s2.(updates := s2.updates + [Update(ver, cb.handle)]) else s2
  }

  /**
   * `DoWhenReady(name, arg, async, callback)`: `JSON` only names the next
   * dump (its callback is never called); without a batch connection the
   * callback fails at once; otherwise a command with the next id, bound to
   * the batch connection, is queued and a push pass follows. `batch` is what
   * `fWindow->MakeBatch()` returns.
   */
  function DoWhenReady(s: Painter, name: string, arg: string, cb: Callback, batch: nat, w: World): Painter {
    if name == "JSON" then s.(nextDumpName := arg)
    else if batch == 0 then s.(fired := s.fired + Fire(cb, false))
    else
      var (cmds, cnt) := Submit(s.cmds, s.cmdsCnt, name, arg, cb, batch);
      Pass(s.(cmds := cmds, cmdsCnt := cnt), w)
  }

  /**
   * `AddPanel(win)`: refused, with a diagnostic, without a window, with a
   * hidden one or without an address for the panel; otherwise an
   * `ADDPANEL:<addr>` command without callback is queued. `hasWindow`,
   * `shown` and `addr` are what the window reports.
   */
  function AddPanel(s: Painter, hasWindow: bool, shown: bool, addr: string, batch: nat, w: World): (r: (Painter, bool))
    ensures r.1 <==> hasWindow && shown && addr != ""
    ensures !r.1 ==> exists d :: r.0 == s.(effects := s.effects + [Logged(d)])
  {
    if !hasWindow then (s.(effects := s.effects + [Logged(PanelWithoutWindow)]), false)
    else if !shown then (s.(effects := s.effects + [Logged(PanelWindowHidden)]), false)
    else if addr == "" then (s.(effects := s.effects + [Logged(PanelNoAddress)]), false)
    else (DoWhenReady(s, "ADDPANEL:" + addr, "AddPanel", Null, batch, w), true)
  }

  /** The destructor: every command and every pending update fails. */
  function Close(s: Painter): Painter {
    CancelUpdates(CancelCommands(s, 0))
  }

  /**
   * Closing the painter leaves nothing queued and nothing pending: every
   * queued command is retired ready and used up.
   */
  lemma CloseEmpties(s: Painter)
    ensures var t := Close(s);
      && t.cmds == [] && t.updates == [] && t.snapDelivered == 0
      && |t.retired| == |s.retired| + |s.cmds|
      && (forall i :: |s.retired| <= i < |t.retired| ==> t.retired[i].ready && t.retired[i].callback == Null)
  {
    var r := CancelCmds(s.cmds, 0);
    CancelAllEmpties(s.cmds);
    CancelSelects(s.cmds, 0);
    var t := Close(s);
    assert t.retired == s.retired + r.removed;
    forall i | |s.retired| <= i < |t.retired| ensures t.retired[i].ready && t.retired[i].callback == Null {
      assert t.retired[i] == r.removed[i - |s.retired|];
    }
  }

  /** Every callback closing the painter fires is a failure, after those fired before. */
  lemma CloseFailsEverything(s: Painter)
    ensures var t := Close(s);
      && |t.fired| >= |s.fired| && t.fired[..|s.fired|] == s.fired
      && (forall i :: |s.fired| <= i < |t.fired| ==> !t.fired[i].ok)
  {
    var r := CancelCmds(s.cmds, 0);
    CancelSelects(s.cmds, 0);
    var t := Close(s);
    var fails := FailAll(s.updates);
    assert t.fired == s.fired + r.fired + fails;
    forall i | |s.fired| <= i < |t.fired| ensures !t.fired[i].ok {
      var j := i - |s.fired|;
      if j < |r.fired| {
        assert t.fired[i] == r.fired[j] && r.fired[j] in r.fired;
      } else {
        assert t.fired[i] == fails[j - |r.fired|];
      }
    }
  }
}
