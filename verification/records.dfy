/**
 * The records the canvas painter keeps (TCanvasPainter.cxx:49-111) and the
 * observable traces of what it does: messages pushed to viewers, callbacks
 * fired and calls made into the outside world.
 */
module Records {
  import opened Text

  /** A `CanvasCallback_t`: `Null` is `nullptr`, `Fn(h)` a callable the caller names `h`. */
  datatype Callback = Null | Fn(handle: nat)

  /** One invocation of a caller's callback with its boolean result. */
  datatype Fired = Fired(handle: nat, ok: bool)

  /** `WebConn` (lines 49-57): one record per viewer connection. */
  datatype Conn = Conn(
    connId: nat,      // fConnId
    drawReady: bool,  // fDrawReady: first drawing done
    getMenu: string,  // fGetMenu: drawable id of a pending menu request, "" for none
    send: nat,        // fSend: snapshot version pushed to the viewer
    delivered: nat)   // fDelivered: snapshot version the viewer reported drawn

  /** `WebConn(connid)`: a fresh record with every other field at its default. */
  function NewConn(connId: nat): (c: Conn)
    ensures c.connId == connId && !c.drawReady && c.getMenu == "" && c.send == 0 && c.delivered == 0
  {
    Conn(connId, false, "", 0, 0)
  }

  /** `WebCommand` (lines 59-80). */
  datatype Command = Command(
    id: string,          // fId, decimal text of the command counter
    name: string,        // fName: "SVG", "PNG", "JPEG", "ADDPANEL:<addr>", ...
    arg: string,         // fArg
    running: bool,       // fRunning: sent to a viewer
    ready: bool,         // fReady: finished
    result: bool,        // fResult
    callback: Callback,  // fCallback
    connId: nat)         // fConnId: connection serving it, 0 for any

  /**
   * `WebCommand::CallBack` (lines 74-79): invoke the callback if it is still
   * set, then clear it, so a second call fires nothing.
   */
  function CallBack(c: Command, res: bool): (r: (Command, seq<Fired>))
    ensures r.0 == c.(callback := Null)
    ensures |r.1| <= 1
    ensures r.1 != [] <==> c.callback.Fn?
    ensures r.1 != [] ==> r.1[0] == Fired(c.callback.handle, res)
  {
    (c.(callback := Null), Fire(c.callback, res))
  }

  /** Calling `callback(res)` guarded by `if (callback)`. */
  function Fire(cb: Callback, res: bool): seq<Fired> {
    if cb.Fn? then [Fired(cb.handle, res)] else []
  }

  /**
   * `WebUpdate` (lines 82-92). Only a non-null callback is ever stored
   * (line 373), so an update holds the handle of a callable.
   */
  datatype Update = Update(version: nat, handle: nat)

  /** The three kinds of message the push pass sends. */
  datatype Payload =
    | Cmd(id: string, name: string)           // "CMD:<id>:<name>"
    | Menu(target: string, json: string)      // "MENU:<target>:<json>"
    | Snap(version: nat, snapshot: string)    // "SNAP:<version>:<snapshot>"

  /** The text handed to `fWindow->Send` (lines 286-289, 302-305, 314-317). */
  function Wire(p: Payload): (t: string)
    ensures p.Cmd? ==> StartsWith(t, "CMD:")
    ensures p.Menu? ==> StartsWith(t, "MENU:")
    ensures p.Snap? ==> StartsWith(t, "SNAP:")
  {
    match p
    case Cmd(id, name) => "CMD:" + id + ":" + name
    case Menu(target, json) => "MENU:" + target + ":" + json
    case Snap(v, snap) => "SNAP:" + NatToString(v) + ":" + snap
  }

  /**
   * A viewer reading the pushed text back recovers what was sent: after the
   * tag, splitting at the first `:` gives the command id and name, the menu
   * target and its JSON, or the decimal version and the snapshot. The id of
   * a command and the target of a menu must themselves be free of `:`;
   * versions always are.
   */
  lemma WireReadsBack(p: Payload)
    requires p.Cmd? ==> p.id != [] && ':' !in p.id
    requires p.Menu? ==> p.target != [] && ':' !in p.target
    ensures p.Cmd? ==> StartsWith(Wire(p), "CMD:") && SplitHead(Wire(p)[4..]) == Some((p.id, p.name))
    ensures p.Menu? ==> StartsWith(Wire(p), "MENU:") && SplitHead(Wire(p)[5..]) == Some((p.target, p.json))
    ensures p.Snap? ==> StartsWith(Wire(p), "SNAP:") && SplitHead(Wire(p)[5..]).Some?
    ensures p.Snap? ==> var h := SplitHead(Wire(p)[5..]).value;
      IsDecimal(h.0) && ParseNat(h.0) == p.version && h.1 == p.snapshot
  {
    match p
    case Cmd(id, name) =>
      assert Wire(p)[4..] == id + ":" + name;
      SplitHeadJoin(id, name);
    case Menu(target, json) =>
      assert Wire(p)[5..] == target + ":" + json;
      SplitHeadJoin(target, json);
    case Snap(v, snap) =>
      var digits := NatToString(v);
      assert ':' !in digits;
      assert Wire(p)[5..] == digits + ":" + snap;
      SplitHeadJoin(digits, snap);
      ParseNatToString(v);
  }

  /** One `fWindow->Send(connid, text)`. */
  datatype Sent = Sent(connId: nat, payload: Payload)

  /** Diagnostics the painter logs as errors. */
  datatype Diagnostic =
    | ReplyWithoutCommand      // line 503
    | FrontNotRunning          // line 505
    | ReplyIdMismatch          // line 507
    | NoSaveSeparator          // line 657
    | ImageFailed(arg: string) // line 687
    | UnknownCommand(name: string) // line 700
    | NotRecognized(arg: string)   // line 532
    | PanelWithoutWindow       // line 578
    | PanelWindowHidden        // line 583
    | PanelNoAddress           // line 590

  /** Calls into code outside the model, recorded in the order they happen. */
  datatype Effect =
    | Terminate                              // TWebWindowsManager::Terminate, line 488
    | SetInterrupt                           // gROOT->SetInterrupt, line 493
    | SaveFile(fileName: string, base64: string)     // lines 664-668
    | WriteImage(fileName: string, base64: string)   // lines 689-692
    | Execute(drawable: string, instruction: string) // line 526
    | DumpJson(fileName: string)             // CreateSnapshot export, lines 622-626
    | Logged(what: Diagnostic)

  /** The whole state of one painter, field for field (lines 101-113), with its traces. */
  datatype Painter = Painter(
    conns: seq<Conn>,        // fWebConn
    hadConn: bool,           // fHadWebConn
    cmds: seq<Command>,      // fCmds
    cmdsCnt: nat,            // fCmdsCnt
    snapVersion: nat,        // fSnapshotVersion
    snapshot: string,        // fSnapshot
    snapDelivered: nat,      // fSnapshotDelivered
    updates: seq<Update>,    // fUpdatesLst
    nextDumpName: string,    // fNextDumpName
    outbox: seq<Sent>,       // everything sent to viewers so far
    fired: seq<Fired>,       // every callback invocation so far
    effects: seq<Effect>,    // every outside call so far
    retired: seq<Command>)   // commands that left fCmds, as their waiters still see them

  /** A freshly constructed painter (line 142). */
  function Initial(): (s: Painter)
    ensures s.conns == [] && !s.hadConn && s.cmds == [] && s.cmdsCnt == 0
    ensures s.snapVersion == 0 && s.snapDelivered == 0 && s.updates == []
  {
    Painter([], false, [], 0, 0, "", 0, [], "", [], [], [], [])
  }

  /** The external window as one push pass sees it. */
  datatype World = World(
    canSend: set<nat>,               // connections for which CanSend(connid, true) holds
    drawables: map<string, string>)  // drawable id -> JSON of its menu; absent: FindDrawable gives null
}
