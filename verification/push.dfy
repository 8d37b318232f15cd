/**
 * The push pass `CheckDataToSend` (TCanvasPainter.cxx:266-343): for each
 * connection in order at most one message, command before menu before
 * snapshot, then the delivered version is recomputed and pending updates are
 * resolved or cancelled.
 */
module Push {
  import opened Text
  import opened Records
  import opened Versions
  import opened Commands

  /** What the loop at lines 270-324 has built after some connections. */
  datatype Progress = Progress(conns: seq<Conn>, cmds: seq<Command>, outbox: seq<Sent>, maxDelivered: nat)

  /** Lines 281-282: the front command may go to `c`. */
  predicate CanDispatch(c: Conn, cmds: seq<Command>) {
    c.drawReady && cmds != [] && !cmds[0].running && (cmds[0].connId == 0 || cmds[0].connId == c.connId)
  }

  /** What serving one connection yields: its new record, the queue, and the message sent (none or one). */
  datatype Served = Served(conn: Conn, cmds: seq<Command>, msg: seq<Sent>)

  /**
   * Lines 276-323 for one connection `c`: nothing when the channel cannot
   * send; else the front command if it may go to `c`; else the pending menu
   * (always cleared, sent only for a known drawable); else the snapshot when
   * `c` does not have the current version.
   */
  function Serve(c: Conn, cmds: seq<Command>, snapVersion: nat, snapshot: string, w: World): (r: Served)
    ensures r.conn.connId == c.connId && r.conn.drawReady == c.drawReady && r.conn.delivered == c.delivered
    ensures r.conn.send == c.send || r.conn.send == snapVersion
    ensures r.conn.getMenu == c.getMenu || r.conn.getMenu == ""
    ensures |r.msg| <= 1
    ensures r.msg != [] ==> r.msg[0].connId == c.connId && c.connId in w.canSend
    ensures c.connId !in w.canSend ==> r == Served(c, cmds, [])
    ensures |r.cmds| == |cmds| && (cmds != [] ==> r.cmds[1..] == cmds[1..])
    ensures r.cmds != cmds <==> c.connId in w.canSend && CanDispatch(c, cmds)
    ensures r.cmds != cmds ==>
      && r.cmds[0] == cmds[0].(running := true, connId := c.connId)
      && r.msg == [Sent(c.connId, Cmd(cmds[0].id, cmds[0].name))]
      && r.conn == c
    ensures r.cmds == cmds ==> forall m :: m in r.msg ==> !m.payload.Cmd?
    ensures c.connId in w.canSend && !CanDispatch(c, cmds) && c.getMenu != "" ==>
      && r.conn == c.(getMenu := "") && r.cmds == cmds
      && r.msg == (if DrawableId(c.getMenu) in w.drawables
                   then [Sent(c.connId, Menu(c.getMenu, w.drawables[DrawableId(c.getMenu)]))] else [])
    ensures c.connId in w.canSend && !CanDispatch(c, cmds) && c.getMenu == "" ==>
      && r.conn == c.(send := snapVersion) && r.cmds == cmds
      && r.msg == (if c.send != snapVersion then [Sent(c.connId, Snap(snapVersion, snapshot))] else [])
  {
    if c.connId !in w.canSend then
      Served(c, cmds, [])
    else if CanDispatch(c, cmds) then
      var front := cmds[0].(running := true, connId := c.connId);
      assert cmds[0 := front] != cmds by { assert cmds[0 := front][0] != cmds[0]; }
      Served(c, cmds[0 := front], [Sent(c.connId, Cmd(front.id, front.name))])
    else if c.getMenu != "" then
      var target := DrawableId(c.getMenu);
      Served(c.(getMenu := ""), cmds,
             if target in w.drawables then [Sent(c.connId, Menu(c.getMenu, w.drawables[target]))] else [])
    else if c.send != snapVersion then
      Served(c.(send := snapVersion), cmds, [Sent(c.connId, Snap(snapVersion, snapshot))])
    else
      Served(c, cmds, [])
  }

  /** One iteration of the loop: `c` updates the running delivered value and is served. */
  function PushConn(p: Progress, c: Conn, snapVersion: nat, snapshot: string, w: World): Progress {
    var r := Serve(c, p.cmds, snapVersion, snapshot, w);
    Progress(p.conns + [r.conn], r.cmds, p.outbox + r.msg, DeliveredStep(p.maxDelivered, c.delivered))
  }

  /** The loop over the connections `cs`, starting from the queue `cmds` and the messages `out` sent before. */
  function PushAll(cs: seq<Conn>, cmds: seq<Command>, out: seq<Sent>, snapVersion: nat, snapshot: string, w: World)
    : (q: Progress)
    ensures |q.conns| == |cs| && |q.cmds| == |cmds|
    ensures |q.outbox| >= |out| && q.outbox[..|out|] == out
    ensures q.maxDelivered == MaxDelivered(cs)
    decreases |cs|
  {
    if cs == [] then Progress([], cmds, out, 0)
    else PushConn(PushAll(cs[..|cs| - 1], cmds, out, snapVersion, snapshot, w), cs[|cs| - 1], snapVersion, snapshot, w)
  }

  /** One more turn of the loop: the prefix up to `i + 1` is the prefix up to `i` and connection `i`. */
  lemma PushAllStep(cs: seq<Conn>, i: nat, cmds: seq<Command>, out: seq<Sent>, snapVersion: nat, snapshot: string, w: World)
    requires i < |cs|
    ensures PushAll(cs[..i + 1], cmds, out, snapVersion, snapshot, w)
         == PushConn(PushAll(cs[..i], cmds, out, snapVersion, snapshot, w), cs[i], snapVersion, snapshot, w)
  {
    assert cs[..i + 1][..i] == cs[..i];
  }

  /**
   * The whole of `CheckDataToSend` on the painter state: the loop, then the
   * cancellation of every pending update when no connection is left
   * (lines 327-328), or their resolution when the delivered version changed
   * (lines 330-342).
   */
  function Pass(s: Painter, w: World): (t: Painter)
    ensures |t.outbox| >= |s.outbox| && t.outbox[..|s.outbox|] == s.outbox
  {
    var p := PushAll(s.conns, s.cmds, s.outbox, s.snapVersion, s.snapshot, w);
    Settle(s.(conns := p.conns, cmds := p.cmds, outbox := p.outbox), p.maxDelivered)
  }

  /** Lines 326-342, after the loop found the delivered version `delivered`. */
  function Settle(s: Painter, delivered: nat): (t: Painter)
    ensures t == s.(snapDelivered := t.snapDelivered, updates := t.updates, fired := t.fired)
  {
    if s.conns == [] && s.snapDelivered != 0 then CancelUpdates(s)
    else if s.snapDelivered != delivered then
      var r := Resolve(s.updates, delivered);
      s.(snapDelivered := delivered, updates := r.pending, fired := s.fired + r.fired)
    else s
  }

  /** The fields a pass takes from the loop, and those only its epilogue may touch. */
  lemma PassFields(s: Painter, w: World)
    ensures var q := PushAll(s.conns, s.cmds, s.outbox, s.snapVersion, s.snapshot, w);
      var t := Pass(s, w);
      && t.conns == q.conns && t.cmds == q.cmds && t.outbox == q.outbox
      && t == s.(conns := q.conns, cmds := q.cmds, outbox := q.outbox,
                 snapDelivered := t.snapDelivered, updates := t.updates, fired := t.fired)
  {
  }

  /** Number of messages in `out` addressed to connection `id`. */
  function SentTo(out: seq<Sent>, id: nat): nat
    decreases |out|
  {
    if out == [] then 0
    else SentTo(out[..|out| - 1], id) + (if out[|out| - 1].connId == id then 1 else 0)
  }

  /** Number of records in `cs` for connection `id`. */
  function ConnsWith(cs: seq<Conn>, id: nat): nat
    decreases |cs|
  {
    if cs == [] then 0
    else ConnsWith(cs[..|cs| - 1], id) + (if cs[|cs| - 1].connId == id then 1 else 0)
  }

  /** Number of `CMD:` messages in `out`. */
  function CmdsSent(out: seq<Sent>): nat
    decreases |out|
  {
    if out == [] then 0
    else CmdsSent(out[..|out| - 1]) + (if out[|out| - 1].payload.Cmd? then 1 else 0)
  }

  /**
   * What a pass may do to one connection record `c`, leaving `d`: no change of
   * identity, readiness or delivered version, `fSend` kept or set to the
   * current version `v`, `fGetMenu` kept or cleared, and nothing at all when
   * the channel cannot send to it.
   */
  predicate Touched(c: Conn, d: Conn, v: nat, w: World) {
    && d.connId == c.connId && d.drawReady == c.drawReady && d.delivered == c.delivered
    && (d.send == c.send || d.send == v)
    && (d.getMenu == c.getMenu || d.getMenu == "")
    && (c.connId !in w.canSend ==> d == c)
  }

  /** The loop touches every connection record only as `Touched` allows. */
  lemma {:induction false} PushKeepsConns(cs: seq<Conn>, cmds: seq<Command>, out: seq<Sent>, v: nat, snap: string, w: World)
    ensures var q := PushAll(cs, cmds, out, v, snap, w);
      forall i :: 0 <= i < |cs| ==> Touched(cs[i], q.conns[i], v, w)
    decreases |cs|
  {
    if cs != [] {
      var init := cs[..|cs| - 1];
      PushKeepsConns(init, cmds, out, v, snap, w);
      var prev := PushAll(init, cmds, out, v, snap, w);
      var r := Serve(cs[|cs| - 1], prev.cmds, v, snap, w);
      var q := PushAll(cs, cmds, out, v, snap, w);
      assert q.conns == prev.conns + [r.conn];
      forall i | 0 <= i < |cs| ensures Touched(cs[i], q.conns[i], v, w) {
        if i < |init| {
          assert q.conns[i] == prev.conns[i] && cs[i] == init[i];
        } else {
          assert q.conns[i] == r.conn;
        }
      }
    }
  }

  /**
   * Only the front command can change in a pass, and only when it was not
   * running: it is then running and bound to a connection the channel can
   * send to (the one it was bound to, unless it was free).
   */
  lemma {:induction false} PushFront(cs: seq<Conn>, cmds: seq<Command>, out: seq<Sent>, v: nat, snap: string, w: World)
    ensures var q := PushAll(cs, cmds, out, v, snap, w);
      && (cmds != [] ==> q.cmds[1..] == cmds[1..])
      && (q.cmds != cmds ==>
            && !cmds[0].running
            && q.cmds[0] == cmds[0].(running := true, connId := q.cmds[0].connId)
            && q.cmds[0].connId in w.canSend
            && (exists i :: 0 <= i < |cs| && cs[i].connId == q.cmds[0].connId)
            && (cmds[0].connId == 0 || q.cmds[0].connId == cmds[0].connId))
    decreases |cs|
  {
    if cs != [] {
      var init := cs[..|cs| - 1];
      PushFront(init, cmds, out, v, snap, w);
      var prev := PushAll(init, cmds, out, v, snap, w);
      var r := Serve(cs[|cs| - 1], prev.cmds, v, snap, w);
      if prev.cmds != cmds {
        assert prev.cmds[0].running;
        assert r.cmds == prev.cmds;
        var i :| 0 <= i < |init| && init[i].connId == prev.cmds[0].connId;
        assert cs[i] == init[i];
      } else if r.cmds != cmds {
        assert cs[|cs| - 1].connId == r.cmds[0].connId;
      }
    }
  }

  /**
   * A pass sends exactly one `CMD:` message when it dispatches the front
   * command, and none otherwise.
   */
  lemma {:induction false} PushCmdCount(cs: seq<Conn>, cmds: seq<Command>, out: seq<Sent>, v: nat, snap: string, w: World)
    ensures var q := PushAll(cs, cmds, out, v, snap, w);
      CmdsSent(q.outbox) == CmdsSent(out) + (if q.cmds == cmds then 0 else 1)
    decreases |cs|
  {
    if cs != [] {
      var init := cs[..|cs| - 1];
      PushCmdCount(init, cmds, out, v, snap, w);
      var prev := PushAll(init, cmds, out, v, snap, w);
      var q := PushAll(cs, cmds, out, v, snap, w);
      var r := Serve(cs[|cs| - 1], prev.cmds, v, snap, w);
      assert q.outbox == prev.outbox + r.msg;
      if r.msg != [] {
        assert q.outbox[..|q.outbox| - 1] == prev.outbox;
        assert q.outbox[|q.outbox| - 1] == r.msg[0];
        assert CmdsSent(q.outbox) == CmdsSent(prev.outbox) + (if r.msg[0].payload.Cmd? then 1 else 0);
      } else {
        assert q.outbox == prev.outbox;
      }
      if prev.cmds != cmds {
        PushFront(init, cmds, out, v, snap, w);
        assert prev.cmds[0].running;
        assert r.cmds == prev.cmds;
      }
    }
  }

  /** The `CMD:` message of a dispatch names the front command and goes to the connection it is bound to. */
  lemma {:induction false} PushCmdMessage(cs: seq<Conn>, cmds: seq<Command>, out: seq<Sent>, v: nat, snap: string, w: World)
    ensures var q := PushAll(cs, cmds, out, v, snap, w);
      q.cmds != cmds ==> Sent(q.cmds[0].connId, Cmd(cmds[0].id, cmds[0].name)) in q.outbox[|out|..]
    decreases |cs|
  {
    if cs != [] {
      var init := cs[..|cs| - 1];
      PushCmdMessage(init, cmds, out, v, snap, w);
      var prev := PushAll(init, cmds, out, v, snap, w);
      var q := PushAll(cs, cmds, out, v, snap, w);
      var r := Serve(cs[|cs| - 1], prev.cmds, v, snap, w);
      assert q.outbox[|out|..] == prev.outbox[|out|..] + r.msg;
      if prev.cmds != cmds {
        PushFront(init, cmds, out, v, snap, w);
        assert prev.cmds[0].running;
        assert r.cmds == prev.cmds;
      }
    }
  }

  /**
   * One message per connection per pass: a pass adds to the messages for
   * connection `x` at most as many as there are records for `x`, and none
   * when the channel cannot send to `x`.
   */
  lemma {:induction false} PushOnePerConn(cs: seq<Conn>, cmds: seq<Command>, out: seq<Sent>, v: nat, snap: string, w: World, x: nat)
    ensures var q := PushAll(cs, cmds, out, v, snap, w);
      SentTo(q.outbox, x) <= SentTo(out, x) + (if x in w.canSend then ConnsWith(cs, x) else 0)
    decreases |cs|
  {
    if cs != [] {
      var init := cs[..|cs| - 1];
      PushOnePerConn(init, cmds, out, v, snap, w, x);
      var prev := PushAll(init, cmds, out, v, snap, w);
      var q := PushAll(cs, cmds, out, v, snap, w);
      var r := Serve(cs[|cs| - 1], prev.cmds, v, snap, w);
      assert q.outbox == prev.outbox + r.msg;
      var c := cs[|cs| - 1];
      assert ConnsWith(cs, x) == ConnsWith(init, x) + (if c.connId == x then 1 else 0);
      if r.msg != [] {
        assert q.outbox[..|q.outbox| - 1] == prev.outbox;
        assert q.outbox[|q.outbox| - 1] == r.msg[0];
        assert SentTo(q.outbox, x) == SentTo(prev.outbox, x) + (if r.msg[0].connId == x then 1 else 0);
      } else {
        assert q.outbox == prev.outbox;
      }
    }
  }

  /**
   * What the pass does for a connection `c` that does not take the front
   * command, now `d` (lines 290-318): a pending menu request is cleared and
   * answered with the menu when the drawable is known, with `fSend` kept;
   * otherwise the record takes the current version `v`
   * and is sent the snapshot when it did not have that version.
   */
  predicate Answered(c: Conn, d: Conn, v: nat, snap: string, sent: seq<Sent>, w: World) {
    && (c.getMenu != "" ==>
          && d == c.(getMenu := "")
          && (DrawableId(c.getMenu) in w.drawables ==>
                Sent(c.connId, Menu(c.getMenu, w.drawables[DrawableId(c.getMenu)])) in sent))
    && (c.getMenu == "" ==>
          && d == c.(send := v)
          && (c.send != v ==> Sent(c.connId, Snap(v, snap)) in sent))
  }

  /**
   * Priority order for a connection `c` the channel can send to: either the
   * front command went to it and its record is left as it was, menu request
   * and `fSend` included, or it is answered as `Answered` says.
   */
  predicate ServedConn(c: Conn, d: Conn, v: nat, snap: string, sent: seq<Sent>,
                       cmds: seq<Command>, q: seq<Command>, w: World) {
    c.connId in w.canSend ==>
      Answered(c, d, v, snap, sent, w) || (q != cmds && q != [] && q[0].connId == c.connId && d == c)
  }

  /** After a pass every connection the channel can send to is served as `ServedConn` says. */
  lemma {:induction false} PushServes(cs: seq<Conn>, cmds: seq<Command>, out: seq<Sent>, v: nat, snap: string, w: World)
    ensures var q := PushAll(cs, cmds, out, v, snap, w);
      forall i :: 0 <= i < |cs| ==> ServedConn(cs[i], q.conns[i], v, snap, q.outbox[|out|..], cmds, q.cmds, w)
    decreases |cs|
  {
    if cs != [] {
      var init := cs[..|cs| - 1];
      var c := cs[|cs| - 1];
      PushServes(init, cmds, out, v, snap, w);
      PushFront(init, cmds, out, v, snap, w);
      var prev := PushAll(init, cmds, out, v, snap, w);
      var r := Serve(c, prev.cmds, v, snap, w);
      var q := PushAll(cs, cmds, out, v, snap, w);
      assert q.conns == prev.conns + [r.conn] && q.cmds == r.cmds;
      assert q.outbox == prev.outbox + r.msg;
      var sent := q.outbox[|out|..];
      assert sent == prev.outbox[|out|..] + r.msg;
      if prev.cmds != cmds {
        assert prev.cmds[0].running;
        assert r.cmds == prev.cmds;
      }
      ServeServedLast(c, prev.cmds, cmds, prev.outbox[|out|..], v, snap, w);
      forall i | 0 <= i < |cs|
        ensures ServedConn(cs[i], q.conns[i], v, snap, sent, cmds, q.cmds, w)
      {
        if i < |init| {
          assert q.conns[i] == prev.conns[i] && cs[i] == init[i];
          ServedExtends(init[i], prev.conns[i], v, snap, prev.outbox[|out|..], r.msg, cmds, prev.cmds, q.cmds, w);
        } else {
          assert i == |init|;
          assert cs[i] == c && q.conns[i] == r.conn;
        }
      }
    }
  }

  /** A connection stays served when more is sent and a queue it did not take stays as it was. */
  lemma ServedExtends(c: Conn, d: Conn, v: nat, snap: string, sent: seq<Sent>, extra: seq<Sent>,
                      cmds: seq<Command>, q: seq<Command>, q2: seq<Command>, w: World)
    requires ServedConn(c, d, v, snap, sent, cmds, q, w)
    requires q != cmds ==> q2 == q
    ensures ServedConn(c, d, v, snap, sent + extra, cmds, q2, w)
  {
  }

  /**
   * The connection served last is served as `ServedConn` says, measured
   * against the queue before the pass: a queue that already changed has its
   * front running, so it cannot be dispatched again.
   */
  lemma ServeServedLast(c: Conn, q: seq<Command>, cmds: seq<Command>, before: seq<Sent>, v: nat, snap: string, w: World)
    requires q != cmds ==> q != [] && q[0].running
    ensures var r := Serve(c, q, v, snap, w);
      ServedConn(c, r.conn, v, snap, before + r.msg, cmds, r.cmds, w)
  {
    var r := Serve(c, q, v, snap, w);
    if c.connId in w.canSend && !CanDispatch(c, q) {
      assert r.msg == [] || r.msg[0] in before + r.msg;
    }
  }

  /**
   * After a pass the delivered version is the largest delivered version of
   * any connection (0 with none), and the connection list still agrees on
   * every delivered version, so the two stay in step.
   */
  lemma PassDelivered(s: Painter, w: World)
    ensures Pass(s, w).snapDelivered == MaxDelivered(s.conns)
    ensures Pass(s, w).snapDelivered == MaxDelivered(Pass(s, w).conns)
  {
    PushKeepsConns(s.conns, s.cmds, s.outbox, s.snapVersion, s.snapshot, w);
    var p := PushAll(s.conns, s.cmds, s.outbox, s.snapVersion, s.snapshot, w);
    MaxDeliveredSame(s.conns, p.conns);
  }

  /**
   * How a pass treats pending updates. With no connection left and a non-zero
   * delivered version, every pending update fails and the version drops to 0.
   * When the delivered version changes otherwise, exactly the updates it
   * covers fire `true`, in list order, and leave; the others stay in order.
   * When it does not change, nothing happens to them.
   */
  lemma PassUpdates(s: Painter, w: World)
    ensures var t := Pass(s, w);
      && (s.conns == [] && s.snapDelivered != 0 ==>
            t.snapDelivered == 0 && t.updates == [] && t.fired == s.fired + FailAll(s.updates))
      && (s.conns != [] && t.snapDelivered != s.snapDelivered ==>
            && t.updates == Above(s.updates, t.snapDelivered)
            && t.fired == s.fired + FireTrue(AtOrBelow(s.updates, t.snapDelivered))
            && (forall u :: u in t.updates <==> u in s.updates && u.version > t.snapDelivered)
            && t.fired[..|s.fired|] == s.fired
            && (forall f :: f in t.fired[|s.fired|..] ==> f.ok)
            && (forall u :: u in s.updates && u.version <= t.snapDelivered ==> Fired(u.handle, true) in t.fired[|s.fired|..]))
      && (t.snapDelivered == s.snapDelivered ==> t.updates == s.updates && t.fired == s.fired)
  {
    PassDelivered(s, w);
    PushKeepsConns(s.conns, s.cmds, s.outbox, s.snapVersion, s.snapshot, w);
    var t := Pass(s, w);
    if s.conns != [] && t.snapDelivered != s.snapDelivered {
      var r := Resolve(s.updates, t.snapDelivered);
      ResolveSelects(s.updates, t.snapDelivered);
      assert t.fired == s.fired + r.fired;
      assert t.fired[|s.fired|..] == r.fired;
    }
  }

  /**
   * The pass as a whole: only the front command can change, and when it does
   * a single `CMD:` message carries it; no connection receives more than one
   * message; the outbox only grows.
   */
  lemma PassCommands(s: Painter, w: World, x: nat)
    ensures var t := Pass(s, w);
      && |t.cmds| == |s.cmds| && (s.cmds != [] ==> t.cmds[1..] == s.cmds[1..])
      && (SingleFlight(s.cmds) ==> SingleFlight(t.cmds))
      && t.outbox[..|s.outbox|] == s.outbox
      && CmdsSent(t.outbox) <= CmdsSent(s.outbox) + 1
      && SentTo(t.outbox, x) <= SentTo(s.outbox, x) + (if x in w.canSend then ConnsWith(s.conns, x) else 0)
  {
    PushFront(s.conns, s.cmds, s.outbox, s.snapVersion, s.snapshot, w);
    PushCmdCount(s.conns, s.cmds, s.outbox, s.snapVersion, s.snapshot, w);
    PushOnePerConn(s.conns, s.cmds, s.outbox, s.snapVersion, s.snapshot, w, x);
  }

  /**
   * The pass as each viewer sees it: a connection the channel can send to
   * either gets the front command, or has its menu request answered with its
   * version kept, or is brought to the current version, the snapshot being
   * sent to it when it did not have that version.
   */
  lemma PassServes(s: Painter, w: World)
    ensures var t := Pass(s, w);
      && |t.conns| == |s.conns|
      && forall i :: 0 <= i < |s.conns| ==>
           ServedConn(s.conns[i], t.conns[i], s.snapVersion, s.snapshot, t.outbox[|s.outbox|..], s.cmds, t.cmds, w)
  {
    PassFields(s, w);
    PushServes(s.conns, s.cmds, s.outbox, s.snapVersion, s.snapshot, w);
  }

  /**
   * A snapshot owed is a snapshot delivered: a connection that can send, has
   * no menu request and lacks the current version gets `SNAP:` in the pass,
   * unless the pass sends it the front command instead. Then its record is
   * left as it was, still owing the snapshot, and the front it took is
   * running, so the next pass cannot take that turn again.
   */
  lemma SnapshotOwed(s: Painter, k: nat, w: World)
    requires k < |s.conns| && s.conns[k].connId in w.canSend
    requires s.conns[k].getMenu == "" && s.conns[k].send != s.snapVersion
    ensures var t := Pass(s, w);
      || Sent(s.conns[k].connId, Snap(s.snapVersion, s.snapshot)) in t.outbox[|s.outbox|..]
      || (&& t.cmds != s.cmds && t.cmds != [] && t.cmds[0].connId == s.conns[k].connId && t.cmds[0].running
          && k < |t.conns| && t.conns[k] == s.conns[k]
          && t.snapVersion == s.snapVersion && t.snapshot == s.snapshot)
    ensures s.cmds == [] || s.cmds[0].running ==>
      Sent(s.conns[k].connId, Snap(s.snapVersion, s.snapshot)) in Pass(s, w).outbox[|s.outbox|..]
  {
    PassFields(s, w);
    PushFront(s.conns, s.cmds, s.outbox, s.snapVersion, s.snapshot, w);
    PassServes(s, w);
    assert ServedConn(s.conns[k], Pass(s, w).conns[k], s.snapVersion, s.snapshot,
                      Pass(s, w).outbox[|s.outbox|..], s.cmds, Pass(s, w).cmds, w);
  }
}
