/**
 * The command queue `fCmds`: submission with counter-issued ids, cancellation,
 * validation of a `REPLY:` against the front command and the completion of
 * that command (TCanvasPainter.cxx:247-261, 404-405, 411-426, 494-510, 676-705).
 */
module Commands {
  import opened Text
  import opened Records

  /** At most one command is in flight, and only the front can be. */
  predicate SingleFlight(cmds: seq<Command>) {
    forall i :: 0 < i < |cmds| ==> !cmds[i].running
  }

  /** Every queued command is still unfinished and has no result yet. */
  predicate Unfinished(cmds: seq<Command>) {
    forall i :: 0 <= i < |cmds| ==> !cmds[i].ready && !cmds[i].result
  }

  /**
   * Every queued id was issued by the counter: decimal text of a number in
   * `1..cnt`, strictly increasing from front to back.
   */
  predicate IdsIssued(cmds: seq<Command>, cnt: nat) {
    && (forall i :: 0 <= i < |cmds| ==> IsDecimal(cmds[i].id) && 1 <= ParseNat(cmds[i].id) <= cnt)
    && (forall i, j :: 0 <= i < j < |cmds| ==>
          IsDecimal(cmds[i].id) && IsDecimal(cmds[j].id) && ParseNat(cmds[i].id) < ParseNat(cmds[j].id))
  }

  /** `a` is `b` with some elements left out and the rest in their order. */
  ghost predicate Subsequence<T>(a: seq<T>, b: seq<T>)
    decreases |b|
  {
    if a == [] then true
    else if b == [] then false
    else (a[|a| - 1] == b[|b| - 1] && Subsequence(a[..|a| - 1], b[..|b| - 1])) || Subsequence(a, b[..|b| - 1])
  }

  /** `DoWhenReady` queueing (lines 404-405): the next counter value names a command bound to `connId`. */
  function Submit(cmds: seq<Command>, cnt: nat, name: string, arg: string, cb: Callback, connId: nat)
    : (r: (seq<Command>, nat))
  {
    (cmds + [Command(NatToString(cnt + 1), name, arg, false, false, false, cb, connId)], cnt + 1)
  }

  /** Appending keeps a single command in flight, and the new id differs from every queued one. */
  lemma SubmitKeepsQueue(cmds: seq<Command>, cnt: nat, name: string, arg: string, cb: Callback, connId: nat)
    requires SingleFlight(cmds) && Unfinished(cmds) && IdsIssued(cmds, cnt)
    ensures var (c, n) := Submit(cmds, cnt, name, arg, cb, connId);
      && n == cnt + 1 && c[..|cmds|] == cmds
      && SingleFlight(c) && Unfinished(c) && IdsIssued(c, n)
      && forall i :: 0 <= i < |cmds| ==> cmds[i].id != NatToString(n)
  {
    var (c, n) := Submit(cmds, cnt, name, arg, cb, connId);
    ParseNatToString(n);
    assert c[|cmds|].id == NatToString(n);
    forall i | 0 <= i < |cmds| ensures cmds[i].id != NatToString(n) {
      assert ParseNat(cmds[i].id) <= cnt;
    }
    assert IdsIssued(c, n) by {
      forall i, j | 0 <= i < j < |c|
        ensures IsDecimal(c[i].id) && IsDecimal(c[j].id) && ParseNat(c[i].id) < ParseNat(c[j].id)
      {
        if j < |cmds| { assert c[i] == cmds[i] && c[j] == cmds[j]; }
        else { assert c[i] == cmds[i]; }
      }
    }
  }

  /** `CancelCommands` selects a command when `connid` is 0 or names its connection (line 252). */
  predicate Cancels(connid: nat, c: Command) {
    connid == 0 || c.connId == connid
  }

  /** What `CancelCommands` leaves in the queue, what it takes out, and the callbacks it fires. */
  datatype Cancelled = Cancelled(kept: seq<Command>, removed: seq<Command>, fired: seq<Fired>)

  /** How a cancelled command ends (lines 253-255). */
  function Cancel(c: Command): (d: Command)
    ensures d == c.(ready := true, running := false, callback := Null)
  {
    CallBack(c, false).0.(ready := true, running := false)
  }

  /**
   * `CancelCommands(connid)` (lines 247-261): each selected command fails with
   * `false`, is marked ready and not running and leaves the queue; the others
   * stay in their order.
   */
  function CancelCmds(cmds: seq<Command>, connid: nat): (r: Cancelled)
    ensures |r.kept| + |r.removed| == |cmds|
    ensures |r.fired| <= |r.removed|
    decreases |cmds|
  {
    if cmds == [] then Cancelled([], [], [])
    else
      var init := cmds[..|cmds| - 1];
      var prev := CancelCmds(init, connid);
      var c := cmds[|cmds| - 1];
      if Cancels(connid, c) then
        Cancelled(prev.kept, prev.removed + [Cancel(c)], prev.fired + CallBack(c, false).1)
      else
        Cancelled(prev.kept + [c], prev.removed, prev.fired)
  }

  /**
   * The commands kept are exactly the unselected ones; every selected one is
   * removed, ready, not running and used up; every callback fired fails.
   */
  lemma {:induction false} CancelSelects(cmds: seq<Command>, connid: nat)
    ensures var r := CancelCmds(cmds, connid);
      && (forall c :: c in r.kept <==> c in cmds && !Cancels(connid, c))
      && (forall c :: c in cmds && Cancels(connid, c) ==> Cancel(c) in r.removed)
      && (forall i :: 0 <= i < |r.removed| ==>
            Cancels(connid, r.removed[i]) && r.removed[i].ready && !r.removed[i].running && r.removed[i].callback == Null)
      && (forall f :: f in r.fired ==> !f.ok)
    decreases |cmds|
  {
    if cmds != [] {
      var init := cmds[..|cmds| - 1];
      CancelSelects(init, connid);
      var c := cmds[|cmds| - 1];
      assert cmds == init + [c];
      var prev := CancelCmds(init, connid);
      if !Cancels(connid, c) {
        assert forall x :: x in prev.kept + [c] <==> x in cmds && !Cancels(connid, x);
      }
    }
  }

  /**
   * `CancelCommands(connid)` on the painter state: the selected commands leave
   * the queue for good, still held by their waiters, and their callbacks fire.
   */
  function CancelCommands(s: Painter, connid: nat): Painter {
    var r := CancelCmds(s.cmds, connid);
    s.(cmds := r.kept, retired := s.retired + r.removed, fired := s.fired + r.fired)
  }

  /** One more command of the scan: the prefix up to `i + 1` is the prefix up to `i` and command `i`. */
  lemma CancelCmdsStep(cmds: seq<Command>, i: nat, connid: nat)
    requires i < |cmds|
    ensures var prev := CancelCmds(cmds[..i], connid);
      var c := cmds[i];
      CancelCmds(cmds[..i + 1], connid)
        == if Cancels(connid, c) then Cancelled(prev.kept, prev.removed + [Cancel(c)], prev.fired + CallBack(c, false).1)
           else Cancelled(prev.kept + [c], prev.removed, prev.fired)
  {
    assert cmds[..i + 1][..i] == cmds[..i];
  }

  /** `CancelCommands()` with the default 0 empties the queue. */
  lemma {:induction false} CancelAllEmpties(cmds: seq<Command>)
    ensures CancelCmds(cmds, 0).kept == []
    ensures |CancelCmds(cmds, 0).removed| == |cmds|
    decreases |cmds|
  {
    if cmds != [] {
      CancelAllEmpties(cmds[..|cmds| - 1]);
    }
  }

  /** The commands kept are the original ones in their original order. */
  lemma {:induction false} CancelKeepsOrder(cmds: seq<Command>, connid: nat)
    ensures Subsequence(CancelCmds(cmds, connid).kept, cmds)
    decreases |cmds|
  {
    if cmds != [] {
      var init := cmds[..|cmds| - 1];
      CancelKeepsOrder(init, connid);
      var c := cmds[|cmds| - 1];
      var r := CancelCmds(cmds, connid);
      if !Cancels(connid, c) {
        assert r.kept[..|r.kept| - 1] == CancelCmds(init, connid).kept;
      }
    }
  }

  /**
   * Cancellation never puts a second command in flight: if the front was the
   * only one running, the new front is either that command or one that was
   * not running.
   */
  lemma {:induction false} CancelKeepsSingleFlight(cmds: seq<Command>, connid: nat)
    requires SingleFlight(cmds)
    ensures SingleFlight(CancelCmds(cmds, connid).kept)
    ensures Unfinished(cmds) ==> Unfinished(CancelCmds(cmds, connid).kept)
    ensures Unfinished(cmds) ==> forall i :: 0 <= i < |CancelCmds(cmds, connid).removed| ==>
      !CancelCmds(cmds, connid).removed[i].result
    decreases |cmds|
  {
    if cmds != [] {
      var init := cmds[..|cmds| - 1];
      CancelKeepsSingleFlight(init, connid);
      var prev := CancelCmds(init, connid);
      var r := CancelCmds(cmds, connid);
      var c := cmds[|cmds| - 1];
      if !Cancels(connid, c) {
        assert r.kept == prev.kept + [c];
        if |prev.kept| > 0 {
          assert |init| > 0;
          assert !c.running;
        }
      } else {
        assert r.removed == prev.removed + [Cancel(c)];
      }
    }
  }

  /** The ids left by a cancellation are still ordered: dropping elements keeps `IdsIssued`. */
  lemma {:induction false} SubsequenceKeepsIds(a: seq<Command>, b: seq<Command>, cnt: nat)
    requires Subsequence(a, b) && IdsIssued(b, cnt)
    ensures IdsIssued(a, cnt)
    ensures forall x :: x in a ==> x in b
    decreases |b|
  {
    if a != [] && b != [] {
      var b' := b[..|b| - 1];
      assert IdsIssued(b', cnt);
      if a[|a| - 1] == b[|b| - 1] && Subsequence(a[..|a| - 1], b') {
        var a' := a[..|a| - 1];
        SubsequenceKeepsIds(a', b', cnt);
        assert a == a' + [b[|b| - 1]];
        forall i, j | 0 <= i < j < |a|
          ensures IsDecimal(a[i].id) && IsDecimal(a[j].id) && ParseNat(a[i].id) < ParseNat(a[j].id)
        {
          if j == |a| - 1 {
            assert a'[i] in a';
            var k :| 0 <= k < |b'| && b'[k] == a'[i];
            assert b[k] == a[i];
          }
        }
      } else {
        SubsequenceKeepsIds(a, b', cnt);
      }
    }
  }

  /** The image-export verbs (line 685). */
  predicate IsImage(name: string) {
    name == "SVG" || name == "PNG" || name == "JPEG"
  }

  /**
   * The result `FrontCommandReplied` derives from a reply (lines 683-701): an
   * image export succeeds iff content came back, `ADDPANEL:...` iff the reply
   * is exactly `true`, and anything else fails.
   */
  function ReplyResult(name: string, reply: string): (ok: bool)
    ensures ok <==> (IsImage(name) && reply != "") || (StartsWith(name, "ADDPANEL:") && reply == "true")
  {
    if IsImage(name) then reply != ""
    else if StartsWith(name, "ADDPANEL:") then reply == "true"
    else false
  }

  /** The file write or the diagnostic that goes with a reply (lines 686-700). */
  function ReplyEffects(cmd: Command, reply: string): (e: seq<Effect>)
    ensures |e| <= 1
    ensures IsImage(cmd.name) && reply != "" ==> e == [WriteImage(cmd.arg, reply)]
    ensures IsImage(cmd.name) && reply == "" ==> e == [Logged(ImageFailed(cmd.arg))]
    ensures !IsImage(cmd.name) && StartsWith(cmd.name, "ADDPANEL:") ==> e == []
    ensures !IsImage(cmd.name) && !StartsWith(cmd.name, "ADDPANEL:") ==> e == [Logged(UnknownCommand(cmd.name))]
    // the file is written exactly when the command reports success as an image
    ensures (e != [] && e[0].WriteImage?) <==> IsImage(cmd.name) && ReplyResult(cmd.name, reply)
    // a diagnostic goes out exactly when the command fails, unless it is a panel request
    ensures (e != [] && e[0].Logged?) <==>
      !ReplyResult(cmd.name, reply) && (IsImage(cmd.name) || !StartsWith(cmd.name, "ADDPANEL:"))
  {
    if IsImage(cmd.name) then
      if reply == "" then [Logged(ImageFailed(cmd.arg))] else [WriteImage(cmd.arg, reply)]
    else if StartsWith(cmd.name, "ADDPANEL:") then []
    else [Logged(UnknownCommand(cmd.name))]
  }

  /** How the front command ends once replied (lines 681, 703-704). */
  function Completed(c: Command, reply: string): (d: Command)
    ensures d == c.(ready := true, result := ReplyResult(c.name, reply), callback := Null)
  {
    var res := ReplyResult(c.name, reply);
    CallBack(c.(ready := true, result := res), res).0
  }

  /**
   * `FrontCommandReplied` (lines 676-705): the front leaves the queue, is
   * marked ready with its result, and its callback fires with that result.
   */
  function FrontReplied(s: Painter, reply: string): (t: Painter)
    requires s.cmds != []
    ensures t.cmds == s.cmds[1..]
    ensures t.retired == s.retired + [Completed(s.cmds[0], reply)]
    ensures t.fired == s.fired + Fire(s.cmds[0].callback, ReplyResult(s.cmds[0].name, reply))
    ensures t.effects == s.effects + ReplyEffects(s.cmds[0], reply)
    ensures t == s.(cmds := t.cmds, retired := t.retired, fired := t.fired, effects := t.effects)
  {
    var cmd := s.cmds[0];
    var res := ReplyResult(cmd.name, reply);
    var (done, f) := CallBack(cmd.(ready := true, result := res), res);
    s.(cmds := s.cmds[1..], retired := s.retired + [done], fired := s.fired + f,
       effects := s.effects + ReplyEffects(cmd, reply))
  }

  /**
   * The three checks of lines 502-508: a command is queued, the front is
   * running, and the text before the first `:` is the front's id.
   */
  predicate ReplyAccepted(cmds: seq<Command>, body: string) {
    && cmds != []
    && cmds[0].running
    && SplitReply(body).Some?
    && SplitReply(body).value.0 == cmds[0].id
  }

  /**
   * The `REPLY:` branch (lines 494-510) on the body after the tag. Without a
   * `:` the source compares the front id with the empty string; counter ids
   * are never empty, so that case is a mismatch too.
   */
  function HandleReply(s: Painter, body: string): (t: Painter)
  {
    var parts := SplitReply(body);
    var id := if parts.Some? then parts.value.0 else "";
    if s.cmds == [] then s.(effects := s.effects + [Logged(ReplyWithoutCommand)])
    else if !s.cmds[0].running then s.(effects := s.effects + [Logged(FrontNotRunning)])
    else if s.cmds[0].id != id || parts.None? then s.(effects := s.effects + [Logged(ReplyIdMismatch)])
    else FrontReplied(s, parts.value.1)
  }

  /**
   * A reply is applied exactly when the three checks pass; otherwise only a
   * diagnostic is logged and the queue, the callbacks and everything else stay.
   */
  lemma ReplyValidation(s: Painter, body: string)
    ensures ReplyAccepted(s.cmds, body) ==>
      HandleReply(s, body) == FrontReplied(s, SplitReply(body).value.1)
    ensures !ReplyAccepted(s.cmds, body) ==>
      exists d :: HandleReply(s, body) == s.(effects := s.effects + [Logged(d)])
  {
    if !ReplyAccepted(s.cmds, body) {
      var t := HandleReply(s, body);
      if s.cmds == [] {
        assert t == s.(effects := s.effects + [Logged(ReplyWithoutCommand)]);
      } else if !s.cmds[0].running {
        assert t == s.(effects := s.effects + [Logged(FrontNotRunning)]);
      } else {
        assert t == s.(effects := s.effects + [Logged(ReplyIdMismatch)]);
      }
    }
  }

  /** A reply written `<id>:<payload>` for the running front command is taken. */
  lemma ReplyForFrontAccepted(cmds: seq<Command>, payload: string)
    requires cmds != [] && cmds[0].running
    requires ':' !in cmds[0].id && '\0' !in cmds[0].id && '\0' !in payload
    ensures ReplyAccepted(cmds, cmds[0].id + ":" + payload)
    ensures SplitReply(cmds[0].id + ":" + payload).value.1 == payload
  {
    SplitReplyJoin(cmds[0].id, payload);
  }

  /**
   * The predicate a blocking `DoWhenReady` waits on (lines 411-426): the
   * command's own outcome once ready, -2 when its connection has gone, -3 past
   * 100 seconds, otherwise 0 (keep waiting).
   */
  function CommandWait(cmd: Command, connAlive: bool, tm: real): (r: int)
    ensures r > 0 <==> cmd.ready && cmd.result
    ensures r == 0 <==> !cmd.ready && connAlive && tm <= 100.0
    ensures r == -1 <==> cmd.ready && !cmd.result
  {
    if cmd.ready then (if cmd.result then 1 else -1)
    else if !connAlive then -2
    else if tm > 100.0 then -3
    else 0
  }

  /** A cancelled command ends its waiter's wait with failure, whatever the window says. */
  lemma CancelledWaitFails(cmds: seq<Command>, connid: nat, i: nat, connAlive: bool, tm: real)
    requires Unfinished(cmds)
    requires i < |CancelCmds(cmds, connid).removed|
    ensures CommandWait(CancelCmds(cmds, connid).removed[i], connAlive, tm) == -1
  {
  }

  /** A replied command ends its waiter's wait with 1 exactly when the reply made it succeed. */
  lemma RepliedWaitVerdict(s: Painter, body: string, connAlive: bool, tm: real)
    requires ReplyAccepted(s.cmds, body)
    ensures var t := HandleReply(s, body);
      && |t.retired| == |s.retired| + 1
      && t.retired[|s.retired|].id == s.cmds[0].id
      && (CommandWait(t.retired[|s.retired|], connAlive, tm) == 1 <==>
          ReplyResult(s.cmds[0].name, SplitReply(body).value.1))
  {
    ReplyValidation(s, body);
  }
}
