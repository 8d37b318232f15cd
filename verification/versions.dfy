/**
 * Version tracking: the delivered version recomputed by the push pass, the
 * pending `Canvas::Update()` callbacks it resolves, their cancellation and the
 * two read-only questions callers ask (TCanvasPainter.cxx:155, 220-241, 268-273,
 * 326-342).
 */
module Versions {
  import opened Records

  /**
   * One step of the scan at line 272: a non-zero `fDelivered` replaces the
   * running value when that is still 0 or smaller.
   */
  function DeliveredStep(m: nat, d: nat): nat {
    if d != 0 && (m == 0 || m < d) then d else m
  }

  /**
   * The value `min_delivered` has after the loop of `CheckDataToSend`. Despite
   * its name it is the LARGEST delivered version of any connection (0 when
   * none has reported one).
   */
  function MaxDelivered(conns: seq<Conn>): (r: nat)
    ensures forall i :: 0 <= i < |conns| ==> conns[i].delivered <= r
    ensures r == 0 || exists i :: 0 <= i < |conns| && conns[i].delivered == r
    decreases |conns|
  {
    if conns == [] then 0
    else
      var init := conns[..|conns| - 1];
      var m := MaxDelivered(init);
      assert forall i :: 0 <= i < |init| ==> init[i] == conns[i];
      assert m != 0 ==> exists i :: 0 <= i < |conns| - 1 && conns[i].delivered == m;
      DeliveredStep(m, conns[|conns| - 1].delivered)
  }

  /** Two connection lists that agree on every delivered version give the same maximum. */
  lemma {:induction false} MaxDeliveredSame(a: seq<Conn>, b: seq<Conn>)
    requires |a| == |b|
    requires forall i :: 0 <= i < |a| ==> a[i].delivered == b[i].delivered
    ensures MaxDelivered(a) == MaxDelivered(b)
    decreases |a|
  {
    if a != [] {
      MaxDeliveredSame(a[..|a| - 1], b[..|b| - 1]);
    }
  }

  /** Pending updates that survive a change of the delivered version, and the callbacks fired. */
  datatype Resolved = Resolved(pending: seq<Update>, fired: seq<Fired>)

  /** The updates of `ups` waiting for a version above `delivered`, in their order. */
  function Above(ups: seq<Update>, delivered: nat): seq<Update>
    decreases |ups|
  {
    if ups == [] then []
    else (if ups[0].version > delivered then [ups[0]] else []) + Above(ups[1..], delivered)
  }

  /** The updates of `ups` that a version `delivered` covers, in their order. */
  function AtOrBelow(ups: seq<Update>, delivered: nat): seq<Update>
    decreases |ups|
  {
    if ups == [] then []
    else (if ups[0].version <= delivered then [ups[0]] else []) + AtOrBelow(ups[1..], delivered)
  }

  /** Each update's callback called with `true`, in list order. */
  function FireTrue(ups: seq<Update>): (r: seq<Fired>)
    ensures |r| == |ups|
    ensures forall i :: 0 <= i < |ups| ==> r[i] == Fired(ups[i].handle, true)
    decreases |ups|
  {
    if ups == [] then [] else [Fired(ups[0].handle, true)] + FireTrue(ups[1..])
  }

  /** The filters take one more update at the back as the loop of lines 334-341 does. */
  lemma {:induction false} FiltersSnoc(ups: seq<Update>, u: Update, delivered: nat)
    ensures Above(ups + [u], delivered) == Above(ups, delivered) + (if u.version > delivered then [u] else [])
    ensures AtOrBelow(ups + [u], delivered) == AtOrBelow(ups, delivered) + (if u.version <= delivered then [u] else [])
    decreases |ups|
  {
    if ups != [] {
      assert (ups + [u])[1..] == ups[1..] + [u];
      FiltersSnoc(ups[1..], u, delivered);
    }
  }

  /**
   * Lines 333-341: every update with `fVersion <= delivered` fires `true` and is
   * removed, in list order; the others stay, in order. No update waiting for
   * a higher version fires.
   */
  function Resolve(ups: seq<Update>, delivered: nat): (r: Resolved)
    ensures |r.pending| + |r.fired| == |ups|
    ensures r.pending == Above(ups, delivered)
    ensures r.fired == FireTrue(AtOrBelow(ups, delivered))
    decreases |ups|
  {
    if ups == [] then Resolved([], [])
    else
      var init := ups[..|ups| - 1];
      var prev := Resolve(init, delivered);
      var u := ups[|ups| - 1];
      assert ups == init + [u];
      FiltersSnoc(init, u, delivered);
      if u.version <= delivered then
        assert FireTrue(AtOrBelow(init, delivered) + [u]) == prev.fired + [Fired(u.handle, true)];
        Resolved(prev.pending, prev.fired + [Fired(u.handle, true)])
      else Resolved(prev.pending + [u], prev.fired)
  }

  /** An update is in `Above` exactly when it is in the list above `delivered`, and in `AtOrBelow` for the others. */
  lemma {:induction false} FiltersMembers(ups: seq<Update>, delivered: nat)
    ensures forall u :: u in Above(ups, delivered) <==> u in ups && u.version > delivered
    ensures forall u :: u in AtOrBelow(ups, delivered) <==> u in ups && u.version <= delivered
    decreases |ups|
  {
    if ups != [] {
      FiltersMembers(ups[1..], delivered);
      assert ups == [ups[0]] + ups[1..];
    }
  }

  /**
   * Exactly the updates waiting for a version above `delivered` stay pending;
   * each of the others fires `true`, and nothing fires `false`.
   */
  lemma ResolveSelects(ups: seq<Update>, delivered: nat)
    ensures var r := Resolve(ups, delivered);
      && (forall i :: 0 <= i < |r.pending| ==> r.pending[i].version > delivered)
      && (forall u :: u in r.pending <==> u in ups && u.version > delivered)
      && (forall f :: f in r.fired ==> f.ok)
      && (forall u :: u in ups && u.version <= delivered ==> Fired(u.handle, true) in r.fired)
  {
    var r := Resolve(ups, delivered);
    var low := AtOrBelow(ups, delivered);
    FiltersMembers(ups, delivered);
    forall u | u in ups && u.version <= delivered
      ensures Fired(u.handle, true) in r.fired
    {
      var i :| 0 <= i < |low| && low[i] == u;
      assert r.fired[i] == Fired(u.handle, true);
    }
  }

  /** `CancelUpdates` (lines 232-241): every pending update fires `false`, in order. */
  function FailAll(ups: seq<Update>): (r: seq<Fired>)
    ensures |r| == |ups|
    ensures forall i :: 0 <= i < |ups| ==> r[i] == Fired(ups[i].handle, false)
    decreases |ups|
  {
    if ups == [] then [] else FailAll(ups[..|ups| - 1]) + [Fired(ups[|ups| - 1].handle, false)]
  }

  /** `CancelUpdates` on the whole state: the delivered version drops to 0 and the list empties. */
  function CancelUpdates(s: Painter): (t: Painter)
    ensures t.snapDelivered == 0 && t.updates == []
    ensures t.fired == s.fired + FailAll(s.updates)
    ensures t == s.(snapDelivered := 0, updates := [], fired := t.fired)
  {
    s.(snapDelivered := 0, updates := [], fired := s.fired + FailAll(s.updates))
  }

  /**
   * `CheckDeliveredVersion` (lines 220-227), the predicate a blocking
   * `CanvasUpdated` waits on: -1 when every viewer has gone after some existed,
   * 1 once `ver` is delivered, 0 while it is not.
   */
  function CheckDeliveredVersion(s: Painter, ver: nat): (r: int)
    ensures r == -1 <==> s.conns == [] && s.hadConn
    ensures r == 1 <==> !(s.conns == [] && s.hadConn) && s.snapDelivered >= ver
    ensures -1 <= r <= 1
  {
    if s.conns == [] && s.hadConn then -1
    else if s.snapDelivered >= ver then 1
    else 0
  }

  /** `IsCanvasModified` (line 155). */
  function IsCanvasModified(s: Painter, id: nat): (r: bool)
    ensures r <==> s.snapDelivered != id
  {
    s.snapDelivered != id
  }

  /**
   * The delivered version as the comment on `fSnapshotDelivered` (line 110) describes it: the
   * smallest non-zero delivered version among connected viewers. Kept as a
   * reference to show where the code differs from it.
   */
  function MinDelivered(conns: seq<Conn>): (r: nat)
    ensures r == 0 || exists i :: 0 <= i < |conns| && conns[i].delivered == r
    ensures forall i :: 0 <= i < |conns| && conns[i].delivered != 0 ==> r != 0 && r <= conns[i].delivered
    decreases |conns|
  {
    if conns == [] then 0
    else
      var m := MinDelivered(conns[..|conns| - 1]);
      var d := conns[|conns| - 1].delivered;
      if d != 0 && (m == 0 || d < m) then d else m
  }

  /**
   * The maximum the code keeps and the minimum the comment describes agree
   * exactly when all viewers that have reported a version report the same one.
   */
  lemma MaxIsMinIffAgreed(conns: seq<Conn>)
    ensures MaxDelivered(conns) == MinDelivered(conns) <==>
      forall i, j :: 0 <= i < |conns| && 0 <= j < |conns| && conns[i].delivered != 0 && conns[j].delivered != 0 ==>
        conns[i].delivered == conns[j].delivered
  {
  }

  /**
   * The code keeps the maximum: with one viewer at version 3 and another at 2
   * the painter reports 3 delivered, where a minimum would give 2.
   */
  lemma TwoViewersReportLargest()
    ensures MaxDelivered([Conn(1, true, "", 3, 3), Conn(2, true, "", 3, 2)]) == 3
    ensures MinDelivered([Conn(1, true, "", 3, 3), Conn(2, true, "", 3, 2)]) == 2
  {
    var cs := [Conn(1, true, "", 3, 3), Conn(2, true, "", 3, 2)];
    assert cs[..1] == [cs[0]];
    assert cs[..1][..0] == [];
  }
}
