/** Rolling back what clients did to the screen. */
module ScreenRollback {
  import opened BridgeTypes
  import opened PackAxis
  import opened RandrScreen

  /** What clients can ask of the screen. */
  datatype Request =
    | SetCrtcConfig(crtc: nat, x: i16, y: i16, mode: nat)
    | SetScreenSize(width: u16, height: u16)
    | Create(width: u16, height: u16)
    | Add(output: nat, mode: nat)
    | Delete(output: nat, mode: nat)
    | Destroy(mode: nat)

  /** Whether a CRTC request is served from the model alone, without the compositor. */
  predicate Local(s: State, crtc: nat, mode: nat) {
    match WithCrtc(s.outputs, crtc)
    case None => false
    case Some(i) =>
      mode == 0 || (ModeSize(s.modes, mode).Some?
        && (!s.outputs[i].IsWayland() || ModeSize(s.modes, mode).value == (s.outputs[i].width, s.outputs[i].height)))
  }

  /** What a request does to the screen before the compositor has a say. */
  function Serve(s: State, r: Request): State {
    match r
    case SetCrtcConfig(crtc, x, y, mode) => if Local(s, crtc, mode) then SetCrtc(s, crtc, x, y, mode).0 else s
    case SetScreenSize(w, h) => if w == 0 || h == 0 || w > MAX_SCREEN || h > MAX_SCREEN then s else SetSize(s, w, h)
    case Create(w, h) => CreateMode(s, w, h)
    case Add(output, mode) => AddOutputMode(s, output, mode)
    case Delete(output, mode) => DeleteOutputMode(s, output, mode)
    case Destroy(mode) => DestroyMode(s, mode)
  }

  function ServeAll(s: State, rs: seq<Request>): State {
    if rs == [] then s else Serve(ServeAll(s, rs[..|rs| - 1]), rs[|rs| - 1])
  }

  // --- what is kept throughout ---

  /** Mode ids have been allocated, in order; none is 0, which stands for disabled. */
  ghost predicate Allocated(modes: seq<Mode>, nextId: nat) {
    && nextId > 0
    && (forall m :: m in modes ==> 0 < m.id < nextId)
    && (forall i, j :: 0 <= i < j < |modes| ==> modes[i].id < modes[j].id)
  }

  predicate AllWayland(outputs: seq<Output>) {
    forall i :: 0 <= i < |outputs| ==> outputs[i].IsWayland() && outputs[i].connected
  }

  predicate AllDriven(s: State) {
    forall i :: 0 <= i < |s.outputs| ==> Driven(s.modes, s.outputs[i])
  }

  /** The compositor's outputs, each enabled at its own size, laid out, on a screen that bounds them. */
  ghost predicate Settled(s: State) {
    && Allocated(s.modes, s.nextId) && AllWayland(s.outputs) && AllDriven(s)
    && Relaid(s.outputs) == s.outputs
    && BoundsOf(s.outputs) == (s.width, s.height)
  }

  lemma {:induction false} KeptModes(modes: seq<Mode>, not: nat, nextId: nat)
    requires Allocated(modes, nextId)
    ensures Allocated(KeepModes(modes, not), nextId)
    ensures forall m :: m in KeepModes(modes, not) ==> m in modes
  {
    if modes != [] {
      KeptModes(modes[1..], not, nextId);
      forall m | m in KeepModes(modes[1..], not) ensures modes[0].id < m.id {
        var i :| 0 <= i < |modes[1..]| && modes[1..][i] == m;
        assert modes[0].id < modes[i + 1].id;
      }
    }
  }

  lemma {:induction false} KnownModesAreAllocated(modes: seq<Mode>, nextId: nat, id: nat)
    requires Allocated(modes, nextId) && ModeSize(modes, id).Some?
    ensures 0 < id < nextId
  {
    if modes[0].id != id {
      KnownModesAreAllocated(modes[1..], nextId, id);
    }
  }

  lemma SameDevicesCompose(a: seq<Output>, b: seq<Output>, c: seq<Output>)
    requires SameDevices(a, b) && SameDevices(b, c)
    ensures SameDevices(a, c)
  {
    forall i | 0 <= i < |a| ensures SameDevice(a[i], c[i]) {
      assert SameDevice(a[i], b[i]) && SameDevice(b[i], c[i]);
    }
  }

  /** No request changes which outputs there are, their sizes or their logical layout. */
  lemma RequestsKeepDevices(s: State, r: Request)
    requires Allocated(s.modes, s.nextId) && AllWayland(s.outputs)
    ensures Allocated(Serve(s, r).modes, Serve(s, r).nextId)
    ensures SameDevices(s.outputs, Serve(s, r).outputs)
  {
    hide ModeSize, WithId, WithCrtc, KeepIds;
    match r
    case Destroy(mode) =>
      KeptModes(s.modes, mode, s.nextId);
    case _ =>
  }

  lemma {:induction false} RunsKeepDevices(s: State, rs: seq<Request>)
    requires Allocated(s.modes, s.nextId) && AllWayland(s.outputs)
    ensures Allocated(ServeAll(s, rs).modes, ServeAll(s, rs).nextId)
    ensures SameDevices(s.outputs, ServeAll(s, rs).outputs)
  {
    if rs != [] {
      var t := ServeAll(s, rs[..|rs| - 1]);
      RunsKeepDevices(s, rs[..|rs| - 1]);
      StillWayland(s.outputs, t.outputs);
      RequestsKeepDevices(t, rs[|rs| - 1]);
      SameDevicesCompose(s.outputs, t.outputs, ServeAll(s, rs).outputs);
    }
  }

  // --- restoring ---

  lemma {:induction false} AddedMode(modes: seq<Mode>, m: Mode, id: nat)
    requires ModeSize(modes, m.id) == None
    ensures ModeSize(modes + [m], id) == if id == m.id then Some((m.width, m.height)) else ModeSize(modes, id)
  {
    if modes != [] {
      assert (modes + [m])[1..] == modes[1..] + [m];
      if modes[0].id != m.id {
        AddedMode(modes[1..], m, id);
      }
    }
  }

  lemma {:induction false} NextIdIsUnknown(modes: seq<Mode>, nextId: nat)
    requires Allocated(modes, nextId)
    ensures ModeSize(modes, nextId) == None
  {
    if modes != [] {
      NextIdIsUnknown(modes[1..], nextId);
    }
  }

  /** Restoring an output drives it, and leaves every driven output driven. */
  lemma RestoreOneDrives(s: State, i: nat)
    requires i < |s.outputs| && Allocated(s.modes, s.nextId) && s.outputs[i].IsWayland()
    ensures var t := RestoreOne(s, i).0;
            && Allocated(t.modes, t.nextId)
            && Driven(t.modes, t.outputs[i])
            && (forall j :: 0 <= j < |s.outputs| && Driven(s.modes, s.outputs[j]) ==> Driven(t.modes, t.outputs[j]))
    ensures Driven(s.modes, s.outputs[i]) ==> RestoreOne(s, i) == (s, false)
  {
    var o := s.outputs[i];
    NextIdIsUnknown(s.modes, s.nextId);
    forall j | 0 <= j < |s.outputs| && Driven(s.modes, s.outputs[j])
      ensures Driven(RestoreOne(s, i).0.modes, RestoreOne(s, i).0.outputs[j])
    {
      AddedMode(s.modes, Mode(s.nextId, o.width, o.height, true), s.outputs[j].mode);
      hide ModeSize, ListedMode;
    }
    AddedMode(s.modes, Mode(s.nextId, o.width, o.height, true), s.nextId);
  }

  lemma {:induction false} RestoreFirstDrives(s: State, n: nat)
    requires n <= |s.outputs| && Allocated(s.modes, s.nextId) && AllWayland(s.outputs)
    ensures var t := RestoreFirst(s, n).0;
            && Allocated(t.modes, t.nextId)
            && (forall j :: 0 <= j < n ==> Driven(t.modes, t.outputs[j]))
    ensures AllDriven(s) ==> RestoreFirst(s, n) == (s, false)
  {
    hide ModeSize, RestoreOne, Driven;
    if n > 0 {
      RestoreFirstDrives(s, n - 1);
      var t := RestoreFirst(s, n - 1).0;
      RestoreKeepsDevices(s, n - 1);
      assert SameDevice(s.outputs[n - 1], t.outputs[n - 1]);
      RestoreOneDrives(t, n - 1);
    }
  }

  /** The layout is a function of the devices alone. */
  lemma LayoutFollowsDevices(a: seq<Output>, b: seq<Output>)
    requires SameDevices(a, b)
    ensures SameDevices(b, Relaid(b))
    ensures forall i :: 0 <= i < |a| ==>
      Relaid(b)[i] == b[i].(x := Relaid(a)[i].x, y := Relaid(a)[i].y)
  {
    assert Columns(a) == Columns(b) && Rows(a) == Rows(b) by {
      forall i | 0 <= i < |a| ensures Columns(a)[i] == Columns(b)[i] && Rows(a)[i] == Rows(b)[i] {
        assert SameDevice(a[i], b[i]);
      }
    }
  }

  ghost predicate SamePlace(o: Output, p: Output) {
    SameDevice(o, p) && o.x == p.x && o.y == p.y
  }

  ghost predicate SamePlaces(a: seq<Output>, b: seq<Output>) {
    |a| == |b| && forall i :: 0 <= i < |a| ==> SamePlace(a[i], b[i])
  }

  ghost predicate AllEnabled(outputs: seq<Output>) {
    forall i :: 0 <= i < |outputs| ==> outputs[i].mode != 0
  }

  lemma {:induction false} BoundsFollowPlaces(a: seq<Output>, b: seq<Output>)
    requires SamePlaces(a, b) && AllEnabled(a) && AllEnabled(b)
    ensures BoundX(a) == BoundX(b) && BoundY(a) == BoundY(b)
  {
    if a != [] {
      var n := |a| - 1;
      assert SamePlace(a[n], b[n]);
      assert SamePlaces(a[..n], b[..n]) by {
        forall i | 0 <= i < n ensures SamePlace(a[..n][i], b[..n][i]) {
          assert SamePlace(a[i], b[i]);
        }
      }
      BoundsFollowPlaces(a[..n], b[..n]);
    }
  }

  lemma DrivenIsEnabled(s: State)
    requires Allocated(s.modes, s.nextId) && AllDriven(s)
    ensures AllEnabled(s.outputs)
  {
    forall i | 0 <= i < |s.outputs| ensures s.outputs[i].mode != 0 {
      assert Driven(s.modes, s.outputs[i]);
      KnownModesAreAllocated(s.modes, s.nextId, s.outputs[i].mode);
    }
  }

  lemma LayoutIsStable(outputs: seq<Output>)
    ensures Relaid(Relaid(outputs)) == Relaid(outputs) && SameDevices(outputs, Relaid(outputs))
    ensures forall i :: 0 <= i < |outputs| ==> Relaid(outputs)[i].mode == outputs[i].mode
  {
    hide Starts;
    LayoutFollowsDevices(outputs, outputs);
    LayoutFollowsDevices(outputs, Relaid(outputs));
  }

  lemma DrivenStaysDriven(modes: seq<Mode>, a: seq<Output>, b: seq<Output>)
    requires SameDevices(a, b) && forall i :: 0 <= i < |a| ==> Driven(modes, a[i]) && b[i].mode == a[i].mode
    ensures forall i :: 0 <= i < |b| ==> Driven(modes, b[i])
  {
    hide ModeSize;
    forall i | 0 <= i < |b| ensures Driven(modes, b[i]) {
      assert SameDevice(a[i], b[i]) && Driven(modes, a[i]);
    }
  }

  lemma StillWayland(a: seq<Output>, b: seq<Output>)
    requires SameDevices(a, b) && AllWayland(a)
    ensures AllWayland(b)
  {
    forall i | 0 <= i < |b| ensures b[i].IsWayland() && b[i].connected {
      assert SameDevice(a[i], b[i]);
    }
  }

  lemma RestoredParts(s: State)
    ensures var t, r := RestoreFirst(s, |s.outputs|).0, Restore(s).0;
            && r.outputs == Relaid(t.outputs) && r.modes == t.modes && r.nextId == t.nextId
            && (r.width, r.height) == BoundsOf(r.outputs)
  {
    hide RestoreFirst, BoundsOf, Relaid;
  }

  /** Whatever the state, restoring it settles it. */
  lemma RestoreSettles(s: State)
    requires Allocated(s.modes, s.nextId) && AllWayland(s.outputs)
    ensures Settled(Restore(s).0) && SameDevices(s.outputs, Restore(s).0.outputs)
  {
    var t := RestoreFirst(s, |s.outputs|).0;
    RestoreFirstDrives(s, |s.outputs|);
    RestoreKeepsDevices(s, |s.outputs|);
    LayoutIsStable(t.outputs);
    RestoredParts(s);
    hide Restore, RestoreFirst, BoundsOf, Relaid, Driven, SameDevices, AllWayland, Allocated;
    var relaid := Relaid(t.outputs);
    SameDevicesCompose(s.outputs, t.outputs, relaid);
    StillWayland(s.outputs, relaid);
    DrivenStaysDriven(t.modes, t.outputs, relaid);
  }

  /** Restoring a settled screen changes nothing, and says so. */
  lemma RestoringSettledIsNothing(s: State)
    requires Settled(s)
    ensures Restore(s) == (s, false)
  {
    RestoreFirstDrives(s, |s.outputs|);
  }

  /** The rollback: after any requests that the compositor did not grant, restoring a screen that was settled
      gives back every position, every size and the screen's own size, with each output enabled at a mode of
      its real size; and restoring once more changes nothing. */
  lemma RollbackIsComplete(s: State, rs: seq<Request>)
    requires Settled(s)
    ensures var r := Restore(ServeAll(s, rs)).0;
            && Settled(r)
            && SamePlaces(s.outputs, r.outputs)
            && (r.width, r.height) == (s.width, s.height)
            && Restore(r) == (r, false)
  {
    var t := ServeAll(s, rs);
    RunsKeepDevices(s, rs);
    StillWayland(s.outputs, t.outputs);
    RestoreSettles(t);
    var r := Restore(t).0;
    hide Restore, Relaid, ServeAll, BoundX, BoundY;
    RestoringSettledIsNothing(r);
    SameDevicesCompose(s.outputs, t.outputs, r.outputs);
    LayoutFollowsDevices(s.outputs, r.outputs);
    forall i | 0 <= i < |s.outputs| ensures SamePlace(s.outputs[i], r.outputs[i]) {
      assert SameDevice(s.outputs[i], r.outputs[i]);
      assert Relaid(s.outputs)[i] == s.outputs[i] && Relaid(r.outputs)[i] == r.outputs[i];
    }
    DrivenIsEnabled(s);
    DrivenIsEnabled(r);
    BoundsFollowPlaces(s.outputs, r.outputs);
  }

  // --- what restoring reports ---

  lemma {:induction false} DrivenAreLeft(s: State, n: nat)
    requires n <= |s.outputs| && forall j :: 0 <= j < n ==> Driven(s.modes, s.outputs[j])
    ensures RestoreFirst(s, n) == (s, false)
  {
    if n > 0 {
      DrivenAreLeft(s, n - 1);
    }
  }

  lemma {:induction false} ChangedStays(s: State, n: nat, m: nat)
    requires n <= m <= |s.outputs| && RestoreFirst(s, n).1
    ensures RestoreFirst(s, m).1
  {
    if n < m {
      ChangedStays(s, n, m - 1);
    }
  }

  lemma {:induction false} FirstUndriven(s: State, n: nat) returns (i: nat)
    requires n <= |s.outputs| && exists j :: 0 <= j < n && !Driven(s.modes, s.outputs[j])
    ensures i < n && !Driven(s.modes, s.outputs[i]) && forall j :: 0 <= j < i ==> Driven(s.modes, s.outputs[j])
  {
    hide Driven;
    if j: nat :| j < n - 1 && !Driven(s.modes, s.outputs[j]) {
      i := FirstUndriven(s, n - 1);
    } else {
      i := n - 1;
    }
  }

  /** Restoring says that something changed exactly if some output was not at a mode of its size, or the outputs in
      their places do not bound to the screen's size. */
  lemma RestoreReportsIff(s: State)
    requires AllWayland(s.outputs)
    ensures Restore(s).1 <==> !AllDriven(s) || BoundsOf(Relaid(s.outputs)) != (s.width, s.height)
  {
    if AllDriven(s) {
      DrivenAreLeft(s, |s.outputs|);
    } else {
      var i := FirstUndriven(s, |s.outputs|);
      DrivenAreLeft(s, i);
      assert s.outputs[i].IsWayland();
      assert RestoreFirst(s, i + 1).1 by {
        assert RestoreOne(s, i).1;
      }
      ChangedStays(s, i + 1, |s.outputs|);
    }
  }

  lemma MovedIs(s: State, i: nat, x: i16, y: i16)
    requires Settled(s) && i < |s.outputs| && WithCrtc(s.outputs, s.outputs[i].crtc) == Some(i)
    ensures SetCrtc(s, s.outputs[i].crtc, x, y, s.outputs[i].mode).0
         == Bump(s.(outputs := s.outputs[i := s.outputs[i].(x := x, y := y)]))
  {
    hide Relaid, BoundsOf, Allocated, AllWayland;
    assert Driven(s.modes, s.outputs[i]);
    hide ModeSize, AllDriven;
  }

  lemma MovedSame(s: State, i: nat, x: i16, y: i16)
    requires Settled(s) && i < |s.outputs|
    ensures var outputs := s.outputs[i := s.outputs[i].(x := x, y := y)];
            && Relaid(outputs) == s.outputs && AllWayland(outputs)
            && forall j :: 0 <= j < |outputs| ==> Driven(s.modes, outputs[j])
  {
    hide Relaid, BoundsOf, Allocated, ModeSize, Bump;
    var outputs := s.outputs[i := s.outputs[i].(x := x, y := y)];
    forall j | 0 <= j < |outputs| ensures Driven(s.modes, outputs[j]) {
      assert Driven(s.modes, s.outputs[j]);
    }
    assert SameDevices(s.outputs, outputs);
    StillWayland(s.outputs, outputs);
    LayoutFollowsDevices(s.outputs, outputs);
    hide Driven, SameDevices;
    forall j | 0 <= j < |s.outputs| ensures Relaid(outputs)[j] == s.outputs[j] {
      assert Relaid(outputs)[j] == outputs[j].(x := s.outputs[j].x, y := s.outputs[j].y);
    }
  }

  /** So a CRTC a client moved is put back without a word. */
  lemma MovesAreUndoneSilently(s: State, i: nat, x: i16, y: i16)
    requires Settled(s) && i < |s.outputs| && WithCrtc(s.outputs, s.outputs[i].crtc) == Some(i)
    ensures var t := SetCrtc(s, s.outputs[i].crtc, x, y, s.outputs[i].mode).0;
            && !Restore(t).1 && t.outputs[i].x == x && t.outputs[i].y == y
            && (Restore(t).0.outputs[i].x, Restore(t).0.outputs[i].y) == (s.outputs[i].x, s.outputs[i].y)
  {
    var t := SetCrtc(s, s.outputs[i].crtc, x, y, s.outputs[i].mode).0;
    MovedIs(s, i, x, y);
    MovedSame(s, i, x, y);
    hide SetCrtc, Relaid, BoundsOf, Driven, Restore;
    RestoreReportsIff(t);
    RestoredParts(t);
    DrivenAreLeft(t, |t.outputs|);
  }
}
