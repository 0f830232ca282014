/** What the compositor's changes keep: a settled screen, and no native mode left behind. */
module ScreenTheorems {
  import opened BridgeTypes
  import opened PackAxis
  import opened RandrScreen
  import opened ScreenRollback

  /** A connected Wayland output at a mode of its own size, which it lists. */
  predicate Sound(modes: seq<Mode>, o: Output) {
    o.IsWayland() && o.connected && Driven(modes, o) && o.mode in o.modeIds
  }

  ghost predicate AllSound(s: State) {
    forall o :: o in s.outputs ==> Sound(s.modes, o)
  }

  // --- pruning ---

  /** A mode survives pruning exactly if a client made it or an output lists it. */
  lemma {:induction false} PruneKeepsIff(modes: seq<Mode>, outputs: seq<Output>, m: Mode)
    ensures m in Pruned(modes, outputs) <==> m in modes && (!m.ours || Listed(outputs, m.id))
  {
    hide Listed;
    if modes != [] {
      PruneKeepsIff(modes[1..], outputs, m);
    }
  }

  lemma {:induction false} PruneKeepsSizes(modes: seq<Mode>, outputs: seq<Output>, id: nat)
    ensures Listed(outputs, id) ==> ModeSize(Pruned(modes, outputs), id) == ModeSize(modes, id)
  {
    hide Listed;
    if modes != [] {
      PruneKeepsSizes(modes[1..], outputs, id);
      var rest := Pruned(modes[1..], outputs);
      assert ([modes[0]] + rest)[1..] == rest && [] + rest == rest;
    }
  }

  lemma {:induction false} PrunedIsAllocated(modes: seq<Mode>, outputs: seq<Output>, nextId: nat)
    requires Allocated(modes, nextId)
    ensures Allocated(Pruned(modes, outputs), nextId)
  {
    hide Listed;
    if modes != [] {
      PrunedIsAllocated(modes[1..], outputs, nextId);
      forall m | m in Pruned(modes[1..], outputs) ensures modes[0].id < m.id < nextId {
        PruneKeepsIff(modes[1..], outputs, m);
        var i :| 0 <= i < |modes[1..]| && modes[1..][i] == m;
        assert modes[0].id < modes[i + 1].id;
      }
    }
  }

  /** Pruning never strands an output that lists its own mode. */
  lemma PruneKeepsSound(s: State, outputs: seq<Output>)
    requires forall o :: o in outputs ==> Sound(s.modes, o)
    ensures forall o :: o in outputs ==> Sound(Pruned(s.modes, outputs), o)
  {
    forall o | o in outputs ensures Sound(Pruned(s.modes, outputs), o) {
      var i :| 0 <= i < |outputs| && outputs[i] == o;
      assert Listed(outputs, o.mode);
      PruneKeepsSizes(s.modes, outputs, o.mode);
    }
  }

  // --- laying out again ---

  lemma RearrangedSettles(s: State)
    requires Allocated(s.modes, s.nextId) && AllSound(s)
    ensures Settled(Rearranged(s)) && AllSound(Rearranged(s)) && SameDevices(s.outputs, Rearranged(s).outputs)
    ensures Rearranged(s).modes == s.modes && Rearranged(s).nextId == s.nextId
    ensures forall i :: 0 <= i < |s.outputs| ==>
      Rearranged(s).outputs[i] == s.outputs[i].(x := Rearranged(s).outputs[i].x, y := Rearranged(s).outputs[i].y)
  {
    LayoutIsStable(s.outputs);
    hide BoundX, BoundY, Starts, ModeSize;
    var relaid := Relaid(s.outputs);
    forall i | 0 <= i < |relaid| ensures Sound(s.modes, relaid[i]) {
      assert s.outputs[i] in s.outputs && Sound(s.modes, s.outputs[i]);
    }
    var r := Rearranged(s);
    hide Relaid;
    assert AllWayland(r.outputs) && AllDriven(r) by {
      forall i | 0 <= i < |r.outputs| ensures Sound(r.modes, r.outputs[i]) {
        assert Sound(s.modes, relaid[i]);
      }
    }
  }

  // --- a report from the compositor ---

  lemma {:induction false} StaleSpares(modes: seq<Mode>, ids: seq<nat>, current: nat, id: nat)
    ensures id in Stale(modes, ids, current) <==> id != current && id in ids && exists m :: m in modes && m.ours && m.id == id
  {
    if modes != [] {
      StaleSpares(modes[1..], ids, current, id);
      assert modes == [modes[0]] + modes[1..];
      if m :| m in modes && m.ours && m.id == id {
        assert m == modes[0] || m in modes[1..];
      }
    }
  }

  lemma {:induction false} NativesAre(modes: seq<Mode>, current: nat, size: (u16, u16), id: nat)
    ensures id in Natives(modes, current, size)
       <==> id != current && exists m :: m in modes && m.ours && m.id == id && (m.width, m.height) == size
  {
    if modes != [] {
      NativesAre(modes[1..], current, size, id);
      assert modes == [modes[0]] + modes[1..];
      if m :| m in modes && m.ours && m.id == id && (m.width, m.height) == size {
        assert m == modes[0] || m in modes[1..];
      }
    }
  }

  lemma {:induction false} MinusIs(ids: seq<nat>, drop: seq<nat>, id: nat)
    ensures id in Minus(ids, drop) <==> id in ids && id !in drop
  {
    if ids != [] {
      MinusIs(ids[1..], drop, id);
    }
  }

  lemma NewModeIsAllocated(s: State, w: u16, h: u16)
    requires Allocated(s.modes, s.nextId)
    ensures var m := Mode(s.nextId, w, h, true);
            Allocated(s.modes + [m], s.nextId + 1) && ModeSize(s.modes + [m], m.id) == Some((w, h))
            && forall id :: ModeSize(s.modes, id).Some? ==> ModeSize(s.modes + [m], id) == ModeSize(s.modes, id)
  {
    var m := Mode(s.nextId, w, h, true);
    NextIdIsUnknown(s.modes, s.nextId);
    forall id ensures ModeSize(s.modes, id).Some? ==> ModeSize(s.modes + [m], id) == ModeSize(s.modes, id) {
      AddedMode(s.modes, m, id);
    }
    AddedMode(s.modes, m, m.id);
    hide ModeSize;
    forall k | k in s.modes + [m] ensures 0 < k.id < s.nextId + 1 {
    }
    forall i | 0 <= i < |s.modes| ensures s.modes[i].id < m.id {
      assert s.modes[i] in s.modes;
    }
  }

  /** The mode found for an output has the reported size, and no known mode has changed. */
  lemma ModeForDrives(s: State, o: Output, r: Report)
    requires Allocated(s.modes, s.nextId)
    ensures var (t, mode) := ModeFor(s, o, r);
            && Allocated(t.modes, t.nextId) && t.outputs == s.outputs
            && ModeSize(t.modes, mode) == Some((r.width, r.height))
            && (forall id :: ModeSize(s.modes, id).Some? ==> ModeSize(t.modes, id) == ModeSize(s.modes, id))
            && (forall m :: m in t.modes ==> m in s.modes || m.id == mode)
  {
    NewModeIsAllocated(s, r.width, r.height);
    hide ModeSize, Allocated;
  }

  /** The output lists no native mode but the one it is at. */
  ghost predicate OwnNativeOnly(modes: seq<Mode>, o: Output) {
    forall m :: m in modes && m.ours && m.id in o.modeIds ==> m.id == o.mode
  }

  lemma RetiredIsSound(s: State, i: nat, p: Output)
    requires i < |s.outputs| && Allocated(s.modes, s.nextId) && Sound(s.modes, p)
    requires forall j :: 0 <= j < |s.outputs| && j != i ==> Sound(s.modes, s.outputs[j])
    ensures var t := Retired(s, i, p);
            && Allocated(t.modes, t.nextId) && AllSound(t) && |t.outputs| == |s.outputs|
            && t.outputs[i] == p.(modeIds := t.outputs[i].modeIds) && OwnNativeOnly(t.modes, t.outputs[i])
            && (forall j :: 0 <= j < |s.outputs| && j != i ==> t.outputs[j] == s.outputs[j])
            && (forall m :: m in t.modes ==> m in s.modes)
  {
    hide ModeSize, Pruned, Stale, Minus, Allocated;
    var stale := Stale(s.modes, p.modeIds, p.mode);
    forall id ensures id in stale <==> id != p.mode && id in p.modeIds && exists m :: m in s.modes && m.ours && m.id == id {
      StaleSpares(s.modes, p.modeIds, p.mode, id);
    }
    if stale != [] {
      var q := p.(modeIds := Minus(p.modeIds, stale));
      var outputs := s.outputs[i := q];
      forall id ensures id in q.modeIds <==> id in p.modeIds && id !in stale {
        MinusIs(p.modeIds, stale, id);
      }
      PrunedIsAllocated(s.modes, outputs, s.nextId);
      PruneKeepsSound(s, outputs);
      forall m ensures m in Pruned(s.modes, outputs) ==> m in s.modes {
        PruneKeepsIff(s.modes, outputs, m);
      }
    } else {
      forall m | m in s.modes && m.ours && m.id in p.modeIds ensures m.id == p.mode {
        assert m.id !in stale;
      }
    }
  }

  /** The outputs besides `i` are sound. */
  ghost predicate OthersSound(s: State, i: nat) {
    forall j :: 0 <= j < |s.outputs| && j != i ==> Sound(s.modes, s.outputs[j])
  }

  lemma RedrivenIsSound(s: State, i: nat, r: Report)
    requires i < |s.outputs| && Allocated(s.modes, s.nextId) && OthersSound(s, i)
    requires s.outputs[i].IsWayland() && s.outputs[i].connected
    ensures var t := Redriven(s, i, r);
            && Allocated(t.modes, t.nextId) && AllSound(t) && |t.outputs| == |s.outputs|
            && SameDevice(t.outputs[i], Reported(s.outputs[i], r, 0)) && OwnNativeOnly(t.modes, t.outputs[i])
  {
    hide ModeSize, Pruned, Stale, Minus, Allocated, ListedMode;
    ModeForDrives(s, s.outputs[i], r);
    var (t, mode) := ModeFor(s, s.outputs[i], r);
    hide ModeFor;
    RetiredIsSound(t, i, Reported(s.outputs[i], r, mode));
  }

  lemma {:induction false} OnlyWaylandKeeps(outputs: seq<Output>, o: Output)
    ensures o in OnlyWayland(outputs) <==> o in outputs && o.IsWayland()
  {
    if outputs != [] {
      OnlyWaylandKeeps(outputs[1..], o);
    }
  }

  lemma JoinedIsSound(s: State, r: Report)
    requires Allocated(s.modes, s.nextId) && r.wlName != 0
    requires forall o :: o in s.outputs && o.IsWayland() ==> Sound(s.modes, o)
    ensures var t := Joined(s, r); Allocated(t.modes, t.nextId) && AllSound(t)
    ensures exists o :: o in Joined(s, r).outputs && o.wlName == r.wlName && (o.width, o.height) == (r.width, r.height)
  {
    hide Pruned, ModeSize, OnlyWayland;
    NewModeIsAllocated(s, r.width, r.height);
    var o := Output(s.nextId + 1, s.nextId + 2, 0, 0, r.width, r.height, r.lx, r.ly, r.lw, r.lh, s.nextId, [s.nextId], r.wlName, true);
    var all := s.(modes := s.modes + [Mode(s.nextId, r.width, r.height, true)]);
    var outputs := OnlyWayland(s.outputs + [o]);
    forall p | p in outputs ensures Sound(all.modes, p) {
      OnlyWaylandKeeps(s.outputs + [o], p);
    }
    OnlyWaylandKeeps(s.outputs + [o], o);
    PruneKeepsSound(all, outputs);
    PrunedIsAllocated(all.modes, outputs, s.nextId + 1);
  }

  /** A report that changes anything settles the screen, whatever clients had done to the output it is about,
      as long as they left the other outputs enabled at modes they list. */
  lemma ReportsSettle(s: State, r: Report)
    requires Allocated(s.modes, s.nextId) && r.wlName != 0
    requires forall o :: o in s.outputs && o.IsWayland() ==> o.connected && (o.wlName != r.wlName ==> Sound(s.modes, o))
    requires forall i, j :: 0 <= i < j < |s.outputs| ==> s.outputs[i].wlName != s.outputs[j].wlName
    requires (exists o :: o in s.outputs && o.wlName == r.wlName) ==> forall o :: o in s.outputs ==> o.IsWayland()
    ensures var (t, changed) := Sync(s, r);
            if changed then Settled(t) && AllSound(t) else t == s
  {
    hide Rearranged, Redriven, Joined, ModeSize, Pruned, Allocated, Settled, Sound;
    match WithWlName(s.outputs, r.wlName)
    case None =>
      forall o | o in s.outputs && o.IsWayland() ensures Sound(s.modes, o) {
        var i :| 0 <= i < |s.outputs| && s.outputs[i] == o;
      }
      JoinedIsSound(s, r);
      RearrangedSettles(Joined(s, r));
    case Some(i) =>
      if !AsReported(s.modes, s.outputs[i], r) {
        assert s.outputs[i] in s.outputs;
        forall j | 0 <= j < |s.outputs| && j != i ensures Sound(s.modes, s.outputs[j]) {
          assert s.outputs[j] in s.outputs;
        }
        RedrivenIsSound(s, i, r);
        RearrangedSettles(Redriven(s, i, r));
      }
  }

  // --- outputs that go, and modes that are granted ---

  lemma {:induction false} OthersAre(outputs: seq<Output>, wlName: nat, o: Output)
    ensures o in Others(outputs, wlName) <==> o in outputs && o.wlName != wlName
  {
    if outputs != [] {
      OthersAre(outputs[1..], wlName, o);
    }
  }

  lemma RemovalSettles(s: State, wlName: nat)
    requires Settled(s) && AllSound(s)
    ensures Settled(Remove(s, wlName).0) && AllSound(Remove(s, wlName).0)
  {
    hide Rearranged, Pruned, Others, Sound;
    var outputs := Others(s.outputs, wlName);
    forall o | o in outputs ensures Sound(s.modes, o) {
      OthersAre(s.outputs, wlName, o);
    }
    PruneKeepsSound(s, outputs);
    PrunedIsAllocated(s.modes, outputs, s.nextId);
    RearrangedSettles(s.(outputs := outputs, modes := Pruned(s.modes, outputs)));
  }

  /** A screen stays settled while its outputs stay in place and sound. */
  lemma SettledFollowsPlaces(s: State, t: State)
    requires Settled(s) && SamePlaces(s.outputs, t.outputs) && (t.width, t.height) == (s.width, s.height)
    requires Allocated(t.modes, t.nextId) && AllSound(t)
    ensures Settled(t)
  {
    hide BoundX, BoundY, Starts, ModeSize;
    forall i | 0 <= i < |t.outputs| ensures Sound(t.modes, t.outputs[i]) {
      assert t.outputs[i] in t.outputs;
    }
    DrivenIsEnabled(s);
    DrivenIsEnabled(t);
    BoundsFollowPlaces(s.outputs, t.outputs);
    SamePlacesAreDevices(s.outputs, t.outputs);
    LayoutFollowsDevices(s.outputs, t.outputs);
    hide Relaid;
    forall i | 0 <= i < |t.outputs| ensures Relaid(t.outputs)[i] == t.outputs[i] {
      assert SamePlace(s.outputs[i], t.outputs[i]);
      assert Relaid(s.outputs)[i] == s.outputs[i];
    }
  }

  lemma SamePlacesAreDevices(a: seq<Output>, b: seq<Output>)
    requires SamePlaces(a, b)
    ensures SameDevices(a, b)
  {
    forall i | 0 <= i < |a| ensures SameDevice(a[i], b[i]) {
      assert SamePlace(a[i], b[i]);
    }
  }

  /** Adopting a client's mode keeps the screen settled. */
  lemma AdoptionSettles(s: State, crtc: nat, mode: nat)
    requires Settled(s) && AllSound(s)
    ensures var t := Adopt(s, crtc, mode);
            && Settled(t) && AllSound(t) && SamePlaces(s.outputs, t.outputs)
  {
    hide Pruned, Natives, Minus, ModeSize, Allocated, Relaid, BoundsOf;
    var t := Adopt(s, crtc, mode);
    if t != s {
      var i := WithCrtc(s.outputs, crtc).value;
      var o, size := s.outputs[i], ModeSize(s.modes, mode).value;
      var ids := if mode in o.modeIds then o.modeIds else o.modeIds + [mode];
      var drop := Natives(s.modes, mode, size);
      var p := o.(mode := mode, modeIds := Minus(ids, drop));
      var outputs := s.outputs[i := p];
      NativesAre(s.modes, mode, size, mode);
      MinusIs(ids, drop, mode);
      forall q | q in outputs ensures Sound(s.modes, q) {
        var j :| 0 <= j < |outputs| && outputs[j] == q;
        assert s.outputs[j] in s.outputs && s.outputs[i] in s.outputs;
      }
      PruneKeepsSound(s, outputs);
      PrunedIsAllocated(s.modes, outputs, s.nextId);
      hide Sound;
      assert t == Bump(s.(outputs := outputs, modes := Pruned(s.modes, outputs)));
      SettledFollowsPlaces(s, t);
    }
  }

  /** After the compositor reports the size a client asked for, the client's mode is the one it reads back. */
  lemma GrantedModeIsReadBack(s: State, crtc: nat, mode: nat)
    requires Settled(s) && AllSound(s) && WithCrtc(s.outputs, crtc).Some?
    requires var o := s.outputs[WithCrtc(s.outputs, crtc).value]; ModeSize(s.modes, mode) == Some((o.width, o.height))
    ensures var t := Adopt(s, crtc, mode);
            var i := WithCrtc(s.outputs, crtc).value;
            t.outputs[i].mode == mode && Driven(t.modes, t.outputs[i])
  {
    hide Pruned, Natives, Minus, ModeSize, Settled;
    AdoptionSettles(s, crtc, mode);
    var i := WithCrtc(s.outputs, crtc).value;
    assert Adopt(s, crtc, mode).outputs[i] in Adopt(s, crtc, mode).outputs;
  }

  // --- native modes are not left behind ---

  /** Every native mode is listed by some output, and an output lists none but the one it is at. */
  ghost predicate Clean(s: State) {
    && (forall m :: m in s.modes && m.ours ==> Listed(s.outputs, m.id))
    && (forall o :: o in s.outputs ==> OwnNativeOnly(s.modes, o))
    && (forall o, id :: o in s.outputs && id in o.modeIds ==> id < s.nextId)
  }

  /** In a clean screen every native mode is the one some output is at. */
  lemma CleanMeansInUse(s: State, m: Mode)
    requires Clean(s) && m in s.modes && m.ours
    ensures exists o :: o in s.outputs && o.mode == m.id
  {
    assert Listed(s.outputs, m.id);
    var i :| 0 <= i < |s.outputs| && m.id in s.outputs[i].modeIds;
    assert s.outputs[i] in s.outputs && OwnNativeOnly(s.modes, s.outputs[i]);
  }

  lemma DrivenStaysListed(s: State, modes: seq<Mode>, u: State, i: nat, p: Output, m: Mode)
    requires i < |s.outputs| == |u.outputs| && Clean(s) && m in u.modes && m in modes && m.ours
    requires (u.modes == modes && u.outputs[i] == p) || u.modes == Pruned(modes, u.outputs)
    requires m in s.modes || m.id == p.mode
    requires p.mode in u.outputs[i].modeIds && forall id :: id in s.outputs[i].modeIds ==> id in p.modeIds
    requires forall j :: 0 <= j < |s.outputs| && j != i ==> u.outputs[j] == s.outputs[j]
    ensures Listed(u.outputs, m.id)
  {
    hide Pruned, Listed, Clean;
    if u.modes == modes && u.outputs[i] == p {
      if m.id == p.mode {
        ListedAt(u.outputs, i, p.mode);
      } else {
        StillListed(s, i, p, u.outputs, m);
      }
    } else {
      PruneKeepsIff(modes, u.outputs, m);
    }
  }

  lemma CleanByIndex(u: State)
    requires forall m :: m in u.modes && m.ours ==> Listed(u.outputs, m.id)
    requires forall j :: 0 <= j < |u.outputs| ==> OwnNativeOnly(u.modes, u.outputs[j])
    requires forall j, id :: 0 <= j < |u.outputs| && id in u.outputs[j].modeIds ==> id < u.nextId
    ensures Clean(u)
  {
    hide OwnNativeOnly, Listed;
  }

  /** What putting output `i` at another mode does to the modes there are and the modes it lists. */
  ghost predicate Redrives(s: State, modes: seq<Mode>, u: State, i: nat, p: Output) {
    && i < |s.outputs| == |u.outputs| && s.nextId <= u.nextId && p.mode < u.nextId
    && (forall j :: 0 <= j < |s.outputs| && j != i ==> u.outputs[j] == s.outputs[j])
    && p.mode in u.outputs[i].modeIds
    && (forall id :: id in u.outputs[i].modeIds ==> id in p.modeIds)
    && (forall id :: id in p.modeIds ==> id in s.outputs[i].modeIds || id == p.mode)
    && (forall id :: id in s.outputs[i].modeIds ==> id in p.modeIds)
    && (forall m :: m in u.modes ==> m in modes)
    && (forall m :: m in modes ==> m in s.modes || (m.id == p.mode && m.id >= s.nextId))
    && ((u.modes == modes && u.outputs[i] == p) || u.modes == Pruned(modes, u.outputs))
  }

  lemma RedrivenRedrives(s: State, i: nat, r: Report)
    requires i < |s.outputs| && Allocated(s.modes, s.nextId)
    ensures var (t, mode) := ModeFor(s, s.outputs[i], r);
            Redrives(s, t.modes, Redriven(s, i, r), i, Reported(s.outputs[i], r, mode))
  {
    hide ModeSize, Pruned, Stale, Minus, Allocated, ListedMode, Retired;
    ModeForDrives(s, s.outputs[i], r);
    ModeForIds(s, s.outputs[i], r);
    var (t, mode) := ModeFor(s, s.outputs[i], r);
    hide ModeFor;
    RetiredModes(t, i, Reported(s.outputs[i], r, mode));
  }

  lemma RedrivesClean(s: State, modes: seq<Mode>, u: State, i: nat, p: Output)
    requires Clean(s) && Redrives(s, modes, u, i, p) && OwnNativeOnly(u.modes, u.outputs[i])
    ensures Clean(u)
  {
    hide Pruned, OwnNativeOnly, Listed;
    forall m | m in u.modes && m.ours ensures Listed(u.outputs, m.id) {
      DrivenStaysListed(s, modes, u, i, p, m);
    }
    forall j | 0 <= j < |u.outputs| ensures OwnNativeOnly(u.modes, u.outputs[j]) {
      if j != i {
        assert s.outputs[j] in s.outputs;
        StillOwnNativeOnly(s, u.modes, s.outputs[j]);
      }
    }
    forall j, id | 0 <= j < |u.outputs| && id in u.outputs[j].modeIds ensures id < u.nextId {
      assert s.outputs[j] in s.outputs;
    }
    hide Clean, Redrives;
    CleanByIndex(u);
  }

  lemma RedrivenIsClean(s: State, i: nat, r: Report)
    requires i < |s.outputs| && Allocated(s.modes, s.nextId) && OthersSound(s, i) && Clean(s)
    requires s.outputs[i].IsWayland() && s.outputs[i].connected
    ensures Clean(Redriven(s, i, r))
  {
    hide *;
    RedrivenIsSound(s, i, r);
    RedrivenRedrives(s, i, r);
    var (t, mode) := ModeFor(s, s.outputs[i], r);
    RedrivesClean(s, t.modes, Redriven(s, i, r), i, Reported(s.outputs[i], r, mode));
  }

  lemma ListedAt(outputs: seq<Output>, i: nat, id: nat)
    requires i < |outputs| && id in outputs[i].modeIds
    ensures Listed(outputs, id)
  {
  }

  lemma StillListed(s: State, i: nat, p: Output, outputs: seq<Output>, m: Mode)
    requires i < |s.outputs| == |outputs| && outputs[i] == p && m in s.modes && m.ours && Clean(s)
    requires forall id :: id in s.outputs[i].modeIds ==> id in p.modeIds
    requires forall j :: 0 <= j < |s.outputs| && j != i ==> outputs[j] == s.outputs[j]
    ensures Listed(outputs, m.id)
  {
    hide OwnNativeOnly;
    assert Listed(s.outputs, m.id);
    var j :| 0 <= j < |s.outputs| && m.id in s.outputs[j].modeIds;
    assert m.id in outputs[j].modeIds;
  }

  /** A mode allocated since is on no output's list. */
  lemma StillOwnNativeOnly(s: State, modes: seq<Mode>, o: Output)
    requires Clean(s) && o in s.outputs
    requires forall m :: m in modes ==> m in s.modes || m.id >= s.nextId
    ensures OwnNativeOnly(modes, o)
  {
    hide Listed;
    assert OwnNativeOnly(s.modes, o);
  }

  lemma ModeForIds(s: State, o: Output, r: Report)
    requires Allocated(s.modes, s.nextId)
    ensures var (t, mode) := ModeFor(s, o, r);
            && s.nextId <= t.nextId && mode < t.nextId
            && (forall m :: m in t.modes && m !in s.modes ==> m.id == s.nextId)
  {
    var size := (r.width, r.height);
    var listed := ListedMode(s.modes, o.modeIds, size);
    if ModeSize(s.modes, o.mode) == Some(size) {
      KnownModesAreAllocated(s.modes, s.nextId, o.mode);
    } else if listed.Some? {
      KnownModesAreAllocated(s.modes, s.nextId, listed.value);
    }
  }

  lemma RetiredModes(s: State, i: nat, p: Output)
    requires i < |s.outputs| && p.mode in p.modeIds
    ensures var t := Retired(s, i, p);
            && |t.outputs| == |s.outputs| && t.nextId == s.nextId
            && (forall j :: 0 <= j < |s.outputs| && j != i ==> t.outputs[j] == s.outputs[j])
            && t.outputs[i].mode == p.mode && p.mode in t.outputs[i].modeIds
            && (forall id :: id in t.outputs[i].modeIds ==> id in p.modeIds)
            && (forall m :: m in t.modes ==> m in s.modes)
            && ((t.modes == s.modes && t.outputs[i] == p) || t.modes == Pruned(s.modes, t.outputs))
  {
    hide Pruned, Stale, Minus;
    var stale := Stale(s.modes, p.modeIds, p.mode);
    StaleSpares(s.modes, p.modeIds, p.mode, p.mode);
    forall id ensures id in Minus(p.modeIds, stale) <==> id in p.modeIds && id !in stale {
      MinusIs(p.modeIds, stale, id);
    }
    forall m, outputs | m in Pruned(s.modes, outputs) ensures m in s.modes {
      PruneKeepsIff(s.modes, outputs, m);
    }
  }

  /** Pruning a screen whose outputs list no native mode but their own leaves it clean. */
  lemma PrunedIsClean(s: State, modes: seq<Mode>)
    requires s.modes == Pruned(modes, s.outputs)
    requires forall o :: o in s.outputs ==> OwnNativeOnly(modes, o)
    requires forall o, id :: o in s.outputs && id in o.modeIds ==> id < s.nextId
    ensures Clean(s)
  {
    hide Pruned, Listed;
    forall m ensures m in s.modes <==> m in modes && (!m.ours || Listed(s.outputs, m.id)) {
      PruneKeepsIff(modes, s.outputs, m);
    }
  }

  lemma JoinedIsClean(s: State, r: Report)
    requires Allocated(s.modes, s.nextId) && Clean(s)
    ensures Clean(Joined(s, r))
  {
    hide Pruned, Listed, ModeSize, OnlyWayland;
    var t := Joined(s, r);
    var o := Output(s.nextId + 1, s.nextId + 2, 0, 0, r.width, r.height, r.lx, r.ly, r.lw, r.lh, s.nextId, [s.nextId], r.wlName, true);
    var modes := s.modes + [Mode(s.nextId, r.width, r.height, true)];
    forall q | q in t.outputs ensures OwnNativeOnly(modes, q) && forall id :: id in q.modeIds ==> id < t.nextId {
      OnlyWaylandKeeps(s.outputs + [o], q);
      if q in s.outputs {
        StillOwnNativeOnly(s, modes, q);
      } else {
        assert q == o;
      }
    }
    PrunedIsClean(t, modes);
  }

  lemma RearrangedIsClean(s: State)
    requires Clean(s)
    ensures Clean(Rearranged(s))
  {
    hide BoundsOf, Starts;
    var t := Rearranged(s);
    assert |t.outputs| == |s.outputs| && t.modes == s.modes && t.nextId == s.nextId;
    forall i | 0 <= i < |s.outputs|
      ensures t.outputs[i].modeIds == s.outputs[i].modeIds && t.outputs[i].mode == s.outputs[i].mode && s.outputs[i] in s.outputs
    {
    }
    hide Rearranged;
    forall m | m in t.modes && m.ours ensures Listed(t.outputs, m.id) {
      assert Listed(s.outputs, m.id);
      var i :| 0 <= i < |s.outputs| && m.id in s.outputs[i].modeIds;
      ListedAt(t.outputs, i, m.id);
    }
    forall o | o in t.outputs ensures OwnNativeOnly(t.modes, o) && forall id :: id in o.modeIds ==> id < t.nextId {
      var i :| 0 <= i < |t.outputs| && t.outputs[i] == o;
      assert OwnNativeOnly(s.modes, s.outputs[i]);
    }
  }

  lemma RemovalIsClean(s: State, wlName: nat)
    requires Clean(s)
    ensures Clean(Remove(s, wlName).0)
  {
    hide Rearranged, Pruned, Others, Listed, OwnNativeOnly;
    var outputs := Others(s.outputs, wlName);
    forall o ensures o in outputs ==> o in s.outputs {
      OthersAre(s.outputs, wlName, o);
    }
    var t := s.(outputs := outputs, modes := Pruned(s.modes, outputs));
    PrunedIsClean(t, s.modes);
    RearrangedIsClean(t);
  }

  /** Mode ids are distinct, so a mode is the one its id finds. */
  lemma {:induction false} ModeFound(modes: seq<Mode>, nextId: nat, m: Mode)
    requires Allocated(modes, nextId) && m in modes
    ensures ModeSize(modes, m.id) == Some((m.width, m.height))
  {
    var i :| 0 <= i < |modes| && modes[i] == m;
    if i > 0 {
      assert m == modes[1..][i - 1];
      ModeFound(modes[1..], nextId, m);
    }
  }

  lemma AdoptionIsClean(s: State, crtc: nat, mode: nat)
    requires Allocated(s.modes, s.nextId) && AllSound(s) && Clean(s)
    ensures Clean(Adopt(s, crtc, mode))
  {
    hide Pruned, Natives, Minus, Listed, ModeSize, Allocated;
    var t := Adopt(s, crtc, mode);
    if t != s {
      var i := WithCrtc(s.outputs, crtc).value;
      var o, size := s.outputs[i], ModeSize(s.modes, mode).value;
      assert o in s.outputs && Sound(s.modes, o) && OwnNativeOnly(s.modes, o);
      KnownModesAreAllocated(s.modes, s.nextId, mode);
      var ids := if mode in o.modeIds then o.modeIds else o.modeIds + [mode];
      var drop := Natives(s.modes, mode, size);
      var p := o.(mode := mode, modeIds := Minus(ids, drop));
      assert t == Bump(s.(outputs := s.outputs[i := p], modes := Pruned(s.modes, s.outputs[i := p])));
      forall id ensures id in p.modeIds ==> id in ids && id !in drop {
        MinusIs(ids, drop, id);
      }
      forall m | m in s.modes && m.ours && m.id in p.modeIds ensures m.id == mode {
        if m.id != mode {
          ModeFound(s.modes, s.nextId, m);
          NativesAre(s.modes, mode, size, m.id);
        }
      }
      PrunedIsClean(t, s.modes);
    }
  }

  // --- runs ---

  /** What happens to a screen no client has disturbed: the compositor's changes, granted modes, and modes that
      clients make and list. */
  datatype Event =
    | Announced(report: Report)
    | Removed(wlName: nat)
    | Granted(crtc: nat, mode: nat)
    | Made(width: u16, height: u16)
    | Offered(output: nat, mode: nat)

  /** Reports name real outputs; a listed mode is one a client made. */
  predicate Fits(s: State, e: Event) {
    match e
    case Announced(r) => r.wlName != 0
    case Offered(_, mode) => exists m :: m in s.modes && m.id == mode && !m.ours
    case _ => true
  }

  function Apply(s: State, e: Event): State {
    match e
    case Announced(r) => Sync(s, r).0
    case Removed(wlName) => Remove(s, wlName).0
    case Granted(crtc, mode) => Adopt(s, crtc, mode)
    case Made(w, h) => CreateMode(s, w, h)
    case Offered(output, mode) => AddOutputMode(s, output, mode)
  }

  ghost predicate DistinctNames(outputs: seq<Output>) {
    forall i, j :: 0 <= i < j < |outputs| ==> outputs[i].wlName != outputs[j].wlName
  }

  /** Settled, every output sound, and no native mode but those in use. */
  ghost predicate Tidy(s: State) {
    Settled(s) && AllSound(s) && Clean(s) && DistinctNames(s.outputs)
  }

  lemma MadeIsTidy(s: State, w: u16, h: u16)
    requires Tidy(s)
    ensures Tidy(CreateMode(s, w, h))
  {
    hide Relaid, BoundsOf, Listed, ModeSize;
    var t, m := CreateMode(s, w, h), Mode(s.nextId, w, h, false);
    NextIdIsUnknown(s.modes, s.nextId);
    forall id ensures ModeSize(s.modes, id).Some? ==> ModeSize(t.modes, id) == ModeSize(s.modes, id) {
      AddedMode(s.modes, m, id);
    }
    assert Allocated(t.modes, t.nextId) by {
      forall i | 0 <= i < |s.modes| ensures s.modes[i].id < m.id {
        assert s.modes[i] in s.modes;
      }
    }
    hide Allocated;
    forall i | 0 <= i < |t.outputs| ensures Driven(t.modes, t.outputs[i]) {
      assert t.outputs[i] in s.outputs;
    }
  }

  lemma OfferedIsTidy(s: State, output: nat, mode: nat)
    requires Tidy(s) && exists m :: m in s.modes && m.id == mode && !m.ours
    ensures Tidy(AddOutputMode(s, output, mode))
  {
    hide Relaid, BoundsOf, Listed, ModeSize, WithId;
    var t := AddOutputMode(s, output, mode);
    var m :| m in s.modes && m.id == mode && !m.ours;
    if t != s {
      var i := WithId(s.outputs, output).value;
      assert t.outputs == s.outputs[i := s.outputs[i].(modeIds := s.outputs[i].modeIds + [mode])];
      forall j | 0 <= j < |t.outputs|
        ensures Sound(t.modes, t.outputs[j]) && OwnNativeOnly(t.modes, t.outputs[j])
        ensures SamePlace(s.outputs[j], t.outputs[j])
        ensures forall id :: id in t.outputs[j].modeIds ==> id < t.nextId
      {
        assert s.outputs[j] in s.outputs && OwnNativeOnly(s.modes, s.outputs[j]);
        forall k | k in s.modes && k.ours ensures k.id != mode {
          if k.id == mode {
            DistinctIds(s.modes, s.nextId, k, m);
          }
        }
      }
      forall k | k in t.modes && k.ours ensures Listed(t.outputs, k.id) {
        StillListed(s, i, t.outputs[i], t.outputs, k);
      }
      SettledFollowsPlaces(s, t);
    }
  }

  lemma DistinctIds(modes: seq<Mode>, nextId: nat, k: Mode, m: Mode)
    requires Allocated(modes, nextId) && k in modes && m in modes && k.id == m.id
    ensures k == m
  {
    var i :| 0 <= i < |modes| && modes[i] == k;
    var j :| 0 <= j < |modes| && modes[j] == m;
  }

  lemma {:induction false} OthersAreDistinct(outputs: seq<Output>, wlName: nat)
    requires DistinctNames(outputs)
    ensures DistinctNames(Others(outputs, wlName))
  {
    if outputs != [] {
      OthersAreDistinct(outputs[1..], wlName);
      forall o | o in Others(outputs[1..], wlName) ensures o.wlName != outputs[0].wlName {
        OthersAre(outputs[1..], wlName, o);
        var i :| 0 <= i < |outputs[1..]| && outputs[1..][i] == o;
        assert outputs[0].wlName != outputs[i + 1].wlName;
      }
    }
  }

  lemma {:induction false} WaylandAreDistinct(outputs: seq<Output>)
    requires DistinctNames(outputs)
    ensures DistinctNames(OnlyWayland(outputs))
  {
    if outputs != [] {
      WaylandAreDistinct(outputs[1..]);
      forall o | o in OnlyWayland(outputs[1..]) ensures o.wlName != outputs[0].wlName {
        OnlyWaylandKeeps(outputs[1..], o);
        var i :| 0 <= i < |outputs[1..]| && outputs[1..][i] == o;
        assert outputs[0].wlName != outputs[i + 1].wlName;
      }
    }
  }

  lemma SameNames(a: seq<Output>, b: seq<Output>)
    requires SameDevices(a, b) && DistinctNames(a)
    ensures DistinctNames(b)
  {
    forall i, j | 0 <= i < j < |b| ensures b[i].wlName != b[j].wlName {
      assert SameDevice(a[i], b[i]) && SameDevice(a[j], b[j]);
    }
  }

  lemma JoinedIsDistinct(s: State, r: Report)
    requires DistinctNames(s.outputs) && WithWlName(s.outputs, r.wlName).None?
    ensures DistinctNames(Joined(s, r).outputs)
  {
    hide OnlyWayland, Pruned, WithWlName;
    var o := Output(s.nextId + 1, s.nextId + 2, 0, 0, r.width, r.height, r.lx, r.ly, r.lw, r.lh, s.nextId, [s.nextId], r.wlName, true);
    WaylandAreDistinct(s.outputs + [o]);
  }

  lemma RedrivenNames(s: State, i: nat, r: Report)
    requires i < |s.outputs| && Allocated(s.modes, s.nextId) && s.outputs[i].wlName == r.wlName && DistinctNames(s.outputs)
    ensures DistinctNames(Redriven(s, i, r).outputs)
  {
    hide Stale, Pruned, ListedMode, ModeSize, Minus, Allocated;
    var t := Redriven(s, i, r);
    assert |t.outputs| == |s.outputs|;
    assert forall j :: 0 <= j < |s.outputs| ==> t.outputs[j].wlName == s.outputs[j].wlName;
  }

  lemma AnnouncedIsTidy(s: State, r: Report)
    requires Tidy(s) && r.wlName != 0
    ensures Tidy(Sync(s, r).0)
  {
    hide Rearranged, Redriven, Joined, ModeSize, BoundsOf, Relaid, Clean, Allocated, Sound;
    forall o | o in s.outputs ensures Sound(s.modes, o) && o.IsWayland() && o.connected {
      var i :| 0 <= i < |s.outputs| && s.outputs[i] == o;
    }
    ReportsSettle(s, r);
    match WithWlName(s.outputs, r.wlName)
    case None =>
      JoinedIsClean(s, r);
      JoinedIsSound(s, r);
      JoinedIsDistinct(s, r);
      RearrangedIsClean(Joined(s, r));
      RearrangedSettles(Joined(s, r));
      SameNames(Joined(s, r).outputs, Rearranged(Joined(s, r)).outputs);
    case Some(i) =>
      if !AsReported(s.modes, s.outputs[i], r) {
        assert OthersSound(s, i);
        RedrivenIsClean(s, i, r);
        RedrivenIsSound(s, i, r);
        RedrivenNames(s, i, r);
        RearrangedIsClean(Redriven(s, i, r));
        RearrangedSettles(Redriven(s, i, r));
        SameNames(Redriven(s, i, r).outputs, Rearranged(Redriven(s, i, r)).outputs);
      }
  }

  lemma RemovedIsTidy(s: State, wlName: nat)
    requires Tidy(s)
    ensures Tidy(Remove(s, wlName).0)
  {
    hide Rearranged, Settled, AllSound, Clean, Others, Pruned;
    RemovalSettles(s, wlName);
    RemovalIsClean(s, wlName);
    OthersAreDistinct(s.outputs, wlName);
    var outputs := Others(s.outputs, wlName);
    var t := s.(outputs := outputs, modes := Pruned(s.modes, outputs));
    RearrangedNames(t);
  }

  lemma RearrangedNames(s: State)
    requires DistinctNames(s.outputs)
    ensures DistinctNames(Rearranged(s).outputs)
  {
    hide BoundsOf, Relaid;
    LayoutIsStable(s.outputs);
    SameNames(s.outputs, Rearranged(s).outputs);
  }

  lemma StepsStayTidy(s: State, e: Event)
    requires Tidy(s) && Fits(s, e)
    ensures Tidy(Apply(s, e))
  {
    hide Tidy, Sync, Remove, Adopt, CreateMode, AddOutputMode;
    match e
    case Announced(r) => AnnouncedIsTidy(s, r);
    case Removed(wlName) => RemovedIsTidy(s, wlName);
    case Granted(crtc, mode) => AdoptedIsTidy(s, crtc, mode);
    case Made(w, h) => MadeIsTidy(s, w, h);
    case Offered(output, mode) => OfferedIsTidy(s, output, mode);
  }

  lemma AdoptedIsTidy(s: State, crtc: nat, mode: nat)
    requires Tidy(s)
    ensures Tidy(Adopt(s, crtc, mode))
  {
    hide Adopt, Clean, AllSound, Allocated, Relaid, BoundsOf;
    AdoptionSettles(s, crtc, mode);
    AdoptionIsClean(s, crtc, mode);
    SamePlacesAreDevices(s.outputs, Adopt(s, crtc, mode).outputs);
    SameNames(s.outputs, Adopt(s, crtc, mode).outputs);
  }

  function ApplyAll(s: State, es: seq<Event>): State
    decreases |es|
  {
    if es == [] then s else ApplyAll(Apply(s, es[0]), es[1..])
  }

  predicate AllFit(s: State, es: seq<Event>)
    decreases |es|
  {
    es != [] ==> Fits(s, es[0]) && AllFit(Apply(s, es[0]), es[1..])
  }

  /** Over every run from the first report on, the screen stays settled, and every native mode is one an
      output is at: no resolution change leaves a mode behind. */
  lemma {:induction false} RunsStayTidy(s: State, es: seq<Event>)
    requires Tidy(s) && AllFit(s, es)
    ensures Tidy(ApplyAll(s, es))
    ensures var t := ApplyAll(s, es);
            forall m :: m in t.modes && m.ours ==> exists o :: o in t.outputs && o.mode == m.id
    decreases |es|
  {
    hide Apply, Fits;
    if es != [] {
      StepsStayTidy(s, es[0]);
      RunsStayTidy(Apply(s, es[0]), es[1..]);
    } else {
      forall m | m in s.modes && m.ours ensures exists o :: o in s.outputs && o.mode == m.id {
        CleanMeansInUse(s, m);
      }
    }
  }

  /** The first report replaces the synthetic output and leaves the screen tidy. */
  lemma FirstReportTidies(w: u16, h: u16, r: Report)
    requires r.wlName != 0
    ensures Tidy(Sync(NewScreen(w, h), r).0)
  {
    var s := NewScreen(w, h);
    ListedAt(s.outputs, 0, OUTPUT_BASE);
    assert Clean(s) && Allocated(s.modes, s.nextId) && DistinctNames(s.outputs);
    assert WithWlName(s.outputs, r.wlName).None?;
    hide Rearranged, Joined, ModeSize;
    JoinedIsClean(s, r);
    JoinedIsSound(s, r);
    JoinedIsDistinct(s, r);
    RearrangedIsClean(Joined(s, r));
    RearrangedSettles(Joined(s, r));
    RearrangedNames(Joined(s, r));
  }
}
