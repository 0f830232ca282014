/** The screen as the server holds it: fields updated in place, each method proved against the transition it makes. */
module ScreenModel {
  import opened BridgeTypes
  import opened PackAxis
  import opened RandrScreen

  class Screen {
    var width: u16
    var height: u16
    var modes: seq<Mode>
    var outputs: seq<Output>
    var nextId: nat
    var stamp: u32
    var configStamp: u32

    function View(): State
      reads this
    {
      State(width, height, modes, outputs, nextId, stamp, configStamp)
    }

    /** A single synthetic output, until the compositor's arrive. */
    constructor (w: u16, h: u16)
      ensures View() == NewScreen(w, h)
    {
      width, height, nextId, stamp, configStamp := w, h, OUTPUT_BASE + 3, 1, 1;
      modes := [Mode(OUTPUT_BASE, w, h, true)];
      outputs := [Output(OUTPUT_BASE + 1, OUTPUT_BASE + 2, 0, 0, w, h, 0, 0, w, h, OUTPUT_BASE, [OUTPUT_BASE], 0, true)];
    }

    method AllocId() returns (id: nat)
      modifies this`nextId
      ensures id == old(nextId) && nextId == id + 1
    {
      id := nextId;
      nextId := nextId + 1;
    }

    method AllocMode(w: u16, h: u16) returns (id: nat)
      modifies this`nextId, this`modes
      ensures id == old(nextId) && nextId == id + 1 && modes == old(modes) + [Mode(id, w, h, true)]
    {
      id := AllocId();
      modes := modes + [Mode(id, w, h, true)];
    }

    method DoBump()
      modifies this`stamp, this`configStamp
      ensures View() == Bump(old(View()))
    {
      stamp := (stamp + 1) % TWO_TO_32;
      configStamp := (configStamp + 1) % TWO_TO_32;
    }

    method NewMode(w: u16, h: u16) returns (id: nat)
      modifies this
      ensures View() == CreateMode(old(View()), w, h) && id == old(nextId)
    {
      id := AllocId();
      modes := modes + [Mode(id, w, h, false)];
    }

    method ListMode(output: nat, mode: nat)
      modifies this
      ensures View() == AddOutputMode(old(View()), output, mode)
    {
      var found := WithId(outputs, output);
      if found.Some? && mode !in outputs[found.value].modeIds {
        var o := outputs[found.value];
        outputs := outputs[found.value := o.(modeIds := o.modeIds + [mode])];
      }
    }

    method UnlistMode(output: nat, mode: nat)
      modifies this
      ensures View() == DeleteOutputMode(old(View()), output, mode)
    {
      var found := WithId(outputs, output);
      if found.Some? {
        var o := outputs[found.value];
        outputs := outputs[found.value := o.(modeIds := KeepIds(o.modeIds, mode))];
      }
    }

    method DropMode(mode: nat)
      modifies this
      ensures View() == DestroyMode(old(View()), mode)
    {
      hide KeepIds, KeepModes, Unlisted;
      modes := KeepModes(modes, mode);
      var i := 0;
      ghost var was, dropped := outputs, modes;
      while i < |outputs|
        invariant 0 <= i <= |outputs| == |was|
        invariant forall j :: 0 <= j < i ==> outputs[j] == Unlisted(was, mode)[j]
        invariant forall j :: i <= j < |was| ==> outputs[j] == was[j]
        invariant View() == old(View()).(modes := dropped, outputs := outputs)
      {
        var o := outputs[i];
        UnlistedAt(was, mode, i);
        outputs := outputs[i := o.(modeIds := KeepIds(o.modeIds, mode))];
        i := i + 1;
      }
    }

    method ConfigureCrtc(crtc: nat, x: i16, y: i16, mode: nat) returns (ok: bool)
      modifies this
      ensures (View(), ok) == SetCrtc(old(View()), crtc, x, y, mode)
    {
      var size := None;
      if mode != 0 {
        size := ModeSize(modes, mode);
        if size.None? {
          return false;
        }
      }
      var found := WithCrtc(outputs, crtc);
      if found.None? {
        return false;
      }
      var o := outputs[found.value].(mode := mode, x := x, y := y);
      if size.Some? {
        o := o.(width := size.value.0, height := size.value.1);
      }
      outputs := outputs[found.value := o];
      DoBump();
      ok := true;
    }

    method Resize(w: u16, h: u16)
      modifies this
      ensures View() == SetSize(old(View()), w, h)
    {
      width, height := Clamp(w, 1, MAX_SCREEN), Clamp(h, 1, MAX_SCREEN);
      DoBump();
    }

    /** Recomputes the screen size: the bounds of all connected, enabled outputs. */
    method RecomputeBounds() returns (changed: bool)
      modifies this
      ensures (View(), changed) == Rebound(old(View()))
    {
      var w: u16, h: u16 := 0, 0;
      for i := 0 to |outputs|
        invariant View() == old(View())
        invariant w == BoundX(outputs[..i]) && h == BoundY(outputs[..i])
      {
        var o := outputs[i];
        assert outputs[..i + 1][..i] == outputs[..i];
        if o.connected && o.mode != 0 {
          w := Max(w, Far(o.x, o.width));
          h := Max(h, Far(o.y, o.height));
        }
      }
      assert outputs[..|outputs|] == outputs;
      w, h := Clamp(w, 1, MAX_SCREEN), Clamp(h, 1, MAX_SCREEN);
      changed := w != width || h != height;
      width, height := w, h;
      if changed {
        DoBump();
      }
    }

    /** Derives each output's physical position from the logical layout. */
    method RelayoutPhysical()
      modifies this`outputs
      ensures outputs == Relaid(old(outputs))
    {
      hide Starts;
      var px := Pack(Columns(outputs));
      var py := Pack(Rows(outputs));
      ghost var was := outputs;
      var i := 0;
      while i < |outputs|
        invariant 0 <= i <= |outputs| == |was|
        invariant forall k :: 0 <= k < |was| ==> outputs[k] == if k < i then Relaid(was)[k] else was[k]
      {
        outputs := outputs[i := outputs[i].(x := Clamp(px[i], 0, I16_MAX), y := Clamp(py[i], 0, I16_MAX))];
        i := i + 1;
      }
    }

    /** Undoes what clients did to Wayland outputs, positions and screen size included. */
    method RestoreOutputs() returns (changed: bool)
      modifies this
      ensures (View(), changed) == Restore(old(View()))
    {
      hide RestoreOne, Relaid, Rebound;
      changed := false;
      ghost var was := View();
      for i := 0 to |outputs|
        invariant i <= |outputs| == |was.outputs|
        invariant (View(), changed) == RestoreFirst(was, i)
      {
        var restored := RestoreOutput(i);
        changed := changed || restored;
      }
      RelayoutPhysical();
      var bounds := RecomputeBounds();
      if changed && !bounds {
        DoBump();
      }
      changed := changed || bounds;
    }

    method RestoreOutput(i: nat) returns (restored: bool)
      requires i < |outputs|
      modifies this`outputs, this`modes, this`nextId
      ensures (View(), restored) == RestoreOne(old(View()), i) && |outputs| == |old(outputs)|
    {
      var o := outputs[i];
      if !o.IsWayland() || ModeSize(modes, o.mode) == Some((o.width, o.height)) {
        return false;
      }
      var listed := ListedMode(modes, o.modeIds, (o.width, o.height));
      var mode;
      if listed.Some? {
        mode := listed.value;
      } else {
        mode := AllocMode(o.width, o.height);
      }
      outputs := outputs[i := o.(mode := mode, modeIds := if mode in o.modeIds then o.modeIds else o.modeIds + [mode])];
      restored := true;
    }

    method PruneModes()
      modifies this`modes
      ensures modes == Pruned(old(modes), outputs)
    {
      modes := Pruned(modes, outputs);
    }

    /** Creates or updates the output mirroring a Wayland output, then lays the screen out again. */
    method SyncWaylandOutput(r: Report) returns (changed: bool)
      modifies this
      ensures (View(), changed) == Sync(old(View()), r)
    {
      hide Relaid, Rebound, ModeSize, Pruned, Stale, ListedMode, OnlyWayland;
      var existing := WithWlName(outputs, r.wlName);
      if existing.Some? {
        var i := existing.value;
        if AsReported(modes, outputs[i], r) {
          return false;
        }
        Redrive(i, r);
      } else {
        var mode := AllocMode(r.width, r.height);
        var output := AllocId();
        var crtc := AllocId();
        outputs := outputs + [Output(output, crtc, 0, 0, r.width, r.height, r.lx, r.ly, r.lw, r.lh, mode, [mode], r.wlName, true)];
        outputs := OnlyWayland(outputs);
        PruneModes();
      }
      RelayoutPhysical();
      var _ := RecomputeBounds();
      changed := true;
    }

    method Redrive(i: nat, r: Report)
      requires i < |outputs|
      modifies this`outputs, this`modes, this`nextId
      ensures View() == Redriven(old(View()), i, r)
    {
      var o := outputs[i];
      var listed := ListedMode(modes, o.modeIds, (r.width, r.height));
      var mode;
      if ModeSize(modes, o.mode) == Some((r.width, r.height)) {
        mode := o.mode;
      } else if listed.Some? {
        mode := listed.value;
      } else {
        mode := AllocMode(r.width, r.height);
      }
      o := o.(lx := r.lx, ly := r.ly, lw := r.lw, lh := r.lh, width := r.width, height := r.height, mode := mode);
      if mode !in o.modeIds {
        o := o.(modeIds := o.modeIds + [mode]);
      }
      outputs := outputs[i := o];
      var stale := Stale(modes, o.modeIds, mode);
      if stale != [] {
        outputs := outputs[i := o.(modeIds := Minus(o.modeIds, stale))];
        assert outputs == old(outputs)[i := o.(modeIds := Minus(o.modeIds, stale))];
        PruneModes();
      }
    }

    method RemoveWaylandOutput(wlName: nat) returns (changed: bool)
      modifies this
      ensures (View(), changed) == Remove(old(View()), wlName)
    {
      hide Relaid, Rebound, Pruned;
      var before := |outputs|;
      ghost var was := outputs;
      outputs := Others(outputs, wlName);
      if |outputs| == before {
        OthersAreAll(was, wlName);
        return false;
      }
      PruneModes();
      RelayoutPhysical();
      var _ := RecomputeBounds();
      changed := true;
    }

    method AdoptMode(crtc: nat, mode: nat)
      modifies this
      ensures View() == Adopt(old(View()), crtc, mode)
    {
      hide Pruned, Natives, Minus;
      var size := ModeSize(modes, mode);
      if size.None? {
        return;
      }
      var found := WithCrtc(outputs, crtc);
      if found.None? {
        return;
      }
      var o := outputs[found.value];
      if (o.width, o.height) == size.value && o.mode != mode {
        if mode !in o.modeIds {
          o := o.(modeIds := o.modeIds + [mode]);
        }
        o := o.(mode := mode);
        outputs := outputs[found.value := o];
        var native := Natives(modes, mode, size.value);
        outputs := outputs[found.value := o.(modeIds := Minus(o.modeIds, native))];
        assert outputs == old(outputs)[found.value := o.(modeIds := Minus(o.modeIds, native))];
        PruneModes();
        DoBump();
      }
    }
  }

  lemma {:induction false} UnlistedAt(outputs: seq<Output>, mode: nat, i: nat)
    requires i < |outputs|
    ensures Unlisted(outputs, mode)[i] == outputs[i].(modeIds := KeepIds(outputs[i].modeIds, mode))
  {
    if i > 0 {
      UnlistedAt(outputs[1..], mode, i - 1);
    }
  }

  lemma {:induction false} OthersAreAll(outputs: seq<Output>, wlName: nat)
    ensures |Others(outputs, wlName)| <= |outputs|
    ensures |Others(outputs, wlName)| == |outputs| ==> Others(outputs, wlName) == outputs
  {
    if outputs != [] {
      OthersAreAll(outputs[1..], wlName);
    }
  }
}
