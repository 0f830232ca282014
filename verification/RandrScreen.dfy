/** The RandR screen: outputs mirroring the compositor's, and what clients do to them. */
module RandrScreen {
  import opened BridgeTypes
  import opened PackAxis

  const MAX_SCREEN := 16384
  const I16_MAX := 0x7fff
  const OUTPUT_BASE := 0x40

  type i16 = x: int | -0x8000 <= x <= I16_MAX

  /** `ours`: allocated for an output's native resolution, not created by a client. */
  datatype Mode = Mode(id: nat, width: u16, height: u16, ours: bool)

  datatype Output = Output(
    id: nat, crtc: nat, x: i16, y: i16, width: u16, height: u16,
    lx: int, ly: int, lw: int, lh: int,
    mode: nat, modeIds: seq<nat>, wlName: nat, connected: bool)
  {
    predicate IsWayland() {
      wlName != 0
    }
  }

  datatype State = State(width: u16, height: u16, modes: seq<Mode>, outputs: seq<Output>, nextId: nat, stamp: u32, configStamp: u32)

  // --- lookups ---

  function ModeSize(modes: seq<Mode>, id: nat): Option<(u16, u16)> {
    if modes == [] then None
    else if modes[0].id == id then Some((modes[0].width, modes[0].height))
    else ModeSize(modes[1..], id)
  }

  function WithCrtc(outputs: seq<Output>, crtc: nat): (r: Option<nat>)
    ensures r.Some? ==> r.value < |outputs| && outputs[r.value].crtc == crtc
  {
    if outputs == [] then None
    else if outputs[0].crtc == crtc then Some(0)
    else match WithCrtc(outputs[1..], crtc)
      case None => None
      case Some(i) => Some(i + 1)
  }

  function WithId(outputs: seq<Output>, id: nat): (r: Option<nat>)
    ensures r.Some? ==> r.value < |outputs| && outputs[r.value].id == id
  {
    if outputs == [] then None
    else if outputs[0].id == id then Some(0)
    else match WithId(outputs[1..], id)
      case None => None
      case Some(i) => Some(i + 1)
  }

  /** The first of `ids` that is a mode of the given size. */
  function ListedMode(modes: seq<Mode>, ids: seq<nat>, size: (u16, u16)): (r: Option<nat>)
    ensures r.Some? ==> r.value in ids && ModeSize(modes, r.value) == Some(size)
    ensures r.None? ==> forall id :: id in ids ==> ModeSize(modes, id) != Some(size)
  {
    if ids == [] then None
    else if ModeSize(modes, ids[0]) == Some(size) then Some(ids[0])
    else ListedMode(modes, ids[1..], size)
  }

  function KeepIds(ids: seq<nat>, not: nat): seq<nat> {
    if ids == [] then [] else (if ids[0] == not then [] else [ids[0]]) + KeepIds(ids[1..], not)
  }

  function KeepModes(modes: seq<Mode>, not: nat): seq<Mode> {
    if modes == [] then [] else (if modes[0].id == not then [] else [modes[0]]) + KeepModes(modes[1..], not)
  }

  /** A screen before any compositor output is known: one synthetic output. */
  function NewScreen(w: u16, h: u16): State {
    State(w, h, [Mode(OUTPUT_BASE, w, h, true)],
          [Output(OUTPUT_BASE + 1, OUTPUT_BASE + 2, 0, 0, w, h, 0, 0, w, h, OUTPUT_BASE, [OUTPUT_BASE], 0, true)],
          OUTPUT_BASE + 3, 1, 1)
  }

  // --- what clients ask for ---

  function Bump(s: State): State {
    s.(stamp := (s.stamp + 1) % TWO_TO_32, configStamp := (s.configStamp + 1) % TWO_TO_32)
  }

  function Clamp(v: int, lo: int, hi: int): int {
    if v < lo then lo else if v > hi then hi else v
  }

  /** Reconfigures a CRTC in the model alone; false for an unknown CRTC or mode. */
  function SetCrtc(s: State, crtc: nat, x: i16, y: i16, mode: nat): (State, bool) {
    if mode != 0 && ModeSize(s.modes, mode) == None then (s, false)
    else match WithCrtc(s.outputs, crtc)
      case None => (s, false)
      case Some(i) =>
        var o := s.outputs[i].(mode := mode, x := x, y := y);
        var sized := if mode == 0 then o else
                       var (w, h) := ModeSize(s.modes, mode).value; o.(width := w, height := h);
        (Bump(s.(outputs := s.outputs[i := sized])), true)
  }

  function SetSize(s: State, width: u16, height: u16): State {
    Bump(s.(width := Clamp(width, 1, MAX_SCREEN), height := Clamp(height, 1, MAX_SCREEN)))
  }

  function CreateMode(s: State, width: u16, height: u16): State {
    s.(modes := s.modes + [Mode(s.nextId, width, height, false)], nextId := s.nextId + 1)
  }

  function AddOutputMode(s: State, output: nat, mode: nat): State {
    match WithId(s.outputs, output)
    case None => s
    case Some(i) =>
      var o := s.outputs[i];
      if mode in o.modeIds then s else s.(outputs := s.outputs[i := o.(modeIds := o.modeIds + [mode])])
  }

  function DeleteOutputMode(s: State, output: nat, mode: nat): State {
    match WithId(s.outputs, output)
    case None => s
    case Some(i) =>
      var o := s.outputs[i];
      s.(outputs := s.outputs[i := o.(modeIds := KeepIds(o.modeIds, mode))])
  }

  function Unlisted(outputs: seq<Output>, mode: nat): (r: seq<Output>)
    ensures |r| == |outputs|
    ensures forall i :: 0 <= i < |r| ==> r[i] == outputs[i].(modeIds := r[i].modeIds)
  {
    if outputs == [] then []
    else [outputs[0].(modeIds := KeepIds(outputs[0].modeIds, mode))] + Unlisted(outputs[1..], mode)
  }

  function DestroyMode(s: State, mode: nat): State {
    s.(modes := KeepModes(s.modes, mode), outputs := Unlisted(s.outputs, mode))
  }

  // --- bounds and layout ---

  function Max(a: int, b: int): int {
    if a > b then a else b
  }

  /** The far edge of an output on one axis, saturating. */
  function Far(start: int, size: u16): u16 {
    Clamp(Max(start, 0) + size, 0, TWO_TO_16 - 1)
  }

  function BoundX(outputs: seq<Output>): u16 {
    if outputs == [] then 0 else
      var o := outputs[|outputs| - 1];
      var rest := BoundX(outputs[..|outputs| - 1]);
      if o.connected && o.mode != 0 then Max(rest, Far(o.x, o.width)) else rest
  }

  function BoundY(outputs: seq<Output>): u16 {
    if outputs == [] then 0 else
      var o := outputs[|outputs| - 1];
      var rest := BoundY(outputs[..|outputs| - 1]);
      if o.connected && o.mode != 0 then Max(rest, Far(o.y, o.height)) else rest
  }

  function BoundsOf(outputs: seq<Output>): (u16, u16) {
    (Clamp(BoundX(outputs), 1, MAX_SCREEN), Clamp(BoundY(outputs), 1, MAX_SCREEN))
  }

  function Rebound(s: State): (State, bool) {
    var (w, h) := BoundsOf(s.outputs);
    if w != s.width || h != s.height then (Bump(s.(width := w, height := h)), true) else (s, false)
  }

  function Columns(outputs: seq<Output>): (r: seq<Span>)
    ensures |r| == |outputs|
    ensures forall i :: 0 <= i < |r| ==> r[i] == Span(outputs[i].lx, outputs[i].lw, outputs[i].width)
  {
    seq(|outputs|, i requires 0 <= i < |outputs| => Span(outputs[i].lx, outputs[i].lw, outputs[i].width))
  }

  function Rows(outputs: seq<Output>): (r: seq<Span>)
    ensures |r| == |outputs|
    ensures forall i :: 0 <= i < |r| ==> r[i] == Span(outputs[i].ly, outputs[i].lh, outputs[i].height)
  {
    seq(|outputs|, i requires 0 <= i < |outputs| => Span(outputs[i].ly, outputs[i].lh, outputs[i].height))
  }

  /** Logical sizes are positive, as xdg-output and the fallback give them. */
  predicate Sized(outputs: seq<Output>) {
    forall i :: 0 <= i < |outputs| ==> outputs[i].lw > 0 && outputs[i].lh > 0
  }

  lemma SizedColumns(outputs: seq<Output>)
    requires Sized(outputs)
    ensures Positive(Columns(outputs)) && Positive(Rows(outputs))
  {
    forall s | s in Columns(outputs) ensures s.len > 0 {
      var i :| 0 <= i < |outputs| && Columns(outputs)[i] == s;
    }
    forall s | s in Rows(outputs) ensures s.len > 0 {
      var i :| 0 <= i < |outputs| && Rows(outputs)[i] == s;
    }
  }

  function Tiled(outputs: seq<Output>, px: seq<int>, py: seq<int>): (r: seq<Output>)
    requires |px| == |py| == |outputs|
    ensures |r| == |outputs|
    ensures forall i :: 0 <= i < |r| ==> r[i] == outputs[i].(x := Clamp(px[i], 0, I16_MAX), y := Clamp(py[i], 0, I16_MAX))
  {
    seq(|outputs|, i requires 0 <= i < |outputs| => outputs[i].(x := Clamp(px[i], 0, I16_MAX), y := Clamp(py[i], 0, I16_MAX)))
  }

  /** Each output's physical position, from the logical layout. */
  function Relaid(outputs: seq<Output>): (r: seq<Output>)
    ensures |r| == |outputs|
  {
    Tiled(outputs, Starts(Columns(outputs)), Starts(Rows(outputs)))
  }

  // --- putting the outputs back ---

  /** Whether a Wayland output is enabled at a mode of its own size. */
  predicate Driven(modes: seq<Mode>, o: Output) {
    ModeSize(modes, o.mode) == Some((o.width, o.height))
  }

  /** Puts output `i` back to what the compositor drives. */
  function RestoreOne(s: State, i: nat): (State, bool)
    requires i < |s.outputs|
  {
    var o := s.outputs[i];
    if !o.IsWayland() || Driven(s.modes, o) then (s, false) else
      var listed := ListedMode(s.modes, o.modeIds, (o.width, o.height));
      var (t, mode) := if listed.Some? then (s, listed.value)
                       else (s.(modes := s.modes + [Mode(s.nextId, o.width, o.height, true)], nextId := s.nextId + 1), s.nextId);
      var ids := if mode in o.modeIds then o.modeIds else o.modeIds + [mode];
      (t.(outputs := t.outputs[i := o.(mode := mode, modeIds := ids)]), true)
  }

  function RestoreFirst(s: State, n: nat): (r: (State, bool))
    requires n <= |s.outputs|
    ensures |r.0.outputs| == |s.outputs|
  {
    if n == 0 then (s, false) else
      var (t, c) := RestoreFirst(s, n - 1);
      var (u, d) := RestoreOne(t, n - 1);
      (u, c || d)
  }

  /** The geometry an output keeps whatever a client does. */
  predicate SameDevice(o: Output, p: Output) {
    && o.id == p.id && o.crtc == p.crtc && o.width == p.width && o.height == p.height
    && o.lx == p.lx && o.ly == p.ly && o.lw == p.lw && o.lh == p.lh
    && o.wlName == p.wlName && o.connected == p.connected
  }

  ghost predicate SameDevices(a: seq<Output>, b: seq<Output>) {
    |a| == |b| && forall i :: 0 <= i < |a| ==> SameDevice(a[i], b[i])
  }

  lemma {:induction false} RestoreKeepsDevices(s: State, n: nat)
    requires n <= |s.outputs|
    ensures SameDevices(s.outputs, RestoreFirst(s, n).0.outputs)
  {
    if n > 0 {
      RestoreKeepsDevices(s, n - 1);
      hide ListedMode, ModeSize;
    }
  }

  function Restore(s: State): (State, bool) {
    var (t, changed) := RestoreFirst(s, |s.outputs|);
    var (u, bounds) := Rebound(t.(outputs := Relaid(t.outputs)));
    (if changed && !bounds then Bump(u) else u, changed || bounds)
  }

  // --- what the compositor does ---

  function WithWlName(outputs: seq<Output>, wlName: nat): (r: Option<nat>)
    ensures r.Some? ==> r.value < |outputs| && outputs[r.value].wlName == wlName
    ensures r.None? ==> forall i :: 0 <= i < |outputs| ==> outputs[i].wlName != wlName
  {
    if outputs == [] then None
    else if outputs[0].wlName == wlName then Some(0)
    else match WithWlName(outputs[1..], wlName)
      case None => None
      case Some(i) => Some(i + 1)
  }

  predicate Listed(outputs: seq<Output>, id: nat) {
    exists i :: 0 <= i < |outputs| && id in outputs[i].modeIds
  }

  /** Drops the native modes no output lists. */
  function Pruned(modes: seq<Mode>, outputs: seq<Output>): seq<Mode> {
    if modes == [] then []
    else (if modes[0].ours && !Listed(outputs, modes[0].id) then [] else [modes[0]]) + Pruned(modes[1..], outputs)
  }

  /** The native modes among `ids`, other than `current`. */
  function Stale(modes: seq<Mode>, ids: seq<nat>, current: nat): seq<nat> {
    if modes == [] then []
    else (if modes[0].ours && modes[0].id != current && modes[0].id in ids then [modes[0].id] else [])
         + Stale(modes[1..], ids, current)
  }

  /** The native modes of a size, other than `current`. */
  function Natives(modes: seq<Mode>, current: nat, size: (u16, u16)): seq<nat> {
    if modes == [] then []
    else (if modes[0].ours && modes[0].id != current && (modes[0].width, modes[0].height) == size then [modes[0].id] else [])
         + Natives(modes[1..], current, size)
  }

  function Minus(ids: seq<nat>, drop: seq<nat>): seq<nat> {
    if ids == [] then [] else (if ids[0] in drop then [] else [ids[0]]) + Minus(ids[1..], drop)
  }

  function OnlyWayland(outputs: seq<Output>): seq<Output> {
    if outputs == [] then [] else (if outputs[0].IsWayland() then [outputs[0]] else []) + OnlyWayland(outputs[1..])
  }

  function Others(outputs: seq<Output>, wlName: nat): seq<Output> {
    if outputs == [] then [] else (if outputs[0].wlName != wlName then [outputs[0]] else []) + Others(outputs[1..], wlName)
  }

  /** What the compositor says of an output: where it is logically, and the size it is driven at. */
  datatype Report = Report(wlName: nat, lx: int, ly: int, lw: int, lh: int, width: u16, height: u16)

  function Rearranged(s: State): State {
    Rebound(s.(outputs := Relaid(s.outputs))).0
  }

  /** Whether an output is already as reported, at a mode of that size. */
  predicate AsReported(modes: seq<Mode>, o: Output, r: Report) {
    && o.lx == r.lx && o.ly == r.ly && o.lw == r.lw && o.lh == r.lh && o.width == r.width && o.height == r.height
    && ModeSize(modes, o.mode) == Some((r.width, r.height))
  }

  /** The mode an output takes for a reported size: its own, or one it lists, or a new native one. */
  function ModeFor(s: State, o: Output, r: Report): (State, nat) {
    var size := (r.width, r.height);
    var listed := ListedMode(s.modes, o.modeIds, size);
    if ModeSize(s.modes, o.mode) == Some(size) then (s, o.mode)
    else if listed.Some? then (s, listed.value)
    else (s.(modes := s.modes + [Mode(s.nextId, r.width, r.height, true)], nextId := s.nextId + 1), s.nextId)
  }

  function Reported(o: Output, r: Report, mode: nat): Output {
    o.(lx := r.lx, ly := r.ly, lw := r.lw, lh := r.lh, width := r.width, height := r.height, mode := mode,
       modeIds := if mode in o.modeIds then o.modeIds else o.modeIds + [mode])
  }

  /** Output `i` becomes `p`, and every native mode it lists besides its own is retired. */
  function Retired(s: State, i: nat, p: Output): State
    requires i < |s.outputs|
  {
    var stale := Stale(s.modes, p.modeIds, p.mode);
    if stale == [] then s.(outputs := s.outputs[i := p])
    else
      var outputs := s.outputs[i := p.(modeIds := Minus(p.modeIds, stale))];
      s.(outputs := outputs, modes := Pruned(s.modes, outputs))
  }

  /** A known output takes the reported size. */
  function Redriven(s: State, i: nat, r: Report): State
    requires i < |s.outputs|
  {
    var (t, mode) := ModeFor(s, s.outputs[i], r);
    Retired(t, i, Reported(s.outputs[i], r, mode))
  }

  /** A new output, which also replaces the synthetic one. */
  function Joined(s: State, r: Report): State {
    var o := Output(s.nextId + 1, s.nextId + 2, 0, 0, r.width, r.height, r.lx, r.ly, r.lw, r.lh, s.nextId, [s.nextId], r.wlName, true);
    var outputs := OnlyWayland(s.outputs + [o]);
    s.(modes := Pruned(s.modes + [Mode(s.nextId, r.width, r.height, true)], outputs), outputs := outputs, nextId := s.nextId + 3)
  }

  function Sync(s: State, r: Report): (State, bool) {
    match WithWlName(s.outputs, r.wlName)
    case None => (Rearranged(Joined(s, r)), true)
    case Some(i) => if AsReported(s.modes, s.outputs[i], r) then (s, false) else (Rearranged(Redriven(s, i, r)), true)
  }

  function Remove(s: State, wlName: nat): (State, bool) {
    var outputs := Others(s.outputs, wlName);
    if |outputs| == |s.outputs| then (s, false)
    else (Rearranged(s.(outputs := outputs, modes := Pruned(s.modes, outputs))), true)
  }

  /** Once the compositor drives an output at the size a client asked for, its CRTC takes the client's mode. */
  function Adopt(s: State, crtc: nat, mode: nat): State {
    if ModeSize(s.modes, mode) == None then s else
      match WithCrtc(s.outputs, crtc)
      case None => s
      case Some(i) =>
        var o, size := s.outputs[i], ModeSize(s.modes, mode).value;
        if size != (o.width, o.height) || o.mode == mode then s else
          var ids := if mode in o.modeIds then o.modeIds else o.modeIds + [mode];
          var outputs := s.outputs[i := o.(mode := mode, modeIds := Minus(ids, Natives(s.modes, mode, size)))];
          Bump(s.(outputs := outputs, modes := Pruned(s.modes, outputs)))
  }
}
