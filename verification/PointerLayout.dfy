/** Mapping a point of the tiled X screen back to the compositor's logical space. */
module PointerLayout {
  import opened BridgeTypes
  import opened PackAxis
  import opened PackTheorems
  import opened RandrScreen

  /** An output's rectangle on the X screen and in logical space. */
  datatype OutputRect = OutputRect(px: int, py: int, pw: int, ph: int, lx: int, ly: int, lw: int, lh: int) {
    predicate Contains(x: int, y: int) {
      px <= x < px + pw && py <= y < py + ph
    }

    predicate LogicallyContains(x: int, y: int) {
      lx <= x < lx + lw && ly <= y < ly + lh
    }

    /** The squared distance to the nearest of its pixels. */
    function Distance(x: int, y: int): int {
      var dx, dy := x - Clamp(x, px, px + pw - 1), y - Clamp(y, py, py + ph - 1);
      dx * dx + dy * dy
    }
  }

  datatype Layout = Layout(outputs: seq<OutputRect>, ox: int, oy: int, ow: int, oh: int)

  function MinOf(values: seq<int>): (m: int)
    requires values != []
    ensures m in values && forall v :: v in values ==> m <= v
  {
    if |values| == 1 then values[0] else
      var rest := MinOf(values[1..]);
      assert values == [values[0]] + values[1..];
      if values[0] <= rest then values[0] else rest
  }

  function MaxOf(values: seq<int>): (m: int)
    requires values != []
    ensures m in values && forall v :: v in values ==> v <= m
  {
    if |values| == 1 then values[0] else
      var rest := MaxOf(values[1..]);
      assert values == [values[0]] + values[1..];
      if values[0] >= rest then values[0] else rest
  }

  function Lefts(outputs: seq<OutputRect>): (r: seq<int>)
    ensures |r| == |outputs| && forall i :: 0 <= i < |r| ==> r[i] == outputs[i].lx
  {
    seq(|outputs|, i requires 0 <= i < |outputs| => outputs[i].lx)
  }

  function Tops(outputs: seq<OutputRect>): (r: seq<int>)
    ensures |r| == |outputs| && forall i :: 0 <= i < |r| ==> r[i] == outputs[i].ly
  {
    seq(|outputs|, i requires 0 <= i < |outputs| => outputs[i].ly)
  }

  function Rights(outputs: seq<OutputRect>): (r: seq<int>)
    ensures |r| == |outputs| && forall i :: 0 <= i < |r| ==> r[i] == outputs[i].lx + outputs[i].lw
  {
    seq(|outputs|, i requires 0 <= i < |outputs| => outputs[i].lx + outputs[i].lw)
  }

  function Bottoms(outputs: seq<OutputRect>): (r: seq<int>)
    ensures |r| == |outputs| && forall i :: 0 <= i < |r| ==> r[i] == outputs[i].ly + outputs[i].lh
  {
    seq(|outputs|, i requires 0 <= i < |outputs| => outputs[i].ly + outputs[i].lh)
  }

  function NewLayout(outputs: seq<OutputRect>): Option<Layout> {
    if outputs == [] then None else
      var ox, oy := MinOf(Lefts(outputs)), MinOf(Tops(outputs));
      Some(Layout(outputs, ox, oy, Max(MaxOf(Rights(outputs)) - ox, 1), Max(MaxOf(Bottoms(outputs)) - oy, 1)))
  }

  /** Every output lies inside the bounds of the layout. */
  lemma BoundsHoldOutputs(outputs: seq<OutputRect>, o: OutputRect)
    requires o in outputs
    ensures var l := NewLayout(outputs).value;
            && l.ox <= o.lx && o.lx + o.lw <= l.ox + l.ow
            && l.oy <= o.ly && o.ly + o.lh <= l.oy + l.oh
  {
    var i :| 0 <= i < |outputs| && outputs[i] == o;
    assert Lefts(outputs)[i] in Lefts(outputs) && Tops(outputs)[i] in Tops(outputs);
    assert Rights(outputs)[i] in Rights(outputs) && Bottoms(outputs)[i] in Bottoms(outputs);
  }

  function FirstContaining(outputs: seq<OutputRect>, x: int, y: int): (r: Option<nat>)
    ensures r.Some? ==> r.value < |outputs| && outputs[r.value].Contains(x, y)
    ensures r.Some? ==> forall j :: 0 <= j < r.value ==> !outputs[j].Contains(x, y)
    ensures r.None? ==> forall o :: o in outputs ==> !o.Contains(x, y)
  {
    if outputs == [] then None
    else if outputs[0].Contains(x, y) then Some(0)
    else match FirstContaining(outputs[1..], x, y)
      case None => assert outputs == [outputs[0]] + outputs[1..]; None
      case Some(i) => Some(i + 1)
  }

  /** The nearest output; the first one, if several are. */
  function Nearest(outputs: seq<OutputRect>, x: int, y: int): (i: nat)
    requires outputs != []
    ensures i < |outputs|
    ensures forall o :: o in outputs ==> outputs[i].Distance(x, y) <= o.Distance(x, y)
    ensures forall j :: 0 <= j < i ==> outputs[i].Distance(x, y) < outputs[j].Distance(x, y)
  {
    if |outputs| == 1 then 0 else
      assert outputs == [outputs[0]] + outputs[1..];
      var rest := Nearest(outputs[1..], x, y);
      if outputs[0].Distance(x, y) <= outputs[1..][rest].Distance(x, y) then 0 else rest + 1
  }

  /** Division that drops the remainder, whatever the signs. */
  function Quotient(a: int, b: int): int
    requires b > 0
  {
    if a >= 0 then a / b else -((-a) / b)
  }

  /** A physical offset within an output, as a logical one. */
  function Offset(p: int, base: int, plen: int, llen: int): int {
    var len := Max(plen, 1);
    Quotient(Clamp(p - base, 0, len - 1) * llen, len)
  }

  /** A point on the logical plane, relative to the layout's corner, and the layout's extent. */
  datatype Target = Target(x: int, y: int, extentX: int, extentY: int)

  function ToLogical(l: Layout, x: int, y: int): Target
    requires l.outputs != []
  {
    var inside := FirstContaining(l.outputs, x, y);
    var o := l.outputs[if inside.Some? then inside.value else Nearest(l.outputs, x, y)];
    var gx := o.lx + Offset(x, o.px, o.pw, o.lw) - l.ox;
    var gy := o.ly + Offset(y, o.py, o.ph, o.lh) - l.oy;
    Target(Clamp(gx, 0, l.ow), Clamp(gy, 0, l.oh), l.ow, l.oh)
  }

  // --- one axis ---

  lemma OffsetIsInside(p: int, base: int, plen: int, llen: int)
    requires llen > 0
    ensures 0 <= Offset(p, base, plen, llen) < llen
  {
    var len := Max(plen, 1);
    var k := Clamp(p - base, 0, len - 1);
    assert 0 <= k * llen;
    assert k * llen <= (len - 1) * llen;
    assert (len - 1) * llen < len * llen;
    DivBound(k * llen, llen, len);
  }

  lemma DivBound(a: int, q: int, b: int)
    requires b > 0 && 0 <= a < b * q
    ensures 0 <= a / b < q
  {
  }

  lemma OffsetKeepsOrder(p: int, q: int, base: int, plen: int, llen: int)
    requires llen > 0 && p <= q
    ensures Offset(p, base, plen, llen) <= Offset(q, base, plen, llen)
  {
    var len := Max(plen, 1);
    var j, k := Clamp(p - base, 0, len - 1), Clamp(q - base, 0, len - 1);
    assert 0 <= j * llen;
    assert j * llen <= k * llen;
    DivMonotone(j * llen, k * llen, len);
  }

  lemma MulLe(a: int, b: int, d: int)
    requires a <= b && d > 0
    ensures a * d <= b * d
  {
  }

  lemma DivMonotone(a: int, b: int, d: int)
    requires 0 <= a <= b && d > 0
    ensures a / d <= b / d
  {
    if a / d > b / d {
      MulLe(b / d + 1, a / d, d);
    }
  }

  lemma DivIs(a: int, q: int, b: int)
    requires b > 0 && q * b <= a < q * b + b
    ensures a / b == q
  {
    if a / b < q {
      MulLe(a / b + 1, q, b);
    } else if a / b > q {
      MulLe(q + 1, a / b, b);
    }
  }

  /** Where the output has at least as many pixels as logical units, every unit can be pointed at. */
  lemma EveryUnitIsReached(base: int, plen: int, llen: int, u: int) returns (p: int)
    requires 0 <= u < llen <= plen
    ensures base <= p < base + plen && Offset(p, base, plen, llen) == u
  {
    var a := u * plen;
    var k := RoundUp(a, llen);
    p := base + k;
    assert a + plen <= llen * plen by {
      MulLe(u + 1, llen, plen);
      assert (u + 1) * plen == a + plen;
    }
    assert 0 <= a by { MulLe(0, u, plen); }
    DivIs(k * llen, u, plen);
    Below(k, plen, llen);
    OffsetIs(p, base, plen, llen, k);
  }

  lemma OffsetIs(p: int, base: int, plen: int, llen: int, k: int)
    requires 0 <= k < plen && p == base + k && 0 <= k * llen
    ensures Offset(p, base, plen, llen) == k * llen / plen
  {
  }

  /** The least multiple of `d` at or past `a`. */
  lemma RoundUp(a: int, d: int) returns (k: int)
    requires 0 <= a && 0 < d
    ensures 0 <= k && a <= k * d < a + d
  {
    k := (a + d - 1) / d;
    assert a + d - 1 == d * k + (a + d - 1) % d;
    assert d * k == k * d;
  }

  lemma Below(k: int, plen: int, llen: int)
    requires 0 < llen && k * llen < plen * llen
    ensures k < plen
  {
  }

  // --- the mapping ---

  /** A point of an output's rectangle maps inside the logical rectangle of the first output that holds it,
      at the offset scaled to its logical size: the clamp to the extent changes nothing. */
  lemma InsideMapsInside(outputs: seq<OutputRect>, x: int, y: int)
    requires FirstContaining(outputs, x, y).Some?
    requires outputs[FirstContaining(outputs, x, y).value].lw > 0 && outputs[FirstContaining(outputs, x, y).value].lh > 0
    ensures var l := NewLayout(outputs).value;
            var o := outputs[FirstContaining(outputs, x, y).value];
            var t := ToLogical(l, x, y);
            && o.LogicallyContains(l.ox + t.x, l.oy + t.y)
            && t.x == o.lx + Offset(x, o.px, o.pw, o.lw) - l.ox
            && t.y == o.ly + Offset(y, o.py, o.ph, o.lh) - l.oy
            && 0 <= t.x < t.extentX && 0 <= t.y < t.extentY
  {
    var o := outputs[FirstContaining(outputs, x, y).value];
    hide Offset, FirstContaining;
    BoundsHoldOutputs(outputs, o);
    OffsetIsInside(x, o.px, o.pw, o.lw);
    OffsetIsInside(y, o.py, o.ph, o.lh);
  }

  /** Within one output, moving right never moves the target left; nor down, up. */
  lemma OrderIsKept(outputs: seq<OutputRect>, x1: int, y1: int, x2: int, y2: int)
    requires FirstContaining(outputs, x1, y1).Some? && FirstContaining(outputs, x2, y2) == FirstContaining(outputs, x1, y1)
    requires outputs[FirstContaining(outputs, x1, y1).value].lw > 0 && outputs[FirstContaining(outputs, x1, y1).value].lh > 0
    ensures var l := NewLayout(outputs).value;
            && (x1 <= x2 ==> ToLogical(l, x1, y1).x <= ToLogical(l, x2, y2).x)
            && (y1 <= y2 ==> ToLogical(l, x1, y1).y <= ToLogical(l, x2, y2).y)
  {
    var o := outputs[FirstContaining(outputs, x1, y1).value];
    InsideMapsInside(outputs, x1, y1);
    InsideMapsInside(outputs, x2, y2);
    hide Offset, ToLogical, FirstContaining;
    if x1 <= x2 { OffsetKeepsOrder(x1, x2, o.px, o.pw, o.lw); }
    if y1 <= y2 { OffsetKeepsOrder(y1, y2, o.py, o.ph, o.lh); }
  }

  /** Any point at all, in a gap or off the screen, maps inside the logical rectangle of the nearest output. */
  lemma GapsMapToTheNearest(outputs: seq<OutputRect>, x: int, y: int)
    requires outputs != [] && FirstContaining(outputs, x, y).None?
    requires forall o :: o in outputs ==> o.lw > 0 && o.lh > 0
    ensures var l := NewLayout(outputs).value;
            var o := outputs[Nearest(outputs, x, y)];
            o.LogicallyContains(l.ox + ToLogical(l, x, y).x, l.oy + ToLogical(l, x, y).y)
  {
    var o := outputs[Nearest(outputs, x, y)];
    hide Offset, FirstContaining, Nearest;
    BoundsHoldOutputs(outputs, o);
    OffsetIsInside(x, o.px, o.pw, o.lw);
    OffsetIsInside(y, o.py, o.ph, o.lh);
  }

  // --- on the screen's own layout ---

  function RectOf(o: Output): OutputRect {
    OutputRect(o.x, o.y, o.width, o.height, o.lx, o.ly, o.lw, o.lh)
  }

  /** The rectangles of the connected, enabled outputs. */
  function LayoutRects(outputs: seq<Output>): seq<OutputRect> {
    if outputs == [] then []
    else (if outputs[0].connected && outputs[0].mode != 0 then [RectOf(outputs[0])] else []) + LayoutRects(outputs[1..])
  }

  predicate LogicallyApart(o: Output, p: Output) {
    o.lx + o.lw <= p.lx || p.lx + p.lw <= o.lx || o.ly + o.lh <= p.ly || p.ly + p.lh <= o.ly
  }

  /** Rows and columns line up, no two outputs meet logically, and the packed screen fits 16-bit positions. */
  ghost predicate AlignedGrid(outputs: seq<Output>) {
    && Sized(outputs)
    && Aligned(Columns(outputs)) && Aligned(Rows(outputs))
    && (forall i, j :: 0 <= i < j < |outputs| ==> LogicallyApart(outputs[i], outputs[j]))
    && (forall i :: 0 <= i < |outputs| ==> Starts(Columns(outputs))[i] <= I16_MAX && Starts(Rows(outputs))[i] <= I16_MAX)
  }

  lemma GridStarts(outputs: seq<Output>, i: nat)
    requires AlignedGrid(outputs) && i < |outputs|
    ensures 0 <= Starts(Columns(outputs))[i] <= I16_MAX && 0 <= Starts(Rows(outputs))[i] <= I16_MAX
  {
    hide Starts, Aligned, Positive;
    SizedColumns(outputs);
    StartsAreNonNegative(Columns(outputs), i);
    StartsAreNonNegative(Rows(outputs), i);
  }

  lemma TiledUnclamped(outputs: seq<Output>, px: seq<int>, py: seq<int>, i: nat)
    requires |px| == |py| == |outputs| && i < |outputs| && 0 <= px[i] <= I16_MAX && 0 <= py[i] <= I16_MAX
    ensures Tiled(outputs, px, py)[i] == outputs[i].(x := px[i], y := py[i])
  {
  }

  lemma GridSized(outputs: seq<Output>, i: nat)
    requires AlignedGrid(outputs) && i < |outputs|
    ensures outputs[i].lw > 0 && outputs[i].lh > 0
  {
    hide Starts, Aligned;
  }

  lemma RelaidPosition(outputs: seq<Output>, i: nat)
    requires AlignedGrid(outputs) && i < |outputs|
    ensures Relaid(outputs)[i] == outputs[i].(x := Relaid(outputs)[i].x, y := Relaid(outputs)[i].y)
    ensures Relaid(outputs)[i].x == Starts(Columns(outputs))[i] && Relaid(outputs)[i].y == Starts(Rows(outputs))[i]
  {
    hide Starts, AlignedGrid, Columns, Rows, Tiled;
    GridStarts(outputs, i);
    TiledUnclamped(outputs, Starts(Columns(outputs)), Starts(Rows(outputs)), i);
  }

  /** On an aligned grid the packed outputs do not overlap: no point is in two of them. */
  lemma PackedGridTiles(outputs: seq<Output>, i: nat, j: nat, x: int, y: int)
    requires AlignedGrid(outputs) && i < j < |outputs|
    ensures !(RectOf(Relaid(outputs)[i]).Contains(x, y) && RectOf(Relaid(outputs)[j]).Contains(x, y))
  {
    var cols, rows := Columns(outputs), Rows(outputs);
    SizedColumns(outputs);
    RelaidPosition(outputs, i);
    RelaidPosition(outputs, j);
    hide Starts, Relaid;
    assert LogicallyApart(outputs[i], outputs[j]);
    assert cols[i] in cols && cols[j] in cols && ColumnOrDisjoint(cols[i], cols[j]);
    assert rows[i] in rows && rows[j] in rows && ColumnOrDisjoint(rows[i], rows[j]);
    AlignedColumnsPack(cols, i, j);
    AlignedColumnsPack(cols, j, i);
    AlignedColumnsPack(rows, i, j);
    AlignedColumnsPack(rows, j, i);
  }

  lemma {:induction false} LayoutRectsAre(outputs: seq<Output>, r: OutputRect)
    ensures r in LayoutRects(outputs) <==> exists o :: o in outputs && o.connected && o.mode != 0 && RectOf(o) == r
  {
    if outputs != [] {
      LayoutRectsAre(outputs[1..], r);
      assert outputs == [outputs[0]] + outputs[1..];
      if o :| o in outputs && o.connected && o.mode != 0 && RectOf(o) == r {
        assert o == outputs[0] || o in outputs[1..];
      }
    }
  }

  /** The first rectangle that holds a point of an output is that output's. */
  lemma FoundIsTheOutput(outputs: seq<Output>, i: nat, x: int, y: int)
    requires AlignedGrid(outputs) && i < |outputs| && outputs[i].connected && outputs[i].mode != 0
    requires RectOf(Relaid(outputs)[i]).Contains(x, y)
    ensures var rects := LayoutRects(Relaid(outputs));
            && FirstContaining(rects, x, y).Some?
            && rects[FirstContaining(rects, x, y).value] == RectOf(Relaid(outputs)[i])
  {
    hide Starts, AlignedGrid, LayoutRects, FirstContaining;
    RelaidPosition(outputs, i);
    hide Relaid;
    var laid := Relaid(outputs);
    var rects := LayoutRects(laid);
    assert laid[i] in laid;
    LayoutRectsAre(laid, RectOf(laid[i]));
    var r := rects[FirstContaining(rects, x, y).value];
    LayoutRectsAre(laid, r);
    var o :| o in laid && o.connected && o.mode != 0 && RectOf(o) == r;
    var j :| 0 <= j < |laid| && laid[j] == o;
    if i < j {
      PackedGridTiles(outputs, i, j, x, y);
    } else if j < i {
      PackedGridTiles(outputs, j, i, x, y);
    }
  }

  /** So the pointer lands in the very output whose pixels are shown at the point. */
  lemma PointerFollowsTheOutput(outputs: seq<Output>, i: nat, x: int, y: int)
    requires AlignedGrid(outputs) && i < |outputs| && outputs[i].connected && outputs[i].mode != 0
    requires RectOf(Relaid(outputs)[i]).Contains(x, y)
    ensures var rects := LayoutRects(Relaid(outputs));
            && rects != []
            && var l := NewLayout(rects).value;
               var t := ToLogical(l, x, y);
               RectOf(outputs[i]).LogicallyContains(l.ox + t.x, l.oy + t.y)
  {
    hide Starts, AlignedGrid, LayoutRects, FirstContaining, ToLogical, NewLayout, Columns, Rows;
    RelaidPosition(outputs, i);
    GridSized(outputs, i);
    hide Relaid;
    FoundIsTheOutput(outputs, i, x, y);
    InsideMapsInside(LayoutRects(Relaid(outputs)), x, y);
  }
}
