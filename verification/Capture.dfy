/** The shared framebuffer: captured outputs blitted in, rectangles read back out. */
module Capture {
  import opened BridgeTypes
  import opened PixelTransform

  /** Blue, green and red byte offsets within a source pixel. */
  datatype ChannelMap = ChannelMap(b: nat, g: nat, r: nat) {
    predicate Fits() {
      b < 4 && g < 4 && r < 4
    }

    function Of(c: nat): nat {
      if c == 0 then b else if c == 1 then g else r
    }
  }

  const XRGB := ChannelMap(0, 1, 2)

  /** A captured buffer, and how its rows and pixels are laid out. */
  datatype Source = Source(width: nat, height: nat, stride: nat, bytes: seq<u8>, yInvert: bool, chan: ChannelMap) {
    function Row(sy: int): int {
      if yInvert then height - 1 - sy else sy
    }

    /** Whether the buffer holds the first `cols` pixels of row `sy`. */
    predicate Holds(sy: int, cols: int) {
      0 <= sy < height && Row(sy) * stride + cols * 4 <= |bytes|
    }

    function Byte(sx: int, sy: int, c: nat): u8
      requires 0 <= sx && c < 4 && Holds(sy, sx + 1)
    {
      assert Row(sy) * stride >= 0;
      bytes[Row(sy) * stride + sx * 4 + c]
    }
  }

  // --- byte indices and pixels ---

  function At(x: int, y: int, w: int): int {
    y * (w * 4) + x * 4
  }

  function PixelX(j: int, w: int): int
    requires w > 0
  {
    (j / 4) % w
  }

  function PixelY(j: int, w: int): int
    requires w > 0
  {
    (j / 4) / w
  }

  lemma MulLe(a: int, b: int, w: int)
    requires a <= b && w >= 0
    ensures a * w <= b * w
  {
  }

  lemma DivMod(q: int, x: int, y: int, w: int)
    requires w > 0 && 0 <= x < w
    ensures q == y * w + x <==> q / w == y && q % w == x
  {
    if q == y * w + x {
      if q / w < y {
        MulLe(q / w + 1, y, w);
      } else if q / w > y {
        MulLe(y + 1, q / w, w);
      }
    }
  }

  /** The bytes of pixel (x, y) are exactly those whose index names it. */
  lemma IndexNamesPixel(j: int, x: int, y: int, w: int)
    requires w > 0 && 0 <= x < w
    ensures At(x, y, w) == 4 * (y * w + x)
    ensures At(x, y, w) <= j < At(x, y, w) + 4 <==> PixelX(j, w) == x && PixelY(j, w) == y
    ensures At(x, y, w) <= j < At(x, y, w) + 4 ==> j - At(x, y, w) == j % 4
  {
    assert y * (w * 4) == 4 * (y * w);
    DivMod(j / 4, x, y, w);
  }

  lemma PixelInBounds(x: int, y: int, w: int, h: int)
    requires 0 <= x < w && 0 <= y < h
    ensures 0 <= At(x, y, w) && At(x, y, w) + 4 <= w * h * 4
  {
    assert y * w >= 0;
    assert (y + 1) * w <= h * w;
    assert y * (w * 4) == 4 * (y * w);
  }

  // --- what a blit makes of the framebuffer, byte by byte ---

  /** One blit: where the source goes, how many of its columns are read, and in which mode.
      A native blit copies whole pixels; the others shuffle three bytes and set the fourth. */
  datatype Blit = Blit(ox: int, oy: int, t: Transform, s: Source, cols: int, native: bool, damage: bool) {
    ghost predicate Fits() {
      s.chan.Fits() && 0 <= cols <= s.width
    }

    /** The source pixel that lands at framebuffer pixel (x, y). */
    function From(x: int, y: int): (int, int) {
      Unpoint(t, x - ox, y - oy, s.width, s.height)
    }

    predicate Lands(x: int, y: int) {
      var (sx, sy) := From(x, y);
      0 <= sx < cols && s.Holds(sy, cols)
    }

    lemma LandingByte(x: int, y: int)
      requires Lands(x, y)
      ensures var (sx, sy) := From(x, y); s.Holds(sy, sx + 1)
    {
    }

    function Sample(x: int, y: int, c: nat): u8
      requires Fits() && Lands(x, y) && c < 3
    {
      var (sx, sy) := From(x, y);
      LandingByte(x, y);
      s.Byte(sx, sy, s.chan.Of(c))
    }

    function Whole(x: int, y: int, c: nat): u8
      requires Lands(x, y) && c < 4
    {
      var (sx, sy) := From(x, y);
      LandingByte(x, y);
      s.Byte(sx, sy, c)
    }
  }

  predicate SameColour(b: Blit, was: seq<u8>, w: int, x: int, y: int)
    requires b.Fits() && b.Lands(x, y)
    requires 0 <= At(x, y, w) && At(x, y, w) + 4 <= |was|
  {
    && was[At(x, y, w)] == b.Sample(x, y, 0)
    && was[At(x, y, w) + 1] == b.Sample(x, y, 1)
    && was[At(x, y, w) + 2] == b.Sample(x, y, 2)
  }

  /** The byte a pixel holds after the blit. */
  function NewByte(b: Blit, was: seq<u8>, w: int, x: int, y: int, c: nat): u8
    requires b.Fits() && c < 4
    requires 0 <= At(x, y, w) && At(x, y, w) + 4 <= |was|
  {
    if !b.Lands(x, y) then was[At(x, y, w) + c]
    else if b.native then b.Whole(x, y, c)
    else if c < 3 then b.Sample(x, y, c)
    else if b.damage && SameColour(b, was, w, x, y) then was[At(x, y, w) + 3]
    else 0xff
  }

  /** Whether the walk over the source, now at (sx, sy), is past pixel `p`. */
  predicate Done(p: (int, int), sx: int, sy: int) {
    p.1 < sy || (p.1 == sy && p.0 < sx)
  }

  ghost predicate Pixel(x: int, y: int, w: int, h: int) {
    0 <= x < w && 0 <= y < h
  }

  ghost predicate Fb(bytes: seq<u8>, w: int, h: int) {
    0 <= w && 0 <= h && |bytes| == w * h * 4
  }

  ghost predicate PixelIs(b: Blit, was: seq<u8>, now: seq<u8>, w: int, x: int, y: int, done: bool)
    requires b.Fits() && |now| == |was|
    requires 0 <= At(x, y, w) && At(x, y, w) + 4 <= |was|
  {
    && ByteIs(b, was, now, w, x, y, 0, done)
    && ByteIs(b, was, now, w, x, y, 1, done)
    && ByteIs(b, was, now, w, x, y, 2, done)
    && ByteIs(b, was, now, w, x, y, 3, done)
  }

  ghost predicate ByteIs(b: Blit, was: seq<u8>, now: seq<u8>, w: int, x: int, y: int, c: nat, done: bool)
    requires b.Fits() && |now| == |was| && c < 4
    requires 0 <= At(x, y, w) && At(x, y, w) + 4 <= |was|
  {
    now[At(x, y, w) + c] == if done then NewByte(b, was, w, x, y, c) else was[At(x, y, w) + c]
  }

  /** Pixels whose source the walk has passed are new; the others are as they were. */
  ghost predicate Progress(b: Blit, was: seq<u8>, now: seq<u8>, w: int, h: int, sx: int, sy: int)
    requires b.Fits() && Fb(was, w, h) && |now| == |was|
  {
    forall x, y :: Pixel(x, y, w, h) ==> PixelThere(x, y, w, h) && PixelIs(b, was, now, w, x, y, Done(b.From(x, y), sx, sy))
  }

  /** Always true; it brings the bounds of a pixel's bytes into view. */
  ghost predicate PixelThere(x: int, y: int, w: int, h: int)
    requires Pixel(x, y, w, h)
    ensures PixelThere(x, y, w, h)
    ensures 0 <= At(x, y, w) && At(x, y, w) + 4 <= w * h * 4
  {
    PixelInBounds(x, y, w, h);
    true
  }

  lemma PixelsApart(x: int, y: int, u: int, v: int, w: int, h: int)
    requires Pixel(x, y, w, h) && Pixel(u, v, w, h) && (x, y) != (u, v)
    ensures At(x, y, w) + 4 <= At(u, v, w) || At(u, v, w) + 4 <= At(x, y, w)
  {
    IndexNamesPixel(At(x, y, w), u, v, w);
    IndexNamesPixel(At(x, y, w), x, y, w);
    IndexNamesPixel(At(u, v, w), x, y, w);
    IndexNamesPixel(At(u, v, w), u, v, w);
    IndexNamesPixel(At(x, y, w) + 3, u, v, w);
    IndexNamesPixel(At(x, y, w) + 3, x, y, w);
  }

  /** What a step of the walk at (sx, sy), which lands at (x, y), leaves at pixel (u, v). */
  lemma WalkOnePixel(b: Blit, was: seq<u8>, now: seq<u8>, after: seq<u8>, w: int, h: int, x: int, y: int, u: int, v: int,
                     before: bool, done: bool)
    requires b.Fits() && Fb(was, w, h) && |now| == |was| == |after| && Pixel(u, v, w, h)
    requires PixelThere(u, v, w, h) && PixelIs(b, was, now, w, u, v, before)
    requires Pixel(x, y, w, h) ==> PixelThere(x, y, w, h) && PixelIs(b, was, after, w, x, y, true)
    requires forall i :: 0 <= i < |now| && !(Pixel(x, y, w, h) && At(x, y, w) <= i < At(x, y, w) + 4) ==> after[i] == now[i]
    requires done <==> before || (u, v) == (x, y)
    ensures PixelIs(b, was, after, w, u, v, done)
  {
    hide At, NewByte;
    if (u, v) != (x, y) && Pixel(x, y, w, h) {
      PixelsApart(x, y, u, v, w, h);
    }
  }

  /** Four bytes were written, or found right, where source pixel (sx, sy) lands. */
  lemma WalkPixel(b: Blit, was: seq<u8>, now: seq<u8>, after: seq<u8>, w: int, h: int, sx: int, sy: int, x: int, y: int)
    requires b.Fits() && Fb(was, w, h) && |now| == |was| == |after|
    requires Progress(b, was, now, w, h, sx, sy)
    requires (x, y) == (b.ox + Point(b.t, sx, sy, b.s.width, b.s.height).0, b.oy + Point(b.t, sx, sy, b.s.width, b.s.height).1)
    requires Pixel(x, y, w, h) ==> PixelThere(x, y, w, h) && PixelIs(b, was, after, w, x, y, true)
    requires forall i :: 0 <= i < |now| && !(Pixel(x, y, w, h) && At(x, y, w) <= i < At(x, y, w) + 4) ==> after[i] == now[i]
    ensures Progress(b, was, after, w, h, sx + 1, sy)
  {
    hide PixelIs, At, Point, Unpoint;
    forall u, v | Pixel(u, v, w, h)
      ensures PixelThere(u, v, w, h) && PixelIs(b, was, after, w, u, v, Done(b.From(u, v), sx + 1, sy))
    {
      assert PixelThere(u, v, w, h);
      FromIsPoint(b, sx, sy, x, y, u, v);
      WalkOnePixel(b, was, now, after, w, h, x, y, u, v, Done(b.From(u, v), sx, sy), Done(b.From(u, v), sx + 1, sy));
    }
  }

  /** The walk moved on past source pixels that land nowhere in the framebuffer. */
  lemma WalkPast(b: Blit, was: seq<u8>, now: seq<u8>, w: int, h: int, sx: int, sy: int, tx: int, ty: int)
    requires b.Fits() && Fb(was, w, h) && |now| == |was|
    requires Progress(b, was, now, w, h, sx, sy)
    requires forall x, y :: Pixel(x, y, w, h) && Done(b.From(x, y), tx, ty) != Done(b.From(x, y), sx, sy) ==> !b.Lands(x, y)
    ensures Progress(b, was, now, w, h, tx, ty)
  {
    hide At;
    forall x, y | Pixel(x, y, w, h)
      ensures PixelThere(x, y, w, h) && PixelIs(b, was, now, w, x, y, Done(b.From(x, y), tx, ty))
    {
      assert PixelThere(x, y, w, h) && PixelIs(b, was, now, w, x, y, Done(b.From(x, y), sx, sy));
    }
  }

  lemma BlitBegins(b: Blit, was: seq<u8>, w: int, h: int)
    requires b.Fits() && Fb(was, w, h)
    ensures Progress(b, was, was, w, h, 0, 0)
  {
    hide At;
    forall x, y | Pixel(x, y, w, h)
      ensures PixelThere(x, y, w, h) && PixelIs(b, was, was, w, x, y, Done(b.From(x, y), 0, 0))
    {
      assert PixelThere(x, y, w, h);
    }
  }

  /** What a blit does: every pixel its source lands on is new, and no other has changed. */
  ghost predicate Blitted(b: Blit, was: seq<u8>, now: seq<u8>, w: int, h: int) {
    && b.Fits() && Fb(was, w, h) && |now| == |was|
    && forall x, y :: Pixel(x, y, w, h) ==> PixelThere(x, y, w, h) && PixelIs(b, was, now, w, x, y, true)
  }

  lemma BlitEnds(b: Blit, was: seq<u8>, now: seq<u8>, w: int, h: int)
    requires b.Fits() && Fb(was, w, h) && |now| == |was|
    requires Progress(b, was, now, w, h, 0, b.s.height)
    ensures Blitted(b, was, now, w, h)
  {
    hide At;
    forall x, y | Pixel(x, y, w, h)
      ensures PixelThere(x, y, w, h) && PixelIs(b, was, now, w, x, y, true)
    {
      assert PixelThere(x, y, w, h);
      assert PixelIs(b, was, now, w, x, y, Done(b.From(x, y), 0, b.s.height));
    }
  }

  // --- what a blit reports ---

  const I32_MAX := 0x7fff_ffff
  const I32_MIN := -0x8000_0000

  datatype Hull = Hull(minX: int, minY: int, maxX: int, maxY: int) {
    function Add(x: int, y: int): Hull {
      Hull(if x < minX then x else minX, if y < minY then y else minY,
           if x > maxX then x else maxX, if y > maxY then y else maxY)
    }
  }

  const NO_HULL := Hull(I32_MAX, I32_MAX, I32_MIN, I32_MIN)

  /** The least rectangle around the pixels: it holds them all, and each side touches one. */
  ghost predicate Hulls(pixels: set<(int, int)>, u: Hull) {
    && (pixels == {} ==> u == NO_HULL)
    && (forall p :: p in pixels ==> u.minX <= p.0 <= u.maxX && u.minY <= p.1 <= u.maxY)
    && (pixels != {} ==>
          && (exists p :: p in pixels && p.0 == u.minX) && (exists p :: p in pixels && p.0 == u.maxX)
          && (exists p :: p in pixels && p.1 == u.minY) && (exists p :: p in pixels && p.1 == u.maxY))
  }

  lemma HullAdds(pixels: set<(int, int)>, u: Hull, x: int, y: int)
    requires Hulls(pixels, u)
    requires I32_MIN <= x <= I32_MAX && I32_MIN <= y <= I32_MAX
    ensures Hulls(pixels + {(x, y)}, u.Add(x, y))
  {
    var all, v := pixels + {(x, y)}, u.Add(x, y);
    assert (x, y) in all;
    if pixels != {} {
      var p :| p in pixels && p.0 == u.minX;
      var q :| q in pixels && q.0 == u.maxX;
      var r :| r in pixels && r.1 == u.minY;
      var s :| s in pixels && s.1 == u.maxY;
      assert p in all && q in all && r in all && s in all;
      assert v.minX == u.minX || v.minX == (x, y).0;
      assert v.maxX == u.maxX || v.maxX == (x, y).0;
      assert v.minY == u.minY || v.minY == (x, y).1;
      assert v.maxY == u.maxY || v.maxY == (x, y).1;
    }
  }

  /** Whether the blit changes the colour of a framebuffer pixel. */
  ghost predicate Recolours(b: Blit, was: seq<u8>, w: int, h: int, x: int, y: int)
    requires b.Fits() && Fb(was, w, h)
  {
    Pixel(x, y, w, h) && PixelThere(x, y, w, h) && b.Lands(x, y) && !SameColour(b, was, w, x, y)
  }

  ghost predicate Recoloured(b: Blit, was: seq<u8>, w: int, h: int, pixels: set<(int, int)>, sx: int, sy: int)
    requires b.Fits() && Fb(was, w, h)
  {
    forall x, y :: (x, y) in pixels <==> Recolours(b, was, w, h, x, y) && Done(b.From(x, y), sx, sy)
  }

  lemma RecolouredPast(b: Blit, was: seq<u8>, w: int, h: int, pixels: set<(int, int)>, sx: int, sy: int, tx: int, ty: int)
    requires b.Fits() && Fb(was, w, h) && Recoloured(b, was, w, h, pixels, sx, sy)
    requires forall x, y :: Pixel(x, y, w, h) && Done(b.From(x, y), tx, ty) != Done(b.From(x, y), sx, sy) ==> !b.Lands(x, y)
    ensures Recoloured(b, was, w, h, pixels, tx, ty)
  {
    hide At, SameColour;
  }

  lemma FromIsPoint(b: Blit, sx: int, sy: int, x: int, y: int, u: int, v: int)
    requires (x, y) == (b.ox + Point(b.t, sx, sy, b.s.width, b.s.height).0, b.oy + Point(b.t, sx, sy, b.s.width, b.s.height).1)
    ensures b.From(u, v) == (sx, sy) <==> (u, v) == (x, y)
  {
    PointIsOneToOne(b.t, u - b.ox, v - b.oy, b.s.width, b.s.height);
    PointIsOneToOne(b.t, sx, sy, b.s.width, b.s.height);
    hide Point, Unpoint;
  }

  lemma RecolouredPixel(b: Blit, was: seq<u8>, w: int, h: int, pixels: set<(int, int)>, sx: int, sy: int, x: int, y: int)
    requires b.Fits() && Fb(was, w, h) && Recoloured(b, was, w, h, pixels, sx, sy)
    requires (x, y) == (b.ox + Point(b.t, sx, sy, b.s.width, b.s.height).0, b.oy + Point(b.t, sx, sy, b.s.width, b.s.height).1)
    ensures Recoloured(b, was, w, h, pixels + (if Recolours(b, was, w, h, x, y) then {(x, y)} else {}), sx + 1, sy)
  {
    hide Recolours, Point, Unpoint, Fb, b.Fits, b.From;
    forall u, v
      ensures Recolours(b, was, w, h, u, v) && Done(b.From(u, v), sx + 1, sy)
              <==> (u, v) in pixels + (if Recolours(b, was, w, h, x, y) then {(x, y)} else {})
    {
      FromIsPoint(b, sx, sy, x, y, u, v);
      assert Done(b.From(u, v), sx + 1, sy) <==> Done(b.From(u, v), sx, sy) || b.From(u, v) == (sx, sy);
    }
  }

  /** A recoloured pixel is one whose colour bytes differ before and after. */
  lemma RecolouredIsChanged(b: Blit, was: seq<u8>, now: seq<u8>, w: int, h: int, x: int, y: int)
    requires Blitted(b, was, now, w, h) && Pixel(x, y, w, h)
    requires b.native ==> b.s.chan == XRGB
    ensures PixelThere(x, y, w, h)
    ensures var at := At(x, y, w);
            Recolours(b, was, w, h, x, y) <==> now[at..at + 3] != was[at..at + 3]
  {
    var at := At(x, y, w);
    assert PixelThere(x, y, w, h) && PixelIs(b, was, now, w, x, y, true);
    hide At;
    assert now[at..at + 3] == [now[at], now[at + 1], now[at + 2]];
    assert was[at..at + 3] == [was[at], was[at + 1], was[at + 2]];
  }

  /** A rectangle as the protocol carries it. */
  datatype Rectangle = Rectangle(x: int, y: int, width: int, height: int)

  function AsI16(v: int): int {
    var low := v % TWO_TO_16;
    if low < 0x8000 then low else low - TWO_TO_16
  }

  function AsU16(v: int): int {
    v % TWO_TO_16
  }

  function Wire(u: Hull): Rectangle {
    Rectangle(AsI16(u.minX), AsI16(u.minY), AsU16(u.maxX - u.minX + 1), AsU16(u.maxY - u.minY + 1))
  }

  const MAX_SCREEN := 16384

  lemma WireIsExact(u: Hull)
    requires 0 <= u.minX <= u.maxX < MAX_SCREEN && 0 <= u.minY <= u.maxY < MAX_SCREEN
    ensures Wire(u) == Rectangle(u.minX, u.minY, u.maxX - u.minX + 1, u.maxY - u.minY + 1)
  {
  }

  // --- the upright blit, row by row ---

  function Min(a: int, b: int): int {
    if a < b then a else b
  }

  function Max(a: int, b: int): int {
    if a > b then a else b
  }

  /** The upright blit of a source onto a screen `w` wide: only columns that overlap it are read. */
  function RowBlit(ox: int, oy: int, s: Source, w: int, damage: bool): Blit {
    Blit(ox, oy, Normal, s, Max(0, Min(s.width, w - ox)), s.chan == XRGB, damage)
  }

  /** Whether the blit changes any byte of a pixel. */
  ghost predicate Alters(b: Blit, was: seq<u8>, w: int, h: int, x: int, y: int)
    requires b.Fits() && Fb(was, w, h)
  {
    && Pixel(x, y, w, h) && PixelThere(x, y, w, h) && b.Lands(x, y)
    && !PixelIs(b, was, was, w, x, y, true)
  }

  ghost predicate RowAlters(b: Blit, was: seq<u8>, w: int, h: int, y: int)
    requires b.Fits() && Fb(was, w, h)
  {
    exists x :: Alters(b, was, w, h, x, y)
  }

  /** `rows` are the rows that change, among those the first `sy` source rows land on. */
  ghost predicate RowsAltered(b: Blit, was: seq<u8>, w: int, h: int, rows: set<int>, sy: int)
    requires b.Fits() && Fb(was, w, h)
  {
    forall y :: y in rows <==> RowAlters(b, was, w, h, y) && y - b.oy < sy
  }

  ghost predicate Spans(rows: set<int>, lo: int, hi: int) {
    && (rows == {} ==> lo == I32_MAX && hi == I32_MIN)
    && (rows != {} ==> lo in rows && hi in rows)
    && (forall y :: y in rows ==> lo <= y <= hi)
  }

  lemma SpanAdds(rows: set<int>, lo: int, hi: int, y: int)
    requires Spans(rows, lo, hi) && I32_MIN <= y <= I32_MAX
    ensures Spans(rows + {y}, Min(lo, y), Max(hi, y))
  {
    assert y in rows + {y};
  }

  lemma SpanIsNone(rows: set<int>, lo: int, hi: int)
    ensures Spans(rows, lo, hi) ==> (rows == {} <==> hi < lo)
    ensures Spans({}, I32_MAX, I32_MIN)
  {
    if Spans(rows, lo, hi) && rows != {} {
      var y :| y in rows;
    }
  }

  /** Source row `sy` overlaps the screen in columns `dx0` to `dx1`; it starts at byte `start` and lands at `d`. */
  ghost predicate RowOverlaps(b: Blit, w: int, h: int, sy: int, dx0: int, dx1: int, start: int, d: int) {
    && b.Fits() && b.t == Normal
    && dx0 == Max(b.ox, 0) && dx1 == b.ox + b.cols && dx0 < dx1 <= w
    && 0 <= sy < b.s.height && 0 <= b.oy + sy < h
    && start == b.s.Row(sy) * b.s.stride + (dx0 - b.ox) * 4 && 0 <= start
    && start + (dx1 - dx0) * 4 <= |b.s.bytes|
    && d == At(dx0, b.oy + sy, w)
  }

  /** Nothing left of the row's part on the screen is on it, and nothing right of it. */
  lemma RowPartBegins(b: Blit, was: seq<u8>, now: seq<u8>, w: int, h: int, sy: int, dx0: int, dx1: int, start: int, d: int)
    requires RowOverlaps(b, w, h, sy, dx0, dx1, start, d) && Fb(was, w, h) && |now| == |was|
    requires Progress(b, was, now, w, h, 0, sy)
    ensures Progress(b, was, now, w, h, dx0 - b.ox, sy)
  {
    hide Progress;
    WalkPast(b, was, now, w, h, 0, sy, dx0 - b.ox, sy);
  }

  lemma RowPartEnds(b: Blit, was: seq<u8>, now: seq<u8>, w: int, h: int, sy: int, dx0: int, dx1: int, start: int, d: int)
    requires RowOverlaps(b, w, h, sy, dx0, dx1, start, d) && Fb(was, w, h) && |now| == |was|
    requires Progress(b, was, now, w, h, b.cols, sy)
    ensures Progress(b, was, now, w, h, 0, sy + 1)
  {
    hide Progress;
    WalkPast(b, was, now, w, h, b.cols, sy, 0, sy + 1);
  }

  lemma RowInBounds(dx0: int, dx1: int, y: int, w: int, h: int)
    requires 0 <= dx0 < dx1 <= w && 0 <= y < h
    ensures 0 <= At(dx0, y, w) && At(dx0, y, w) + (dx1 - dx0) * 4 <= w * h * 4
  {
    PixelInBounds(dx0, y, w, h);
    PixelInBounds(dx1 - 1, y, w, h);
  }

  /** Pixels of other rows lie wholly before or after a row. */
  lemma RowsApart(x: int, y: int, v: int, w: int)
    requires 0 <= x < w && y != v
    ensures At(x, y, w) + 4 <= At(0, v, w) || At(x, y, w) >= At(0, v, w) + w * 4
  {
    if y < v {
      MulLe(y + 1, v, w * 4);
    } else {
      MulLe(v + 1, y, w * 4);
    }
  }

  /** The bytes of a row hold a copy of the source's, and all others are as before. */
  ghost predicate RowCopied(b: Blit, before: seq<u8>, after: seq<u8>, start: int, d: int, n: int) {
    && |after| == |before| && 0 <= d && 0 <= n && d + n <= |before| && 0 <= start && start + n <= |b.s.bytes|
    && (forall i :: d <= i < d + n ==> after[i] == b.s.bytes[start + (i - d)])
    && (forall i :: 0 <= i < d || d + n <= i < |before| ==> after[i] == before[i])
  }

  lemma CopiedByte(b: Blit, was: seq<u8>, before: seq<u8>, after: seq<u8>, w: int, h: int, sy: int,
                   dx0: int, dx1: int, start: int, d: int, x: int, y: int, c: nat)
    requires RowOverlaps(b, w, h, sy, dx0, dx1, start, d) && b.native
    requires Fb(was, w, h) && |was| == |before| && RowCopied(b, before, after, start, d, (dx1 - dx0) * 4)
    requires Pixel(x, y, w, h) && PixelThere(x, y, w, h) && c < 4
    requires Progress(b, was, before, w, h, 0, sy)
    ensures ByteIs(b, was, after, w, x, y, c, Done(b.From(x, y), 0, sy + 1))
    ensures y == b.oy + sy && b.Lands(x, y) ==> after[At(x, y, w) + c] == NewByte(b, was, w, x, y, c)
  {
    assert PixelIs(b, was, before, w, x, y, Done(b.From(x, y), 0, sy));
    var j := At(x, y, w) + c;
    if y != b.oy + sy {
      RowsApart(x, y, b.oy + sy, w);
    } else if dx0 <= x < dx1 {
      assert b.Lands(x, y);
      assert after[j] == b.s.bytes[start + (j - d)];
      assert start + (j - d) == b.s.Row(sy) * b.s.stride + (x - b.ox) * 4 + c;
    } else {
      assert !b.Lands(x, y);
      assert j < d || d + (dx1 - dx0) * 4 <= j;
    }
  }

  lemma RowCopiedIsNew(b: Blit, was: seq<u8>, before: seq<u8>, after: seq<u8>, w: int, h: int, sy: int,
                       dx0: int, dx1: int, start: int, d: int)
    requires RowOverlaps(b, w, h, sy, dx0, dx1, start, d) && b.native
    requires Fb(was, w, h) && |was| == |before| && RowCopied(b, before, after, start, d, (dx1 - dx0) * 4)
    requires Progress(b, was, before, w, h, 0, sy)
    ensures Progress(b, was, after, w, h, 0, sy + 1)
  {
    forall x, y | Pixel(x, y, w, h)
      ensures PixelThere(x, y, w, h) && PixelIs(b, was, after, w, x, y, Done(b.From(x, y), 0, sy + 1))
    {
      assert PixelThere(x, y, w, h);
      hide At, NewByte, RowOverlaps, RowCopied, Progress, Unpoint, ByteIs;
      CopiedByte(b, was, before, after, w, h, sy, dx0, dx1, start, d, x, y, 0);
      CopiedByte(b, was, before, after, w, h, sy, dx0, dx1, start, d, x, y, 1);
      CopiedByte(b, was, before, after, w, h, sy, dx0, dx1, start, d, x, y, 2);
      CopiedByte(b, was, before, after, w, h, sy, dx0, dx1, start, d, x, y, 3);
    }
  }

  /** A copied row changes exactly if some byte of it does. */
  lemma RowCompared(b: Blit, was: seq<u8>, before: seq<u8>, w: int, h: int, sy: int, dx0: int, dx1: int, start: int, d: int)
    requires RowOverlaps(b, w, h, sy, dx0, dx1, start, d) && b.native
    requires Fb(was, w, h) && |was| == |before| && Progress(b, was, before, w, h, 0, sy)
    requires d + (dx1 - dx0) * 4 <= |before|
    ensures RowCopied(b, before, before, start, d, (dx1 - dx0) * 4) <==> !RowAlters(b, was, w, h, b.oy + sy)
  {
    var y, n := b.oy + sy, (dx1 - dx0) * 4;
    PixelInBounds(dx0, y, w, h);
    if RowCopied(b, before, before, start, d, n) {
      forall x ensures !Alters(b, was, w, h, x, y) {
        if Pixel(x, y, w, h) && b.Lands(x, y) {
          assert PixelThere(x, y, w, h) && PixelIs(b, was, before, w, x, y, Done(b.From(x, y), 0, sy));
          hide At, NewByte, RowOverlaps, RowCopied, Progress;
          CopiedByte(b, was, before, before, w, h, sy, dx0, dx1, start, d, x, y, 0);
          CopiedByte(b, was, before, before, w, h, sy, dx0, dx1, start, d, x, y, 1);
          CopiedByte(b, was, before, before, w, h, sy, dx0, dx1, start, d, x, y, 2);
          CopiedByte(b, was, before, before, w, h, sy, dx0, dx1, start, d, x, y, 3);
        }
      }
    } else {
      var i :| d <= i < d + n && before[i] != b.s.bytes[start + (i - d)];
      var x := dx0 + (i - d) / 4;
      var c: nat := (i - d) % 4;
      assert PixelThere(x, y, w, h) && PixelIs(b, was, before, w, x, y, Done(b.From(x, y), 0, sy));
      assert At(x, y, w) + c == i;
      assert b.Lands(x, y) && NewByte(b, was, w, x, y, c) == b.s.bytes[start + (i - d)];
      assert Alters(b, was, w, h, x, y);
    }
  }

  /** A source row that is off the screen or not held lands nowhere. */
  lemma RowSkipped(b: Blit, was: seq<u8>, now: seq<u8>, w: int, h: int, rows: set<int>, sy: nat)
    requires b.Fits() && b.t == Normal && Fb(was, w, h) && |now| == |was|
    requires Progress(b, was, now, w, h, 0, sy)
    requires !(0 <= b.oy + sy < h) || !b.s.Holds(sy, b.cols)
    ensures Progress(b, was, now, w, h, 0, sy + 1)
    ensures RowsAltered(b, was, w, h, rows, sy) ==> RowsAltered(b, was, w, h, rows, sy + 1)
  {
    hide Progress, At, NewByte, PixelIs;
    WalkPast(b, was, now, w, h, 0, sy, 0, sy + 1);
    var y := b.oy + sy;
    assert forall x :: !Alters(b, was, w, h, x, y);
  }

  lemma RowVisited(b: Blit, was: seq<u8>, w: int, h: int, rows: set<int>, sy: nat, changed: bool)
    requires b.Fits() && Fb(was, w, h) && RowsAltered(b, was, w, h, rows, sy)
    requires changed <==> RowAlters(b, was, w, h, b.oy + sy)
    ensures RowsAltered(b, was, w, h, if changed then rows + {b.oy + sy} else rows, sy + 1)
  {
    hide RowAlters;
  }

  /** Before the first row is read nothing has changed; when no column overlaps, nothing ever does. */
  lemma NothingLands(b: Blit, was: seq<u8>, w: int, h: int)
    requires b.Fits() && b.t == Normal && Fb(was, w, h)
    ensures RowsAltered(b, was, w, h, {}, 0)
    ensures b.ox + b.cols <= Max(b.ox, 0) || w <= Max(b.ox, 0) ==>
              RowsAltered(b, was, w, h, {}, b.s.height) && Blitted(b, was, was, w, h)
  {
    hide At;
    if b.ox + b.cols <= Max(b.ox, 0) || w <= Max(b.ox, 0) {
      forall x, y | Pixel(x, y, w, h) ensures PixelThere(x, y, w, h) && PixelIs(b, was, was, w, x, y, true) {
        assert PixelThere(x, y, w, h) && !b.Lands(x, y);
      }
      forall y ensures !RowAlters(b, was, w, h, y) {
      }
    }
  }

  /** What the shuffle of a row has changed so far. */
  ghost predicate ChangedSoFar(b: Blit, was: seq<u8>, w: int, h: int, y: int, upto: int, changed: bool)
    requires b.Fits() && Fb(was, w, h)
  {
    changed <==> exists x :: x < upto && Alters(b, was, w, h, x, y)
  }

  /** In a shuffled blit that wants damage, a pixel changes exactly if its colour does. */
  lemma ShuffleAlters(b: Blit, was: seq<u8>, w: int, h: int, x: int, y: int)
    requires b.Fits() && Fb(was, w, h) && !b.native && b.damage
    ensures Alters(b, was, w, h, x, y) <==> Recolours(b, was, w, h, x, y)
  {
    hide At, Unpoint;
  }

  /** The box of a transformed blit is the hull of the pixels whose colour changes. */
  ghost predicate HullReported(b: Blit, was: seq<u8>, w: int, h: int, box: Option<Rectangle>)
    requires b.Fits() && Fb(was, w, h)
  {
    exists pixels, u ::
      && Recoloured(b, was, w, h, pixels, 0, b.s.height) && Hulls(pixels, u)
      && box == if pixels == {} then None else Some(Wire(u))
  }

  /** The box of an upright blit is the whole overlap's width, from the first row that changes to the last. */
  ghost predicate RowsReported(b: Blit, was: seq<u8>, w: int, h: int, box: Option<Rectangle>)
    requires b.Fits() && Fb(was, w, h)
  {
    exists rows, lo, hi ::
      && RowsAltered(b, was, w, h, rows, b.s.height) && Spans(rows, lo, hi)
      && box == if rows == {} then None else Some(Wire(Hull(Max(b.ox, 0), lo, b.ox + b.cols - 1, hi)))
  }

  /** The blit a captured output makes. */
  function BlitOf(ox: int, oy: int, s: Source, t: Transform, w: int, damage: bool): Blit {
    if t == Normal then RowBlit(ox, oy, s, w, damage) else Blit(ox, oy, t, s, s.width, false, damage)
  }

  // --- reading a rectangle back ---

  /** Byte `i` of an image of the rectangle at (x, y), `width` pixels wide; zero off the screen. */
  function ImageByte(bytes: seq<u8>, w: int, h: int, x: int, y: int, width: nat, i: nat): u8
    requires Fb(bytes, w, h) && width > 0
  {
    var px, py := x + i % (width * 4) / 4, y + i / (width * 4);
    if 0 <= px < w && 0 <= py < h then
      PixelInBounds(px, py, w, h);
      bytes[At(px, py, w) + i % 4]
    else
      0
  }

  /** How much of a destination of `n` bytes a read fills: whole rows only. */
  function ImageRows(rowBytes: nat, height: nat, n: nat): nat
    requires rowBytes > 0
  {
    Min(n / rowBytes, height)
  }

  /** `dst` holds an image of the screen, in whole rows; what is beyond them is as it was. */
  ghost predicate HoldsImage(bytes: seq<u8>, w: int, h: int, x: int, y: int, width: nat, rows: nat, was: seq<u8>, dst: seq<u8>)
    requires Fb(bytes, w, h) && width > 0
  {
    && |dst| == |was|
    && (forall i: nat :: i < |dst| && i < ImageRow(width, rows) ==> dst[i] == ImageByte(bytes, w, h, x, y, width, i))
    && (forall i: nat :: ImageRow(width, rows) <= i < |dst| ==> dst[i] == was[i])
  }

  /** Which screen bytes row `py` of an image of columns x to x + width shows: `n` from `from` on, after `margin` zeroes. */
  ghost predicate Overlap(w: int, h: int, x: int, py: int, width: nat, margin: nat, n: nat, from: nat) {
    var sx0, sx1 := Max(x, 0), Min(x + width, w);
    if sx1 > sx0 && 0 <= py < h then n == (sx1 - sx0) * 4 && margin == (sx0 - x) * 4 && from == At(sx0, py, w)
    else n == 0
  }

  function ImageRow(width: nat, row: nat): nat {
    row * (width * 4)
  }

  lemma ImageRowStep(width: nat, row: nat, size: nat)
    requires width > 0
    ensures ImageRow(width, row + 1) == ImageRow(width, row) + width * 4 && ImageRow(width, row) % 4 == 0
    ensures row + 1 <= size / (width * 4) ==> ImageRow(width, row + 1) <= size
    ensures ImageRow(width, 0) == 0
  {
    assert row * (width * 4) == 4 * (row * width);
    if row + 1 <= size / (width * 4) {
      MulLe(row + 1, size / (width * 4), width * 4);
    }
  }

  /** Where byte `i` of row `row` is within its row. */
  lemma ImageColumn(width: nat, row: nat, i: nat)
    requires width > 0 && ImageRow(width, row) <= i < ImageRow(width, row) + width * 4
    ensures var k := i - ImageRow(width, row); i % (width * 4) == k && i / (width * 4) == row && i % 4 == k % 4
  {
    ImageRowStep(width, row, 0);
    var base, k := ImageRow(width, row), i - ImageRow(width, row);
    DivMod(i, k, row, width * 4);
    hide ImageRow;
    SameResidue(base, k);
  }

  lemma SameResidue(base: int, k: int)
    requires base % 4 == 0
    ensures (base + k) % 4 == k % 4
  {
  }

  lemma ImageOfRow(bytes: seq<u8>, w: int, h: int, x: int, y: int, width: nat, row: nat, i: nat, margin: nat, n: nat, from: nat)
    requires Fb(bytes, w, h) && width > 0 && Overlap(w, h, x, y + row, width, margin, n, from)
    requires ImageRow(width, row) <= i < ImageRow(width, row) + width * 4
    ensures var k := i - ImageRow(width, row) - margin;
            if 0 <= k < n then from + k < |bytes| && ImageByte(bytes, w, h, x, y, width, i) == bytes[from + k]
            else ImageByte(bytes, w, h, x, y, width, i) == 0
  {
    hide ImageByte, Fb, ImageRow, At;
    var k := i - ImageRow(width, row);
    ImageColumn(width, row, i);
    ImageOfPixel(bytes, w, h, x, y + row, width, i, k);
    AtMoves(x, Max(x, 0), y + row, w);
    InOverlap(w, x, width, k);
  }

  /** A byte's pixel is on the screen exactly if the byte is between the margins. */
  lemma InOverlap(w: int, x: int, width: nat, k: nat)
    requires k < width * 4
    ensures var sx0, sx1 := Max(x, 0), Min(x + width, w);
            0 <= x + k / 4 < w <==> sx1 > sx0 && (sx0 - x) * 4 <= k < (sx0 - x) * 4 + (sx1 - sx0) * 4
  {
  }

  lemma AtMoves(x: int, u: int, y: int, w: int)
    ensures At(u, y, w) == At(x, y, w) + (u - x) * 4
  {
  }

  lemma ImageOfPixel(bytes: seq<u8>, w: int, h: int, x: int, py: int, width: nat, i: nat, k: nat)
    requires Fb(bytes, w, h) && width > 0 && i % (width * 4) == k && i % 4 == k % 4
    ensures var px, y := x + k / 4, py - i / (width * 4);
            if 0 <= px < w && 0 <= py < h then
              0 <= At(x, py, w) + k < |bytes| && ImageByte(bytes, w, h, x, y, width, i) == bytes[At(x, py, w) + k]
            else ImageByte(bytes, w, h, x, y, width, i) == 0
  {
    var px := x + k / 4;
    if 0 <= px < w && 0 <= py < h {
      PixelInBounds(px, py, w, h);
      assert At(px, py, w) + i % 4 == At(x, py, w) + k;
    }
  }

  ghost predicate RowPut(bytes: seq<u8>, before: seq<u8>, after: seq<u8>, base: nat, rowBytes: nat, margin: nat, n: nat, from: nat)
    requires base + rowBytes <= |before| && from + n <= |bytes|
  {
    && |after| == |before|
    && (forall i :: base <= i < base + rowBytes ==>
          after[i] == if margin <= i - base < margin + n then bytes[from + (i - base - margin)] else 0)
    && (forall i :: 0 <= i < base || base + rowBytes <= i < |before| ==> after[i] == before[i])
  }

  lemma NoImageYet(bytes: seq<u8>, w: int, h: int, x: int, y: int, width: nat, dst: seq<u8>)
    requires Fb(bytes, w, h) && width > 0
    ensures HoldsImage(bytes, w, h, x, y, width, 0, dst, dst)
  {
  }

  lemma OneMoreRow(bytes: seq<u8>, w: int, h: int, x: int, y: int, width: nat, row: nat,
                   was: seq<u8>, before: seq<u8>, after: seq<u8>, margin: nat, n: nat, from: nat)
    requires Fb(bytes, w, h) && width > 0 && HoldsImage(bytes, w, h, x, y, width, row, was, before)
    requires ImageRow(width, row) + width * 4 <= |before| && from + n <= |bytes|
    requires RowPut(bytes, before, after, ImageRow(width, row), width * 4, margin, n, from)
    requires Overlap(w, h, x, y + row, width, margin, n, from)
    ensures HoldsImage(bytes, w, h, x, y, width, row + 1, was, after)
  {
    hide ImageByte, Overlap, ImageRow, Fb;
    ImageRowStep(width, row, 0);
    forall i: nat | i < |after| && i < ImageRow(width, row + 1)
      ensures after[i] == ImageByte(bytes, w, h, x, y, width, i)
    {
      if ImageRow(width, row) <= i {
        ImageOfRow(bytes, w, h, x, y, width, row, i, margin, n, from);
      }
    }
  }

  // --- the framebuffer ---

  class Framebuffer {
    var width: u16
    var height: u16
    var data: array<u8>

    ghost predicate Valid()
      reads this
    {
      data.Length == width * height * 4
    }

    constructor ()
      ensures Valid() && width == height == 0
    {
      width, height := 0, 0;
      data := new u8[0];
    }

    /** Resizes the screen, clearing it if the size changed. */
    method Ensure(w: u16, h: u16)
      requires Valid()
      modifies this
      ensures Valid() && width == w && height == h
      ensures if old(width) == w && old(height) == h then data == old(data)
              else fresh(data) && forall i :: 0 <= i < data.Length ==> data[i] == 0
    {
      if width != w || height != h {
        assert 0 <= w * h;
        width, height := w, h;
        data := new u8[w * h * 4](i => 0);
      }
    }

    /** The rotated or flipped blit: each source row is walked by a fixed step. */
    method BlitTransformed(ox: int, oy: int, s: Source, t: Transform, damage: bool) returns (box: Option<Rectangle>)
      requires Valid() && s.chan.Fits()
      modifies data
      ensures data == old(data)
      ensures var b := Blit(ox, oy, t, s, s.width, false, damage);
              && Blitted(b, old(data[..]), data[..], width, height)
              && (if damage then HullReported(b, old(data[..]), width, height, box) else box == None)
    {
      hide Progress, NewByte, SameColour, Blitted, Recoloured, Hulls, PixelIs, Point, Unpoint, Wire;
      var w: int, h: int := width, height;
      ghost var b := Blit(ox, oy, t, s, s.width, false, damage);
      ghost var was := data[..];
      ghost var pixels: set<(int, int)> := {};
      var u := NO_HULL;
      BlitBegins(b, was, w, h);
      NoneRecoloured(b, was, w, h);
      NoHullOfNone();
      for sy := 0 to s.height
        invariant Progress(b, was, data[..], w, h, 0, sy)
        invariant damage ==> Recoloured(b, was, w, h, pixels, 0, sy) && Hulls(pixels, u)
      {
        if s.Row(sy) * s.stride + s.width * 4 > |s.bytes| {
          RowLandsNowhere(b, was, data[..], w, h, pixels, sy);
          continue;
        }
        u, pixels := WalkRow(ox, oy, s, t, damage, sy, u, was, pixels);
      }
      BlitEnds(b, was, data[..], w, h);
      HullIsNone(pixels, u);
      box := if damage && u.maxX >= u.minX then Some(Wire(u)) else None;
    }

    /** Walks one source row along its line in the framebuffer. */
    method WalkRow(ox: int, oy: int, s: Source, t: Transform, damage: bool, sy: nat, u0: Hull,
                   ghost was: seq<u8>, ghost pixels0: set<(int, int)>)
      returns (u: Hull, ghost pixels: set<(int, int)>)
      requires Valid() && s.chan.Fits() && sy < s.height && s.Row(sy) * s.stride + s.width * 4 <= |s.bytes|
      requires var b := Blit(ox, oy, t, s, s.width, false, damage);
               && |was| == data.Length
               && Progress(b, was, data[..], width, height, 0, sy)
               && (damage ==> Recoloured(b, was, width, height, pixels0, 0, sy) && Hulls(pixels0, u0))
      modifies data
      ensures var b := Blit(ox, oy, t, s, s.width, false, damage);
              && Progress(b, was, data[..], width, height, 0, sy + 1)
              && (damage ==> Recoloured(b, was, width, height, pixels, 0, sy + 1) && Hulls(pixels, u))
    {
      hide Progress, NewByte, SameColour, Recoloured, Hulls, PixelIs, Point, Unpoint, Shuffled;
      var w: int, h: int := width, height;
      ghost var b := Blit(ox, oy, t, s, s.width, false, damage);
      u, pixels := u0, pixels0;
      var start := s.Row(sy) * s.stride;
      var (x0, y0) := Point(t, 0, sy, s.width, s.height);
      var (x1, y1) := Point(t, 1, sy, s.width, s.height);
      var stepX, stepY := x1 - x0, y1 - y0;
      for sx := 0 to s.width
        invariant Progress(b, was, data[..], w, h, sx, sy)
        invariant damage ==> Recoloured(b, was, w, h, pixels, sx, sy) && Hulls(pixels, u)
      {
        var dx, dy := ox + x0 + sx * stepX, oy + y0 + sx * stepY;
        RowsAreLines(t, sx, sy, s.width, s.height);
        u, pixels := VisitPixel(s, start + sx * 4, dx, dy, damage, u, b, was, pixels, sx, sy);
      }
      RowEnds(b, was, data[..], w, h, pixels, sy);
    }

    /** Offers source pixel (sx, sy), at byte `si`, for framebuffer pixel (dx, dy). */
    method VisitPixel(s: Source, si: nat, dx: int, dy: int, damage: bool, u0: Hull,
                      ghost b: Blit, ghost was: seq<u8>, ghost pixels0: set<(int, int)>, ghost sx: nat, ghost sy: nat)
      returns (u: Hull, ghost pixels: set<(int, int)>)
      requires Valid() && b.Fits() && !b.native && b.s == s && b.damage == damage && b.cols == s.width
      requires sx < s.width && sy < s.height && s.Row(sy) * s.stride + s.width * 4 <= |s.bytes|
      requires si == s.Row(sy) * s.stride + sx * 4
      requires (dx, dy) == (b.ox + Point(b.t, sx, sy, s.width, s.height).0, b.oy + Point(b.t, sx, sy, s.width, s.height).1)
      requires |was| == data.Length
      requires Progress(b, was, data[..], width, height, sx, sy)
      requires damage ==> Recoloured(b, was, width, height, pixels0, sx, sy) && Hulls(pixels0, u0)
      modifies data
      ensures Progress(b, was, data[..], width, height, sx + 1, sy)
      ensures damage ==> Recoloured(b, was, width, height, pixels, sx + 1, sy) && Hulls(pixels, u)
    {
      hide Progress, NewByte, SameColour, Recoloured, Hulls, PixelIs, Point, Unpoint, Shuffled;
      var w: int, h: int := width, height;
      u, pixels := u0, pixels0;
      PointIsOneToOne(b.t, sx, sy, s.width, s.height);
      assert b.From(dx, dy) == (sx, sy) && b.Lands(dx, dy);
      ghost var before := data[..];
      ghost var grown := pixels0 + (if Recolours(b, was, w, h, dx, dy) then {(dx, dy)} else {});
      if damage {
        RecolouredPixel(b, was, w, h, pixels, sx, sy, dx, dy);
        assert Recoloured(b, was, w, h, grown, sx + 1, sy);
      }
      if 0 <= dx < w && 0 <= dy < h {
        assert PixelThere(dx, dy, w, h);
        var wrote := WritePixel(s, si, At(dx, dy, w), damage);
        ShuffledIsNew(b, was, before, data[..], w, h, sx, sy, dx, dy, si, wrote);
        ShuffledRest(s, si, At(dx, dy, w), damage, before, data[..], wrote);
        if wrote {
          if damage {
            HullAdds(pixels, u, dx, dy);
            pixels := pixels + {(dx, dy)};
          }
          u := u.Add(dx, dy);
        }
      }
      assert damage ==> pixels == grown;
      WalkPixel(b, was, before, data[..], w, h, sx, sy, dx, dy);
    }

    /** Reads a rectangle into `dst`; off-screen margins are zero, and only whole rows that fit are written. */
    method ReadRectInto(x: int, y: int, width: nat, height: nat, dst: array<u8>)
      requires Valid() && dst != data
      modifies dst
      ensures if width == 0 then forall i :: 0 <= i < dst.Length ==> dst[i] == 0
              else HoldsImage(data[..], this.width, this.height, x, y, width, ImageRows(width * 4, height, dst.Length), old(dst[..]), dst[..])
    {
      var rowBytes := width * 4;
      if rowBytes == 0 {
        forall i | 0 <= i < dst.Length { dst[i] := 0; }
        return;
      }
      var w: int, h: int := this.width, this.height;
      var sx0, sx1 := Max(x, 0), Min(x + width, w);
      var n, margin := 0, 0;
      if sx1 > sx0 {
        n, margin := (sx1 - sx0) * 4, (sx0 - x) * 4;
      }
      var rows := ImageRows(rowBytes, height, dst.Length);
      hide ImageByte, HoldsImage, At, RowPut, ImageRow, Fb, Overlap;
      NoImageYet(data[..], w, h, x, y, width, dst[..]);
      for row := 0 to rows
        invariant HoldsImage(data[..], w, h, x, y, width, row, old(dst[..]), dst[..])
      {
        ImageRowStep(width, row, dst.Length);
        PutImageRow(x, y, width, row, n, margin, sx0, dst, old(dst[..]));
      }
    }

    /** Writes row `row` of an image to `dst`. */
    method PutImageRow(x: int, y: int, width: nat, row: nat, n: nat, margin: nat, sx0: nat, dst: array<u8>, ghost was: seq<u8>)
      requires Valid() && dst != data && width > 0 && ImageRow(width, row) + width * 4 <= dst.Length
      requires HoldsImage(data[..], this.width, this.height, x, y, width, row, was, dst[..])
      requires var sx1 := Min(x + width, this.width);
               sx0 == Max(x, 0) && (if sx1 > sx0 then n == (sx1 - sx0) * 4 && margin == (sx0 - x) * 4 else n == margin == 0)
      modifies dst
      ensures HoldsImage(data[..], this.width, this.height, x, y, width, row + 1, was, dst[..])
    {
      hide ImageByte, HoldsImage, At, RowPut;
      var w: int, h: int := this.width, this.height;
      ghost var before := dst[..];
      var sy := y + row;
      if n == 0 || sy < 0 || sy >= h {
        PutRow(dst, ImageRow(width, row), width * 4, 0, 0, 0);
        OneMoreRow(data[..], w, h, x, y, width, row, was, before, dst[..], 0, 0, 0);
        return;
      }
      RowInBounds(sx0, sx0 + n / 4, sy, w, h);
      var from := At(sx0, sy, w);
      var held := if from + n <= data.Length then n else 0;
      PutRow(dst, ImageRow(width, row), width * 4, margin, held, from);
      OneMoreRow(data[..], w, h, x, y, width, row, was, before, dst[..], margin, n, from);
    }

    /** Writes one row of `dst` at `base`: `n` bytes from `from` on, between zero margins. */
    method PutRow(dst: array<u8>, base: nat, rowBytes: nat, margin: nat, n: nat, from: nat)
      requires dst != data && base + rowBytes <= dst.Length && margin + n <= rowBytes && from + n <= data.Length
      modifies dst
      ensures RowPut(data[..], old(dst[..]), dst[..], base, rowBytes, margin, n, from)
    {
      forall k | 0 <= k < rowBytes {
        dst[base + k] := if margin <= k < margin + n then data[from + (k - margin)] else 0;
      }
      forall i | base <= i < base + rowBytes
        ensures dst[i] == if margin <= i - base < margin + n then data[from + (i - base - margin)] else 0
      {
        assert dst[base + (i - base)] == if margin <= i - base < margin + n then data[from + (i - base - margin)] else 0;
      }
    }

    /** Composites a captured output at (ox, oy), and reports where the screen changed. */
    method BlitDiff(ox: int, oy: int, s: Source, t: Transform, damage: bool) returns (box: Option<Rectangle>)
      requires Valid() && s.chan.Fits()
      modifies data
      ensures data == old(data)
      ensures var b := BlitOf(ox, oy, s, t, width, damage);
              && Blitted(b, old(data[..]), data[..], width, height)
              && (if !damage then box == None
                  else if t == Normal then RowsReported(b, old(data[..]), width, height, box)
                  else HullReported(b, old(data[..]), width, height, box))
    {
      hide Blitted, RowsReported, HullReported;
      if t == Normal {
        box := BlitRows(ox, oy, s, damage);
      } else {
        box := BlitTransformed(ox, oy, s, t, damage);
      }
    }

    /** The upright blit: a row is one compare and one copy, or a shuffle for a foreign byte order. */
    method BlitRows(ox: int, oy: int, s: Source, damage: bool) returns (box: Option<Rectangle>)
      requires Valid() && s.chan.Fits()
      modifies data
      ensures data == old(data)
      ensures var b := RowBlit(ox, oy, s, width, damage);
              && Blitted(b, old(data[..]), data[..], width, height)
              && (if damage then RowsReported(b, old(data[..]), width, height, box) else box == None)
    {
      hide Progress, NewByte, Blitted, RowsAltered, Spans, PixelIs, Wire, RowAlters;
      var w: int, h: int := width, height;
      ghost var b := RowBlit(ox, oy, s, w, damage);
      ghost var was := data[..];
      ghost var rows: set<int> := {};
      BlitBegins(b, was, w, h);
      NothingLands(b, was, w, h);
      SpanIsNone({}, I32_MAX, I32_MIN);
      var dx0, dx1 := Max(ox, 0), Min(ox + s.width, w);
      var lo, hi := I32_MAX, I32_MIN;
      if dx1 <= dx0 {
        return None;
      }
      var n := (dx1 - dx0) * 4;
      for row := 0 to s.height
        invariant Progress(b, was, data[..], w, h, 0, row)
        invariant damage ==> RowsAltered(b, was, w, h, rows, row) && Spans(rows, lo, hi)
      {
        var dy := oy + row;
        var start := s.Row(row) * s.stride + (dx0 - ox) * 4;
        var d := At(dx0, dy, w);
        if dy < 0 || dy >= h || start + n > |s.bytes| || d + n > data.Length {
          if 0 <= dy < h {
            RowInBounds(dx0, dx1, dy, w, h);
          }
          RowSkipped(b, was, data[..], w, h, rows, row);
          continue;
        }
        RowInBounds(dx0, dx1, dy, w, h);
        assert 0 <= s.Row(row) * s.stride;
        var changed;
        if s.chan == XRGB {
          changed := CopyRow(s, damage, start, d, n, dx0, dx1, b, was, row);
        } else {
          changed := ShuffleRow(s, damage, start, d, n, dx0, dx1, b, was, row);
        }
        if damage {
          RowVisited(b, was, w, h, rows, row, changed);
        }
        if changed {
          if damage {
            SpanAdds(rows, lo, hi, dy);
            rows := rows + {dy};
          }
          lo, hi := Min(lo, dy), Max(hi, dy);
        }
      }
      BlitEnds(b, was, data[..], w, h);
      SpanIsNone(rows, lo, hi);
      box := if damage && hi >= lo then Some(Wire(Hull(dx0, lo, dx1 - 1, hi))) else None;
    }

    /** Copies a row in native byte order, unless damage is wanted and it is there already. */
    method CopyRow(s: Source, damage: bool, start: nat, d: nat, n: nat, dx0: int, dx1: int,
                   ghost b: Blit, ghost was: seq<u8>, ghost sy: nat) returns (changed: bool)
      requires Valid() && RowOverlaps(b, width, height, sy, dx0, dx1, start, d) && n == (dx1 - dx0) * 4
      requires b.s == s && b.damage == damage && b.native && d + n <= data.Length
      requires |was| == data.Length && Progress(b, was, data[..], width, height, 0, sy)
      modifies data
      ensures Progress(b, was, data[..], width, height, 0, sy + 1)
      ensures damage ==> (changed <==> RowAlters(b, was, width, height, b.oy + sy))
    {
      hide Progress, NewByte, RowAlters, At, PixelIs;
      ghost var before := data[..];
      RowCompared(b, was, before, width, height, sy, dx0, dx1, start, d);
      if damage && data[d..d + n] == s.bytes[start..start + n] {
        forall i | d <= i < d + n ensures before[i] == s.bytes[start + (i - d)] {
          assert before[i] == data[d..d + n][i - d] == s.bytes[start..start + n][i - d];
        }
        RowCopiedIsNew(b, was, before, before, width, height, sy, dx0, dx1, start, d);
        return false;
      }
      assert damage ==> !RowCopied(b, before, before, start, d, n) by {
        if RowCopied(b, before, before, start, d, n) {
          assert data[d..d + n] == s.bytes[start..start + n];
        }
      }
      forall i | 0 <= i < n {
        data[d + i] := s.bytes[start + i];
      }
      assert RowCopied(b, before, data[..], start, d, n) by {
        forall i | d <= i < d + n ensures data[i] == s.bytes[start + (i - d)] {
          assert data[d + (i - d)] == s.bytes[start + (i - d)];
        }
      }
      RowCopiedIsNew(b, was, before, data[..], width, height, sy, dx0, dx1, start, d);
      changed := true;
    }

    /** Shuffles a row of a foreign byte order pixel by pixel. */
    method ShuffleRow(s: Source, damage: bool, start: nat, d: nat, n: nat, dx0: int, dx1: int,
                      ghost b: Blit, ghost was: seq<u8>, ghost sy: nat) returns (changed: bool)
      requires Valid() && RowOverlaps(b, width, height, sy, dx0, dx1, start, d) && n == (dx1 - dx0) * 4
      requires b.s == s && b.damage == damage && !b.native && d + n <= data.Length
      requires |was| == data.Length && Progress(b, was, data[..], width, height, 0, sy)
      modifies data
      ensures Progress(b, was, data[..], width, height, 0, sy + 1)
      ensures damage ==> (changed <==> RowAlters(b, was, width, height, b.oy + sy))
    {
      hide Progress, NewByte, Alters, PixelIs, Shuffled, ChangedSoFar, RowAlters, Done, At, b.From, b.Lands;
      var w: int, h: int := width, height;
      ghost var dy := b.oy + sy;
      changed := false;
      var p := 0;
      RowPartBegins(b, was, data[..], w, h, sy, dx0, dx1, start, d);
      NoneChangedYet(b, was, w, h, dy, dx0);
      while p < n
        invariant 0 <= p <= n && p % 4 == 0
        invariant Progress(b, was, data[..], w, h, dx0 - b.ox + p / 4, sy)
        invariant damage ==> ChangedSoFar(b, was, w, h, dy, dx0 + p / 4, changed)
      {
        var wrote := ShufflePixel(s, damage, start, d, p, dx0, dx1, b, was, sy);
        if damage {
          OneMoreChange(b, was, w, h, dy, dx0 + p / 4, changed, wrote);
        }
        changed := changed || wrote;
        p := p + 4;
      }
      RowPartEnds(b, was, data[..], w, h, sy, dx0, dx1, start, d);
      if damage {
        AllChanges(b, was, w, h, dy, dx1, changed);
      }
    }

    /** Shuffles the pixel at byte `p` of a row. */
    method ShufflePixel(s: Source, damage: bool, start: nat, d: nat, p: nat, dx0: int, dx1: int,
                        ghost b: Blit, ghost was: seq<u8>, ghost sy: nat) returns (wrote: bool)
      requires Valid() && RowOverlaps(b, width, height, sy, dx0, dx1, start, d) && p < (dx1 - dx0) * 4 && p % 4 == 0
      requires b.s == s && b.damage == damage && !b.native && d + (dx1 - dx0) * 4 <= data.Length
      requires |was| == data.Length && Progress(b, was, data[..], width, height, dx0 - b.ox + p / 4, sy)
      modifies data
      ensures Progress(b, was, data[..], width, height, dx0 - b.ox + p / 4 + 1, sy)
      ensures damage ==> (wrote <==> Alters(b, was, width, height, dx0 + p / 4, b.oy + sy))
    {
      hide Progress, NewByte, Alters, PixelIs, Shuffled, Recolours;
      var w: int, h: int := width, height;
      ghost var before, x, dy := data[..], dx0 + p / 4, b.oy + sy;
      assert PixelThere(x, dy, w, h) && At(x, dy, w) == d + p;
      wrote := WritePixel(s, start + p, d + p, damage);
      ShuffledIsNew(b, was, before, data[..], w, h, x - b.ox, sy, x, dy, start + p, wrote);
      ShuffledRest(s, start + p, d + p, damage, before, data[..], wrote);
      WalkPixel(b, was, before, data[..], w, h, x - b.ox, sy, x, dy);
      if damage {
        ShuffleAlters(b, was, w, h, x, dy);
      }
    }

    /** Shuffles one source pixel into place, unless damage is wanted and its colour is there already. */
    method WritePixel(s: Source, si: nat, di: nat, damage: bool) returns (wrote: bool)
      requires s.chan.Fits() && si + 4 <= |s.bytes| && di + 4 <= data.Length
      modifies data
      ensures data == old(data)
      ensures Shuffled(s, si, di, damage, old(data[..]), data[..], wrote)
    {
      var b, g, r := s.bytes[si + s.chan.b], s.bytes[si + s.chan.g], s.bytes[si + s.chan.r];
      wrote := !damage || data[di] != b || data[di + 1] != g || data[di + 2] != r;
      if wrote {
        data[di], data[di + 1], data[di + 2], data[di + 3] := b, g, r, 0xff;
      }
    }
  }

  /** The four bytes at `di` after source pixel `si` was offered for them. */
  ghost predicate Shuffled(s: Source, si: nat, di: nat, damage: bool, before: seq<u8>, after: seq<u8>, wrote: bool)
    requires s.chan.Fits() && si + 4 <= |s.bytes| && di + 4 <= |before| == |after|
  {
    var b, g, r := s.bytes[si + s.chan.b], s.bytes[si + s.chan.g], s.bytes[si + s.chan.r];
    && (wrote <==> !(damage && before[di] == b && before[di + 1] == g && before[di + 2] == r))
    && (wrote ==> after[di] == b && after[di + 1] == g && after[di + 2] == r && after[di + 3] == 0xff)
    && (!wrote ==> after == before)
    && (forall i :: 0 <= i < |before| && !(di <= i < di + 4) ==> after[i] == before[i])
  }

  /** A shuffled pixel is the new pixel, and was written exactly if its colour changed. */
  lemma ShuffledIsNew(b: Blit, was: seq<u8>, before: seq<u8>, after: seq<u8>, w: int, h: int,
                      sx: nat, sy: nat, x: int, y: int, si: nat, wrote: bool)
    requires b.Fits() && Fb(was, w, h) && |was| == |before| == |after| && !b.native
    requires Progress(b, was, before, w, h, sx, sy)
    requires Pixel(x, y, w, h) && b.From(x, y) == (sx, sy) && b.Lands(x, y)
    requires si == b.s.Row(sy) * b.s.stride + sx * 4 && si + 4 <= |b.s.bytes|
    requires PixelThere(x, y, w, h) && Shuffled(b.s, si, At(x, y, w), b.damage, before, after, wrote)
    ensures PixelIs(b, was, after, w, x, y, true)
    ensures b.damage ==> (wrote <==> Recolours(b, was, w, h, x, y))
  {
    assert PixelIs(b, was, before, w, x, y, Done(b.From(x, y), sx, sy));
    hide At, Point, Unpoint, Progress;
  }

  lemma ShuffledRest(s: Source, si: nat, di: nat, damage: bool, before: seq<u8>, after: seq<u8>, wrote: bool)
    requires s.chan.Fits() && si + 4 <= |s.bytes| && di + 4 <= |before| == |after|
    requires Shuffled(s, si, di, damage, before, after, wrote)
    ensures forall i :: 0 <= i < |before| && !(di <= i < di + 4) ==> after[i] == before[i]
  {
  }

  /** A source row that is not held in full lands nowhere. */
  lemma RowLandsNowhere(b: Blit, was: seq<u8>, now: seq<u8>, w: int, h: int, pixels: set<(int, int)>, sy: nat)
    requires b.Fits() && Fb(was, w, h) && |now| == |was| && sy < b.s.height
    requires Progress(b, was, now, w, h, 0, sy)
    requires b.s.Row(sy) * b.s.stride + b.cols * 4 > |b.s.bytes|
    ensures Progress(b, was, now, w, h, 0, sy + 1)
    ensures Recoloured(b, was, w, h, pixels, 0, sy) ==> Recoloured(b, was, w, h, pixels, 0, sy + 1)
  {
    hide Progress, Recoloured, Unpoint;
    WalkPast(b, was, now, w, h, 0, sy, 0, sy + 1);
    if Recoloured(b, was, w, h, pixels, 0, sy) {
      RecolouredPast(b, was, w, h, pixels, 0, sy, 0, sy + 1);
    }
  }

  /** The walk has reached the end of row `sy`. */
  lemma RowEnds(b: Blit, was: seq<u8>, now: seq<u8>, w: int, h: int, pixels: set<(int, int)>, sy: nat)
    requires b.Fits() && Fb(was, w, h) && |now| == |was| && sy < b.s.height
    requires Progress(b, was, now, w, h, b.cols, sy)
    ensures Progress(b, was, now, w, h, 0, sy + 1)
    ensures Recoloured(b, was, w, h, pixels, b.cols, sy) ==> Recoloured(b, was, w, h, pixels, 0, sy + 1)
  {
    hide Progress, Recoloured, Unpoint;
    WalkPast(b, was, now, w, h, b.cols, sy, 0, sy + 1);
    if Recoloured(b, was, w, h, pixels, b.cols, sy) {
      RecolouredPast(b, was, w, h, pixels, b.cols, sy, 0, sy + 1);
    }
  }

  lemma NoneChangedYet(b: Blit, was: seq<u8>, w: int, h: int, y: int, dx0: int)
    requires b.Fits() && b.t == Normal && Fb(was, w, h) && dx0 == Max(b.ox, 0)
    ensures ChangedSoFar(b, was, w, h, y, dx0, false)
  {
  }

  lemma OneMoreChange(b: Blit, was: seq<u8>, w: int, h: int, y: int, x: int, changed: bool, wrote: bool)
    requires b.Fits() && Fb(was, w, h) && ChangedSoFar(b, was, w, h, y, x, changed)
    requires wrote <==> Alters(b, was, w, h, x, y)
    ensures ChangedSoFar(b, was, w, h, y, x + 1, changed || wrote)
  {
    hide Alters;
  }

  lemma AllChanges(b: Blit, was: seq<u8>, w: int, h: int, y: int, dx1: int, changed: bool)
    requires b.Fits() && b.t == Normal && Fb(was, w, h) && dx1 == b.ox + b.cols
    requires ChangedSoFar(b, was, w, h, y, dx1, changed)
    ensures changed <==> RowAlters(b, was, w, h, y)
  {
    assert forall x :: Alters(b, was, w, h, x, y) ==> x < dx1;
  }

  lemma NoneRecoloured(b: Blit, was: seq<u8>, w: int, h: int)
    requires b.Fits() && Fb(was, w, h)
    ensures Recoloured(b, was, w, h, {}, 0, 0)
  {
  }

  lemma NoHullOfNone()
    ensures Hulls({}, NO_HULL)
  {
  }

  lemma HullIsNone(pixels: set<(int, int)>, u: Hull)
    ensures Hulls(pixels, u) ==> (pixels == {} <==> u.maxX < u.minX)
  {
    if Hulls(pixels, u) && pixels != {} {
      var p :| p in pixels;
    }
  }
}
