/** What the blits promise: they refine the pixel map of their transform, and their boxes miss nothing. */
module BlitTheorems {
  import opened BridgeTypes
  import opened PixelTransform
  import opened Capture

  /** A buffer as large as its dimensions say. */
  predicate FullSize(s: Source) {
    s.width * 4 <= s.stride && s.height * s.stride <= |s.bytes|
  }

  /** Where the whole of a source lands, in screen coordinates. */
  function Landing(t: Transform, s: Source, ox: int, oy: int): Box {
    var r := Rect(t, Box(0, 0, s.width, s.height), s.width, s.height);
    Box(ox + r.x, oy + r.y, r.width, r.height)
  }

  lemma FullRows(s: Source, sy: int, cols: int)
    requires FullSize(s) && 0 <= sy < s.height && cols <= s.width
    ensures s.Holds(sy, cols)
  {
    MulLe(s.Row(sy) + 1, s.height, s.stride);
    assert (s.Row(sy) + 1) * s.stride == s.Row(sy) * s.stride + s.stride;
  }

  lemma LandsIff(b: Blit, x: int, y: int)
    requires FullSize(b.s) && 0 <= b.cols <= b.s.width
    ensures b.Lands(x, y) <==> 0 <= b.From(x, y).0 < b.cols && 0 <= b.From(x, y).1 < b.s.height
  {
    var (sx, sy) := b.From(x, y);
    if 0 <= sy < b.s.height {
      FullRows(b.s, sy, b.cols);
    }
  }

  /** A point is in the landing rectangle exactly if the buffer pixel that lands there is in the buffer. */
  lemma LandingHolds(t: Transform, s: Source, ox: int, oy: int, x: int, y: int)
    ensures Landing(t, s, ox, oy).Contains(x, y)
      <==> Box(0, 0, s.width, s.height).Contains(Unpoint(t, x - ox, y - oy, s.width, s.height).0,
                                                 Unpoint(t, x - ox, y - oy, s.width, s.height).1)
  {
    var (sx, sy) := Unpoint(t, x - ox, y - oy, s.width, s.height);
    RectIsItsPoints(t, Box(0, 0, s.width, s.height), sx, sy, s.width, s.height);
    PointIsOneToOne(t, x - ox, y - oy, s.width, s.height);
    hide Point, Unpoint, Rect;
  }

  /** A pixel of the screen reads from the columns kept of a source exactly if it reads from the source's. */
  lemma ColumnsKept(ox: int, oy: int, s: Source, t: Transform, w: int, damage: bool, x: int, y: int)
    requires s.chan.Fits() && x < w
    ensures var b := BlitOf(ox, oy, s, t, w, damage);
            && b.s == s && b.cols <= s.width && b.From(x, y) == Unpoint(t, x - ox, y - oy, s.width, s.height)
            && (0 <= b.From(x, y).0 < s.width ==> 0 <= b.cols && b.From(x, y).0 < b.cols)
  {
  }

  /** On the screen, a full-size source lands on exactly the pixels of its transformed rectangle. */
  lemma LandsInItsRectangle(ox: int, oy: int, s: Source, t: Transform, w: int, h: int, damage: bool, x: int, y: int)
    requires FullSize(s) && s.chan.Fits() && Pixel(x, y, w, h)
    ensures BlitOf(ox, oy, s, t, w, damage).Lands(x, y) <==> Landing(t, s, ox, oy).Contains(x, y)
  {
    var b := BlitOf(ox, oy, s, t, w, damage);
    ColumnsKept(ox, oy, s, t, w, damage, x, y);
    LandingHolds(t, s, ox, oy, x, y);
    assert b.Lands(x, y) ==> 0 <= b.From(x, y).0 < b.cols && 0 <= b.From(x, y).1 < s.height;
    if 0 <= b.cols {
      LandsIff(b, x, y);
    }
    hide Unpoint, Landing, FullSize, BlitOf, b.Lands, b.From;
  }

  /** The colour byte `c` of a source pixel. */
  function Colour(s: Source, sx: int, sy: int, c: nat): u8
    requires FullSize(s) && s.chan.Fits() && 0 <= sx < s.width && 0 <= sy < s.height && c < 3
  {
    FullRows(s, sy, sx + 1);
    s.Byte(sx, sy, s.chan.Of(c))
  }

  /** A blit is its transform's pixel map: each source pixel's colour is found where the transform puts it,
      whichever path is taken and whether or not damage is computed. */
  lemma BlitIsThePixelMap(ox: int, oy: int, s: Source, t: Transform, damage: bool, was: seq<u8>, now: seq<u8>, w: int, h: int,
                          sx: int, sy: int, c: nat)
    requires FullSize(s) && s.chan.Fits() && Blitted(BlitOf(ox, oy, s, t, w, damage), was, now, w, h)
    requires 0 <= sx < s.width && 0 <= sy < s.height && c < 3
    ensures var (px, py) := Point(t, sx, sy, s.width, s.height);
            var (x, y) := (ox + px, oy + py);
            Pixel(x, y, w, h) ==> PixelThere(x, y, w, h) && now[At(x, y, w) + c] == Colour(s, sx, sy, c)
  {
    var b := BlitOf(ox, oy, s, t, w, damage);
    var (px, py) := Point(t, sx, sy, s.width, s.height);
    var (x, y) := (ox + px, oy + py);
    if Pixel(x, y, w, h) {
      PointIsOneToOne(t, sx, sy, s.width, s.height);
      RectIsItsPoints(t, Box(0, 0, s.width, s.height), sx, sy, s.width, s.height);
      LandsInItsRectangle(ox, oy, s, t, w, h, damage, x, y);
      hide Point, Unpoint, At, FullSize, Rect;
      assert PixelThere(x, y, w, h) && PixelIs(b, was, now, w, x, y, true);
      assert b.From(x, y) == (sx, sy);
    }
  }

  /** No blit touches a pixel outside the transformed rectangle. */
  lemma OutsideIsUntouched(ox: int, oy: int, s: Source, t: Transform, damage: bool, was: seq<u8>, now: seq<u8>, w: int, h: int,
                           x: int, y: int, c: nat)
    requires FullSize(s) && s.chan.Fits() && Blitted(BlitOf(ox, oy, s, t, w, damage), was, now, w, h)
    requires Pixel(x, y, w, h) && !Landing(t, s, ox, oy).Contains(x, y) && c < 4
    ensures PixelThere(x, y, w, h) && now[At(x, y, w) + c] == was[At(x, y, w) + c]
  {
    LandsInItsRectangle(ox, oy, s, t, w, h, damage, x, y);
    hide At, Rect, FullSize, Unpoint;
    assert PixelThere(x, y, w, h) && PixelIs(BlitOf(ox, oy, s, t, w, damage), was, now, w, x, y, true);
  }

  /** The upright path and the walked path agree on every colour byte, with damage or without. */
  lemma PathsAgree(ox: int, oy: int, s: Source, damage1: bool, damage2: bool, was: seq<u8>, rows: seq<u8>, walked: seq<u8>,
                   w: int, h: int, x: int, y: int, c: nat)
    requires FullSize(s) && s.chan.Fits() && Pixel(x, y, w, h) && c < 3
    requires Blitted(RowBlit(ox, oy, s, w, damage1), was, rows, w, h)
    requires Blitted(Blit(ox, oy, Normal, s, s.width, false, damage2), was, walked, w, h)
    ensures PixelThere(x, y, w, h) && rows[At(x, y, w) + c] == walked[At(x, y, w) + c]
  {
    var b1, b2 := RowBlit(ox, oy, s, w, damage1), Blit(ox, oy, Normal, s, s.width, false, damage2);
    var (sx, sy) := b1.From(x, y);
    if 0 <= sy < s.height {
      FullRows(s, sy, b1.cols);
      FullRows(s, sy, b2.cols);
    }
    hide At, FullSize;
    assert PixelThere(x, y, w, h) && PixelIs(b1, was, rows, w, x, y, true) && PixelIs(b2, was, walked, w, x, y, true);
  }

  /** They do not agree on the fourth byte: the native copy takes the source's, the walk forces 0xff. */
  lemma PathsDisagreeOnPadding(ox: int, oy: int, s: Source, damage: bool, was: seq<u8>, rows: seq<u8>, walked: seq<u8>,
                               w: int, h: int, x: int, y: int)
    requires FullSize(s) && s.chan == XRGB && Pixel(x, y, w, h) && 0 <= x - ox < s.width && 0 <= y - oy < s.height
    requires Blitted(RowBlit(ox, oy, s, w, damage), was, rows, w, h)
    requires Blitted(Blit(ox, oy, Normal, s, s.width, false, false), was, walked, w, h)
    ensures PixelThere(x, y, w, h) && s.Holds(y - oy, x - ox + 1)
    ensures rows[At(x, y, w) + 3] == s.Byte(x - ox, y - oy, 3) && walked[At(x, y, w) + 3] == 0xff
  {
    var b1, b2 := RowBlit(ox, oy, s, w, damage), Blit(ox, oy, Normal, s, s.width, false, false);
    FullRows(s, y - oy, b1.cols);
    FullRows(s, y - oy, b2.cols);
    FullRows(s, y - oy, x - ox + 1);
    hide At, FullSize;
    assert PixelThere(x, y, w, h) && PixelIs(b1, was, rows, w, x, y, true) && PixelIs(b2, was, walked, w, x, y, true);
  }

  // --- the boxes ---

  predicate Covers(r: Rectangle, x: int, y: int) {
    r.x <= x < r.x + r.width && r.y <= y < r.y + r.height
  }

  predicate OnScreen(w: int, h: int) {
    0 <= w <= MAX_SCREEN && 0 <= h <= MAX_SCREEN
  }

  ghost predicate ColumnRecolours(b: Blit, was: seq<u8>, w: int, h: int, x: int)
    requires b.Fits() && Fb(was, w, h)
  {
    exists y :: Recolours(b, was, w, h, x, y)
  }

  ghost predicate RowRecolours(b: Blit, was: seq<u8>, w: int, h: int, y: int)
    requires b.Fits() && Fb(was, w, h)
  {
    exists x :: Recolours(b, was, w, h, x, y)
  }

  /** Each side of a rectangle touches a pixel that changes colour. */
  ghost predicate Tight(b: Blit, was: seq<u8>, w: int, h: int, r: Rectangle)
    requires b.Fits() && Fb(was, w, h)
  {
    && ColumnRecolours(b, was, w, h, r.x) && ColumnRecolours(b, was, w, h, r.x + r.width - 1)
    && RowRecolours(b, was, w, h, r.y) && RowRecolours(b, was, w, h, r.y + r.height - 1)
  }

  /** The box of a transformed blit is exact: it covers every pixel whose colour changes, each of its four
      sides touches one, and there is none exactly when nothing changes. */
  lemma HullIsTight(b: Blit, was: seq<u8>, w: int, h: int, box: Option<Rectangle>)
    requires b.Fits() && Fb(was, w, h) && OnScreen(w, h) && HullReported(b, was, w, h, box)
    ensures box == None <==> forall x, y :: !Recolours(b, was, w, h, x, y)
    ensures forall x, y :: Recolours(b, was, w, h, x, y) ==> box.Some? && Covers(box.value, x, y)
    ensures box.Some? ==> Tight(b, was, w, h, box.value)
  {
    hide Recolours, Wire, Tight, Hulls;
    var pixels, u :|
      Recoloured(b, was, w, h, pixels, 0, b.s.height) && Hulls(pixels, u) && box == if pixels == {} then None else Some(Wire(u));
    assert Changing(b, was, w, h, pixels) by { RecolouredInAll(b, was, w, h, pixels); }
    hide Recoloured;
    if pixels == {} {
      assert forall x, y :: (x, y) !in pixels;
    } else {
      HullTouches(b, was, w, h, pixels, u);
      WireIsExact(u);
      HullHolds(pixels, u);
      var p :| p in pixels;
      var (x, y) := (p.0, p.1);
      assert p == (x, y) && Recolours(b, was, w, h, x, y);
    }
  }

  ghost predicate Changing(b: Blit, was: seq<u8>, w: int, h: int, pixels: set<(int, int)>)
    requires b.Fits() && Fb(was, w, h)
  {
    forall x, y :: (x, y) in pixels <==> Recolours(b, was, w, h, x, y)
  }

  lemma RecolouredInAll(b: Blit, was: seq<u8>, w: int, h: int, pixels: set<(int, int)>)
    requires b.Fits() && Fb(was, w, h) && Recoloured(b, was, w, h, pixels, 0, b.s.height)
    ensures Changing(b, was, w, h, pixels)
  {
    hide At, SameColour;
  }

  lemma HullHolds(pixels: set<(int, int)>, u: Hull)
    requires Hulls(pixels, u)
    ensures forall x, y :: (x, y) in pixels ==> u.minX <= x <= u.maxX && u.minY <= y <= u.maxY
  {
    forall x, y | (x, y) in pixels ensures u.minX <= x <= u.maxX && u.minY <= y <= u.maxY {
      var p := (x, y);
      assert p in pixels;
    }
  }

  lemma ChangingPixel(b: Blit, was: seq<u8>, w: int, h: int, pixels: set<(int, int)>, p: (int, int))
    requires b.Fits() && Fb(was, w, h) && Changing(b, was, w, h, pixels) && p in pixels
    ensures Recolours(b, was, w, h, p.0, p.1) && Pixel(p.0, p.1, w, h)
    ensures ColumnRecolours(b, was, w, h, p.0) && RowRecolours(b, was, w, h, p.1)
  {
    hide SameColour, At;
    assert p == (p.0, p.1);
  }

  lemma HullTouches(b: Blit, was: seq<u8>, w: int, h: int, pixels: set<(int, int)>, u: Hull)
    requires b.Fits() && Fb(was, w, h) && OnScreen(w, h) && pixels != {} && Changing(b, was, w, h, pixels) && Hulls(pixels, u)
    ensures 0 <= u.minX <= u.maxX < MAX_SCREEN && 0 <= u.minY <= u.maxY < MAX_SCREEN
    ensures Tight(b, was, w, h, Rectangle(u.minX, u.minY, u.maxX - u.minX + 1, u.maxY - u.minY + 1))
  {
    hide Changing, Recolours, ColumnRecolours, RowRecolours, Fb;
    var p :| p in pixels && p.0 == u.minX;
    ChangingPixel(b, was, w, h, pixels, p);
    var q :| q in pixels && q.0 == u.maxX;
    ChangingPixel(b, was, w, h, pixels, q);
    var r :| r in pixels && r.1 == u.minY;
    ChangingPixel(b, was, w, h, pixels, r);
    var s :| s in pixels && s.1 == u.maxY;
    ChangingPixel(b, was, w, h, pixels, s);
  }

  /** The box of an upright blit covers every pixel that changed, and there is none exactly when nothing did.
      Its first and last rows hold a change; its columns are the whole overlap's. */
  lemma RowBoxCovers(ox: int, oy: int, s: Source, was: seq<u8>, w: int, h: int, box: Option<Rectangle>)
    requires s.chan.Fits() && Fb(was, w, h) && OnScreen(w, h)
    requires RowsReported(RowBlit(ox, oy, s, w, true), was, w, h, box)
    ensures var b := RowBlit(ox, oy, s, w, true);
            && (box == None <==> forall x, y :: !Alters(b, was, w, h, x, y))
            && (forall x, y :: Alters(b, was, w, h, x, y) ==> box.Some? && Covers(box.value, x, y))
            && (box.Some? ==> RowAlters(b, was, w, h, box.value.y) && RowAlters(b, was, w, h, box.value.y + box.value.height - 1))
  {
    hide At, PixelIs;
    var b := RowBlit(ox, oy, s, w, true);
    var rows, lo, hi :|
      RowsAltered(b, was, w, h, rows, s.height) && Spans(rows, lo, hi)
      && box == if rows == {} then None else Some(Wire(Hull(Max(ox, 0), lo, ox + b.cols - 1, hi)));
    forall x, y | Alters(b, was, w, h, x, y) ensures y in rows {
      assert RowAlters(b, was, w, h, y);
    }
    if rows != {} {
      var x :| Alters(b, was, w, h, x, lo);
      var u :| Alters(b, was, w, h, u, hi);
      WireIsExact(Hull(Max(ox, 0), lo, ox + b.cols - 1, hi));
    }
  }

  /** Damage is never lost: whatever colour a blit changes is inside the box it reports. */
  lemma DamageLosesNothing(ox: int, oy: int, s: Source, t: Transform, was: seq<u8>, now: seq<u8>, w: int, h: int,
                           box: Option<Rectangle>, x: int, y: int)
    requires s.chan.Fits() && OnScreen(w, h) && Blitted(BlitOf(ox, oy, s, t, w, true), was, now, w, h)
    requires if t == Normal then RowsReported(BlitOf(ox, oy, s, t, w, true), was, w, h, box)
             else HullReported(BlitOf(ox, oy, s, t, w, true), was, w, h, box)
    requires Pixel(x, y, w, h) && PixelThere(x, y, w, h) && now[At(x, y, w)..At(x, y, w) + 3] != was[At(x, y, w)..At(x, y, w) + 3]
    ensures box.Some? && Covers(box.value, x, y)
  {
    var b := BlitOf(ox, oy, s, t, w, true);
    RecolouredIsChanged(b, was, now, w, h, x, y);
    hide At, HullReported, RowsReported, Blitted;
    if t == Normal {
      RowBoxCovers(ox, oy, s, was, w, h, box);
      assert Alters(b, was, w, h, x, y);
    } else {
      HullIsTight(b, was, w, h, box);
    }
  }

  // --- a blit, then a read ---

  /** A client that reads a rectangle after a blit finds in each whole row the colours the source put there. */
  lemma ReadsSeeTheBlit(ox: int, oy: int, s: Source, t: Transform, damage: bool, was: seq<u8>, now: seq<u8>, w: int, h: int,
                        x: int, y: int, width: nat, rows: nat, before: seq<u8>, dst: seq<u8>,
                        sx: int, sy: int, col: nat, row: nat, c: nat)
    requires FullSize(s) && s.chan.Fits() && Blitted(BlitOf(ox, oy, s, t, w, damage), was, now, w, h)
    requires width > 0 && HoldsImage(now, w, h, x, y, width, rows, before, dst)
    requires 0 <= sx < s.width && 0 <= sy < s.height && c < 3
    requires col < width && row < rows && ImageRow(width, rows) <= |dst|
    requires (x + col, y + row) == (ox + Point(t, sx, sy, s.width, s.height).0, oy + Point(t, sx, sy, s.width, s.height).1)
    requires Pixel(x + col, y + row, w, h)
    ensures ImageRow(width, row) + col * 4 + c < |dst| && dst[ImageRow(width, row) + col * 4 + c] == Colour(s, sx, sy, c)
  {
    var i := ImageRow(width, row) + col * 4 + c;
    BlitIsThePixelMap(ox, oy, s, t, damage, was, now, w, h, sx, sy, c);
    hide FullSize, Blitted, Point, At;
    ImageAt(now, w, h, x, y, width, row, rows, col, c);
    hide ImageByte;
    assert dst[i] == ImageByte(now, w, h, x, y, width, i);
  }

  /** Where a pixel of the screen is in an image of it. */
  lemma ImageAt(bytes: seq<u8>, w: int, h: int, x: int, y: int, width: nat, row: nat, rows: nat, col: nat, c: nat)
    requires Fb(bytes, w, h) && width > 0 && col < width && row < rows && c < 4 && Pixel(x + col, y + row, w, h)
    ensures var i := ImageRow(width, row) + col * 4 + c;
            && i < ImageRow(width, rows)
            && PixelThere(x + col, y + row, w, h)
            && ImageByte(bytes, w, h, x, y, width, i) == bytes[At(x + col, y + row, w) + c]
  {
    var i := ImageRow(width, row) + col * 4 + c;
    ImageColumn(width, row, i);
    RowsGrow(width, row, rows);
    hide ImageRow, At;
    assert PixelThere(x + col, y + row, w, h);
  }

  lemma RowsGrow(width: nat, row: nat, rows: nat)
    requires width > 0 && row < rows
    ensures ImageRow(width, row) + width * 4 <= ImageRow(width, rows)
  {
    ImageRowStep(width, row, 0);
    MulLe(row + 1, rows, width * 4);
  }

  // --- what a read leaves of its destination ---

  /** A read of a rectangle into `size` bytes writes each of them, whatever the screen shows and the destination held. */
  ghost predicate WritesEveryByte(width: nat, height: nat, size: nat)
    requires width > 0
  {
    forall bytes, w, h, x, y, was, dst ::
      Fb(bytes, w, h) && |was| == size && HoldsImage(bytes, w, h, x, y, width, ImageRows(width * 4, height, size), was, dst)
      ==> forall i: nat :: i < size ==> dst[i] == ImageByte(bytes, w, h, x, y, width, i)
  }

  /** Whole rows reach the end of a destination exactly if it is a number of rows the image has. */
  lemma RowsReachIff(width: nat, height: nat, size: nat)
    requires width > 0
    ensures ImageRow(width, ImageRows(width * 4, height, size)) >= size
      <==> size % (width * 4) == 0 && size <= ImageRow(width, height)
  {
    var r := width * 4;
    var q := size / r;
    assert size == q * r + size % r;
    if q <= height {
      MulLe(q, height, r);
    } else {
      MulLe(height + 1, q, r);
      assert (height + 1) * r == height * r + r;
    }
  }

  /** A read is documented to write every byte of its destination. It does exactly if that holds a whole number of the
      image's rows; else what follows the last whole row is left as it was. */
  lemma WritesEveryByteIff(width: nat, height: nat, size: nat)
    requires width > 0
    ensures WritesEveryByte(width, height, size) <==> size % (width * 4) == 0 && size <= ImageRow(width, height)
  {
    RowsReachIff(width, height, size);
    var end := ImageRow(width, ImageRows(width * 4, height, size));
    hide ImageRow, ImageRows, ImageByte;
    if end < size {
      var was: seq<u8> := seq(size, i => 1);
      var dst: seq<u8> := seq(size, i => if i < end then 0 else 1);
      NoScreenReadsZero(width);
      assert Fb([], 0, 0);
      assert HoldsImage([], 0, 0, 0, 0, width, ImageRows(width * 4, height, size), was, dst);
      assert dst[end] != ImageByte([], 0, 0, 0, 0, width, end);
    }
  }

  lemma NoScreenReadsZero(width: nat)
    requires width > 0
    ensures forall i: nat :: ImageByte([], 0, 0, 0, 0, width, i) == 0
  {
  }

  /** The bytes of a client's shared segment, of `segment` bytes, that an image at `offset` is read into. */
  function Shared(width: nat, height: nat, segment: nat, offset: nat): nat {
    Min(width * height * 4, segment - Min(offset, segment))
  }

  /** A client that shares less than the image gets every byte of what it shares exactly if that is whole rows. */
  lemma SharedIsFilledIff(width: nat, height: nat, segment: nat, offset: nat)
    requires width > 0
    ensures var room := segment - Min(offset, segment);
            WritesEveryByte(width, height, Shared(width, height, segment, offset))
            <==> room >= width * height * 4 || room % (width * 4) == 0
  {
    var n := Shared(width, height, segment, offset);
    WritesEveryByteIff(width, height, n);
    hide WritesEveryByte;
    assert width * height * 4 == height * (width * 4) by { SameArea(width, height); }
    MulMod(height, width * 4);
  }

  lemma SameArea(width: nat, height: nat)
    ensures width * height * 4 == height * (width * 4)
  {
  }

  lemma MulMod(q: nat, d: nat)
    requires d > 0
    ensures q * d % d == 0
  {
    DivMod(q * d, 0, q, d);
  }

  /** An image of two rows of two pixels, into a segment with room for one and a half: four bytes keep what was there,
      though the client is told the image has all 16. */
  lemma SharedCanBeLeft(bytes: seq<u8>, w: int, h: int, x: int, y: int, was: seq<u8>, dst: seq<u8>)
    requires Fb(bytes, w, h) && |was| == Shared(2, 2, 12, 0)
    requires HoldsImage(bytes, w, h, x, y, 2, ImageRows(8, 2, |was|), was, dst)
    ensures |dst| == 12 && dst[8..] == was[8..]
  {
    assert ImageRow(2, ImageRows(8, 2, 12)) == 8;
    hide ImageByte, ImageRows, ImageRow;
  }
}
