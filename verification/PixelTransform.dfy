/** Output transforms: where a pixel of a captured buffer lands on the screen. */
module PixelTransform {
  datatype Transform =
    | Normal | Rotate90 | Rotate180 | Rotate270
    | Flipped | Flipped90 | Flipped180 | Flipped270

  predicate SwapsAxes(t: Transform) {
    t.Rotate90? || t.Rotate270? || t.Flipped90? || t.Flipped270?
  }

  function Size(t: Transform, w: int, h: int): (int, int) {
    if SwapsAxes(t) then (h, w) else (w, h)
  }

  datatype Box = Box(x: int, y: int, width: int, height: int) {
    predicate Contains(px: int, py: int) {
      x <= px < x + width && y <= py < y + height
    }
  }

  function Rect(t: Transform, r: Box, w: int, h: int): Box {
    var (dw, dh) := Size(t, r.width, r.height);
    match t
    case Normal => Box(r.x, r.y, dw, dh)
    case Rotate90 => Box(h - r.y - r.height, r.x, dw, dh)
    case Rotate180 => Box(w - r.x - r.width, h - r.y - r.height, dw, dh)
    case Rotate270 => Box(r.y, w - r.x - r.width, dw, dh)
    case Flipped => Box(w - r.x - r.width, r.y, dw, dh)
    case Flipped90 => Box(r.y, r.x, dw, dh)
    case Flipped180 => Box(r.x, h - r.y - r.height, dw, dh)
    case Flipped270 => Box(h - r.y - r.height, w - r.x - r.width, dw, dh)
  }

  function Point(t: Transform, x: int, y: int, w: int, h: int): (int, int) {
    var r := Rect(t, Box(x, y, 1, 1), w, h);
    (r.x, r.y)
  }

  /** The transform that undoes `t`, acting on the transformed space. */
  function Inverse(t: Transform): Transform {
    match t
    case Rotate90 => Rotate270
    case Rotate270 => Rotate90
    case _ => t
  }

  /** The buffer pixel that lands at a point of the transformed space. */
  function Unpoint(t: Transform, x: int, y: int, w: int, h: int): (int, int) {
    var (tw, th) := Size(t, w, h);
    Point(Inverse(t), x, y, tw, th)
  }

  /** Every transform maps the buffer one-to-one onto the transformed rectangle. */
  lemma PointIsOneToOne(t: Transform, x: int, y: int, w: int, h: int)
    ensures var (px, py) := Point(t, x, y, w, h);
            && Unpoint(t, px, py, w, h) == (x, y)
            && (Box(0, 0, w, h).Contains(x, y)
                <==> var (tw, th) := Size(t, w, h); Box(0, 0, tw, th).Contains(px, py))
    ensures var (sx, sy) := Unpoint(t, x, y, w, h); Point(t, sx, sy, w, h) == (x, y)
  {
  }

  /** A rectangle lands as the rectangle of its pixels. */
  lemma RectIsItsPoints(t: Transform, r: Box, x: int, y: int, w: int, h: int)
    ensures var (px, py) := Point(t, x, y, w, h);
            r.Contains(x, y) <==> Rect(t, r, w, h).Contains(px, py)
  {
  }

  /** A buffer row lands as a straight line: one fixed step from its first two pixels. */
  lemma RowsAreLines(t: Transform, x: int, y: int, w: int, h: int)
    ensures var (x0, y0) := Point(t, 0, y, w, h);
            var (x1, y1) := Point(t, 1, y, w, h);
            Point(t, x, y, w, h) == (x0 + x * (x1 - x0), y0 + x * (y1 - y0))
  {
  }
}
