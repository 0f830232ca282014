/** What a damage object's client is told covers the damage there was. */
module DamageTheorems {
  import opened BridgeTypes
  import opened PixelTransform
  import opened Capture
  import opened BlitTheorems
  import opened DamageTracking

  /** One object between subtractions: the damage fed to it and the events sent for it since the last one, and the size
      the screen had when the first of that damage came. */
  datatype Track = Track(obj: Object, fed: seq<Rectangle>, told: seq<Event>, first: Rectangle)

  /** The screen may have another size at each feed. */
  datatype Op = Feed(rects: seq<Rectangle>, w: u16, h: u16) | Subtract

  /** Damage that reaches an object is visible and on the screen. */
  predicate OnScreenDamage(rects: seq<Rectangle>, w: u16, h: u16) {
    && rects != [] && w <= MAX_SCREEN && h <= MAX_SCREEN
    && forall r :: r in rects ==> Visible(r) && 0 <= r.x && 0 <= r.y && r.x + r.width <= w && r.y + r.height <= h
  }

  predicate AllOnScreen(ops: seq<Op>) {
    forall op :: op in ops && op.Feed? ==> OnScreenDamage(op.rects, op.w, op.h)
  }

  function Next(t: Track, op: Op): Track {
    match op
    case Feed(rects, w, h) =>
      var (o, es) := Fed(t.obj, rects, w, h);
      Track(o, t.fed + rects, t.told + es, if t.fed == [] then Whole(w, h) else t.first)
    case Subtract => if Accumulates(t.obj) then Track(Subtracted(t.obj), [], [], t.first) else t
  }

  function After(t: Track, ops: seq<Op>): Track {
    if ops == [] then t else Next(After(t, ops[..|ops| - 1]), ops[|ops| - 1])
  }

  ghost predicate Told(told: seq<Event>, x: int, y: int) {
    exists i :: 0 <= i < |told| && Covers(told[i].area, x, y)
  }

  ghost predicate Damaged(rects: seq<Rectangle>, x: int, y: int) {
    exists r :: r in rects && Covers(r, x, y)
  }

  /** The object remembers what was fed to it, unless its level never does. */
  ghost predicate Remembers(t: Track) {
    t.obj.region == if Accumulates(t.obj) then t.fed else []
  }

  ghost predicate LevelHolds(t: Track) {
    var level := t.obj.level;
    if level == RAW || level == DELTA then forall r :: r in t.fed ==> exists i :: 0 <= i < |t.told| && t.told[i].area == r
    else if level == BBOX then t.fed != [] ==> t.told != [] && Bbox(t.fed) == Some(t.told[|t.told| - 1].area)
    else |t.told| == (if t.fed == [] then 0 else 1) && (t.fed != [] ==> t.told[0].area == t.first)
  }

  ghost predicate Holds(t: Track) {
    Remembers(t) && LevelHolds(t) && AllInRange(t.fed) && forall r :: r in t.fed ==> Visible(r)
  }

  lemma VisibleHasBox(rects: seq<Rectangle>)
    requires rects != [] && forall r :: r in rects ==> Visible(r)
    ensures Bbox(rects).Some?
  {
    ExtentsAreLeast(rects);
    assert rects[0] in rects;
  }

  lemma FeedingHolds(t: Track, rects: seq<Rectangle>, w: u16, h: u16)
    requires t.obj.level <= NON_EMPTY && Holds(t) && OnScreenDamage(rects, w, h)
    ensures Holds(Next(t, Feed(rects, w, h)))
  {
    hide Bbox;
    var u := Next(t, Feed(rects, w, h));
    var (o, es) := Fed(t.obj, rects, w, h);
    forall r | r in u.fed ensures Visible(r) && InRange(r) {
      assert r in t.fed || r in rects;
    }
    VisibleHasBox(u.fed);
    if t.obj.level == RAW || t.obj.level == DELTA {
      forall r | r in u.fed ensures exists i :: 0 <= i < |u.told| && u.told[i].area == r {
        if r in t.fed {
          var i :| 0 <= i < |t.told| && t.told[i].area == r;
          assert u.told[i].area == r;
        } else {
          var i :| 0 <= i < |rects| && rects[i] == r;
          assert es[i].area == r && u.told[|t.told| + i] == es[i];
        }
      }
    } else if t.obj.level == BBOX {
      if t.fed == [] {
        assert Bbox(t.obj.region) == None by { ExtentsAreLeast([]); BboxOfNone(); }
      }
    }
  }

  lemma BboxOfNone()
    ensures Bbox([]) == None
  {
  }

  lemma {:induction false} RunsHold(t: Track, ops: seq<Op>)
    requires t.obj.level <= NON_EMPTY && Holds(t) && AllOnScreen(ops)
    ensures Holds(After(t, ops)) && After(t, ops).obj.level == t.obj.level
  {
    if ops != [] {
      RunsHold(t, ops[..|ops| - 1]);
      var u := After(t, ops[..|ops| - 1]);
      match ops[|ops| - 1]
      case Feed(rects, w, h) =>
        assert ops[|ops| - 1] in ops;
        FeedingHolds(u, rects, w, h);
      case Subtract =>
    }
  }

  lemma HeldIsTold(t: Track, x: int, y: int)
    requires t.obj.level <= NON_EMPTY && Holds(t) && Damaged(t.fed, x, y)
    ensures t.told != []
    ensures Told(t.told, x, y) <==> t.obj.level != NON_EMPTY || Covers(t.first, x, y)
  {
    hide Remembers, Accumulates;
    var r :| r in t.fed && Covers(r, x, y);
    if t.obj.level == RAW || t.obj.level == DELTA {
      hide Bbox, AllInRange, Covers;
      var i :| 0 <= i < |t.told| && t.told[i].area == r;
    } else if t.obj.level == BBOX {
      BboxCovers(t.fed, r, x, y);
      hide Bbox, AllInRange, Covers, Visible;
      assert Covers(t.told[|t.told| - 1].area, x, y);
    } else {
      hide Bbox, AllInRange, Covers, Visible;
      assert t.told[0].area == t.first;
    }
  }

  function Fresh(client: ClientId, id: nat, drawable: nat, level: u8): Track {
    Track(Object(client, id, drawable, level, []), [], [], Whole(0, 0))
  }

  /** At each level, over any run of damage, subtractions and resizes: every pixel damaged since the last subtraction is
      inside some area the client has been told of. At the NonEmpty level that area is the screen as it was when the
      first of the damage came, so there it is so exactly for the pixels that screen had. */
  lemma DamageIsToldAtEveryLevel(client: ClientId, id: nat, drawable: nat, level: u8, ops: seq<Op>, x: int, y: int)
    requires level <= NON_EMPTY && AllOnScreen(ops)
    requires Damaged(After(Fresh(client, id, drawable, level), ops).fed, x, y)
    ensures var t := After(Fresh(client, id, drawable, level), ops);
            && t.told != []
            && (Told(t.told, x, y) <==> level != NON_EMPTY || Covers(t.first, x, y))
  {
    RunsHold(Fresh(client, id, drawable, level), ops);
    hide After, Holds, Told, Damaged;
    HeldIsTold(After(Fresh(client, id, drawable, level), ops), x, y);
  }

  /** At the NonEmpty level there is one event for the first damage since a subtraction, and no more. */
  lemma OneEventPerRearm(client: ClientId, id: nat, drawable: nat, ops: seq<Op>)
    requires AllOnScreen(ops)
    ensures var t := After(Fresh(client, id, drawable, NON_EMPTY), ops);
            |t.told| == if t.fed == [] then 0 else 1
  {
    RunsHold(Fresh(client, id, drawable, NON_EMPTY), ops);
  }

  /** At the BoundingBox level there is an event exactly if the damage reaches outside the extents so far, and
      its area is the new extents. */
  lemma BoxEventIffExtentsGrow(o: Object, rects: seq<Rectangle>, w: u16, h: u16)
    requires o.level == BBOX && AllInRange(o.region) && AllInRange(rects)
    ensures var es := Fed(o, rects, w, h).1;
            && (es == [] <==> forall r :: r in rects && Visible(r) ==>
                  Extents(o.region).Some? && Within(r, Extents(o.region).value))
            && (es != [] ==> |es| == 1 && es[0].level == BBOX && Some(es[0].area) == Bbox(o.region + rects))
  {
    var all := o.region + rects;
    ExtentsAreLeast(o.region);
    ExtentsAreLeast(all);
    assert AllInRange(all);
    BoxesDifferIff(o.region, all);
    hide Bbox, AllInRange;
    var grows := exists r :: r in rects && Visible(r) && !(Extents(o.region).Some? && Within(r, Extents(o.region).value));
    if grows {
      var r :| r in rects && Visible(r) && !(Extents(o.region).Some? && Within(r, Extents(o.region).value));
      assert r in all;
      assert Extents(all).Some?;
    } else if Extents(o.region).None? {
      assert forall r :: r in all ==> !Visible(r);
    } else {
      var u, v := Extents(o.region).value, Extents(all).value;
      assert forall r :: r in all && Visible(r) ==> Within(r, u);
      assert forall r :: r in o.region && Visible(r) ==> r in all && Within(r, v);
      assert u == v;
    }
  }

  /** Boxes on the wire differ exactly if the extents do. */
  lemma BoxesDifferIff(a: seq<Rectangle>, b: seq<Rectangle>)
    requires AllInRange(a) && AllInRange(b)
    ensures Bbox(a) == Bbox(b) <==> Extents(a) == Extents(b)
    ensures Bbox(b).Some? <==> Extents(b).Some?
  {
    BboxIsExact(a);
    BboxIsExact(b);
    hide Extents, Bbox, AllInRange;
  }

  lemma BboxIsExact(rects: seq<Rectangle>)
    requires AllInRange(rects)
    ensures Bbox(rects) ==
      match Extents(rects)
      case None => None
      case Some(u) => Some(Rectangle(u.minX, u.minY, u.maxX - u.minX, u.maxY - u.minY))
  {
    ExtentsAreLeast(rects);
    hide Extents, AllInRange;
  }

  /** At the raw and delta levels what one feed reports is exactly the damage fed: a pixel is in a reported area exactly
      if it was damaged. So the delta level reports only what is newly damaged exactly if none of it was damaged before. */
  lemma RawAndDeltaReportTheDamage(o: Object, rects: seq<Rectangle>, w: u16, h: u16)
    requires o.level == RAW || o.level == DELTA
    ensures var es := Fed(o, rects, w, h).1;
            && (forall x, y :: Told(es, x, y) <==> Damaged(rects, x, y))
            && ((forall x, y :: Told(es, x, y) ==> !Damaged(o.region, x, y))
                <==> (forall x, y :: !(Damaged(rects, x, y) && Damaged(o.region, x, y))))
  {
    var es := Fed(o, rects, w, h).1;
    forall x, y ensures Told(es, x, y) <==> Damaged(rects, x, y) {
      if Damaged(rects, x, y) {
        var r :| r in rects && Covers(r, x, y);
        var i :| 0 <= i < |rects| && rects[i] == r;
        assert es[i].area == r;
      }
    }
    hide Told, Damaged;
  }
}
