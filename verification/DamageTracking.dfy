/** DAMAGE objects: screen damage goes in as rectangles, notifications come out by each object's level. */
module DamageTracking {
  import opened BridgeTypes
  import opened PixelTransform
  import opened Capture
  import opened BlitTheorems

  // --- extents ---

  predicate Visible(r: Rectangle) {
    r.width > 0 && r.height > 0
  }

  /** A rectangle within the largest screen. */
  predicate InRange(r: Rectangle) {
    0 <= r.x && 0 <= r.y && r.x + r.width <= MAX_SCREEN && r.y + r.height <= MAX_SCREEN
  }

  predicate AllInRange(rects: seq<Rectangle>) {
    forall r :: r in rects ==> InRange(r)
  }

  function Widest(u: Option<Hull>, r: Rectangle): Option<Hull> {
    if !Visible(r) then u
    else if u.None? then Some(Hull(r.x, r.y, r.x + r.width, r.y + r.height))
    else Some(Hull(Min(u.value.minX, r.x), Min(u.value.minY, r.y), Max(u.value.maxX, r.x + r.width), Max(u.value.maxY, r.y + r.height)))
  }

  /** The edges reached by the visible rectangles. */
  function Extents(rects: seq<Rectangle>): Option<Hull> {
    if rects == [] then None else Widest(Extents(rects[..|rects| - 1]), rects[|rects| - 1])
  }

  /** The bounding box, as the wire carries it. */
  function Bbox(rects: seq<Rectangle>): Option<Rectangle> {
    match Extents(rects)
    case None => None
    case Some(u) => Some(Rectangle(AsI16(u.minX), AsI16(u.minY), AsU16(u.maxX - u.minX), AsU16(u.maxY - u.minY)))
  }

  method FindBbox(rects: seq<Rectangle>) returns (box: Option<Rectangle>)
    ensures box == Bbox(rects)
  {
    var i := 0;
    while i < |rects| && !Visible(rects[i])
      invariant 0 <= i <= |rects| && Extents(rects[..i]) == None
    {
      assert rects[..i + 1][..i] == rects[..i];
      i := i + 1;
    }
    assert i == |rects| ==> rects[..i] == rects;
    if i == |rects| {
      return None;
    }
    var first := rects[i];
    var x1, y1, x2, y2 := first.x, first.y, first.x + first.width, first.y + first.height;
    assert rects[..i + 1][..i] == rects[..i];
    i := i + 1;
    while i < |rects|
      invariant 0 < i <= |rects| && Extents(rects[..i]) == Some(Hull(x1, y1, x2, y2))
    {
      var r := rects[i];
      assert rects[..i + 1][..i] == rects[..i];
      if Visible(r) {
        x1, y1 := Min(x1, r.x), Min(y1, r.y);
        x2, y2 := Max(x2, r.x + r.width), Max(y2, r.y + r.height);
      }
      i := i + 1;
    }
    assert rects[..i] == rects;
    box := Some(Rectangle(AsI16(x1), AsI16(y1), AsU16(x2 - x1), AsU16(y2 - y1)));
  }

  predicate Within(r: Rectangle, u: Hull) {
    u.minX <= r.x && u.minY <= r.y && r.x + r.width <= u.maxX && r.y + r.height <= u.maxY
  }

  /** The extents hold every visible rectangle, and nothing smaller does. */
  lemma {:induction false} ExtentsAreLeast(rects: seq<Rectangle>)
    ensures Extents(rects).None? <==> forall r :: r in rects ==> !Visible(r)
    ensures Extents(rects).Some? ==> forall r :: r in rects && Visible(r) ==> Within(r, Extents(rects).value)
    ensures Extents(rects).Some? ==> forall v: Hull :: (forall r :: r in rects && Visible(r) ==> Within(r, v)) ==>
              var u := Extents(rects).value;
              v.minX <= u.minX && v.minY <= u.minY && u.maxX <= v.maxX && u.maxY <= v.maxY
    ensures Extents(rects).Some? && AllInRange(rects) ==>
              var u := Extents(rects).value;
              0 <= u.minX < u.maxX <= MAX_SCREEN && 0 <= u.minY < u.maxY <= MAX_SCREEN
  {
    if rects != [] {
      var init, last := rects[..|rects| - 1], rects[|rects| - 1];
      ExtentsAreLeast(init);
      assert rects == init + [last];
    }
  }

  /** On a screen in range the box on the wire is exact: it covers each visible rectangle's every pixel. */
  lemma BboxCovers(rects: seq<Rectangle>, r: Rectangle, x: int, y: int)
    requires AllInRange(rects) && r in rects && Covers(r, x, y)
    ensures Bbox(rects).Some? && Covers(Bbox(rects).value, x, y) && InRange(Bbox(rects).value)
  {
    ExtentsAreLeast(rects);
    assert Visible(r);
  }

  // --- objects and events ---

  const RAW := 0
  const DELTA := 1
  const BBOX := 2
  const NON_EMPTY := 3
  const MORE := 0x80

  datatype Object = Object(client: ClientId, id: nat, drawable: nat, level: u8, region: seq<Rectangle>)

  datatype Event = Event(client: ClientId, id: nat, drawable: nat, level: nat, area: Rectangle, geometry: Rectangle)

  function Whole(w: u16, h: u16): Rectangle {
    Rectangle(0, 0, w, h)
  }

  function Notice(o: Object, level: nat, area: Rectangle, w: u16, h: u16): Event {
    Event(o.client, o.id, o.drawable, level, area, Whole(w, h))
  }

  /** One event per box; all but the last say that more follow. */
  function Notices(o: Object, boxes: seq<Rectangle>, w: u16, h: u16): (es: seq<Event>)
    ensures |es| == |boxes|
    ensures forall i :: 0 <= i < |es| ==> es[i] == Notice(o, if i < |es| - 1 then o.level + MORE else o.level, boxes[i], w, h)
  {
    seq(|boxes|, i requires 0 <= i < |boxes| => Notice(o, if i < |boxes| - 1 then o.level + MORE else o.level, boxes[i], w, h))
  }

  function OnlyVisible(rects: seq<Rectangle>): (r: seq<Rectangle>)
    ensures forall b :: b in r <==> b in rects && Visible(b)
  {
    if rects == [] then [] else
      assert rects == rects[..|rects| - 1] + [rects[|rects| - 1]];
      OnlyVisible(rects[..|rects| - 1]) + (if Visible(rects[|rects| - 1]) then [rects[|rects| - 1]] else [])
  }

  /** Whether the events of a kind of damage accumulate until it is subtracted. */
  predicate Accumulates(o: Object) {
    o.level != RAW
  }

  /** What visible damage does to an object, and what it is told. */
  function Fed(o: Object, rects: seq<Rectangle>, w: u16, h: u16): (Object, seq<Event>) {
    var p := o.(region := o.region + rects);
    if o.level == RAW then (o, Notices(o, rects, w, h))
    else if o.level == DELTA then (p, Notices(o, rects, w, h))
    else if o.level == BBOX then
      (p, if Bbox(o.region) != Bbox(p.region) && Bbox(p.region).Some? then Notices(o, [Bbox(p.region).value], w, h) else [])
    else if o.level == NON_EMPTY then (p, if o.region == [] && p.region != [] then [Notice(o, o.level, Whole(w, h), w, h)] else [])
    else (p, [])
  }

  function FedAll(objects: seq<Object>, rects: seq<Rectangle>, w: u16, h: u16): (seq<Object>, seq<Event>) {
    if objects == [] then ([], []) else
      var n := |objects| - 1;
      var (ps, es) := FedAll(objects[..n], rects, w, h);
      var (p, e) := Fed(objects[n], rects, w, h);
      (ps + [p], es + e)
  }

  function Live(objects: seq<Object>, dead: set<ClientId>): seq<Object> {
    if objects == [] then [] else
      Live(objects[..|objects| - 1], dead) + (if objects[|objects| - 1].client in dead then [] else [objects[|objects| - 1]])
  }

  function FindObject(objects: seq<Object>, client: ClientId, id: nat): (r: Option<nat>)
    ensures r.Some? ==> r.value < |objects| && objects[r.value].client == client && objects[r.value].id == id
    ensures r.None? ==> forall i :: 0 <= i < |objects| ==> !(objects[i].client == client && objects[i].id == id)
  {
    if objects == [] then None
    else if objects[0].client == client && objects[0].id == id then Some(0)
    else match FindObject(objects[1..], client, id)
      case None => None
      case Some(i) => Some(i + 1)
  }

  function Unless(o: Object, client: ClientId, id: nat): seq<Object> {
    if o.client == client && o.id == id then [] else [o]
  }

  function Without(objects: seq<Object>, client: ClientId, id: nat): seq<Object> {
    if objects == [] then [] else Unless(objects[0], client, id) + Without(objects[1..], client, id)
  }

  class DamageSink {
    var objects: seq<Object>

    constructor ()
      ensures objects == []
    {
      objects := [];
    }

    method Create(client: ClientId, id: nat, drawable: nat, level: u8)
      modifies this
      ensures objects == old(objects) + [Object(client, id, drawable, level, [])]
    {
      objects := objects + [Object(client, id, drawable, level, [])];
    }

    /** Whether any live client is watching: whether there is an object that damage would be fed to. */
    method Active(dead: set<ClientId>) returns (active: bool)
      ensures active <==> Live(objects, dead) != []
    {
      SomeLive(objects, dead);
      active := exists i :: 0 <= i < |objects| && objects[i].client !in dead;
    }

    method Destroy(client: ClientId, id: nat)
      modifies this
      ensures objects == Without(old(objects), client, id)
      ensures forall o :: o in objects <==> o in old(objects) && !(o.client == client && o.id == id)
    {
      WithoutMembers(objects, client, id);
      objects := Without(objects, client, id);
    }

    /** Clears an object's damage and returns it; nothing accumulates at the raw level. */
    method Subtract(client: ClientId, id: nat) returns (parts: seq<Rectangle>)
      modifies this
      ensures match FindObject(old(objects), client, id)
              case None => objects == old(objects) && parts == []
              case Some(i) =>
                && objects == old(objects)[i := Subtracted(old(objects)[i])]
                && parts == if old(objects)[i].level == RAW then [] else old(objects)[i].region
    {
      var found := FindObject(objects, client, id);
      if found.None? {
        return [];
      }
      var o := objects[found.value];
      if o.level == RAW {
        assert objects == objects[found.value := o];
        return [];
      }
      parts := o.region;
      objects := objects[found.value := o.(region := [])];
    }

    /** Feeds screen damage to every live object. */
    method AddDamage(rects: seq<Rectangle>, w: u16, h: u16, dead: set<ClientId>) returns (events: seq<Event>)
      modifies this
      ensures OnlyVisible(rects) == [] ==> objects == old(objects) && events == []
      ensures OnlyVisible(rects) != [] ==> (objects, events) == FedAll(Live(old(objects), dead), OnlyVisible(rects), w, h)
    {
      hide Fed, OnlyVisible, Live;
      var visible := OnlyVisible(rects);
      events := [];
      if visible == [] {
        return;
      }
      objects := Live(objects, dead);
      ghost var live := objects;
      var i := 0;
      while i < |objects|
        invariant 0 <= i <= |objects| == |live|
        invariant |FedAll(live[..i], visible, w, h).0| == i
        invariant forall k :: 0 <= k < i ==> objects[k] == FedAll(live[..i], visible, w, h).0[k]
        invariant forall k :: i <= k < |live| ==> objects[k] == live[k]
        invariant events == FedAll(live[..i], visible, w, h).1
      {
        assert live[..i + 1][..i] == live[..i];
        var o, told := FeedOne(objects[i], visible, w, h);
        objects := objects[i := o];
        events := events + told;
        i := i + 1;
      }
      assert live[..i] == live;
      assert objects == FedAll(live, visible, w, h).0;
    }

    method FeedOne(o: Object, rects: seq<Rectangle>, w: u16, h: u16) returns (p: Object, events: seq<Event>)
      ensures (p, events) == Fed(o, rects, w, h)
    {
      p, events := o, [];
      if o.level == RAW {
        events := Notices(o, rects, w, h);
        return;
      }
      if o.level == BBOX {
        var before := FindBbox(o.region);
        p := o.(region := o.region + rects);
        var now := FindBbox(p.region);
        if before != now && now.Some? {
          events := Notices(o, [now.value], w, h);
        }
        return;
      }
      p := o.(region := o.region + rects);
      if o.level == DELTA {
        events := Notices(o, rects, w, h);
      } else if o.level == NON_EMPTY && o.region == [] && p.region != [] {
        events := [Notice(o, o.level, Whole(w, h), w, h)];
      }
    }
  }

  lemma {:induction false} SomeLive(objects: seq<Object>, dead: set<ClientId>)
    ensures Live(objects, dead) != [] <==> exists i :: 0 <= i < |objects| && objects[i].client !in dead
  {
    if objects != [] {
      var n := |objects| - 1;
      SomeLive(objects[..n], dead);
      if i :| 0 <= i < |objects| && objects[i].client !in dead {
        assert i < n ==> objects[..n][i] == objects[i];
      }
    }
  }

  lemma {:induction false} WithoutEach(a: seq<Object>, b: seq<Object>, client: ClientId, id: nat)
    ensures Without(a + b, client, id) == Without(a, client, id) + Without(b, client, id)
  {
    hide Unless;
    if a == [] {
      assert a + b == b;
    } else {
      assert (a + b)[1..] == a[1..] + b && (a + b)[0] == a[0];
      WithoutEach(a[1..], b, client, id);
    }
  }

  lemma {:induction false} WithoutMembers(objects: seq<Object>, client: ClientId, id: nat)
    ensures forall o :: o in Without(objects, client, id) <==> o in objects && !(o.client == client && o.id == id)
  {
    if objects != [] {
      WithoutMembers(objects[1..], client, id);
      assert objects == [objects[0]] + objects[1..];
    }
  }

  /** Destroying an object removes each that bears its client and id, wherever it is, and keeps the rest, in order. */
  lemma WithoutKeepsTheRest(a: seq<Object>, o: Object, b: seq<Object>, client: ClientId, id: nat)
    ensures Without(a + [o] + b, client, id)
         == Without(a, client, id) + (if o.client == client && o.id == id then [] else [o]) + Without(b, client, id)
  {
    WithoutEach(a + [o], b, client, id);
    WithoutEach(a, [o], client, id);
    assert [o][1..] == [];
  }

  function Subtracted(o: Object): Object {
    if o.level == RAW then o else o.(region := [])
  }

  /** Each live object is fed on its own, in order, and told on its own. */
  lemma {:induction false} FeedingIsPerObject(objects: seq<Object>, rects: seq<Rectangle>, w: u16, h: u16, i: nat)
    requires i < |objects|
    ensures |FedAll(objects, rects, w, h).0| == |objects|
    ensures FedAll(objects, rects, w, h).0[i] == Fed(objects[i], rects, w, h).0
    ensures forall e :: e in Fed(objects[i], rects, w, h).1 ==> e in FedAll(objects, rects, w, h).1
  {
    hide Fed;
    var n := |objects| - 1;
    if i < n {
      FeedingIsPerObject(objects[..n], rects, w, h, i);
    } else if n > 0 {
      FeedingIsPerObject(objects[..n], rects, w, h, 0);
    }
  }
}
