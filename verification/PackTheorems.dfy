/** What packing an axis promises. */
module PackTheorems {
  import opened PackAxis

  /** The leftmost output is at 0, and no output is left of it. */
  lemma StartsAreNonNegative(items: seq<Span>, i: nat)
    requires Positive(items) && i < |items| && forall s :: s in items ==> s.plen >= 0
    ensures Starts(items)[i] >= 0
    ensures items[i].start == Least(items) ==> Starts(items)[i] == 0
  {
    hide Bounds, Starts;
    BoundsPack(items);
    StartsAreEdges(items, i);
    EdgesNonNegative(Elements(items), Least(items), Bounds(items), items[i].start);
  }

  lemma {:induction false} EdgesNonNegative(spans: set<Span>, origin: int, bound: map<int, int>, x: int)
    requires Proper(spans, origin) && Packs(spans, origin, bound) && x in bound
    requires forall s :: s in spans ==> s.plen >= 0
    ensures bound[x] >= 0 && (x == origin ==> bound[x] == 0)
    decreases x - origin
  {
    hide Packs, IsEnd, IsEdge, Proper;
    EdgesAreBound(spans, origin, bound);
    EdgesFollowOrigin(spans, origin, x);
    if IsEnd(spans, x) {
      var s := EndOf(spans, origin, bound, x);
      EndsFollowStarts(spans, origin, s);
      EdgesNonNegative(spans, origin, bound, s.start);
    } else {
      var p := GapOf(spans, origin, bound, x);
      if x != origin {
        EdgesFollowOrigin(spans, origin, p);
        EdgesNonNegative(spans, origin, bound, p);
      }
    }
  }

  /** An output that starts at another's logical end starts at or after its physical end. */
  lemma NeighboursDoNotOverlap(items: seq<Span>, i: nat, j: nat)
    requires Positive(items) && i < |items| && j < |items| && items[j].start == items[i].End()
    ensures Starts(items)[j] >= Starts(items)[i] + items[i].plen
  {
    hide Bounds, Starts;
    BoundsPack(items);
    StartsAreEdges(items, i);
    StartsAreEdges(items, j);
    assert items[i] in Elements(items);
    var x := items[i].End();
    assert IsEnd(Elements(items), x);
    var _ := EndOf(Elements(items), Least(items), Bounds(items), x);
  }

  /** The outputs' physical starts do not depend on the order, or the number of times, they are listed. */
  lemma ListingOrderIsIrrelevant(items: seq<Span>, others: seq<Span>, i: nat, j: nat)
    requires Positive(items) && Positive(others) && Elements(items) == Elements(others)
    requires i < |items| && j < |others| && items[i] == others[j]
    ensures Starts(items)[i] == Starts(others)[j]
  {
    hide Bounds, Starts;
    BoundsPack(items);
    BoundsPack(others);
    assert Least(items) == Least(others) by {
      var s :| s in items && s.start == Least(items);
      var t :| t in others && t.start == Least(others);
      assert s in Elements(others) && t in Elements(items);
    }
    StartsAreEdges(items, i);
    StartsAreEdges(others, j);
    PackingIsUnique(Elements(items), Least(items), Bounds(items), Bounds(others), items[i].start);
  }

  // --- aligned layouts ---

  /** Two spans are one column, or do not meet. */
  predicate ColumnOrDisjoint(s: Span, t: Span) {
    (s.start == t.start && s.len == t.len) || s.End() <= t.start || t.End() <= s.start
  }

  ghost predicate Aligned(items: seq<Span>) {
    forall s, t :: s in items && t in items ==> ColumnOrDisjoint(s, t)
  }

  ghost predicate AlignedSet(spans: set<Span>) {
    forall s, t :: s in spans && t in spans ==> ColumnOrDisjoint(s, t)
  }

  /** In an aligned layout, edges keep their order. */
  lemma {:induction false} EdgesKeepOrder(spans: set<Span>, origin: int, bound: map<int, int>, x: int, y: int)
    requires Proper(spans, origin) && Packs(spans, origin, bound) && AlignedSet(spans)
    requires forall s :: s in spans ==> s.plen >= 0
    requires x in bound && y in bound && x <= y
    ensures bound[x] <= bound[y]
    decreases y - x
  {
    hide Packs, IsEnd, IsEdge, Proper, AlignedSet;
    if x < y {
      EdgesAreBound(spans, origin, bound);
      EdgesFollowOrigin(spans, origin, x);
      if IsEnd(spans, y) {
        var s := EndOf(spans, origin, bound, y);
        EndsFollowStarts(spans, origin, s);
        NoEdgeInside(spans, origin, s, x);
        EdgesKeepOrder(spans, origin, bound, x, s.start);
      } else {
        var p := GapOf(spans, origin, bound, y);
        EdgesKeepOrder(spans, origin, bound, x, p);
      }
    }
  }

  lemma NoEdgeInside(spans: set<Span>, origin: int, s: Span, x: int)
    requires Proper(spans, origin) && AlignedSet(spans) && s in spans && IsEdge(spans, origin, x)
    ensures x <= s.start || s.End() <= x
  {
  }

  /** Aligned layouts are packed exactly: one column has one start, and disjoint columns stay disjoint, in order. */
  lemma AlignedColumnsPack(items: seq<Span>, i: nat, j: nat)
    requires Positive(items) && Aligned(items) && (forall s :: s in items ==> s.plen >= 0)
    requires i < |items| && j < |items|
    ensures items[i].start == items[j].start ==> Starts(items)[i] == Starts(items)[j]
    ensures items[i].End() <= items[j].start ==> Starts(items)[i] + items[i].plen <= Starts(items)[j]
  {
    hide Bounds, Starts;
    BoundsPack(items);
    StartsAreEdges(items, i);
    StartsAreEdges(items, j);
    if items[i].End() <= items[j].start {
      var spans, x := Elements(items), items[i].End();
      assert items[i] in spans && IsEnd(spans, x);
      var _ := EndOf(spans, Least(items), Bounds(items), x);
      EdgesKeepOrder(spans, Least(items), Bounds(items), x, items[j].start);
    }
  }

  /** Gaps are bridged one to one: an output that follows a gap keeps its distance from the edge before it. */
  lemma GapsAreKept(items: seq<Span>, i: nat, j: nat)
    requires Positive(items) && i < |items| && j < |items| && items[i].End() < items[j].start
    requires forall s :: s in items ==> !(items[i].End() < s.start < items[j].start) && !(items[i].End() < s.End() <= items[j].start)
    requires forall s :: s in items && s.End() == items[i].End() ==> s == items[i]
    ensures Starts(items)[j] == Starts(items)[i] + items[i].plen + (items[j].start - items[i].End())
  {
    hide Bounds, Starts, Packs, Proper, Positive;
    BoundsPack(items);
    StartsAreEdges(items, i);
    StartsAreEdges(items, j);
    var spans, bound, origin := Elements(items), Bounds(items), Least(items);
    assert forall s :: s in spans <==> s in items;
    hide Elements, Least;
    GapFollows(spans, origin, bound, items[i], items[j].start);
  }

  /** An edge across a gap from the end of `s` alone. */
  lemma GapFollows(spans: set<Span>, origin: int, bound: map<int, int>, s: Span, x: int)
    requires Proper(spans, origin) && Packs(spans, origin, bound) && s in spans && s.End() < x && x in bound
    requires forall r :: r in spans ==> !(s.End() < r.start < x) && !(s.End() < r.End() <= x)
    requires forall r :: r in spans && r.End() == s.End() ==> r == s
    ensures s.start in bound && bound[x] == bound[s.start] + s.plen + (x - s.End())
  {
    var e := s.End();
    assert IsEnd(spans, e) && !IsEnd(spans, x);
    hide Packs;
    EdgesAreBound(spans, origin, bound);
    EdgesFollowOrigin(spans, origin, e);
    var r := EndOf(spans, origin, bound, e);
    var p := GapOf(spans, origin, bound, x);
    assert p == e by { hide Proper, IsEnd; assert IsEdge(spans, origin, p); }
  }

  // --- unaligned layouts ---

  /** Where nothing is scaled, any layout at all is packed exactly as it is logically. */
  lemma UnscaledPacksAsItIs(items: seq<Span>, i: nat)
    requires Positive(items) && i < |items| && forall s :: s in items ==> s.plen == s.len
    ensures Starts(items)[i] == items[i].start - Least(items)
  {
    hide Bounds, Starts;
    BoundsPack(items);
    StartsAreEdges(items, i);
    UnscaledEdges(Elements(items), Least(items), Bounds(items), items[i].start);
  }

  lemma {:induction false} UnscaledEdges(spans: set<Span>, origin: int, bound: map<int, int>, x: int)
    requires Proper(spans, origin) && Packs(spans, origin, bound) && x in bound && forall s :: s in spans ==> s.plen == s.len
    ensures bound[x] == x - origin
    decreases x - origin
  {
    hide Packs, IsEnd, IsEdge, Proper;
    EdgesAreBound(spans, origin, bound);
    EdgesFollowOrigin(spans, origin, x);
    if IsEnd(spans, x) {
      var s := EndOf(spans, origin, bound, x);
      EndsFollowStarts(spans, origin, s);
      UnscaledEdges(spans, origin, bound, s.start);
    } else {
      var p := GapOf(spans, origin, bound, x);
      if x != origin {
        EdgesFollowOrigin(spans, origin, p);
        UnscaledEdges(spans, origin, bound, p);
      }
    }
  }

  /** No output overlaps physically one that it follows logically. */
  ghost predicate FollowersClear(items: seq<Span>)
    requires Positive(items)
  {
    forall i, j :: 0 <= i < |items| && 0 <= j < |items| && items[i].End() <= items[j].start ==>
      Starts(items)[i] + items[i].plen <= Starts(items)[j]
  }

  /** A way to an edge from the leftmost one: across outputs, each from its start to its end, and across gaps, each to an
      edge that no output ends at from the edge before it. */
  datatype Link = Across(s: Span) | Gap(from: int, to: int) {
    function Start(): int {
      if Across? then s.start else from
    }

    function End(): int {
      if Across? then s.End() else to
    }

    /** Outputs count with their physical length, gaps as they are. */
    function Length(): int {
      if Across? then s.plen else to - from
    }

    ghost predicate In(spans: set<Span>, origin: int) {
      if Across? then s in spans else IsGap(spans, origin, from, to)
    }
  }

  ghost predicate IsGap(spans: set<Span>, origin: int, p: int, x: int) {
    && IsEdge(spans, origin, x) && IsEdge(spans, origin, p) && p < x && !IsEnd(spans, x)
    && forall q :: IsEdge(spans, origin, q) && q < x ==> q <= p
  }

  ghost predicate Chain(spans: set<Span>, origin: int, links: seq<Link>, x: int)
    decreases |links|
  {
    if links == [] then x == origin else
      var last := links[|links| - 1];
      last.In(spans, origin) && last.End() == x && Chain(spans, origin, links[..|links| - 1], last.Start())
  }

  function Length(links: seq<Link>): int {
    if links == [] then 0 else Length(links[..|links| - 1]) + links[|links| - 1].Length()
  }

  lemma ChainSnoc(spans: set<Span>, origin: int, links: seq<Link>, last: Link)
    requires last.In(spans, origin) && Chain(spans, origin, links, last.Start())
    ensures Chain(spans, origin, links + [last], last.End()) && Length(links + [last]) == Length(links) + last.Length()
  {
    assert (links + [last])[..|links|] == links;
    hide IsGap, IsEdge, IsEnd;
  }

  /** An edge is placed at the length of the longest chain to it: there is one of that length, */
  lemma {:induction false} PlaceIsAChain(spans: set<Span>, origin: int, bound: map<int, int>, x: int) returns (links: seq<Link>)
    requires Proper(spans, origin) && Packs(spans, origin, bound) && x in bound
    ensures Chain(spans, origin, links, x) && Length(links) == bound[x]
    decreases x - origin
  {
    hide Packs, IsEnd, IsEdge, Proper, Chain, Length;
    EdgesAreBound(spans, origin, bound);
    EdgesFollowOrigin(spans, origin, x);
    if IsEnd(spans, x) {
      var s := EndOf(spans, origin, bound, x);
      EndsFollowStarts(spans, origin, s);
      var init := PlaceIsAChain(spans, origin, bound, s.start);
      ChainSnoc(spans, origin, init, Across(s));
      links := init + [Across(s)];
    } else if x == origin {
      var _ := GapOf(spans, origin, bound, x);
      NoLinks(spans, origin);
      links := [];
    } else {
      var p := GapOf(spans, origin, bound, x);
      EdgesFollowOrigin(spans, origin, p);
      var init := PlaceIsAChain(spans, origin, bound, p);
      ChainSnoc(spans, origin, init, Gap(p, x));
      links := init + [Gap(p, x)];
    }
  }

  lemma NoLinks(spans: set<Span>, origin: int)
    ensures Chain(spans, origin, [], origin) && Length([]) == 0
  {
  }

  /** and none is longer. */
  lemma {:induction false} ChainsAreNoLonger(spans: set<Span>, origin: int, bound: map<int, int>, links: seq<Link>, x: int)
    requires Proper(spans, origin) && Packs(spans, origin, bound) && Chain(spans, origin, links, x)
    ensures x in bound && Length(links) <= bound[x]
    decreases |links|
  {
    EdgesAreBound(spans, origin, bound);
    if links == [] {
      assert IsEdge(spans, origin, origin);
      OriginIsFirst(spans, origin, bound);
    } else {
      var init, last := links[..|links| - 1], links[|links| - 1];
      hide Packs, Proper, Chain, Length, IsEdge;
      match last
      case Across(s) =>
        ChainsAreNoLonger(spans, origin, bound, init, s.start);
        assert IsEnd(spans, x);
        var _ := EndOf(spans, origin, bound, x);
      case Gap(p, _) =>
        ChainsAreNoLonger(spans, origin, bound, init, p);
        OriginComesFirst(spans, origin, p, x);
        var q := GapOf(spans, origin, bound, x);
        assert IsEdge(spans, origin, q) && q == p;
    }
  }

  lemma OriginComesFirst(spans: set<Span>, origin: int, p: int, x: int)
    requires Proper(spans, origin) && IsGap(spans, origin, p, x)
    ensures x != origin
  {
    EdgesFollowOrigin(spans, origin, p);
  }

  lemma OriginIsFirst(spans: set<Span>, origin: int, bound: map<int, int>)
    requires Proper(spans, origin) && Packs(spans, origin, bound)
    ensures origin in bound && bound[origin] == 0
  {
    assert IsEdge(spans, origin, origin);
    EdgesAreBound(spans, origin, bound);
    EdgesFollowOrigin(spans, origin, origin);
    hide Packs, Proper;
    var _ := GapOf(spans, origin, bound, origin);
  }

  /** Some chain to edge `x` is at least as long as `links`. */
  ghost predicate Reaches(items: seq<Span>, x: int, links: seq<Link>)
    requires items != []
  {
    exists more :: Chain(Elements(items), Least(items), more, x) && Length(links) <= Length(more)
  }

  /** No chain to an output's end is longer than every chain to a start that logically follows it. */
  ghost predicate LaterChainsAreLonger(items: seq<Span>)
    requires items != []
  {
    forall s, t, links ::
      s in items && t in items && s.End() <= t.start && Chain(Elements(items), Least(items), links, s.End())
      ==> Reaches(items, t.start, links)
  }

  /** Where an output is placed, and where its physical end may be. */
  lemma PlacedOutput(items: seq<Span>, i: nat)
    requires Positive(items) && i < |items|
    ensures var bound := Bounds(items);
            && Proper(Elements(items), Least(items)) && Packs(Elements(items), Least(items), bound)
            && items[i].start in bound && Starts(items)[i] == bound[items[i].start]
            && items[i].End() in bound && Starts(items)[i] + items[i].plen <= bound[items[i].End()]
  {
    hide Bounds, Starts, Packs;
    BoundsPack(items);
    StartsAreEdges(items, i);
    assert items[i] in Elements(items) && IsEnd(Elements(items), items[i].End());
    var _ := EndOf(Elements(items), Least(items), Bounds(items), items[i].End());
  }

  lemma ClearChains(items: seq<Span>, s: Span, t: Span, links: seq<Link>)
    requires Positive(items) && s in items && t in items && s.End() <= t.start && FollowersClear(items)
    requires Chain(Elements(items), Least(items), links, s.End())
    ensures Reaches(items, t.start, links)
  {
    hide Bounds, Starts, Packs, Proper, Positive, Chain, Length, Least;
    var spans, origin, bound := Elements(items), Least(items), Bounds(items);
    var j :| 0 <= j < |items| && items[j] == t;
    PlacedOutput(items, j);
    ChainsAreNoLonger(spans, origin, bound, links, s.End());
    assert s in spans && IsEnd(spans, s.End());
    var r := EndOf(spans, origin, bound, s.End());
    var i :| 0 <= i < |items| && items[i] == r;
    PlacedOutput(items, i);
    var more := PlaceIsAChain(spans, origin, bound, t.start);
    assert Length(links) <= Length(more);
  }

  lemma ChainsClear(items: seq<Span>, i: nat, j: nat)
    requires Positive(items) && i < |items| && j < |items| && items[i].End() <= items[j].start
    requires items != [] && LaterChainsAreLonger(items)
    ensures Starts(items)[i] + items[i].plen <= Starts(items)[j]
  {
    hide Bounds, Starts, Packs, Proper, Positive, Elements, Chain, Length, Least;
    var spans, origin, bound := Elements(items), Least(items), Bounds(items);
    PlacedOutput(items, i);
    PlacedOutput(items, j);
    var links := PlaceIsAChain(spans, origin, bound, items[i].End());
    assert items[i] in items && items[j] in items && Reaches(items, items[j].start, links);
    var more :| Chain(spans, origin, more, items[j].start) && Length(links) <= Length(more);
    ChainsAreNoLonger(spans, origin, bound, more, items[j].start);
  }

  /** Exactly when outputs stay clear of those they follow, aligned or not, in terms of the layout alone. It is so on
      aligned layouts, where edges keep their order, and on unscaled ones. */
  lemma FollowersClearIff(items: seq<Span>)
    requires items != [] && Positive(items)
    ensures FollowersClear(items) <==> LaterChainsAreLonger(items)
  {
    hide Bounds, Starts, Positive, Elements, Chain, Length, Least, Reaches;
    if FollowersClear(items) {
      forall s, t, links | s in items && t in items && s.End() <= t.start && Chain(Elements(items), Least(items), links, s.End())
        ensures Reaches(items, t.start, links)
      {
        ClearChains(items, s, t, links);
      }
    }
    if LaterChainsAreLonger(items) {
      forall i, j | 0 <= i < |items| && 0 <= j < |items| && items[i].End() <= items[j].start
        ensures Starts(items)[i] + items[i].plen <= Starts(items)[j]
      {
        ChainsClear(items, i, j);
      }
    }
  }

  const STAGGERED: seq<Span> := [Span(0, 100, 200), Span(50, 100, 100), Span(150, 100, 100)]

  lemma StaggeredEdges(bound: map<int, int>)
    requires Packs(Elements(STAGGERED), 0, bound)
    ensures 0 in bound && bound[0] == 0 && 50 in bound && bound[50] == 50 && 150 in bound && bound[150] == 150
  {
    var spans := Elements(STAGGERED);
    assert spans == {STAGGERED[0], STAGGERED[1], STAGGERED[2]};
    hide Packs, Elements;
    EdgesAreBound(spans, 0, bound);
    assert STAGGERED[0] in spans && STAGGERED[1] in spans && STAGGERED[2] in spans;
    assert !IsEnd(spans, 0) && !IsEnd(spans, 50) && STAGGERED[1].End() == 150 && IsEnd(spans, 150);
    assert forall q :: IsEdge(spans, 0, q) && q < 50 ==> q == 0;
    assert IsEdge(spans, 0, 0) && IsEdge(spans, 0, 50);
    hide IsEnd, IsEdge;
    var _ := GapOf(spans, 0, bound, 0);
    var p := GapOf(spans, 0, bound, 50);
    var s := EndOf(spans, 0, bound, 150);
    assert s == STAGGERED[1];
  }

  /** A scaled output can need alignment: one half under it ends before it does physically, and one that starts at that
      end overlaps it. */
  lemma StaggeredColumnsOverlap()
    ensures var items := STAGGERED;
            && Positive(items)
            && items[0].End() <= items[2].start
            && Starts(items) == [0, 50, 150] && Starts(items)[0] + items[0].plen > Starts(items)[2]
  {
    hide Bounds, Starts, Packs, Elements;
    BoundsPack(STAGGERED);
    assert Least(STAGGERED) == 0;
    StaggeredEdges(Bounds(STAGGERED));
    StartsAreEdges(STAGGERED, 0);
    StartsAreEdges(STAGGERED, 1);
    StartsAreEdges(STAGGERED, 2);
  }
}
