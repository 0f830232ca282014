/** One axis of the screen layout: physical starts for outputs given by their logical spans. */
module PackAxis {
  /** An output on one axis: where it starts and how long it is logically, and how long it is physically. */
  datatype Span = Span(start: int, len: int, plen: int) {
    function End(): int {
      start + len
    }
  }

  // --- the packing, declared ---

  /** A logical coordinate that is an edge of some output; `origin` counts as a start. */
  ghost predicate IsEnd(spans: set<Span>, x: int) {
    exists s :: s in spans && s.End() == x
  }

  ghost predicate IsEdge(spans: set<Span>, origin: int, x: int) {
    x == origin || IsEnd(spans, x) || exists s :: s in spans && s.start == x
  }

  ghost predicate Proper(spans: set<Span>, origin: int) {
    forall s :: s in spans ==> origin <= s.start && s.len > 0
  }

  /** At an output's end: the furthest physical end of the outputs that end there. */
  ghost predicate EndPlaced(spans: set<Span>, bound: map<int, int>, x: int) {
    && (forall s :: s in spans && s.End() == x ==> s.start in bound && x in bound && bound[s.start] + s.plen <= bound[x])
    && (exists s :: s in spans && s.End() == x && s.start in bound && x in bound && bound[s.start] + s.plen == bound[x])
  }

  /** At any other edge: the gap since the edge before it, kept as wide as it is logically. */
  ghost predicate GapPlaced(bound: map<int, int>, origin: int, x: int)
    requires x in bound
  {
    if x == origin then bound[x] == 0
    else exists p :: p in bound && p < x && (forall q :: q in bound && q < x ==> q <= p) && bound[x] == bound[p] + (x - p)
  }

  /** `bound` packs the spans: it places every edge, each by its own rule. No order of the outputs is involved. */
  ghost predicate Packs(spans: set<Span>, origin: int, bound: map<int, int>) {
    && (forall x :: x in bound <==> IsEdge(spans, origin, x))
    && (forall x {:trigger EndPlaced(spans, bound, x)} {:trigger GapPlaced(bound, origin, x)} :: x in bound ==>
          if IsEnd(spans, x) then EndPlaced(spans, bound, x) else GapPlaced(bound, origin, x))
  }

  /** The output that places an end. */
  lemma EndOf(spans: set<Span>, origin: int, bound: map<int, int>, x: int) returns (s: Span)
    requires Packs(spans, origin, bound) && IsEnd(spans, x)
    ensures s in spans && s.End() == x && s.start in bound && x in bound && bound[s.start] + s.plen == bound[x]
    ensures forall r :: r in spans && r.End() == x ==> r.start in bound && bound[r.start] + r.plen <= bound[x]
  {
    assert IsEdge(spans, origin, x);
    assert EndPlaced(spans, bound, x);
    s :| s in spans && s.End() == x && s.start in bound && x in bound && bound[s.start] + s.plen == bound[x];
  }

  /** The edge that places any other, across a gap. */
  lemma GapOf(spans: set<Span>, origin: int, bound: map<int, int>, x: int) returns (p: int)
    requires Packs(spans, origin, bound) && x in bound && !IsEnd(spans, x)
    ensures x == origin ==> bound[x] == 0
    ensures x != origin ==> p in bound && p < x && (forall q :: q in bound && q < x ==> q <= p) && bound[x] == bound[p] + (x - p)
  {
    assert GapPlaced(bound, origin, x);
    if x != origin {
      p :| p in bound && p < x && (forall q :: q in bound && q < x ==> q <= p) && bound[x] == bound[p] + (x - p);
    } else {
      p := x;
    }
  }

  lemma EdgesAreBound(spans: set<Span>, origin: int, bound: map<int, int>)
    requires Packs(spans, origin, bound)
    ensures forall x :: x in bound <==> IsEdge(spans, origin, x)
  {
  }

  /** There is only one packing. */
  lemma {:induction false} PackingIsUnique(spans: set<Span>, origin: int, b1: map<int, int>, b2: map<int, int>, x: int)
    requires Proper(spans, origin) && Packs(spans, origin, b1) && Packs(spans, origin, b2) && x in b1
    ensures x in b2 && b1[x] == b2[x]
    decreases x - origin
  {
    hide Packs, IsEnd, IsEdge, Proper;
    EdgesAreBound(spans, origin, b1);
    EdgesAreBound(spans, origin, b2);
    EdgesFollowOrigin(spans, origin, x);
    if IsEnd(spans, x) {
      var s := EndOf(spans, origin, b1, x);
      var t := EndOf(spans, origin, b2, x);
      EndsFollowStarts(spans, origin, s);
      EndsFollowStarts(spans, origin, t);
      PackingIsUnique(spans, origin, b1, b2, s.start);
      PackingIsUnique(spans, origin, b1, b2, t.start);
    } else {
      var p := GapOf(spans, origin, b1, x);
      var r := GapOf(spans, origin, b2, x);
      if x != origin {
        EdgesFollowOrigin(spans, origin, p);
        PackingIsUnique(spans, origin, b1, b2, p);
      }
    }
  }

  lemma EndsFollowStarts(spans: set<Span>, origin: int, s: Span)
    requires Proper(spans, origin) && s in spans
    ensures origin <= s.start < s.End()
  {
  }

  lemma EdgesFollowOrigin(spans: set<Span>, origin: int, x: int)
    requires Proper(spans, origin) && IsEdge(spans, origin, x)
    ensures origin <= x && (IsEnd(spans, x) ==> origin < x)
  {
  }

  // --- the packing, computed ---

  predicate LastEdge(bound: map<int, int>, x: int, p: int) {
    p in bound && p <= x && forall q :: q in bound && q <= x ==> q <= p
  }

  /** The last edge placed at or before `x`. */
  lemma {:induction false} LastEdgeExists(bound: map<int, int>, x: int, q: int)
    requires q in bound && q <= x
    ensures exists p :: LastEdge(bound, x, p)
    decreases x - q
  {
    if r :| r in bound && q < r <= x {
      LastEdgeExists(bound, x, r);
    } else {
      assert LastEdge(bound, x, q);
    }
  }

  /** Where an output that starts at `x` goes, given the edges placed so far. */
  function PlaceAt(bound: map<int, int>, x: int): int {
    if x in bound then bound[x]
    else if exists q :: q in bound && q <= x then
      LastEdgeOf(bound, x);
      var p :| LastEdge(bound, x, p);
      bound[p] + (x - p)
    else 0
  }

  lemma LastEdgeOf(bound: map<int, int>, x: int)
    requires exists q :: q in bound && q <= x
    ensures exists p :: LastEdge(bound, x, p)
  {
    var q :| q in bound && q <= x;
    LastEdgeExists(bound, x, q);
  }

  /** The edges placed once one more output is: its start, and its end if that is further than before. */
  function Place(bound: map<int, int>, s: Span): map<int, int> {
    var p := PlaceAt(bound, s.start);
    var started := bound[s.start := p];
    started[s.End() := if s.End() in started && started[s.End()] > p + s.plen then started[s.End()] else p + s.plen]
  }

  /** An output no earlier than those placed so far joins the packing. */
  lemma PlaceKeepsPacking(spans: set<Span>, origin: int, bound: map<int, int>, s: Span)
    requires Proper(spans, origin) && Packs(spans, origin, bound)
    requires s.len > 0 && origin <= s.start && forall r :: r in spans ==> r.start <= s.start
    ensures Packs(spans + {s}, origin, Place(bound, s))
  {
    var all, after := spans + {s}, Place(bound, s);
    forall x ensures x in after <==> IsEdge(all, origin, x) {
      EdgesGrow(spans, s, origin, x);
    }
    forall x | x in after ensures if IsEnd(all, x) then EndPlaced(all, after, x) else GapPlaced(after, origin, x) {
      EdgesGrow(spans, s, origin, x);
      if x == s.End() {
        NewEndPlaced(spans, origin, bound, s);
      } else if IsEnd(all, x) {
        OldEndPlaced(spans, origin, bound, s, x);
      } else {
        GapStaysPlaced(spans, origin, bound, s, x);
      }
    }
  }

  lemma EdgesGrow(spans: set<Span>, s: Span, origin: int, x: int)
    ensures IsEnd(spans + {s}, x) <==> IsEnd(spans, x) || x == s.End()
    ensures IsEdge(spans + {s}, origin, x) <==> IsEdge(spans, origin, x) || x == s.End() || x == s.start
  {
    assert s in spans + {s};
    if IsEnd(spans, x) {
      var r :| r in spans && r.End() == x;
      assert r in spans + {s};
    }
    if r :| r in spans && r.start == x {
      assert r in spans + {s};
    }
  }

  /** Placing an output moves no other edge than its end, and that one only outwards. */
  lemma PlaceFrame(bound: map<int, int>, s: Span, x: int)
    requires s.len > 0
    ensures x in bound && x != s.End() ==> x in Place(bound, s) && Place(bound, s)[x] == bound[x]
    ensures s.start in Place(bound, s) && Place(bound, s)[s.start] == PlaceAt(bound, s.start)
    ensures Place(bound, s)[s.End()] >= PlaceAt(bound, s.start) + s.plen
    ensures s.End() in bound ==> Place(bound, s)[s.End()] >= bound[s.End()]
  {
  }

  lemma NewEndPlaced(spans: set<Span>, origin: int, bound: map<int, int>, s: Span)
    requires Proper(spans, origin) && Packs(spans, origin, bound)
    requires s.len > 0 && origin <= s.start && forall r :: r in spans ==> r.start <= s.start
    ensures EndPlaced(spans + {s}, Place(bound, s), s.End())
  {
    hide PlaceAt;
    var all, after, x := spans + {s}, Place(bound, s), s.End();
    PlaceFrame(bound, s, s.start);
    assert s in all;
    if x in bound {
      OnlyEndsAhead(spans, origin, s, x);
      var t := EndOf(spans, origin, bound, x);
      assert t in all;
      PlaceFrame(bound, s, t.start);
    }
    forall r | r in all && r.End() == x
      ensures r.start in after && after[r.start] + r.plen <= after[x]
    {
      if r != s {
        assert IsEnd(spans, x);
        PlaceFrame(bound, s, r.start);
      }
    }
  }

  /** An edge past the last start is an end. */
  lemma OnlyEndsAhead(spans: set<Span>, origin: int, s: Span, x: int)
    requires origin <= s.start && (forall r :: r in spans ==> r.start <= s.start)
    requires IsEdge(spans, origin, x) && s.start < x
    ensures IsEnd(spans, x)
  {
  }

  lemma OldEndPlaced(spans: set<Span>, origin: int, bound: map<int, int>, s: Span, x: int)
    requires Proper(spans, origin) && Packs(spans, origin, bound)
    requires s.len > 0 && origin <= s.start && forall r :: r in spans ==> r.start <= s.start
    requires x != s.End() && IsEnd(spans, x)
    ensures EndPlaced(spans + {s}, Place(bound, s), x)
  {
    hide PlaceAt, Place, Packs, IsEnd, Proper;
    var all, after := spans + {s}, Place(bound, s);
    var t := EndOf(spans, origin, bound, x);
    assert t in all;
    PlaceFrame(bound, s, t.start);
    PlaceFrame(bound, s, x);
    forall r | r in all && r.End() == x
      ensures r.start in after && x in after && after[r.start] + r.plen <= after[x]
    {
      assert r in spans;
      PlaceFrame(bound, s, r.start);
    }
  }

  lemma GapStaysPlaced(spans: set<Span>, origin: int, bound: map<int, int>, s: Span, x: int)
    requires Proper(spans, origin) && Packs(spans, origin, bound)
    requires s.len > 0 && origin <= s.start && forall r :: r in spans ==> r.start <= s.start
    requires x in Place(bound, s) && x != s.End() && !IsEnd(spans, x)
    ensures GapPlaced(Place(bound, s), origin, x)
  {
    hide Packs, IsEnd, Proper, PlaceAt;
    var after := Place(bound, s);
    EdgesAreBound(spans, origin, bound);
    PlaceFrame(bound, s, x);
    assert IsEdge(spans, origin, origin);
    if x in bound {
      if s.start < x {
        OnlyEndsAhead(spans, origin, s, x);
      }
      hide IsEdge;
      var p := GapOf(spans, origin, bound, x);
      if x != origin {
        PlaceFrame(bound, s, p);
        assert forall q :: q in after && q < x ==> q in bound;
      }
    } else {
      hide IsEdge;
      var p := PlaceFromLast(bound, x, origin);
      PlaceFrame(bound, s, p);
      assert forall q :: q in after && q < x ==> q in bound;
    }
  }

  lemma PlaceFromLast(bound: map<int, int>, x: int, origin: int) returns (p: int)
    requires origin in bound && origin <= x && x !in bound
    ensures p in bound && p < x && (forall q :: q in bound && q < x ==> q <= p) && PlaceAt(bound, x) == bound[p] + (x - p)
  {
    LastEdgeOf(bound, x);
    p :| LastEdge(bound, x, p) && PlaceAt(bound, x) == bound[p] + (x - p);
  }

  // --- sorting, and the loop ---

  predicate Within(items: seq<Span>, order: seq<nat>) {
    forall j :: 0 <= j < |order| ==> order[j] < |items|
  }

  /** The outputs are named by their index; equal starts keep their listing order. */
  function Insert(items: seq<Span>, order: seq<nat>, i: nat): seq<nat>
    requires i < |items| && Within(items, order)
  {
    if order != [] && items[order[|order| - 1]].start > items[i].start
    then Insert(items, order[..|order| - 1], i) + [order[|order| - 1]]
    else order + [i]
  }

  ghost predicate Sorted(items: seq<Span>, order: seq<nat>) {
    && Within(items, order)
    && (forall j, k :: 0 <= j < k < |order| ==> items[order[j]].start <= items[order[k]].start)
  }

  lemma {:induction false} InsertPermutes(items: seq<Span>, order: seq<nat>, i: nat)
    requires i < |items| && Within(items, order)
    ensures multiset(Insert(items, order, i)) == multiset(order + [i])
    ensures forall k :: 0 <= k < |Insert(items, order, i)| ==> Insert(items, order, i)[k] == i || Insert(items, order, i)[k] in order
  {
    if order != [] && items[order[|order| - 1]].start > items[i].start {
      var init, last := order[..|order| - 1], order[|order| - 1];
      InsertPermutes(items, init, i);
      assert order == init + [last];
    }
  }

  lemma {:induction false} InsertSorts(items: seq<Span>, order: seq<nat>, i: nat)
    requires i < |items| && Sorted(items, order)
    ensures Sorted(items, Insert(items, order, i))
  {
    if order != [] && items[order[|order| - 1]].start > items[i].start {
      var init, last := order[..|order| - 1], order[|order| - 1];
      InsertSorts(items, init, i);
      InsertPermutes(items, init, i);
      var inner := Insert(items, init, i);
      assert Insert(items, order, i) == inner + [last];
      hide Insert;
      forall k | 0 <= k < |inner| ensures items[inner[k]].start <= items[last].start {
        if inner[k] != i {
          var j :| 0 <= j < |init| && init[j] == inner[k];
          assert order[j] == init[j];
        }
      }
      SortedSnoc(items, inner, last);
    } else {
      forall j | 0 <= j < |order| ensures items[order[j]].start <= items[i].start {
        assert items[order[j]].start <= items[order[|order| - 1]].start;
      }
      assert Insert(items, order, i) == order + [i];
      hide Insert;
      SortedSnoc(items, order, i);
    }
  }

  lemma SortedSnoc(items: seq<Span>, order: seq<nat>, last: nat)
    requires Sorted(items, order) && last < |items|
    requires forall k :: 0 <= k < |order| ==> items[order[k]].start <= items[last].start
    ensures Sorted(items, order + [last])
  {
  }

  function Order(items: seq<Span>, n: nat): (order: seq<nat>)
    requires n <= |items|
    ensures Sorted(items, order)
  {
    if n == 0 then [] else
      InsertSorts(items, Order(items, n - 1), n - 1);
      Insert(items, Order(items, n - 1), n - 1)
  }

  lemma OrderNext(items: seq<Span>, n: nat)
    requires 0 < n <= |items|
    ensures Within(items, Order(items, n)) && |Order(items, n)| == |Order(items, n - 1)| + 1
    ensures forall i: nat :: i in Order(items, n) <==> i in Order(items, n - 1) || i == n - 1
  {
    hide Insert;
    InsertPermutes(items, Order(items, n - 1), n - 1);
    hide Sorted;
    assert Order(items, n) == Insert(items, Order(items, n - 1), n - 1);
    hide Order;
    OrderGrows(Order(items, n - 1), Order(items, n), n - 1);
  }

  /** The order names every output once. */
  lemma {:induction false} OrderNamesAll(items: seq<Span>, n: nat)
    requires n <= |items|
    ensures Within(items, Order(items, n)) && |Order(items, n)| == n
    ensures forall i: nat :: i < n <==> i in Order(items, n)
  {
    if n > 0 {
      hide Order, Within, Sorted;
      OrderNext(items, n);
      OrderNamesAll(items, n - 1);
    }
  }

  lemma OrderGrows(rest: seq<nat>, order: seq<nat>, last: nat)
    requires multiset(order) == multiset(rest + [last])
    ensures |order| == |rest| + 1 && forall i: nat :: i in order <==> i in rest || i == last
  {
    assert |multiset(order)| == |order| && |multiset(rest + [last])| == |rest| + 1;
    forall i: nat ensures i in order <==> i in rest || i == last {
      assert i in order <==> i in multiset(order);
      assert i in multiset(rest + [last]) <==> i in rest + [last];
    }
  }

  function Least(items: seq<Span>): (m: int)
    requires items != []
    ensures forall s :: s in items ==> m <= s.start
    ensures exists s :: s in items && s.start == m
  {
    if |items| == 1 then items[0].start else
      var rest := Least(items[1..]);
      assert items == [items[0]] + items[1..];
      if items[0].start < rest then items[0].start else rest
  }

  predicate Positive(items: seq<Span>) {
    forall s :: s in items ==> s.len > 0
  }

  function Placed(items: seq<Span>, order: seq<nat>): map<int, int>
    requires items != [] && Within(items, order)
  {
    if order == [] then map[Least(items) := 0]
    else Place(Placed(items, order[..|order| - 1]), items[order[|order| - 1]])
  }

  ghost function Spans(items: seq<Span>, order: seq<nat>): set<Span>
    requires Within(items, order)
  {
    set j | 0 <= j < |order| :: items[order[j]]
  }

  ghost function Elements(items: seq<Span>): set<Span> {
    set s | s in items
  }

  /** Outputs placed in order of their starts are packed. */
  lemma SpansSnoc(items: seq<Span>, init: seq<nat>, last: nat)
    requires Sorted(items, init + [last])
    ensures Sorted(items, init) && last < |items|
    ensures Spans(items, init + [last]) == Spans(items, init) + {items[last]}
    ensures forall r :: r in Spans(items, init) ==> r.start <= items[last].start
  {
    var order := init + [last];
    assert order[|init|] == last && forall k :: 0 <= k < |init| ==> order[k] == init[k];
    assert Within(items, init);
    forall r | r in Spans(items, init) ensures r.start <= items[last].start && r in Spans(items, order) {
      var k :| 0 <= k < |init| && items[init[k]] == r;
      assert items[order[k]].start <= items[order[|init|]].start;
    }
    assert items[order[|init|]] == items[last];
  }

  lemma PlacedNext(items: seq<Span>, init: seq<nat>, last: nat)
    requires items != [] && Positive(items) && Sorted(items, init + [last])
    requires Sorted(items, init) && Packs(Spans(items, init), Least(items), Placed(items, init))
    requires Proper(Spans(items, init), Least(items))
    ensures Proper(Spans(items, init + [last]), Least(items))
    ensures Packs(Spans(items, init + [last]), Least(items), Placed(items, init + [last]))
  {
    SpansSnoc(items, init, last);
    assert (init + [last])[..|init|] == init;
    assert Placed(items, init + [last]) == Place(Placed(items, init), items[last]);
    assert items[last] in items;
    hide Sorted, Spans, Packs, Placed;
    PlaceKeepsPacking(Spans(items, init), Least(items), Placed(items, init), items[last]);
  }

  lemma {:induction false} PlacedPacks(items: seq<Span>, order: seq<nat>)
    requires items != [] && Positive(items) && Sorted(items, order)
    ensures Proper(Spans(items, order), Least(items))
    ensures Packs(Spans(items, order), Least(items), Placed(items, order))
  {
    if order != [] {
      var init, last := order[..|order| - 1], order[|order| - 1];
      assert order == init + [last];
      SpansSnoc(items, init, last);
      hide Sorted, Spans, Packs, Placed, Proper, Positive, Least;
      PlacedPacks(items, init);
      PlacedNext(items, init, last);
    }
  }

  function Bounds(items: seq<Span>): map<int, int>
    requires items != []
  {
    Placed(items, Order(items, |items|))
  }

  lemma BoundsPack(items: seq<Span>)
    requires items != [] && Positive(items)
    ensures Proper(Elements(items), Least(items)) && Packs(Elements(items), Least(items), Bounds(items))
    ensures forall s :: s in items ==> s.start in Bounds(items)
  {
    var order := Order(items, |items|);
    OrderNamesAll(items, |items|);
    PlacedPacks(items, order);
    assert Spans(items, order) == Elements(items) by {
      forall s ensures s in Spans(items, order) <==> s in Elements(items) {
        if s in items {
          var k :| 0 <= k < |items| && items[k] == s;
          assert k in order;
        }
      }
    }
    forall s | s in items ensures s.start in Bounds(items) {
      assert s in Elements(items);
    }
  }

  /** The starts assigned while the outputs are placed one by one. */
  function Assigning(items: seq<Span>, order: seq<nat>): (out: seq<int>)
    requires items != [] && Within(items, order)
    ensures |out| == |items|
  {
    if order == [] then seq(|items|, i => 0) else
      var init, i := order[..|order| - 1], order[|order| - 1];
      Assigning(items, init)[i := PlaceAt(Placed(items, init), items[i].start)]
  }

  /** Each output's physical start. */
  function Starts(items: seq<Span>): (out: seq<int>)
    ensures |out| == |items|
  {
    if items == [] then [] else Assigning(items, Order(items, |items|))
  }

  /** Repacks one axis. */
  method Pack(items: seq<Span>) returns (out: seq<int>)
    ensures out == Starts(items)
  {
    hide Place, PlaceAt, Sorted, Order, Least;
    out := seq(|items|, i => 0);
    if items == [] {
      return;
    }
    var order := Order(items, |items|);
    OrderNamesAll(items, |items|);
    var bound := map[Least(items) := 0];
    for k := 0 to |order|
      invariant bound == Placed(items, order[..k]) && out == Assigning(items, order[..k])
    {
      var i := order[k];
      assert order[..k + 1][..k] == order[..k];
      out := out[i := PlaceAt(bound, items[i].start)];
      bound := Place(bound, items[i]);
    }
    assert order[..|order|] == order;
  }

  /** The outputs placed so far have the starts the map of edges gives them. */
  ghost predicate Assigned(items: seq<Span>, visited: seq<nat>)
    requires items != [] && Within(items, visited)
  {
    forall i :: i in visited ==>
      items[i].start in Placed(items, visited) && Assigning(items, visited)[i] == Placed(items, visited)[items[i].start]
  }

  lemma {:induction false} AssigningMatchesEdges(items: seq<Span>, order: seq<nat>)
    requires items != [] && Positive(items) && Sorted(items, order)
    ensures Assigned(items, order)
  {
    hide Place, PlaceAt;
    if order != [] {
      var init, i := order[..|order| - 1], order[|order| - 1];
      var bound := Placed(items, init);
      AssigningMatchesEdges(items, init);
      PlaceIsRepeatable(bound, items[i].start);
      forall k | k in order
        ensures items[k].start in Place(bound, items[i])
        ensures Assigning(items, order)[k] == Place(bound, items[i])[items[k].start]
      {
        var j :| 0 <= j < |order| && order[j] == k;
        assert items[order[j]].start <= items[order[|order| - 1]].start;
        assert k != i ==> init[j] == k;
        PlaceFrame(bound, items[i], items[k].start);
      }
    }
  }

  /** An output's physical start is where its logical start is placed. */
  lemma StartsAreEdges(items: seq<Span>, i: nat)
    requires Positive(items) && i < |items|
    ensures items[i].start in Bounds(items) && Starts(items)[i] == Bounds(items)[items[i].start]
  {
    hide Assigning, Placed, Order;
    OrderNamesAll(items, |items|);
    AssigningMatchesEdges(items, Order(items, |items|));
  }

  lemma PlaceIsRepeatable(bound: map<int, int>, x: int)
    ensures x in bound ==> PlaceAt(bound, x) == bound[x]
  {
  }
}
