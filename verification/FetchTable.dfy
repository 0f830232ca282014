/** The conversions one X connection has asked selection owners for: which are out,
    which are arriving in chunks, and what becomes of each. */
module FetchTable {
  import opened BridgeTypes
  import MapSum

  const FETCH_TIMEOUT: Millis := 10_000
  const MAX_FETCHES := 32
  const MAX_SELECTION_BYTES := 0x400_0000

  datatype Fetch = Fetch(kind: Sel, selection: u32, property: u32, owner: u32, time: u32, since: Millis)

  datatype IncrRecv = IncrRecv(fetch: Fetch, data: Bytes, progressAt: Millis)

  datatype IncrStep = More(property: u32) | Done(fetch: Fetch, data: Bytes) | TooBig(fetch: Fetch)

  datatype Table = Table(fetches: seq<Fetch>, incr: map<u32, IncrRecv>)

  /** What the property named by a `SelectionNotify` was found to hold. */
  datatype Stored = Nothing | Value(data: Bytes) | Incr

  /** A fetch that has come to its end, with the value or with none. */
  datatype Resolution = Resolution(fetch: Fetch, data: Option<Bytes>)

  /** What the table is searched for: the fetches on a property, or those out of time. */
  datatype Test = OnProperty(property: u32) | OutOfTime(now: Millis) {
    predicate Holds(f: Fetch) {
      match this
      case OnProperty(p) => f.property == p
      case OutOfTime(now) => TimedOut(now, f.since)
    }
  }

  /** The fetches that pass (or with `want` false, fail) the test, in order. */
  function Keep(s: seq<Fetch>, t: Test, want: bool): (r: seq<Fetch>)
    ensures |r| <= |s|
  {
    if s == [] then [] else
      var rest := Keep(s[..|s| - 1], t, want);
      if t.Holds(s[|s| - 1]) == want then rest + [s[|s| - 1]] else rest
  }

  lemma {:induction false} KeepMembers(s: seq<Fetch>, t: Test, want: bool)
    ensures forall f :: f in Keep(s, t, want) <==> f in s && t.Holds(f) == want
  {
    if s != [] {
      KeepMembers(s[..|s| - 1], t, want);
      assert s == s[..|s| - 1] + [s[|s| - 1]];
    }
  }

  lemma {:induction false} KeepSplits(s: seq<Fetch>, t: Test)
    ensures multiset(s) == multiset(Keep(s, t, true)) + multiset(Keep(s, t, false))
  {
    if s != [] {
      KeepSplits(s[..|s| - 1], t);
      assert s == s[..|s| - 1] + [s[|s| - 1]];
    }
  }

  lemma {:induction false} KeepAll(s: seq<Fetch>, t: Test, want: bool)
    requires forall f :: f in s ==> t.Holds(f) == want
    ensures Keep(s, t, want) == s
  {
    if s != [] {
      KeepAll(s[..|s| - 1], t, want);
    }
  }

  lemma KeepNext(s: seq<Fetch>, i: nat, t: Test, want: bool)
    requires i < |s|
    ensures Keep(s[..i + 1], t, want)
         == Keep(s[..i], t, want) + (if t.Holds(s[i]) == want then [s[i]] else [])
  {
    assert s[..i + 1][..i] == s[..i];
  }

  /** Properties in strictly different places differ. */
  predicate Distinct(s: seq<Fetch>) {
    forall i, j :: 0 <= i < j < |s| ==> s[i].property != s[j].property
  }

  lemma {:induction false} KeepDistinct(s: seq<Fetch>, t: Test, want: bool)
    requires Distinct(s)
    ensures Distinct(Keep(s, t, want))
  {
    if s != [] {
      KeepDistinct(s[..|s| - 1], t, want);
      KeepMembers(s[..|s| - 1], t, want);
      forall f | f in Keep(s[..|s| - 1], t, want) ensures f.property != s[|s| - 1].property {
        var i :| 0 <= i < |s| - 1 && s[..|s| - 1][i] == f;
      }
    }
  }

  predicate TimedOut(now: Millis, since: Millis) {
    now - since >= FETCH_TIMEOUT
  }

  /** The place of the fetch a `SelectionNotify` answers, or the length if none. */
  function AnsweredAt(s: seq<Fetch>, selection: u32, property: u32): (i: nat)
    ensures i <= |s|
    ensures i < |s| ==> Answers(s[i], selection, property)
    ensures forall j :: 0 <= j < i ==> !Answers(s[j], selection, property)
  {
    if s == [] then 0
    else if Answers(s[0], selection, property) then 0
    else 1 + AnsweredAt(s[1..], selection, property)
  }

  predicate Answers(f: Fetch, selection: u32, property: u32) {
    f.selection == selection && (property == 0 || f.property == property)
  }

  function RemoveAt<T>(s: seq<T>, i: nat): seq<T>
    requires i < |s|
  {
    s[..i] + s[i + 1..]
  }

  // --- what each operation makes of the table ---

  function ReceivingOn(incr: map<u32, IncrRecv>, property: u32): seq<Fetch> {
    if property in incr then [incr[property].fetch] else []
  }

  function Overflow(n: nat): nat {
    if n >= MAX_FETCHES then n - MAX_FETCHES + 1 else 0
  }

  function Begin(t: Table, f: Fetch): (Table, seq<Fetch>) {
    var kept := Keep(t.fetches, OnProperty(f.property), false);
    var same := Keep(t.fetches, OnProperty(f.property), true);
    var over := Overflow(|kept|);
    (Table(kept[over..] + [f], t.incr - {f.property}),
     ReceivingOn(t.incr, f.property) + same + kept[..over])
  }

  function BeginIncr(t: Table, f: Fetch, now: Millis): Table {
    t.(incr := t.incr[f.property := IncrRecv(f, [], now)])
  }

  function Push(t: Table, property: u32, chunk: Bytes, now: Millis): (Table, IncrStep)
    requires property in t.incr
  {
    var r := t.incr[property];
    if chunk == [] then (t.(incr := t.incr - {property}), Done(r.fetch, r.data))
    else if |r.data| + |chunk| > MAX_SELECTION_BYTES then (t.(incr := t.incr - {property}), TooBig(r.fetch))
    else (t.(incr := t.incr[property := IncrRecv(r.fetch, r.data + chunk, now)]), More(property))
  }

  /** A `SelectionNotify` for our window: the fetch it answers is resolved, or goes on in chunks. */
  function Answer(t: Table, selection: u32, property: u32, stored: Stored, now: Millis)
    : (Table, seq<Resolution>)
  {
    var at := AnsweredAt(t.fetches, selection, property);
    if at == |t.fetches| then (t, []) else
      var f := t.fetches[at];
      var rest := t.(fetches := RemoveAt(t.fetches, at));
      if property != f.property then (rest, [Resolution(f, None)])
      else match stored
        case Nothing => (rest, [Resolution(f, None)])
        case Value(data) => (rest, [Resolution(f, Some(data))])
        case Incr => (BeginIncr(rest, f, now), [])
  }

  function StalledProperties(incr: map<u32, IncrRecv>, now: Millis): set<u32> {
    set p | p in incr && TimedOut(now, incr[p].progressAt)
  }

  function Unexpired(t: Table, now: Millis): Table {
    Table(Keep(t.fetches, OutOfTime(now), false), t.incr - StalledProperties(t.incr, now))
  }

  /** `out` is what a sweep hands back: expired fetches in order, then stalled receives in any. */
  ghost predicate Expired(t: Table, now: Millis, out: seq<Fetch>) {
    var timedOut := Keep(t.fetches, OutOfTime(now), true);
    && timedOut <= out
    && multiset(out[|timedOut|..]) == Receiving(t.incr) - Receiving(t.incr - StalledProperties(t.incr, now))
  }

  // --- where the live fetches are ---

  ghost function Cells(incr: map<u32, IncrRecv>): map<u32, multiset<Fetch>> {
    map p | p in incr :: multiset{incr[p].fetch}
  }

  ghost function Receiving(incr: map<u32, IncrRecv>): multiset<Fetch> {
    MapSum.Sum(Cells(incr))
  }

  ghost function Live(t: Table): multiset<Fetch> {
    multiset(t.fetches) + Receiving(t.incr)
  }

  lemma NothingReceiving()
    ensures Receiving(map[]) == multiset{}
  {
    assert Cells(map[]) == map[];
  }

  lemma ReceivingWithout(incr: map<u32, IncrRecv>, p: u32)
    ensures p in incr ==> Receiving(incr) == Receiving(incr - {p}) + multiset{incr[p].fetch}
    ensures p !in incr ==> incr - {p} == incr
  {
    hide MapSum.Sum;
    assert Cells(incr - {p}) == Cells(incr) - {p};
    if p in incr {
      MapSum.Without(Cells(incr), p);
    } else {
      assert incr - {p} == incr;
    }
  }

  lemma ReceivingWith(incr: map<u32, IncrRecv>, p: u32, r: IncrRecv)
    ensures Receiving(incr[p := r]) == Receiving(incr - {p}) + multiset{r.fetch}
  {
    hide MapSum.Sum;
    ReceivingWithout(incr[p := r], p);
    assert incr[p := r] - {p} == incr - {p};
  }

  lemma {:induction false} ReceivingLess(incr: map<u32, IncrRecv>, ps: set<u32>)
    ensures Receiving(incr - ps) <= Receiving(incr)
    decreases |ps|
  {
    hide Receiving;
    if ps == {} {
      assert incr - ps == incr;
    } else {
      var p :| p in ps;
      ReceivingLess(incr, ps - {p});
      ReceivingWithout(incr - (ps - {p}), p);
      assert incr - (ps - {p}) - {p} == incr - ps;
    }
  }

  /** One property, one transfer: no two live fetches share one, and the table is bounded. */
  predicate WellFormed(t: Table) {
    && |t.fetches| <= MAX_FETCHES
    && Distinct(t.fetches)
    && (forall f :: f in t.fetches ==> f.property !in t.incr)
    && (forall p :: p in t.incr ==> t.incr[p].fetch.property == p && |t.incr[p].data| <= MAX_SELECTION_BYTES)
  }

  /** Receives neither start nor gain data in the step from one table to the other. */
  predicate OnlyEnds(before: map<u32, IncrRecv>, after: map<u32, IncrRecv>) {
    forall p :: p in after ==> p in before && after[p] == before[p]
  }

  lemma BegunAreKept(t: Table, f: Fetch, i: nat)
    requires i < |Begin(t, f).0.fetches| - 1
    ensures var kept := Keep(t.fetches, OnProperty(f.property), false);
            i + Overflow(|kept|) < |kept| && Begin(t, f).0.fetches[i] == kept[i + Overflow(|kept|)]
  {
    hide Keep;
  }

  lemma BeginKeepsForm(t: Table, f: Fetch)
    requires WellFormed(t)
    ensures var r := Begin(t, f).0;
            WellFormed(r) && f in r.fetches && OnlyEnds(t.incr, r.incr)
  {
    var kept := Keep(t.fetches, OnProperty(f.property), false);
    var r := Begin(t, f).0;
    KeepDistinct(t.fetches, OnProperty(f.property), false);
    KeepMembers(t.fetches, OnProperty(f.property), false);
    hide Keep;
    assert f == r.fetches[|r.fetches| - 1] && |r.fetches| <= MAX_FETCHES && r.incr == t.incr - {f.property};
    hide Begin;
    forall i | 0 <= i < |r.fetches| - 1
      ensures r.fetches[i] in t.fetches && r.fetches[i].property != f.property
      ensures i + Overflow(|kept|) < |kept| && r.fetches[i] == kept[i + Overflow(|kept|)]
    {
      BegunAreKept(t, f, i);
      assert kept[i + Overflow(|kept|)] in kept;
    }
  }

  lemma BeginKeeps(t: Table, f: Fetch)
    ensures var (r, displaced) := Begin(t, f);
            Live(r) + multiset(displaced) == Live(t) + multiset{f}
  {
    hide Receiving, Keep;
    var kept := Keep(t.fetches, OnProperty(f.property), false);
    var over := Overflow(|kept|);
    KeepSplits(t.fetches, OnProperty(f.property));
    assert kept == kept[..over] + kept[over..];
    ReceivingWithout(t.incr, f.property);
  }

  lemma PushKeeps(t: Table, property: u32, chunk: Bytes, now: Millis)
    requires WellFormed(t) && property in t.incr
    ensures var (r, step) := Push(t, property, chunk, now);
            && WellFormed(r)
            && Live(t) == Live(r) + (if step.More? then multiset{} else multiset{step.fetch})
            && (forall p :: p in r.incr && p != property ==> p in t.incr && r.incr[p] == t.incr[p])
  {
    hide Receiving;
    ReceivingWithout(t.incr, property);
    var r := t.incr[property];
    ReceivingWith(t.incr, property, IncrRecv(r.fetch, r.data + chunk, now));
  }

  /** What becomes of the chunks of one receive, in turn: the value handed back, if one is. */
  function PushAll(t: Table, property: u32, chunks: seq<Bytes>, now: Millis): Option<Bytes>
    requires property in t.incr
    decreases |chunks|
  {
    if chunks == [] then None else
      var (r, step) := Push(t, property, chunks[0], now);
      match step
      case More(_) => PushAll(r, property, chunks[1..], now)
      case Done(_, data) => Some(data)
      case TooBig(_) => None
  }

  /** Chunks, ended by an empty one, come back as one value exactly if it fits the cap, and then as what was gathered
      before and all of them, in order. */
  lemma {:induction false} ChunksComeBackWhole(t: Table, property: u32, chunks: seq<Bytes>, now: Millis)
    requires WellFormed(t) && property in t.incr && forall c :: c in chunks ==> c != []
    ensures var whole := t.incr[property].data + Concat(chunks);
            PushAll(t, property, chunks + [[]], now) == if |whole| <= MAX_SELECTION_BYTES then Some(whole) else None
    decreases |chunks|
  {
    if chunks != [] {
      assert (chunks + [[]])[0] == chunks[0] && (chunks + [[]])[1..] == chunks[1..] + [[]];
      var data := t.incr[property].data;
      assert data + (chunks[0] + Concat(chunks[1..])) == data + chunks[0] + Concat(chunks[1..]);
      assert chunks[0] in chunks && chunks[0] != [];
      if |data| + |chunks[0]| <= MAX_SELECTION_BYTES {
        var r := Push(t, property, chunks[0], now).0;
        PushKeeps(t, property, chunks[0], now);
        assert forall c :: c in chunks[1..] ==> c in chunks;
        ChunksComeBackWhole(r, property, chunks[1..], now);
      } else {
        assert |data + Concat(chunks)| >= |data| + |chunks[0]|;
      }
    } else {
      assert (chunks + [[]])[0] == [] && t.incr[property].data + Concat(chunks) == t.incr[property].data;
    }
  }

  function FetchesOf(rs: seq<Resolution>): seq<Fetch> {
    seq(|rs|, i requires 0 <= i < |rs| => rs[i].fetch)
  }

  lemma RemovedOthers(s: seq<Fetch>, at: nat, g: Fetch)
    requires Distinct(s) && at < |s| && g in RemoveAt(s, at)
    ensures g in s && g.property != s[at].property
  {
    var rest := RemoveAt(s, at);
    var j :| 0 <= j < |rest| && rest[j] == g;
    assert g == s[if j < at then j else j + 1];
  }

  lemma RemovedDistinct(s: seq<Fetch>, at: nat)
    requires Distinct(s) && at < |s|
    ensures Distinct(RemoveAt(s, at)) && multiset(s) == multiset(RemoveAt(s, at)) + multiset{s[at]}
  {
    assert s == s[..at] + [s[at]] + s[at + 1..];
  }

  lemma RemoveKeeps(t: Table, at: nat)
    requires WellFormed(t) && at < |t.fetches|
    ensures var rest := RemoveAt(t.fetches, at);
            && WellFormed(t.(fetches := rest))
            && multiset(t.fetches) == multiset(rest) + multiset{t.fetches[at]}
            && (forall g :: g in rest ==> g.property != t.fetches[at].property)
  {
    RemovedDistinct(t.fetches, at);
    assert |RemoveAt(t.fetches, at)| < |t.fetches|;
    hide RemoveAt, Distinct;
    forall g | g in RemoveAt(t.fetches, at) ensures g in t.fetches && g.property != t.fetches[at].property {
      RemovedOthers(t.fetches, at, g);
    }
  }

  /** A receive the answer starts is new on its property and has nothing yet. */
  lemma AnswerKeepsForm(t: Table, selection: u32, property: u32, stored: Stored, now: Millis)
    requires WellFormed(t)
    ensures var (r, out) := Answer(t, selection, property, stored, now);
            && WellFormed(r)
            && |out| <= 1
            && (forall p :: p in r.incr && p in t.incr ==> r.incr[p] == t.incr[p])
            && (forall p :: p in r.incr && p !in t.incr ==> r.incr[p].data == [])
  {
    var at := AnsweredAt(t.fetches, selection, property);
    if at < |t.fetches| {
      RemoveKeeps(t, at);
      assert t.fetches[at] in t.fetches;
      hide AnsweredAt, RemoveAt;
    }
  }

  lemma AnswerKeeps(t: Table, selection: u32, property: u32, stored: Stored, now: Millis)
    requires WellFormed(t)
    ensures var (r, out) := Answer(t, selection, property, stored, now);
            Live(t) == Live(r) + multiset(FetchesOf(out))
  {
    hide Receiving;
    var at := AnsweredAt(t.fetches, selection, property);
    if at < |t.fetches| {
      RemoveKeeps(t, at);
      var f := t.fetches[at];
      assert f in t.fetches;
      assert t.incr - {f.property} == t.incr;
      ReceivingWith(t.incr, f.property, IncrRecv(f, [], now));
      hide AnsweredAt, RemoveAt, WellFormed;
      assert FetchesOf([Resolution(f, None)]) == [f];
      assert stored.Value? ==> FetchesOf([Resolution(f, Some(stored.data))]) == [f];
    }
  }

  lemma UnexpiredForm(t: Table, now: Millis)
    requires WellFormed(t)
    ensures WellFormed(Unexpired(t, now)) && OnlyEnds(t.incr, Unexpired(t, now).incr)
  {
    KeepDistinct(t.fetches, OutOfTime(now), false);
    KeepMembers(t.fetches, OutOfTime(now), false);
    hide Keep, StalledProperties;
  }

  /** What is dropped of the two parts of a table adds up to what is dropped of the whole. */
  lemma DroppedAddsUp<T>(all: multiset<T>, kept: multiset<T>, gone: multiset<T>, on: multiset<T>, rest: multiset<T>)
    requires all == gone + kept && rest <= on
    ensures all + on == kept + rest + (gone + (on - rest))
  {
  }

  lemma PrefixSplits<T>(all: seq<T>, first: seq<T>)
    requires first <= all
    ensures multiset(all) == multiset(first) + multiset(all[|first|..])
  {
    assert all == first + all[|first|..];
  }

  lemma UnexpiredKeeps(t: Table, now: Millis, out: seq<Fetch>)
    requires WellFormed(t) && Expired(t, now, out)
    ensures WellFormed(Unexpired(t, now))
    ensures OnlyEnds(t.incr, Unexpired(t, now).incr)
    ensures Live(t) == Live(Unexpired(t, now)) + multiset(out)
  {
    hide Receiving, WellFormed, OnlyEnds, Keep, StalledProperties;
    UnexpiredForm(t, now);
    KeepSplits(t.fetches, OutOfTime(now));
    ReceivingLess(t.incr, StalledProperties(t.incr, now));
    PrefixSplits(out, Keep(t.fetches, OutOfTime(now), true));
    DroppedAddsUp(multiset(t.fetches), multiset(Keep(t.fetches, OutOfTime(now), false)),
                  multiset(Keep(t.fetches, OutOfTime(now), true)), Receiving(t.incr), Receiving(Unexpired(t, now).incr));
  }

  // --- whole lives of a connection ---

  datatype Event =
    | Began(fetch: Fetch)
    | Notified(selection: u32, property: u32, stored: Stored, at: Millis)
    | Chunk(property: u32, chunk: Bytes, at: Millis)
    | Swept(at: Millis, out: seq<Fetch>)

  /** A chunked value as handed on, beside the chunks that came for it, in the order they came. */
  datatype Assembled = Assembled(fetch: Fetch, data: Bytes, chunks: seq<Bytes>)

  datatype History = History(
    table: Table,
    begun: seq<Fetch>,
    resolved: seq<Fetch>,
    chunks: map<u32, seq<Bytes>>,
    assembled: seq<Assembled>)

  const FRESH := History(Table([], map[]), [], [], map[], [])

  ghost predicate Possible(h: History, e: Event) {
    e.Swept? ==> Expired(h.table, e.at, e.out)
  }

  function Step(h: History, e: Event): History {
    match e
    case Began(f) =>
      var (t, displaced) := Begin(h.table, f);
      h.(table := t, begun := h.begun + [f], resolved := h.resolved + displaced)
    case Notified(selection, property, stored, at) =>
      var (t, out) := Answer(h.table, selection, property, stored, at);
      var started := t.incr.Keys - h.table.incr.Keys;
      h.(table := t, resolved := h.resolved + FetchesOf(out),
         chunks := map p | p in h.chunks.Keys + started :: if p in started then [] else h.chunks[p])
    case Chunk(property, chunk, at) =>
      if property !in h.table.incr || property !in h.chunks then h else
        var (t, step) := Push(h.table, property, chunk, at);
        (match step
         case More(_) => h.(table := t, chunks := h.chunks[property := h.chunks[property] + [chunk]])
         case Done(f, data) =>
           h.(table := t, resolved := h.resolved + [f],
              assembled := h.assembled + [Assembled(f, data, h.chunks[property])])
         case TooBig(f) => h.(table := t, resolved := h.resolved + [f]))
    case Swept(at, out) =>
      h.(table := Unexpired(h.table, at), resolved := h.resolved + out)
  }

  ghost predicate Run(hs: seq<History>, es: seq<Event>) {
    && |hs| == |es| + 1
    && hs[0] == FRESH
    && forall i :: 0 <= i < |es| ==> Possible(hs[i], es[i]) && hs[i + 1] == Step(hs[i], es[i])
  }

  /** What holds after every event. */
  ghost predicate Accounted(h: History) {
    WellFormed(h.table) && Counted(h) && Gathering(h) && Whole(h.assembled)
  }

  ghost predicate Counted(h: History) {
    multiset(h.begun) == Live(h.table) + multiset(h.resolved)
  }

  ghost predicate Gathering(h: History) {
    forall p :: p in h.table.incr ==> p in h.chunks && h.table.incr[p].data == Concat(h.chunks[p])
  }

  ghost predicate Whole(assembled: seq<Assembled>) {
    forall i :: 0 <= i < |assembled| ==>
      assembled[i].data == Concat(assembled[i].chunks) && |assembled[i].data| <= MAX_SELECTION_BYTES
  }

  lemma CountedAfter(h: History, r: History, new_: seq<Fetch>, out: seq<Fetch>)
    requires Counted(h)
    requires r.begun == h.begun + new_ && r.resolved == h.resolved + out
    requires Live(r.table) + multiset(out) == Live(h.table) + multiset(new_)
    ensures Counted(r)
  {
    hide Live;
    assert multiset(r.begun) == multiset(h.begun) + multiset(new_);
    assert multiset(r.resolved) == multiset(h.resolved) + multiset(out);
    Rebalance(Live(h.table), multiset(h.resolved), multiset(new_), Live(r.table), multiset(out));
  }

  lemma Rebalance<T>(live: multiset<T>, done: multiset<T>, added: multiset<T>, after: multiset<T>, out: multiset<T>)
    requires after + out == live + added
    ensures live + done + added == after + (done + out)
  {
    assert live + done + added == live + added + done;
  }

  lemma BeganAccounts(h: History, f: Fetch)
    requires Accounted(h)
    ensures Accounted(Step(h, Began(f)))
  {
    BeginKeeps(h.table, f);
    BeginKeepsForm(h.table, f);
    hide Live, WellFormed, Begin, Whole, Counted;
    CountedAfter(h, Step(h, Began(f)), [f], Begin(h.table, f).1);
  }

  lemma NotifiedGathers(h: History, selection: u32, property: u32, stored: Stored, at: Millis)
    requires Accounted(h)
    ensures Gathering(Step(h, Notified(selection, property, stored, at)))
  {
    AnswerKeepsForm(h.table, selection, property, stored, at);
    hide Live, WellFormed, Answer, FetchesOf, Whole, Counted;
    assert Concat([]) == [];
    hide Concat;
  }

  lemma NotifiedAccounts(h: History, selection: u32, property: u32, stored: Stored, at: Millis)
    requires Accounted(h)
    ensures Accounted(Step(h, Notified(selection, property, stored, at)))
  {
    AnswerKeeps(h.table, selection, property, stored, at);
    AnswerKeepsForm(h.table, selection, property, stored, at);
    NotifiedGathers(h, selection, property, stored, at);
    hide Live, WellFormed, Answer, FetchesOf, Whole, Counted, Gathering;
    CountedAfter(h, Step(h, Notified(selection, property, stored, at)), [],
                 FetchesOf(Answer(h.table, selection, property, stored, at).1));
  }

  lemma ChunkCounted(h: History, property: u32, chunk: Bytes, at: Millis)
    requires Accounted(h)
    ensures var r := Step(h, Chunk(property, chunk, at)); WellFormed(r.table) && Counted(r)
  {
    hide Live, WellFormed, Whole, Gathering, Push, Counted;
    if property in h.table.incr && property in h.chunks {
      PushKeeps(h.table, property, chunk, at);
      var (t, step) := Push(h.table, property, chunk, at);
      var r := Step(h, Chunk(property, chunk, at));
      assert r.table == t;
      var out := if step.More? then [] else [step.fetch];
      assert r.resolved == h.resolved + out;
      CountedAfter(h, r, [], out);
    }
  }

  lemma ChunkGathered(h: History, property: u32, chunk: Bytes, at: Millis)
    requires Accounted(h)
    ensures var r := Step(h, Chunk(property, chunk, at)); Gathering(r) && Whole(r.assembled)
  {
    if property in h.table.incr && property in h.chunks {
      hide Live, Concat, WellFormed, Counted;
      ConcatSnoc(h.chunks[property], chunk);
    }
  }

  lemma ChunkAccounts(h: History, property: u32, chunk: Bytes, at: Millis)
    requires Accounted(h)
    ensures Accounted(Step(h, Chunk(property, chunk, at)))
  {
    ChunkCounted(h, property, chunk, at);
    ChunkGathered(h, property, chunk, at);
    hide Counted, WellFormed, Gathering, Whole, Step;
  }

  lemma SweptAccounts(h: History, at: Millis, out: seq<Fetch>)
    requires Accounted(h) && Expired(h.table, at, out)
    ensures Accounted(Step(h, Swept(at, out)))
  {
    UnexpiredKeeps(h.table, at, out);
    hide Live, WellFormed, Unexpired, Expired, Whole, Counted;
    CountedAfter(h, Step(h, Swept(at, out)), [], out);
  }

  lemma StepAccounts(h: History, e: Event)
    requires Accounted(h) && Possible(h, e)
    ensures Accounted(Step(h, e))
  {
    hide Accounted, Step;
    match e
    case Began(f) => BeganAccounts(h, f);
    case Notified(selection, property, stored, at) => NotifiedAccounts(h, selection, property, stored, at);
    case Chunk(property, chunk, at) => ChunkAccounts(h, property, chunk, at);
    case Swept(at, out) => SweptAccounts(h, at, out);
  }

  /** Over any run: every fetch begun is live or has been resolved, as often as it was begun
      and no more; live ones hold different properties; and every chunked value handed on is
      the concatenation of its own chunks, within the cap. */
  lemma {:induction false} EveryFetchIsResolvedOnce(hs: seq<History>, es: seq<Event>)
    requires Run(hs, es)
    ensures forall i :: 0 <= i < |hs| ==> Accounted(hs[i])
  {
    if es == [] {
      NothingReceiving();
    } else {
      EveryFetchIsResolvedOnce(hs[..|hs| - 1], es[..|es| - 1]);
      assert Accounted(hs[..|hs| - 1][|es| - 1]);
      StepAccounts(hs[|es| - 1], es[|es| - 1]);
    }
  }

  /** A refusal names no property: it resolves the oldest fetch of that selection. An answer
      that names one resolves the fetch with that property, whatever else is out. */
  lemma AnswersFindTheirFetch(t: Table, i: nat, stored: Stored, now: Millis)
    requires WellFormed(t) && i < |t.fetches| && t.fetches[i].property != 0
    requires !stored.Incr?
    ensures var f := t.fetches[i];
            Answer(t, f.selection, f.property, stored, now).1
            == [Resolution(f, if stored.Value? then Some(stored.data) else None)]
    ensures (forall j :: 0 <= j < i ==> t.fetches[j].selection != t.fetches[i].selection) ==>
              Answer(t, t.fetches[i].selection, 0, stored, now).1 == [Resolution(t.fetches[i], None)]
  {
    var f := t.fetches[i];
    var at := AnsweredAt(t.fetches, f.selection, f.property);
    assert Answers(f, f.selection, f.property);
    assert at == i;
    assert Answers(f, f.selection, 0);
  }

  /** The mutable table a connection keeps. */
  class Selection {
    var fetches: seq<Fetch>
    var incr: map<u32, IncrRecv>

    ghost function Contents(): Table
      reads this
    {
      Table(fetches, incr)
    }

    constructor ()
      ensures Contents() == Table([], map[])
    {
      fetches := [];
      incr := map[];
    }

    /** Takes the fetches that pass the test out of the list, in order. */
    method Extract(t: Test) returns (hits: seq<Fetch>)
      modifies this
      ensures hits == Keep(old(fetches), t, true)
      ensures fetches == Keep(old(fetches), t, false)
      ensures incr == old(incr)
    {
      hits := [];
      var kept := [];
      var i := 0;
      while i < |fetches|
        invariant 0 <= i <= |fetches|
        invariant fetches == old(fetches) && incr == old(incr)
        invariant kept == Keep(fetches[..i], t, false)
        invariant hits == Keep(fetches[..i], t, true)
      {
        KeepNext(fetches, i, t, true);
        KeepNext(fetches, i, t, false);
        if t.Holds(fetches[i]) {
          hits := hits + [fetches[i]];
        } else {
          kept := kept + [fetches[i]];
        }
        i := i + 1;
      }
      assert fetches[..i] == fetches;
      fetches := kept;
    }

    method BeginFetch(f: Fetch) returns (displaced: seq<Fetch>)
      modifies this
      ensures (Contents(), displaced) == Begin(old(Contents()), f)
    {
      hide Keep;
      displaced := [];
      if f.property in incr {
        displaced := [incr[f.property].fetch];
        incr := incr - {f.property};
      }
      var same := Extract(OnProperty(f.property));
      displaced := displaced + same;
      ghost var head, kept, gone := displaced, fetches, 0;
      while |fetches| >= MAX_FETCHES
        invariant 0 <= gone <= Overflow(|kept|)
        invariant fetches == kept[gone..]
        invariant displaced == head + kept[..gone]
        invariant incr == old(incr) - {f.property}
        decreases |fetches|
      {
        displaced := displaced + [fetches[0]];
        fetches := fetches[1..];
        gone := gone + 1;
      }
      fetches := fetches + [f];
    }

    method ExpiredFetches(now: Millis) returns (out: seq<Fetch>)
      modifies this
      ensures Contents() == Unexpired(old(Contents()), now)
      ensures Expired(old(Contents()), now, out)
    {
      hide Receiving, Keep;
      out := Extract(OutOfTime(now));
      var todo := StalledProperties(incr, now);
      ghost var timedOut, kept := out, fetches;
      assert incr - {} == incr;
      while todo != {}
        invariant todo <= StalledProperties(old(incr), now)
        invariant fetches == kept
        invariant incr == old(incr) - (StalledProperties(old(incr), now) - todo)
        invariant timedOut <= out
        invariant Receiving(old(incr)) == Receiving(incr) + multiset(out[|timedOut|..])
        decreases todo
      {
        var p :| p in todo;
        ReceivingWithout(incr, p);
        assert (out + [incr[p].fetch])[|timedOut|..] == out[|timedOut|..] + [incr[p].fetch];
        out := out + [incr[p].fetch];
        incr := incr - {p};
        todo := todo - {p};
      }
    }

    method TakeFetch(selection: u32, property: u32) returns (f: Option<Fetch>)
      modifies this
      ensures var at := AnsweredAt(old(fetches), selection, property);
              if at < |old(fetches)|
              then f == Some(old(fetches)[at]) && fetches == RemoveAt(old(fetches), at)
              else f == None && fetches == old(fetches)
      ensures incr == old(incr)
    {
      var at := 0;
      while at < |fetches| && !Answers(fetches[at], selection, property)
        invariant 0 <= at <= |fetches|
        invariant unchanged(this)
        invariant forall j :: 0 <= j < at ==> !Answers(fetches[j], selection, property)
      {
        at := at + 1;
      }
      if at == |fetches| {
        return None;
      }
      f := Some(fetches[at]);
      fetches := fetches[..at] + fetches[at + 1..];
    }

    /** The connection's handling of a `SelectionNotify` sent to our window. */
    method HandleNotify(selection: u32, property: u32, stored: Stored, now: Millis) returns (out: seq<Resolution>)
      modifies this
      ensures (Contents(), out) == Answer(old(Contents()), selection, property, stored, now)
    {
      var taken := TakeFetch(selection, property);
      if taken.None? {
        return [];
      }
      var f := taken.value;
      if property != f.property || stored.Nothing? {
        return [Resolution(f, None)];
      }
      if stored.Incr? {
        incr := incr[f.property := IncrRecv(f, [], now)];
        return [];
      }
      return [Resolution(f, Some(stored.data))];
    }

    method IncrPush(property: u32, chunk: Bytes, now: Millis) returns (step: IncrStep)
      requires property in incr
      modifies this
      ensures (Contents(), step) == Push(old(Contents()), property, chunk, now)
    {
      var r := incr[property];
      if chunk == [] {
        incr := incr - {property};
        return Done(r.fetch, r.data);
      }
      if |r.data| + |chunk| > MAX_SELECTION_BYTES {
        incr := incr - {property};
        return TooBig(r.fetch);
      }
      incr := incr[property := IncrRecv(r.fetch, r.data + chunk, now)];
      step := More(property);
    }

    /** The earliest moment a sweep would find anything to give up on. */
    method NextDeadline() returns (d: Option<Millis>)
      ensures d == None <==> fetches == [] && incr == map[]
      ensures forall now: Millis :: Unexpired(Contents(), now) != Contents() <==> d.Some? && now >= d.value
    {
      var least := None;
      var i := 0;
      while i < |fetches|
        invariant 0 <= i <= |fetches|
        invariant least == None <==> i == 0
        invariant least.Some? ==> exists j :: 0 <= j < i && fetches[j].since == least.value
        invariant forall j :: 0 <= j < i ==> least.Some? && least.value <= fetches[j].since
      {
        if least.None? || fetches[i].since < least.value {
          least := Some(fetches[i].since);
        }
        i := i + 1;
      }
      var todo := incr.Keys;
      while todo != {}
        invariant todo <= incr.Keys
        invariant least == None <==> fetches == [] && todo == incr.Keys
        invariant least.Some? ==>
            || (exists j :: 0 <= j < |fetches| && fetches[j].since == least.value)
            || (exists p :: p in incr.Keys && incr[p].progressAt == least.value)
        invariant forall j :: 0 <= j < |fetches| ==> least.Some? && least.value <= fetches[j].since
        invariant forall p :: p in incr.Keys - todo ==> least.Some? && least.value <= incr[p].progressAt
        decreases todo
      {
        var p :| p in todo;
        if least.None? || incr[p].progressAt < least.value {
          least := Some(incr[p].progressAt);
        }
        todo := todo - {p};
      }
      d := if least.None? then None else Some(least.value + FETCH_TIMEOUT);
      forall now: Millis
        ensures Unexpired(Contents(), now) != Contents() <==> d.Some? && now >= d.value
      {
        SweepFinds(Contents(), now);
      }
    }
  }

  lemma SweepFinds(t: Table, now: Millis)
    ensures Unexpired(t, now) != t <==>
              || (exists f :: f in t.fetches && TimedOut(now, f.since))
              || (exists p :: p in t.incr && TimedOut(now, t.incr[p].progressAt))
  {
    KeepMembers(t.fetches, OutOfTime(now), false);
    if forall f :: f in t.fetches ==> !TimedOut(now, f.since) {
      KeepAll(t.fetches, OutOfTime(now), false);
    }
    if forall p :: p in t.incr ==> !TimedOut(now, t.incr[p].progressAt) {
      assert StalledProperties(t.incr, now) == {};
      assert t.incr - {} == t.incr;
    } else {
      var p :| p in t.incr && TimedOut(now, t.incr[p].progressAt);
      assert p !in Unexpired(t, now).incr;
    }
  }
}
