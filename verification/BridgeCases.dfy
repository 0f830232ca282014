/** Runs of the bridge, from its start, that meet each mishap, and what is left of them once nothing is in flight. */
module BridgeCases {
  import opened BridgeTypes
  import opened ClipboardState
  import opened EchoProtocol
  import opened BridgeWorld
  import opened BridgeRuns
  import FetchTable
  import ClipJobs

  /** What these runs are about: CLIPBOARD, and one connection, number 1. */
  datatype Face = Face(board: Board, queue: ClipJobs.Queue, taken: seq<ClipJobs.Job>, shown: Ann, stream: seq<Ann>,
                       nextOffer: OfferId, conn: Conn)

  ghost predicate Shows(w: World, f: Face) {
    && w.board == f.board && w.queue == f.queue && w.taken == f.taken
    && w.shown.clipboard == f.shown && w.stream.clipboard == f.stream && w.nextOffer == f.nextOffer
    && 1 in w.conns && w.conns[1] == f.conn
  }

  const WINDOW: u32 := 0x10

  predicate Plain(e: Step) {
    match e
    case Take(c, k, window, _, _, _) => c == 1 && k == Clipboard && window == WINDOW
    case StartFetch(c) => c == 1
    case Notified(c, _, _, _, _) => c == 1
    case Resolve(c, _, _) => c == 1
    case TakeJobs => true
    case RunJob => true
    case ForeignSet(k, _) => k == Clipboard
    case Announce(k, _) => k == Clipboard
    case _ => false
  }

  predicate FaceCan(f: Face, e: Step)
    requires Plain(e)
  {
    match e
    case Take(_, _, _, time, raw, _) => f.conn.busy == Idle && XTook(f.board, raw, Clipboard, WINDOW, 1, time).1.Some?
    case StartFetch(_) => f.conn.busy.Starting?
    case Notified(_, _, _, _, _) => f.conn.busy == Idle
    case Resolve(_, _, _) => f.conn.busy.Resolving? && f.conn.busy.rs != [] && f.conn.busy.rs[0].fetch.kind == Clipboard
    case TakeJobs => f.taken == []
    case RunJob => f.taken != [] && f.taken[0].Publish? && f.taken[0].k == Clipboard
    case ForeignSet(_, _) => true
    case Announce(_, _) => f.stream != []
  }

  function ShowFace(f: Face, a: Ann): Face {
    f.(shown := a, stream := f.stream + [a], nextOffer := f.nextOffer + 1)
  }

  function FaceNext(f: Face, e: Step): Face
    requires Plain(e) && FaceCan(f, e)
  {
    match e
    case Take(_, _, _, time, raw, now) =>
      var n := (f.conn.seqno + 1) % FETCH_PROPERTIES;
      f.(board := XTook(f.board, raw, Clipboard, WINDOW, 1, time).0,
         conn := Conn(f.conn.table, n,
                      Starting(FetchTable.Fetch(Clipboard, AtomOf(Clipboard), PropertyOf(Clipboard, n), WINDOW, time, now))))
    case StartFetch(_) =>
      var (t, displaced) := FetchTable.Begin(f.conn.table, f.conn.busy.fetch);
      f.(conn := Conn(t, f.conn.seqno, ToResolve(Unanswered(displaced))))
    case Notified(_, selection, property, stored, now) =>
      var (t, out) := FetchTable.Answer(f.conn.table, selection, property, stored, now);
      f.(conn := Conn(t, f.conn.seqno, ToResolve(out)))
    case Resolve(_, raw, now) =>
      var r := f.conn.busy.rs[0];
      var res := if r.data.Some? then XFetched(f.board, f.queue, raw, Clipboard, r.fetch.owner, r.fetch.time, r.data.value, now)
                 else XFetchFailed(f.board, f.queue, raw, Clipboard, r.fetch.owner, r.fetch.time, now);
      f.(board := res.board, queue := res.queue, conn := f.conn.(busy := ToResolve(f.conn.busy.rs[1..])))
    case TakeJobs => f.(taken := f.queue.jobs, queue := f.queue.(jobs := []))
    case RunJob =>
      ShowFace(f.(taken := f.taken[1..]),
               if f.taken[0].data.Some? then Ann(true, Some(f.nextOffer), TEXT_MIMES, f.taken[0].data) else Ann(true, None, [], None))
    case ForeignSet(_, mimes) =>
      ShowFace(f, Ann(false, if mimes.Some? then Some(f.nextOffer) else None, if mimes.Some? then mimes.value else [], None))
    case Announce(_, raw) =>
      f.(board := Announced(f.board, raw, Clipboard, f.stream[0].offer, f.stream[0].mimes).0, stream := f.stream[1..])
  }

  lemma TakeFollows(w: World, f: Face, e: Step)
    requires Shows(w, f) && Plain(e) && FaceCan(f, e) && e.Take?
    ensures Possible(w, e) && Shows(Next(w, e), FaceNext(f, e))
  {
    hide MetBy, XTook, Live, Fetching;
  }

  lemma FetchFollows(w: World, f: Face, e: Step)
    requires Shows(w, f) && Plain(e) && FaceCan(f, e) && (e.StartFetch? || e.Notified? || e.Resolve?)
    ensures Possible(w, e) && Shows(Next(w, e), FaceNext(f, e))
  {
    hide MetBy, XFetched, XFetchFailed, FetchTable.Begin, FetchTable.Answer, Live, Fetching;
  }

  lemma CompositorFollows(w: World, f: Face, e: Step)
    requires Shows(w, f) && Plain(e) && FaceCan(f, e) && (e.TakeJobs? || e.RunJob? || e.ForeignSet? || e.Announce?)
    ensures Possible(w, e) && Shows(Next(w, e), FaceNext(f, e))
  {
    hide MetBy, Announced, Live, Fetching;
  }

  /** A step of the bridge is seen on its face. */
  lemma FaceFollows(w: World, f: Face, e: Step)
    requires Shows(w, f) && Plain(e) && FaceCan(f, e)
    ensures Possible(w, e) && Shows(Next(w, e), FaceNext(f, e))
  {
    hide Shows, Possible, Next, FaceNext, FaceCan;
    if e.Take? {
      TakeFollows(w, f, e);
    } else if e.StartFetch? || e.Notified? || e.Resolve? {
      FetchFollows(w, f, e);
    } else {
      CompositorFollows(w, f, e);
    }
  }

  // --- scripts ---

  predicate Plays(f: Face, es: seq<Step>)
    decreases |es|
  {
    es != [] ==> Plain(es[0]) && FaceCan(f, es[0]) && Plays(FaceNext(f, es[0]), es[1..])
  }

  function Played(f: Face, es: seq<Step>): Face
    requires Plays(f, es)
    decreases |es|
  {
    if es == [] then f else Played(FaceNext(f, es[0]), es[1..])
  }

  function Opening(running: bool): Face {
    var idle := SelState(Nobody, 0, 0, [], false, true);
    Face(Board(Two(idle, idle), 0, 0), ClipJobs.Queue([], running), [], NOTHING_SHOWN, [], 0,
         Conn(FetchTable.Table([], map[]), 0, Idle))
  }

  lemma {:induction false} ScriptsContinue(ws: seq<World>, es: seq<Step>, f: Face, more: seq<Step>) returns (all: seq<World>)
    requires BridgeRuns.Run(ws, es) && |ws| == |es| + 1 && Shows(ws[|es|], f) && Plays(f, more)
    ensures BridgeRuns.Run(all, es + more) && |all| == |es + more| + 1 && Shows(all[|es + more|], Played(f, more))
    ensures all[..|ws|] == ws
    decreases |more|
  {
    hide Possible, Next, FaceNext, Start, Shows;
    if more == [] {
      all := ws;
      assert es + more == es;
    } else {
      FaceFollows(ws[|es|], f, more[0]);
      var longer := ws + [Next(ws[|es|], more[0])];
      assert BridgeRuns.Run(longer, es + [more[0]]);
      all := ScriptsContinue(longer, es + [more[0]], FaceNext(f, more[0]), more[1..]);
      assert es + [more[0]] + more[1..] == es + more;
    }
  }

  /** A script is a run of the bridge: a client joins, and then its steps follow. */
  lemma ScriptsAreRuns(running: bool, es: seq<Step>) returns (ws: seq<World>)
    requires Plays(Opening(running), es)
    ensures BridgeRuns.Run(ws, [Join(1)] + es) && |ws| == |es| + 2 && Shows(ws[|es| + 1], Played(Opening(running), es))
  {
    var w0 := Start(Two(true, true), running);
    var w1 := Next(w0, Join(1));
    assert Shows(w1, Opening(running)) by {
      hide MetBy;
    }
    hide Possible, Next, FaceNext, Shows, Plays, Played;
    assert Possible(w0, Join(1)) by { JoinPossible(w0); }
    ws := ScriptsContinue([w0, w1], [Join(1)], Opening(running), es);
  }

  /** A script in two parts, and where they meet. */
  lemma ScriptsMeet(running: bool, a: seq<Step>, b: seq<Step>) returns (ws: seq<World>, es: seq<Step>, at: nat)
    requires Plays(Opening(running), a) && Plays(Played(Opening(running), a), b)
    ensures BridgeRuns.Run(ws, es) && |ws| == |es| + 1 && at <= |es| && es[at..] == b
    ensures Shows(ws[at], Played(Opening(running), a)) && Shows(ws[|es|], Played(Played(Opening(running), a), b))
  {
    hide Plays, Played, Opening, Shows, BridgeRuns.Run;
    var first := ScriptsAreRuns(running, a);
    ws := ScriptsContinue(first, [Join(1)] + a, Played(Opening(running), a), b);
    es, at := [Join(1)] + a + b, |a| + 1;
    assert ws[at] == ws[..|first|][at] == first[at];
  }

  lemma JoinPossible(w: World)
    requires 1 !in w.conns
    ensures Possible(w, Join(1))
  {
  }

  lemma {:induction false} FacesPlay(fs: seq<Face>, es: seq<Step>)
    requires |fs| == |es| + 1
    requires forall i :: 0 <= i < |es| ==> Plain(es[i]) && FaceCan(fs[i], es[i]) && fs[i + 1] == FaceNext(fs[i], es[i])
    ensures Plays(fs[0], es) && Played(fs[0], es) == fs[|es|]
    decreases |es|
  {
    hide FaceNext, FaceCan, Plain;
    if es != [] {
      FacesPlay(fs[1..], es[1..]);
    }
  }

  lemma {:induction false} PlaysInTurn(f: Face, a: seq<Step>, b: seq<Step>)
    requires Plays(f, a) && Plays(Played(f, a), b)
    ensures Plays(f, a + b) && Played(f, a + b) == Played(Played(f, a), b)
    decreases |a|
  {
    hide FaceNext, FaceCan, Plain;
    if a == [] {
      assert a + b == b;
    } else {
      assert (a + b)[1..] == a[1..] + b;
      PlaysInTurn(FaceNext(f, a[0]), a[1..], b);
    }
  }

  // --- the steps the scripts are made of ---

  const VALUE: Bytes := [1]

  function TakeAt(time: u32): Step {
    Take(1, Clipboard, WINDOW, time, time, 0)
  }

  function FetchOf(n: nat, time: u32): FetchTable.Fetch {
    FetchTable.Fetch(Clipboard, AtomOf(Clipboard), PropertyOf(Clipboard, n), WINDOW, time, 0)
  }

  function AnswerTo(n: nat): Step {
    Notified(1, AtomOf(Clipboard), PropertyOf(Clipboard, n), FetchTable.Value(VALUE), 0)
  }

  const ANSWER := AnswerTo(1)
  const REFUSE := Notified(1, AtomOf(Clipboard), 0, FetchTable.Nothing, 0)

  /** A board on which the client takes the selection anew. */
  function TakenBy(b: Board, time: u32): Board
    requires Early(b, time)
  {
    var s := b.sels.clipboard;
    Board(b.sels.Set(Clipboard, s.(owner := X(XOwner(WINDOW, 1, time, None)), generation := s.generation + 1, lastChanged := time)),
          if time > b.lastTimestamp then time else b.lastTimestamp, b.floor)
  }

  predicate Early(b: Board, time: u32) {
    b.floor <= time && b.lastTimestamp <= time < 1000 && b.sels.clipboard.lastChanged <= time && b.sels.clipboard.generation < 100
  }

  lemma TookIs(b: Board, time: u32)
    requires Early(b, time)
    ensures XTook(b, time, Clipboard, WINDOW, 1, time).0 == TakenBy(b, time) && XTook(b, time, Clipboard, WINDOW, 1, time).1.Some?
  {
  }

  /** A client takes the selection anew, and its connection asks for the value. */
  lemma TakingSteps(f: Face, time: u32, fetches: seq<FetchTable.Fetch>, n: nat)
    requires f.conn == Conn(FetchTable.Table(fetches, map[]), n, Idle) && n < 20 && Early(f.board, time)
    ensures var f1 := f.(board := TakenBy(f.board, time),
                         conn := Conn(FetchTable.Table(fetches, map[]), n + 1, Starting(FetchOf(n + 1, time))));
            FaceCan(f, TakeAt(time)) && FaceNext(f, TakeAt(time)) == f1
  {
    TookIs(f.board, time);
    hide XTook, Early, TakenBy, FetchTable.Begin;
  }

  lemma StartingSteps(f: Face, fetches: seq<FetchTable.Fetch>, n: nat, time: u32)
    requires n < 20 && f.conn == Conn(FetchTable.Table(fetches, map[]), n + 1, Starting(FetchOf(n + 1, time)))
    requires fetches == [] || (n == 1 && fetches == [FetchOf(1, time)])
    ensures FaceCan(f, StartFetch(1))
    ensures FaceNext(f, StartFetch(1)) == f.(conn := Conn(FetchTable.Table(fetches + [FetchOf(n + 1, time)], map[]), n + 1, Idle))
  {
    BeginsClear(fetches, FetchOf(n + 1, time));
    hide FetchTable.Begin;
  }

  lemma Taking(f: Face, time: u32, fetches: seq<FetchTable.Fetch>, n: nat)
    requires f.conn == Conn(FetchTable.Table(fetches, map[]), n, Idle) && n < 20 && Early(f.board, time)
    requires fetches == [] || (n == 1 && fetches == [FetchOf(1, time)])
    ensures Plays(f, [TakeAt(time), StartFetch(1)])
    ensures Played(f, [TakeAt(time), StartFetch(1)])
         == f.(board := TakenBy(f.board, time), conn := Conn(FetchTable.Table(fetches + [FetchOf(n + 1, time)], map[]), n + 1, Idle))
  {
    hide FaceCan, FaceNext, Early, TakenBy, FetchOf;
    TakingSteps(f, time, fetches, n);
    var f1 := FaceNext(f, TakeAt(time));
    StartingSteps(f1, fetches, n, time);
    FacesPlay([f, f1, FaceNext(f1, StartFetch(1))], [TakeAt(time), StartFetch(1)]);
  }

  lemma BeginsClear(fetches: seq<FetchTable.Fetch>, g: FetchTable.Fetch)
    requires |fetches| <= 1 && forall f :: f in fetches ==> f.property != g.property
    ensures FetchTable.Begin(FetchTable.Table(fetches, map[]), g) == (FetchTable.Table(fetches + [g], map[]), [])
  {
    var on := FetchTable.OnProperty(g.property);
    assert FetchTable.Keep(fetches[..0], on, false) == [] && FetchTable.Keep(fetches[..0], on, true) == [];
    var kept := FetchTable.Keep(fetches, on, false);
    assert kept == fetches && FetchTable.Keep(fetches, on, true) == [];
    hide FetchTable.Keep;
    var none: map<u32, FetchTable.IncrRecv> := map[];
    assert none - {g.property} == none;
    assert kept[0..] == fetches && kept[..0] == [];
    assert FetchTable.ReceivingOn(none, g.property) + [] + kept[..0] == [];
  }

  lemma Posts(q: ClipJobs.Queue, k: Sel, data: Option<Bytes>)
    requires q.running && |q.jobs| <= 1 && forall j :: j in q.jobs ==> j.Publish?
    ensures ClipJobs.Post(q, ClipJobs.Publish(k, data), 0) == (q.(jobs := q.jobs + [ClipJobs.Publish(k, data)]), true, [])
  {
    assert ClipJobs.Waiting(q.jobs[..0], 0, false) == [] && ClipJobs.Waiting(q.jobs[..0], 0, true) == [];
    assert ClipJobs.Waiting(q.jobs, 0, false) == q.jobs && ClipJobs.Waiting(q.jobs, 0, true) == [];
  }

  function Owing(echoes: seq<Echo>): seq<Echo> {
    (if |echoes| >= MAX_ECHOES then echoes[1..] else echoes) + [Source]
  }

  /** The selection once its owner has answered: published, if the queue runs. */
  function Filled(b: Board, running: bool): Board
    requires b.sels.clipboard.owner.X?
  {
    var s := b.sels.clipboard;
    var held := s.(owner := X(s.owner.x.(data := Some(VALUE))));
    b.(sels := b.sels.Set(Clipboard, if running then held.(echoes := Owing(s.echoes), published := true) else held.(published := false)))
  }

  function Published(q: ClipJobs.Queue, data: Option<Bytes>): ClipJobs.Queue {
    if q.running then q.(jobs := q.jobs + [ClipJobs.Publish(Clipboard, data)]) else q
  }

  predicate Ready(f: Face) {
    && |f.queue.jobs| <= 1 && (forall j :: j in f.queue.jobs ==> j.Publish?)
    && f.board.sels.clipboard.publishable && f.board.sels.clipboard.owner.X?
    && (f.queue.running || |f.board.sels.clipboard.echoes| < MAX_ECHOES)
    && f.board.sels.clipboard.owner.x.window == WINDOW
  }

  lemma FetchedIs(b: Board, q: ClipJobs.Queue, time: u32)
    requires b.sels.clipboard.owner.X? && b.sels.clipboard.owner.x.window == WINDOW && b.sels.clipboard.owner.x.time == time
    requires |q.jobs| <= 1 && (forall j :: j in q.jobs ==> j.Publish?) && b.sels.clipboard.publishable
    requires q.running || |b.sels.clipboard.echoes| < MAX_ECHOES
    ensures var r := XFetched(b, q, time, Clipboard, WINDOW, time, VALUE, 0);
            r.board == Filled(b, q.running) && r.queue == Published(q, Some(VALUE))
  {
    if q.running {
      Posts(q, Clipboard, Some(VALUE));
    }
    hide ServerClock.ServerTime, ClipJobs.Waiting;
  }

  /** The first of the fetches out is answered. */
  lemma Answering(f: Face, n: nat, time: u32, rest: seq<FetchTable.Fetch>)
    requires Ready(f) && f.board.sels.clipboard.owner.x.time == time && f.conn.busy == Idle
    requires f.conn.table == FetchTable.Table([FetchOf(n, time)] + rest, map[])
    ensures Plays(f, [AnswerTo(n), Resolve(1, time, 0)])
    ensures Played(f, [AnswerTo(n), Resolve(1, time, 0)])
         == f.(board := Filled(f.board, f.queue.running), queue := Published(f.queue, Some(VALUE)),
               conn := Conn(FetchTable.Table(rest, map[]), f.conn.seqno, Idle))
  {
    var all := [FetchOf(n, time)] + rest;
    assert FetchTable.RemoveAt(all, 0) == rest;
    var r := FetchTable.Resolution(FetchOf(n, time), Some(VALUE));
    assert FetchTable.Answer(f.conn.table, AtomOf(Clipboard), PropertyOf(Clipboard, n), FetchTable.Value(VALUE), 0)
        == (FetchTable.Table(rest, map[]), [r]);
    FetchedIs(f.board, f.queue, time);
    hide XFetched, FetchTable.Answer, Filled, Published, Ready;
    var f1 := f.(conn := Conn(FetchTable.Table(rest, map[]), f.conn.seqno, Resolving([r])));
    assert FaceCan(f, AnswerTo(n)) && FaceNext(f, AnswerTo(n)) == f1;
    var f2 := f1.(board := Filled(f.board, f.queue.running), queue := Published(f.queue, Some(VALUE)), conn := f1.conn.(busy := Idle));
    assert FaceCan(f1, Resolve(1, time, 0)) && FaceNext(f1, Resolve(1, time, 0)) == f2;
    hide FaceCan, FaceNext;
    FacesPlay([f, f1, f2], [AnswerTo(n), Resolve(1, time, 0)]);
  }

  /** The selection once its owner has refused: withdrawn, if something of ours is recorded as published. */
  function Emptied(b: Board): Board {
    var s := b.sels.clipboard;
    if s.published then b.(sels := b.sels.Set(Clipboard, s.(echoes := s.echoes + [Withdrawn], published := false))) else b
  }

  lemma FailedIs(b: Board, q: ClipJobs.Queue, time: u32)
    requires b.sels.clipboard.owner.X? && b.sels.clipboard.owner.x.window == WINDOW && b.sels.clipboard.owner.x.time == time
    requires q.running && |q.jobs| <= 1 && (forall j :: j in q.jobs ==> j.Publish?)
    requires b.sels.clipboard.publishable && |b.sels.clipboard.echoes| <= 2
    ensures var r := XFetchFailed(b, q, time, Clipboard, WINDOW, time, 0);
            r.board == Emptied(b) && r.queue == if b.sels.clipboard.published then Published(q, None) else q
  {
    Posts(q, Clipboard, None);
    hide ServerClock.ServerTime, ClipJobs.Waiting;
  }

  /** The one fetch out is refused. */
  lemma Refusing(f: Face, time: u32, n: nat)
    requires Ready(f) && f.board.sels.clipboard.owner.x.time == time && f.conn.busy == Idle && f.queue.running
    requires |f.board.sels.clipboard.echoes| <= 2
    requires f.conn.table == FetchTable.Table([FetchOf(n, time)], map[])
    ensures Plays(f, [REFUSE, Resolve(1, time, 0)])
    ensures Played(f, [REFUSE, Resolve(1, time, 0)])
         == f.(board := Emptied(f.board), queue := if f.board.sels.clipboard.published then Published(f.queue, None) else f.queue,
               conn := Conn(FetchTable.Table([], map[]), f.conn.seqno, Idle))
  {
    var all := [FetchOf(n, time)];
    assert FetchTable.RemoveAt(all, 0) == [];
    var r := FetchTable.Resolution(FetchOf(n, time), None);
    assert FetchTable.Answer(f.conn.table, AtomOf(Clipboard), 0, FetchTable.Nothing, 0) == (FetchTable.Table([], map[]), [r]);
    FailedIs(f.board, f.queue, time);
    hide XFetchFailed, FetchTable.Answer, Emptied, Published, Ready;
    var f1 := f.(conn := Conn(FetchTable.Table([], map[]), f.conn.seqno, Resolving([r])));
    assert FaceCan(f, REFUSE) && FaceNext(f, REFUSE) == f1;
    var f2 := f1.(board := Emptied(f.board), queue := if f.board.sels.clipboard.published then Published(f.queue, None) else f.queue,
                  conn := f1.conn.(busy := Idle));
    assert FaceCan(f1, Resolve(1, time, 0)) && FaceNext(f1, Resolve(1, time, 0)) == f2;
    hide FaceCan, FaceNext;
    FacesPlay([f, f1, f2], [REFUSE, Resolve(1, time, 0)]);
  }

  // --- what the compositor makes of it ---

  const OUR_SOURCE := ClipJobs.Publish(Clipboard, Some(VALUE))
  const OUR_WITHDRAWAL := ClipJobs.Publish(Clipboard, None)

  function Made(f: Face): Ann {
    Ann(true, Some(f.nextOffer), TEXT_MIMES, Some(VALUE))
  }

  const WITHDRAWN_ANN := Ann(true, None, [], None)

  /** What an announcement makes of the selection, taken for our echo while an X client owns it. */
  lemma EchoIs(b: Board, raw: u32, offer: Option<OfferId>, mimes: seq<string>)
    requires b.sels.clipboard.owner.X? && MatchesFront(b.sels.clipboard.echoes, offer.Some?, mimes)
    ensures var s := b.sels.clipboard;
            Announced(b, raw, Clipboard, offer, mimes).0
            == b.(sels := b.sels.Set(Clipboard, s.(echoes := s.echoes[1..], published := offer.Some?)))
  {
    hide ServerClock.NextTimestamp, ServerClock.ServerTime, ServerClock.NotedFloor;
  }

  /** What an announcement makes of the selection, taken for a foreign app's. */
  lemma ForeignIs(b: Board, raw: u32, offer: Option<OfferId>, mimes: seq<string>)
    requires !MatchesFront(b.sels.clipboard.echoes, offer.Some?, mimes)
    ensures var r := Announced(b, raw, Clipboard, offer, mimes).0;
            var s := b.sels.clipboard;
            && r.sels.clipboard == SelState(OwnerOf(offer, mimes), (s.generation + 1) % TWO_TO_64, r.lastTimestamp, s.echoes, false, s.publishable)
            && (b.lastTimestamp == raw < 1000 && b.floor == 0 ==> r.lastTimestamp == r.floor == raw + 1)
  {
  }

  // --- an acquisition repeated while its fetch is out ---

  const RETAKE: seq<Step> := [TakeAt(100), StartFetch(1), TakeAt(100), StartFetch(1)]
  const TWO_ANSWERS: seq<Step> := [ANSWER, Resolve(1, 100, 0), REFUSE, Resolve(1, 100, 0)]
  const BOTH_MADE: seq<Step> := [TakeJobs, RunJob, RunJob, Announce(Clipboard, 100), Announce(Clipboard, 100)]

  lemma BothMade(f: Face)
    requires f.taken == [] && f.queue.jobs == [OUR_SOURCE, OUR_WITHDRAWAL] && f.stream == []
    requires f.board.sels.clipboard.owner.X? && f.board.sels.clipboard.echoes == [Source, Withdrawn]
    ensures Plays(f, BOTH_MADE)
    ensures var r := Played(f, BOTH_MADE);
            && r.taken == [] && r.queue.jobs == [] && r.stream == [] && r.shown == WITHDRAWN_ANN
            && r.board.sels.clipboard.owner == f.board.sels.clipboard.owner && r.board.sels.clipboard.echoes == []
  {
    hide FaceCan, FaceNext, Plain, Plays, Played;
    var f1 := TakesJobs(f);
    var f2 := MakesJob(f1);
    var f3 := MakesJob(f2);
    assert f3.stream == [Made(f), WITHDRAWN_ANN];
    var f4 := HearsEcho(f3, 100);
    var f5 := HearsEcho(f4, 100);
    FacesPlay([f, f1, f2, f3, f4, f5], BOTH_MADE);
  }

  lemma TakesJobs(f: Face) returns (r: Face)
    requires f.taken == []
    ensures Plain(TakeJobs) && FaceCan(f, TakeJobs) && FaceNext(f, TakeJobs) == r
    ensures r == f.(taken := f.queue.jobs, queue := f.queue.(jobs := []))
  {
    r := FaceNext(f, TakeJobs);
  }

  lemma MakesJob(f: Face) returns (r: Face)
    requires f.taken != [] && (f.taken[0] == OUR_SOURCE || f.taken[0] == OUR_WITHDRAWAL)
    ensures Plain(RunJob) && FaceCan(f, RunJob) && FaceNext(f, RunJob) == r
    ensures var a := if f.taken[0] == OUR_SOURCE then Made(f) else WITHDRAWN_ANN;
            r == f.(taken := f.taken[1..], shown := a, stream := f.stream + [a], nextOffer := f.nextOffer + 1)
  {
    r := FaceNext(f, RunJob);
  }

  lemma HearsEcho(f: Face, raw: u32) returns (r: Face)
    requires f.stream != [] && f.board.sels.clipboard.owner.X? && f.board.sels.clipboard.echoes != []
    requires f.stream[0].ours && f.stream[0].Plausible() && f.board.sels.clipboard.echoes[0] == f.stream[0].Kind()
    ensures var e := Announce(Clipboard, raw); Plain(e) && FaceCan(f, e) && FaceNext(f, e) == r
    ensures var s := f.board.sels.clipboard;
            r == f.(stream := f.stream[1..],
                    board := f.board.(sels := f.board.sels.Set(Clipboard, s.(echoes := s.echoes[1..], published := f.stream[0].offer.Some?))))
  {
    EchoIs(f.board, raw, f.stream[0].offer, f.stream[0].mimes);
    hide Announced;
    r := FaceNext(f, Announce(Clipboard, raw));
  }

  function TwiceTaken(f: Face): Face
    requires Early(f.board, 100) && Early(TakenBy(f.board, 100), 100)
  {
    f.(board := TakenBy(TakenBy(f.board, 100), 100),
       conn := Conn(FetchTable.Table([FetchOf(1, 100), FetchOf(2, 100)], map[]), 2, Idle))
  }

  lemma Retakes(f: Face)
    requires f == Opening(true)
    ensures Plays(f, RETAKE)
    ensures var r := Played(f, RETAKE);
            && Early(f.board, 100) && Early(TakenBy(f.board, 100), 100)
            && r == TwiceTaken(f)
  {
    hide Plays, Played;
    Taking(f, 100, [], 0);
    var once := Played(f, [TakeAt(100), StartFetch(1)]);
    assert [] + [FetchOf(1, 100)] == [FetchOf(1, 100)];
    Taking(once, 100, [FetchOf(1, 100)], 1);
    PlaysInTurn(f, [TakeAt(100), StartFetch(1)], [TakeAt(100), StartFetch(1)]);
    assert RETAKE == [TakeAt(100), StartFetch(1)] + [TakeAt(100), StartFetch(1)];
  }

  lemma FirstAnswer(f: Face)
    requires f == Opening(true)
    ensures Early(f.board, 100) && Early(TakenBy(f.board, 100), 100)
    ensures Plays(TwiceTaken(f), [ANSWER, Resolve(1, 100, 0)])
    ensures var r := Played(TwiceTaken(f), [ANSWER, Resolve(1, 100, 0)]);
            && r.taken == [] && r.queue == ClipJobs.Queue([OUR_SOURCE], true) && r.stream == []
            && r.conn == Conn(FetchTable.Table([FetchOf(2, 100)], map[]), 2, Idle)
            && r.board.sels.clipboard == SelState(X(XOwner(WINDOW, 1, 100, Some(VALUE))), 2, 100, [Source], true, true)
  {
    hide Plays, Played, FetchOf;
    assert [FetchOf(1, 100)] + [FetchOf(2, 100)] == [FetchOf(1, 100), FetchOf(2, 100)];
    Answering(TwiceTaken(f), 1, 100, [FetchOf(2, 100)]);
  }

  lemma TwoAnswers(f: Face)
    requires f == Opening(true)
    ensures Early(f.board, 100) && Early(TakenBy(f.board, 100), 100)
    ensures Plays(TwiceTaken(f), TWO_ANSWERS)
    ensures var r := Played(TwiceTaken(f), TWO_ANSWERS);
            && r.taken == [] && r.queue.jobs == [OUR_SOURCE, OUR_WITHDRAWAL] && r.stream == []
            && r.board.sels.clipboard.owner == X(XOwner(WINDOW, 1, 100, Some(VALUE)))
            && r.board.sels.clipboard.echoes == [Source, Withdrawn]
  {
    FirstAnswer(f);
    hide Plays, Played, FetchOf, TwiceTaken, TakenBy, Opening, Early;
    var answered := Played(TwiceTaken(f), [ANSWER, Resolve(1, 100, 0)]);
    Refusing(answered, 100, 2);
    PlaysInTurn(TwiceTaken(f), [ANSWER, Resolve(1, 100, 0)], [REFUSE, Resolve(1, 100, 0)]);
    assert TWO_ANSWERS == [ANSWER, Resolve(1, 100, 0)] + [REFUSE, Resolve(1, 100, 0)];
  }

  /** A client takes the selection twice on one window at one time, before its first fetch is answered. The first fetch
      is answered, the second refused: its value is published and then withdrawn, while the owner's record keeps it.
      Once nothing is in flight, X clients are served a value that the compositor shows nothing of. */
  lemma AnswerThenRefusalDisagrees() returns (ws: seq<World>, es: seq<Step>)
    ensures BridgeRuns.Run(ws, es) && |ws| == |es| + 1
    ensures var w := ws[|es|];
            && w.stream.clipboard == [] && Sent(w.taken + w.queue.jobs, Clipboard) == []
            && OwnerIn(w, Clipboard) == X(XOwner(WINDOW, 1, 100, Some(VALUE))) && w.shown.clipboard == WITHDRAWN_ANN
  {
    var f := Opening(true);
    Retakes(f);
    TwoAnswers(f);
    hide Plays, Played, Opening, TakenBy, Early, TwiceTaken;
    PlaysInTurn(f, RETAKE, TWO_ANSWERS);
    BothMade(Played(f, RETAKE + TWO_ANSWERS));
    PlaysInTurn(f, RETAKE + TWO_ANSWERS, BOTH_MADE);
    var script := RETAKE + TWO_ANSWERS + BOTH_MADE;
    es := [Join(1)] + script;
    ws := ScriptsAreRuns(true, script);
    NothingSent(ws[|es|]);
  }

  // --- a value on its way, in each of the other cases ---

  const VALUE_FETCHED: seq<Step> := [TakeAt(100), StartFetch(1), ANSWER, Resolve(1, 100, 0)]

  lemma ValueFetches(running: bool)
    ensures var f := Opening(running);
            && Plays(f, VALUE_FETCHED)
            && var r := Played(f, VALUE_FETCHED);
               && r == f.(board := r.board, queue := if running then f.queue.(jobs := [OUR_SOURCE]) else f.queue, conn := r.conn)
               && r.conn == Conn(FetchTable.Table([], map[]), 1, Idle)
               && r.board.lastTimestamp == 100 && r.board.floor == 0
               && r.board.sels.clipboard == SelState(X(XOwner(WINDOW, 1, 100, Some(VALUE))), 1, 100,
                                                     if running then [Source] else [], running, true)
  {
    var f := Opening(running);
    Taking(f, 100, [], 0);
    var taken := Played(f, [TakeAt(100), StartFetch(1)]);
    assert [] + [FetchOf(1, 100)] == [FetchOf(1, 100)] + [];
    hide Plays, Played;
    Answering(taken, 1, 100, []);
    PlaysInTurn(f, [TakeAt(100), StartFetch(1)], [ANSWER, Resolve(1, 100, 0)]);
    assert VALUE_FETCHED == [TakeAt(100), StartFetch(1)] + [ANSWER, Resolve(1, 100, 0)];
  }

  /** The Wayland thread is not there to take the post: X clients are served a value the compositor never shows. */
  lemma RefusedPostDisagrees() returns (ws: seq<World>, es: seq<Step>)
    ensures BridgeRuns.Run(ws, es) && |ws| == |es| + 1
    ensures var w := ws[|es|];
            && w.stream.clipboard == [] && Sent(w.taken + w.queue.jobs, Clipboard) == []
            && OwnerIn(w, Clipboard) == X(XOwner(WINDOW, 1, 100, Some(VALUE))) && w.shown.clipboard == NOTHING_SHOWN
  {
    ValueFetches(false);
    es := [Join(1)] + VALUE_FETCHED;
    ws := ScriptsAreRuns(false, VALUE_FETCHED);
    hide Plays, Played;
    NothingSent(ws[|es|]);
  }

  lemma HearsForeign(f: Face, raw: u32) returns (r: Face)
    requires f.stream != [] && !MatchesFront(f.board.sels.clipboard.echoes, f.stream[0].offer.Some?, f.stream[0].mimes)
    ensures var e := Announce(Clipboard, raw); Plain(e) && FaceCan(f, e) && FaceNext(f, e) == r
    ensures var s := f.board.sels.clipboard;
            && r == f.(stream := f.stream[1..], board := r.board)
            && r.board.sels.clipboard == SelState(OwnerOf(f.stream[0].offer, f.stream[0].mimes), (s.generation + 1) % TWO_TO_64,
                                                  r.board.lastTimestamp, s.echoes, false, s.publishable)
            && (f.board.lastTimestamp == raw < 1000 && f.board.floor == 0 ==> r.board.lastTimestamp == r.board.floor == raw + 1)
  {
    ForeignIs(f.board, raw, f.stream[0].offer, f.stream[0].mimes);
    hide Announced;
    r := FaceNext(f, Announce(Clipboard, raw));
  }

  lemma TakesOver(f: Face, mimes: seq<string>) returns (r: Face)
    ensures var e := ForeignSet(Clipboard, Some(mimes)); Plain(e) && FaceCan(f, e) && FaceNext(f, e) == r
    ensures var a := Ann(false, Some(f.nextOffer), mimes, None);
            r == f.(shown := a, stream := f.stream + [a], nextOffer := f.nextOffer + 1)
  {
    r := FaceNext(f, ForeignSet(Clipboard, Some(mimes)));
  }

  const TEXT_TAKEN: seq<Step> := [ForeignSet(Clipboard, Some(TEXT_MIMES)), Announce(Clipboard, 100),
                                  TakeJobs, RunJob, Announce(Clipboard, 100)]

  lemma TextIsTaken(f: Face)
    requires f.taken == [] && f.stream == [] && f.nextOffer == 0 && f.queue.jobs == [OUR_SOURCE]
    requires f.board.sels.clipboard.owner.X? && f.board.sels.clipboard.echoes == [Source]
    ensures Plays(f, TEXT_TAKEN)
    ensures var r := Played(f, TEXT_TAKEN);
            && r.taken == [] && r.queue.jobs == [] && r.stream == [] && r.shown == Ann(true, Some(1), TEXT_MIMES, Some(VALUE))
            && r.board.sels.clipboard.owner == Wayland(1, TEXT_MIMES) && !r.board.sels.clipboard.published
  {
    hide FaceCan, FaceNext, Plain, Plays, Played, Announced;
    var f1 := TakesOver(f, TEXT_MIMES);
    var f2 := HearsLookalike(f1, 100);
    var f3 := TakesJobs(f2);
    var f4 := MakesJob(f3);
    assert f4.stream == [Made(f3)];
    var f5 := HearsForeign(f4, 100);
    FacesPlay([f, f1, f2, f3, f4, f5], TEXT_TAKEN);
  }

  lemma HearsLookalike(f: Face, raw: u32) returns (r: Face)
    requires f.stream != [] && f.stream[0].offer.Some? && f.stream[0].mimes == TEXT_MIMES
    requires f.board.sels.clipboard.owner.X? && f.board.sels.clipboard.echoes == [Source]
    ensures var e := Announce(Clipboard, raw); Plain(e) && FaceCan(f, e) && FaceNext(f, e) == r
    ensures var s := f.board.sels.clipboard;
            r == f.(stream := f.stream[1..], board := f.board.(sels := f.board.sels.Set(Clipboard, s.(echoes := [], published := true))))
  {
    EchoIs(f.board, raw, f.stream[0].offer, f.stream[0].mimes);
    assert f.board.sels.clipboard.echoes[1..] == [];
    hide Announced;
    r := FaceNext(f, Announce(Clipboard, raw));
  }

  /** A Wayland app takes the selection with our very mimes while our echo is due. It is taken for the echo, and our
      own source, when it comes, for a foreign app's: its owner is displaced by its own value, and our source forgotten. */
  lemma LookalikeIsMisattributed() returns (ws: seq<World>, es: seq<Step>)
    ensures BridgeRuns.Run(ws, es) && |ws| == |es| + 1
    ensures var w := ws[|es|];
            && w.stream.clipboard == [] && Sent(w.taken + w.queue.jobs, Clipboard) == []
            && OwnerIn(w, Clipboard) == Wayland(1, TEXT_MIMES) && w.shown.clipboard == Ann(true, Some(1), TEXT_MIMES, Some(VALUE))
            && !w.board.sels.clipboard.published
  {
    ValueFetches(true);
    var f := Opening(true);
    hide Plays, Played;
    TextIsTaken(Played(f, VALUE_FETCHED));
    PlaysInTurn(f, VALUE_FETCHED, TEXT_TAKEN);
    var script := VALUE_FETCHED + TEXT_TAKEN;
    es := [Join(1)] + script;
    ws := ScriptsAreRuns(true, script);
    NothingSent(ws[|es|]);
  }

  const IMAGE_TAKEN: seq<Step> := [ForeignSet(Clipboard, Some(["image/png"])), Announce(Clipboard, 100)]
  const TAKEN_BACK: seq<Step> := [TakeAt(200), StartFetch(1), REFUSE, Resolve(1, 200, 0)]
  const SOURCE_MADE: seq<Step> := [TakeJobs, RunJob, Announce(Clipboard, 200)]

  lemma ImageIsTaken(f: Face)
    requires f.stream == [] && f.nextOffer == 0 && f.board.sels.clipboard.echoes == [Source]
    requires f.board.lastTimestamp == 100 && f.board.floor == 0
    ensures Plays(f, IMAGE_TAKEN)
    ensures var r := Played(f, IMAGE_TAKEN);
            && r == f.(board := r.board, shown := r.shown, nextOffer := 1)
            && r.board.lastTimestamp == r.board.floor == 101
            && r.board.sels.clipboard == SelState(Wayland(0, ["image/png"]), (f.board.sels.clipboard.generation + 1) % TWO_TO_64, 101,
                                                  [Source], false, f.board.sels.clipboard.publishable)
  {
    hide FaceCan, FaceNext, Plain, Plays, Played, Announced;
    var f1 := TakesOver(f, ["image/png"]);
    assert ["image/png"][0] != TEXT_MIMES[0];
    var f2 := HearsForeign(f1, 100);
    FacesPlay([f, f1, f2], IMAGE_TAKEN);
  }

  lemma SourceIsMade(f: Face)
    requires f.taken == [] && f.stream == [] && f.queue.jobs == [OUR_SOURCE]
    requires f.board.sels.clipboard.owner.X? && f.board.sels.clipboard.echoes == [Source]
    ensures Plays(f, SOURCE_MADE)
    ensures var r := Played(f, SOURCE_MADE);
            && r.taken == [] && r.queue.jobs == [] && r.stream == [] && r.shown == Made(f)
            && r.board.sels.clipboard.owner == f.board.sels.clipboard.owner
  {
    hide FaceCan, FaceNext, Plain, Plays, Played, Announced;
    var f1 := TakesJobs(f);
    var f2 := MakesJob(f1);
    assert f2.stream == [Made(f)];
    var f3 := HearsEcho(f2, 200);
    FacesPlay([f, f1, f2, f3], SOURCE_MADE);
  }

  lemma TakenBackRefuses(f: Face)
    requires f.conn == Conn(FetchTable.Table([], map[]), 1, Idle) && f.queue == ClipJobs.Queue([OUR_SOURCE], true)
    requires f.board.lastTimestamp == f.board.floor == 101
    requires f.board.sels.clipboard == SelState(Wayland(0, ["image/png"]), 2, 101, [Source], false, true)
    ensures Plays(f, TAKEN_BACK)
    ensures var r := Played(f, TAKEN_BACK);
            && r == f.(board := r.board, conn := r.conn)
            && r.board.sels.clipboard.owner == X(XOwner(WINDOW, 1, 200, None)) && r.board.sels.clipboard.echoes == [Source]
  {
    Taking(f, 200, [], 1);
    assert [] + [FetchOf(2, 200)] == [FetchOf(2, 200)];
    var taken := Played(f, [TakeAt(200), StartFetch(1)]);
    hide Plays, Played;
    Refusing(taken, 200, 2);
    PlaysInTurn(f, [TakeAt(200), StartFetch(1)], [REFUSE, Resolve(1, 200, 0)]);
    assert TAKEN_BACK == [TakeAt(200), StartFetch(1)] + [REFUSE, Resolve(1, 200, 0)];
  }

  /** A foreign offer overtakes our echo, and an X client takes the selection back and refuses its value: nothing of
      ours is withdrawn, and once nothing is in flight the compositor still shows the value of the owner before. */
  lemma WithdrawalCanBeSkipped() returns (ws: seq<World>, es: seq<Step>)
    ensures BridgeRuns.Run(ws, es) && |ws| == |es| + 1
    ensures var w := ws[|es|];
            && w.stream.clipboard == [] && Sent(w.taken + w.queue.jobs, Clipboard) == []
            && OwnerIn(w, Clipboard) == X(XOwner(WINDOW, 1, 200, None))
            && w.shown.clipboard == Ann(true, Some(1), TEXT_MIMES, Some(VALUE))
  {
    ValueFetches(true);
    var f := Opening(true);
    hide Plays, Played;
    var f1 := Played(f, VALUE_FETCHED);
    ImageIsTaken(f1);
    var f2 := Played(f1, IMAGE_TAKEN);
    TakenBackRefuses(f2);
    var f3 := Played(f2, TAKEN_BACK);
    SourceIsMade(f3);
    PlaysInTurn(f, VALUE_FETCHED, IMAGE_TAKEN);
    PlaysInTurn(f, VALUE_FETCHED + IMAGE_TAKEN, TAKEN_BACK);
    PlaysInTurn(f, VALUE_FETCHED + IMAGE_TAKEN + TAKEN_BACK, SOURCE_MADE);
    var script := VALUE_FETCHED + IMAGE_TAKEN + TAKEN_BACK + SOURCE_MADE;
    es := [Join(1)] + script;
    ws := ScriptsAreRuns(true, script);
    NothingSent(ws[|es|]);
  }

  lemma NothingSent(w: World)
    ensures w.taken == [] && w.queue.jobs == [] ==> Sent(w.taken + w.queue.jobs, Clipboard) == []
  {
  }
}
