/** The clipboard bridge as a whole: X connections, the job queue, the Wayland thread, the
    compositor with its announcement streams, and foreign apps, one atomic step at a time. */
module BridgeWorld {
  import opened BridgeTypes
  import opened ClipboardState
  import opened EchoProtocol
  import FetchTable
  import ClipJobs
  import MapSum

  /** What a connection's thread is in the middle of, between two requests or within one. */
  datatype Busy =
    | Idle
    | Starting(fetch: FetchTable.Fetch)
    | Resolving(rs: seq<FetchTable.Resolution>)
    | Closing(left: seq<Sel>)
    | Gone

  datatype Conn = Conn(table: FetchTable.Table, seqno: nat, busy: Busy)

  /** An acquisition of a selection, as the fetch for it can be matched to it. */
  datatype Acquisition = Acquisition(k: Sel, window: u32, time: u32)

  datatype World = World(
    board: Board,
    queue: ClipJobs.Queue,
    taken: seq<ClipJobs.Job>,
    shown: Two<Ann>,
    stream: Two<seq<Ann>>,
    nextOffer: OfferId,
    conns: map<ClientId, Conn>,
    // what the transitions have called for: the owner in the last XFixes notification, who is left believing it owns
    // once every SelectionClear has come, and the offers to be destroyed
    due: Two<u32>,
    holders: Two<set<ClientId>>,
    handedOut: multiset<OfferId>,
    // history; `retaken`: an acquisition was repeated, window and time, while its fetch was still out
    delivered: multiset<OfferId>,
    begun: multiset<FetchTable.Fetch>,
    resolved: multiset<FetchTable.Fetch>,
    retaken: Two<bool>,
    mishaps: Two<set<Mishap>>)

  const FETCH_PROPERTIES := 32

  function PropertyOf(k: Sel, seqno: nat): u32 {
    1000 + 2 * (seqno % FETCH_PROPERTIES) + (if k == Clipboard then 0 else 1)
  }

  function AtomOf(k: Sel): u32 {
    if k == Clipboard then 500 else 1
  }

  datatype Step =
    | Join(c: ClientId)
    | Take(c: ClientId, k: Sel, window: u32, time: u32, raw: u32, now: Millis)
    | Release(c: ClientId, k: Sel, time: u32, raw: u32, now: Millis)
    | StartFetch(c: ClientId)
    | Notified(c: ClientId, selection: u32, property: u32, stored: FetchTable.Stored, now: Millis)
    | Chunk(c: ClientId, property: u32, chunk: Bytes, now: Millis)
    | Sweep(c: ClientId, now: Millis, out: seq<FetchTable.Fetch>)
    | Resolve(c: ClientId, raw: u32, now: Millis)
    | WindowGone(c: ClientId, k: Sel, window: u32, raw: u32, now: Millis)
    | Hangup(c: ClientId)
    | CloseNext(c: ClientId, raw: u32, now: Millis)
    | PostOther(job: ClipJobs.Job, now: Millis)
    | SweepJobs(now: Millis)
    | TakeJobs
    | RunJob
    | ForeignSet(k: Sel, mimes: Option<seq<string>>)
    | Announce(k: Sel, raw: u32)

  ghost predicate Possible(w: World, e: Step) {
    match e
    case Join(c) => c !in w.conns
    case Take(c, k, window, time, _, _) => c in w.conns && w.conns[c].busy == Idle && window != 0
    case Release(c, _, _, _, _) => c in w.conns && w.conns[c].busy == Idle
    case StartFetch(c) => c in w.conns && w.conns[c].busy.Starting?
    case Notified(c, _, _, _, _) => c in w.conns && w.conns[c].busy == Idle
    case Chunk(c, p, _, _) => c in w.conns && w.conns[c].busy == Idle && p in w.conns[c].table.incr
    case Sweep(c, now, out) =>
      c in w.conns && w.conns[c].busy == Idle && FetchTable.Expired(w.conns[c].table, now, out)
    case Resolve(c, _, _) => c in w.conns && w.conns[c].busy.Resolving? && w.conns[c].busy.rs != []
    case WindowGone(c, _, _, _, _) => c in w.conns && w.conns[c].busy == Idle
    case Hangup(c) => c in w.conns && w.conns[c].busy == Idle
    case CloseNext(c, _, _) => c in w.conns && w.conns[c].busy.Closing? && w.conns[c].busy.left != []
    case PostOther(job, _) => !job.Publish?
    case SweepJobs(_) => true
    case TakeJobs => w.taken == []
    case RunJob => w.taken != []
    case ForeignSet(_, _) => true
    case Announce(k, _) => w.stream.Get(k) != []
  }

  function AcquisitionOf(f: FetchTable.Fetch): Acquisition {
    Acquisition(f.kind, f.owner, f.time)
  }

  function ToResolve(rs: seq<FetchTable.Resolution>): Busy {
    if rs == [] then Idle else Resolving(rs)
  }

  function Unanswered(fs: seq<FetchTable.Fetch>): seq<FetchTable.Resolution> {
    seq(|fs|, i requires 0 <= i < |fs| => FetchTable.Resolution(fs[i], None))
  }

  // --- the fetches out on a connection, wherever they are ---

  ghost function PendingOf(busy: Busy): multiset<FetchTable.Fetch> {
    match busy
    case Starting(f) => multiset{f}
    case Resolving(rs) => multiset(FetchTable.FetchesOf(rs))
    case _ => multiset{}
  }

  ghost function LiveOn(conn: Conn): multiset<FetchTable.Fetch> {
    FetchTable.Live(conn.table) + PendingOf(conn.busy)
  }

  ghost function LiveCells(conns: map<ClientId, Conn>): map<ClientId, multiset<FetchTable.Fetch>> {
    map c | c in conns :: LiveOn(conns[c])
  }

  ghost function Live(conns: map<ClientId, Conn>): multiset<FetchTable.Fetch> {
    MapSum.Sum(LiveCells(conns))
  }

  predicate Fetching(live: multiset<FetchTable.Fetch>, a: Acquisition) {
    exists f :: f in live && AcquisitionOf(f) == a
  }

  // --- the steps ---

  /** What a transition calls for, entered in the books; who carries it out, and when, is another matter. */
  function CallFor(w: World, k: Sel, fx: Effects): World {
    w.(handedOut := w.handedOut + multiset(fx.destroy),
       holders := if fx.cleared.Some? then w.holders.Set(k, w.holders.Get(k) - {fx.cleared.value.client}) else w.holders,
       due := if fx.notify.Some? then w.due.Set(k, fx.notify.value.owner) else w.due)
  }

  function Carry(w: World, k: Sel, r: Result): World {
    var moved := w.(board := r.board, queue := r.queue);
    if r.effects.None? then moved else CallFor(moved, k, r.effects.value)
  }

  function SetConn(w: World, c: ClientId, conn: Conn): World {
    w.(conns := w.conns[c := conn])
  }

  ghost function TakeStep(w: World, c: ClientId, k: Sel, window: u32, time: u32, raw: u32, now: Millis): World
    requires c in w.conns
  {
    var (b, fx) := XTook(w.board, raw, k, window, c, time);
    if fx.None? then w else
      var moved := CallFor(w.(board := b), k, fx.value);
      var granted := moved.(holders := moved.holders.Set(k, moved.holders.Get(k) + {c}));
      if window == OWNER_WINDOW then granted.(due := granted.due.Set(k, window)) else
        var n := (w.conns[c].seqno + 1) % FETCH_PROPERTIES;
        var f := FetchTable.Fetch(k, AtomOf(k), PropertyOf(k, n), window, time, now);
        SetConn(granted, c, Conn(w.conns[c].table, n, Starting(f)))
          .(begun := w.begun + multiset{f},
            retaken := w.retaken.Set(k, w.retaken.Get(k) || Fetching(Live(w.conns), AcquisitionOf(f))))
  }

  function ResolveResult(w: World, r: FetchTable.Resolution, raw: u32, now: Millis): Result {
    if r.data.Some? then XFetched(w.board, w.queue, raw, r.fetch.kind, r.fetch.owner, r.fetch.time, r.data.value, now)
    else XFetchFailed(w.board, w.queue, raw, r.fetch.kind, r.fetch.owner, r.fetch.time, now)
  }

  function GoneStep(w: World, c: ClientId, k: Sel, window: Option<u32>, subtype: Subtype, raw: u32, now: Millis): World {
    var r := XOwnerGone(w.board, w.queue, raw, k, c, window, subtype, now);
    var moved := Carry(w, k, r);
    if r.effects.None? then moved else moved.(holders := moved.holders.Set(k, moved.holders.Get(k) - {c}))
  }

  function DeliverStep(w: World, k: Sel, raw: u32): World
    requires w.stream.Get(k) != []
  {
    var a := w.stream.Get(k)[0];
    var (b, fx) := Announced(w.board, raw, k, a.offer, a.mimes);
    CallFor(w.(board := b, stream := w.stream.Set(k, w.stream.Get(k)[1..]),
               delivered := w.delivered + multiset(Listed(a.offer))),
            k, fx)
  }

  function ShowNext(w: World, k: Sel, a: Ann): World {
    w.(shown := w.shown.Set(k, a), stream := w.stream.Set(k, w.stream.Get(k) + [a]), nextOffer := w.nextOffer + 1)
  }

  function PerformStep(w: World): World
    requires w.taken != []
  {
    var job := w.taken[0];
    var rest := w.(taken := w.taken[1..]);
    if !job.Publish? then rest else
      ShowNext(rest, job.k, if job.data.Some? then Ann(true, Some(w.nextOffer), TEXT_MIMES, job.data)
                            else Ann(true, None, [], None))
  }

  ghost function Act(w: World, e: Step): World
    requires Possible(w, e)
  {
    match e
    case Join(c) => SetConn(w, c, Conn(FetchTable.Table([], map[]), 0, Idle))
    case Take(c, k, window, time, raw, now) => TakeStep(w, c, k, window, time, raw, now)
    case Release(c, k, time, raw, now) => Carry(w, k, XReleased(w.board, w.queue, raw, k, time, now))
    case StartFetch(c) =>
      var (t, displaced) := FetchTable.Begin(w.conns[c].table, w.conns[c].busy.fetch);
      SetConn(w, c, Conn(t, w.conns[c].seqno, ToResolve(Unanswered(displaced))))
    case Notified(c, selection, property, stored, now) =>
      var (t, out) := FetchTable.Answer(w.conns[c].table, selection, property, stored, now);
      SetConn(w, c, Conn(t, w.conns[c].seqno, ToResolve(out)))
    case Chunk(c, property, chunk, now) =>
      var (t, step) := FetchTable.Push(w.conns[c].table, property, chunk, now);
      SetConn(w, c, Conn(t, w.conns[c].seqno, ToResolve(
        match step
        case More(_) => []
        case Done(f, data) => [FetchTable.Resolution(f, Some(data))]
        case TooBig(f) => [FetchTable.Resolution(f, None)])))
    case Sweep(c, now, out) =>
      SetConn(w, c, Conn(FetchTable.Unexpired(w.conns[c].table, now), w.conns[c].seqno, ToResolve(Unanswered(out))))
    case Resolve(c, raw, now) =>
      var r := w.conns[c].busy.rs[0];
      SetConn(Carry(w, r.fetch.kind, ResolveResult(w, r, raw, now)), c,
              w.conns[c].(busy := ToResolve(w.conns[c].busy.rs[1..])))
        .(resolved := w.resolved + multiset{r.fetch})
    case WindowGone(c, k, window, raw, now) => GoneStep(w, c, k, Some(window), WindowDestroy, raw, now)
    case Hangup(c) => SetConn(w, c, w.conns[c].(busy := Closing([Clipboard, Primary])))
    case CloseNext(c, raw, now) =>
      var left := w.conns[c].busy.left;
      SetConn(GoneStep(w, c, left[0], None, ClientClose, raw, now), c,
              w.conns[c].(busy := if |left| == 1 then Gone else Closing(left[1..])))
    case PostOther(job, now) => w.(queue := ClipJobs.Post(w.queue, job, now).0)
    case SweepJobs(now) => w.(queue := w.queue.(jobs := ClipJobs.Waiting(w.queue.jobs, now, false)))
    case TakeJobs => w.(taken := w.queue.jobs, queue := w.queue.(jobs := []))
    case RunJob => PerformStep(w)
    case ForeignSet(k, mimes) =>
      ShowNext(w, k, Ann(false, if mimes.Some? then Some(w.nextOffer) else None,
                         if mimes.Some? then mimes.value else [], None))
    case Announce(k, raw) => DeliverStep(w, k, raw)
  }

  /** A step, with the mishaps it met recorded. */
  ghost function Next(w: World, e: Step): World
    requires Possible(w, e)
  {
    Act(w, e).(mishaps := Two(MetBy(w, e, Clipboard), MetBy(w, e, Primary)))
  }

  ghost function MetBy(w: World, e: Step, k: Sel): set<Mishap>
    requires Possible(w, e)
  {
    w.mishaps.Get(k)
    + (if Enabled(ViewOf(w, k), MoveOf(w, e, k)) then Mishaps(ViewOf(w, k), MoveOf(w, e, k)) else {})
  }

  // --- the world as each selection's protocol sees it ---

  function Sent(jobs: seq<ClipJobs.Job>, k: Sel): seq<Option<Bytes>> {
    if jobs == [] then [] else
      var last := jobs[|jobs| - 1];
      Sent(jobs[..|jobs| - 1], k) + (if last.Publish? && last.k == k then [last.data] else [])
  }

  function MakeView(s: SelState, sent: seq<Option<Bytes>>, stream: seq<Ann>, shown: Ann): View {
    View(s.owner, s.echoes, s.published, s.publishable, sent, stream, shown)
  }

  function ViewOf(w: World, k: Sel): View {
    MakeView(w.board.sels.Get(k), Sent(w.taken + w.queue.jobs, k), w.stream.Get(k), w.shown.Get(k))
  }

  function Accepts(w: World, k: Sel, data: Option<Bytes>, now: Millis): bool {
    ClipJobs.Post(w.queue, ClipJobs.Publish(k, data), now).1
  }

  predicate OwnedBy(o: Owner, c: ClientId, window: Option<u32>) {
    o.X? && o.x.client == c && (window.None? || window.value == o.x.window)
  }

  /** What a step of the world is, to one selection. */
  ghost function MoveOf(w: World, e: Step, k: Sel): Move
    requires Possible(w, e)
  {
    var owner := w.board.sels.Get(k).owner;
    match e
    case Take(c, j, window, time, raw, _) =>
      if j == k && XTook(w.board, raw, k, window, c, time).1.Some? then Acquire(XOwner(window, c, time, None)) else Stutter
    case Release(_, j, time, raw, now) =>
      if j == k && owner.X? && XReleased(w.board, w.queue, raw, k, time, now).effects.Some?
      then Vacate(Accepts(w, k, None, now)) else Stutter
    case Resolve(c, _, now) =>
      var r := w.conns[c].busy.rs[0];
      if r.fetch.kind != k || !owner.IsAcquisition(r.fetch.owner, r.fetch.time) then Stutter
      else if r.data.Some? then Fill(r.data.value, Accepts(w, k, r.data, now))
      else Fail(Accepts(w, k, None, now))
    case WindowGone(c, j, window, _, now) =>
      if j == k && OwnedBy(owner, c, Some(window)) then Vacate(Accepts(w, k, None, now)) else Stutter
    case CloseNext(c, _, now) =>
      if w.conns[c].busy.left[0] == k && OwnedBy(owner, c, None) then Vacate(Accepts(w, k, None, now)) else Stutter
    case RunJob =>
      if w.taken[0].Publish? && w.taken[0].k == k then Move.Perform(w.nextOffer) else Stutter
    case ForeignSet(j, mimes) =>
      if j == k then Foreign(if mimes.Some? then Some(w.nextOffer) else None, if mimes.Some? then mimes.value else [])
      else Stutter
    case Announce(j, _) => if j == k then Move.Deliver else Stutter
    case _ => Stutter
  }

  lemma {:induction false} SentConcat(a: seq<ClipJobs.Job>, b: seq<ClipJobs.Job>, k: Sel)
    ensures Sent(a + b, k) == Sent(a, k) + Sent(b, k)
  {
    if b == [] {
      assert a + b == a;
    } else {
      SentConcat(a, b[..|b| - 1], k);
      assert (a + b)[..|a + b| - 1] == a + b[..|b| - 1];
    }
  }

  lemma SentOne(job: ClipJobs.Job, k: Sel)
    ensures Sent([job], k) == if job.Publish? && job.k == k then [job.data] else []
  {
    assert Sent([job][..0], k) == [];
  }

  /** Sweeping the queue loses no publication. */
  lemma {:induction false} SentSwept(jobs: seq<ClipJobs.Job>, now: Millis, k: Sel)
    ensures Sent(ClipJobs.Waiting(jobs, now, false), k) == Sent(jobs, k)
  {
    if jobs != [] {
      SentSwept(jobs[..|jobs| - 1], now, k);
      var rest := ClipJobs.Waiting(jobs[..|jobs| - 1], now, false);
      SentConcat(rest, [jobs[|jobs| - 1]], k);
      SentOne(jobs[|jobs| - 1], k);
    }
  }

  lemma SentPosted(taken: seq<ClipJobs.Job>, q: ClipJobs.Queue, job: ClipJobs.Job, now: Millis, k: Sel)
    ensures var (r, accepted, _) := ClipJobs.Post(q, job, now);
            Sent(taken + r.jobs, k)
            == Sent(taken + q.jobs, k) + (if accepted && job.Publish? && job.k == k then [job.data] else [])
  {
    var r := ClipJobs.Post(q, job, now).0;
    var kept := ClipJobs.Waiting(q.jobs, now, false);
    SentSwept(q.jobs, now, k);
    SentConcat(taken, q.jobs, k);
    SentConcat(taken, r.jobs, k);
    SentConcat(kept, [job], k);
    SentOne(job, k);
    hide Sent, ClipJobs.Waiting;
  }

  /** The clipboard's publication is the protocol's, with the queue's answer. */
  lemma PublishIsPublishing(b: Board, q: ClipJobs.Queue, k: Sel, data: Option<Bytes>, now: Millis,
                            taken: seq<ClipJobs.Job>, stream: seq<Ann>, shown: Ann, j: Sel)
    ensures var (b', q', _) := ClipboardState.Publish(b, q, k, data, now);
            var before := MakeView(b.sels.Get(j), Sent(taken + q.jobs, j), stream, shown);
            MakeView(b'.sels.Get(j), Sent(taken + q'.jobs, j), stream, shown)
            == if j == k then Publishing(before, data, ClipJobs.Post(q, ClipJobs.Publish(k, data), now).1) else before
  {
    SentPosted(taken, q, ClipJobs.Publish(k, data), now, j);
    hide Sent, ClipJobs.Post;
  }

  lemma WithdrawIsWithdrawing(b: Board, q: ClipJobs.Queue, k: Sel, now: Millis,
                              taken: seq<ClipJobs.Job>, stream: seq<Ann>, shown: Ann, j: Sel)
    ensures var (b', q', _) := Withdraw(b, q, k, now);
            var before := MakeView(b.sels.Get(j), Sent(taken + q.jobs, j), stream, shown);
            MakeView(b'.sels.Get(j), Sent(taken + q'.jobs, j), stream, shown)
            == if j == k then Withdrawing(before, ClipJobs.Post(q, ClipJobs.Publish(k, None), now).1) else before
  {
    PublishIsPublishing(b, q, k, None, now, taken, stream, shown, j);
    hide Sent, ClipJobs.Post, ClipboardState.Publish, Publishing;
  }

  /** The view a result of a transition leaves, before its effects. */
  function ResultView(w: World, r: Result, j: Sel): View {
    MakeView(r.board.sels.Get(j), Sent(w.taken + r.queue.jobs, j), w.stream.Get(j), w.shown.Get(j))
  }

  lemma CarryViews(w: World, k: Sel, r: Result, j: Sel)
    ensures ViewOf(Carry(w, k, r), j) == ResultView(w, r, j)
  {
    hide Sent;
  }

  lemma ReleaseView(w: World, k: Sel, time: u32, raw: u32, now: Millis, j: Sel)
    ensures var r := XReleased(w.board, w.queue, raw, k, time, now);
            ResultView(w, r, j)
            == if j == k && w.board.sels.Get(k).owner.X? && r.effects.Some?
               then Moved(ViewOf(w, k), Vacate(Accepts(w, k, None, now))) else ViewOf(w, j)
  {
    var s := w.board.sels.Get(k);
    var left := ChangedAt(if s.owner.X? then w.board.With(k, Enter(s, Nobody)) else w.board, k, time);
    WithdrawIsWithdrawing(left, w.queue, k, now, w.taken, w.stream.Get(j), w.shown.Get(j), j);
    hide Sent, ClipJobs.Post, Withdraw, Withdrawing, ServerClock.TimeCmp;
  }

  lemma GoneView(w: World, c: ClientId, k: Sel, window: Option<u32>, subtype: Subtype, raw: u32, now: Millis, j: Sel)
    ensures ResultView(w, XOwnerGone(w.board, w.queue, raw, k, c, window, subtype, now), j)
            == if j == k && OwnedBy(w.board.sels.Get(k).owner, c, window)
               then Moved(ViewOf(w, k), Vacate(Accepts(w, k, None, now))) else ViewOf(w, j)
  {
    var s := w.board.sels.Get(k);
    WithdrawIsWithdrawing(w.board.With(k, Enter(s, Nobody)), w.queue, k, now, w.taken,
                          w.stream.Get(j), w.shown.Get(j), j);
    hide Sent, ClipJobs.Post, Withdraw, Withdrawing, ServerClock.ServerTime;
  }

  lemma ResolveView(w: World, r: FetchTable.Resolution, raw: u32, now: Millis, j: Sel)
    ensures var k := r.fetch.kind;
            ResultView(w, ResolveResult(w, r, raw, now), j)
            == if j != k || !w.board.sels.Get(k).owner.IsAcquisition(r.fetch.owner, r.fetch.time) then ViewOf(w, j)
               else if r.data.Some? then Moved(ViewOf(w, k), Fill(r.data.value, Accepts(w, k, r.data, now)))
               else Moved(ViewOf(w, k), Fail(Accepts(w, k, None, now)))
  {
    var k := r.fetch.kind;
    var s := w.board.sels.Get(k);
    WithdrawIsWithdrawing(w.board, w.queue, k, now, w.taken, w.stream.Get(j), w.shown.Get(j), j);
    if s.owner.X? && r.data.Some? {
      PublishIsPublishing(w.board.With(k, s.(owner := X(s.owner.x.(data := r.data)))), w.queue, k, r.data, now,
                          w.taken, w.stream.Get(j), w.shown.Get(j), j);
    }
    hide Sent, ClipJobs.Post, Withdraw, ClipboardState.Publish, Withdrawing, Publishing, ServerClock.ServerTime;
  }

  lemma TakeView(w: World, c: ClientId, k: Sel, window: u32, time: u32, raw: u32, now: Millis, j: Sel)
    requires c in w.conns
    ensures ViewOf(TakeStep(w, c, k, window, time, raw, now), j)
            == if j == k && XTook(w.board, raw, k, window, c, time).1.Some?
               then ViewOf(w, k).(owner := X(XOwner(window, c, time, None))) else ViewOf(w, j)
  {
    hide Sent, Live, ServerClock.StaleOwnerTime;
  }

  lemma AnnouncedView(b: Board, raw: u32, k: Sel, a: Ann, v: View)
    requires v.stream != [] && v.stream[0] == a
    requires v == MakeView(b.sels.Get(k), v.sent, v.stream, v.shown)
    ensures var r := Announced(b, raw, k, a.offer, a.mimes).0;
            && Delivered(v) == MakeView(r.sels.Get(k), v.sent, v.stream[1..], v.shown)
            && (forall j: Sel :: j != k ==> r.sels.Get(j) == b.sels.Get(j))
  {
    hide MatchesFront, ServerClock.NextTimestamp, ServerClock.ServerTime, ServerClock.NotedFloor;
  }

  lemma DeliverView(w: World, k: Sel, raw: u32, j: Sel)
    requires w.stream.Get(k) != []
    ensures ViewOf(DeliverStep(w, k, raw), j) == if j == k then Delivered(ViewOf(w, k)) else ViewOf(w, j)
  {
    var a := w.stream.Get(k)[0];
    var (b, fx) := Announced(w.board, raw, k, a.offer, a.mimes);
    AnnouncedView(w.board, raw, k, a, ViewOf(w, k));
    hide Sent, Announced, Delivered;
  }

  lemma SentHead(taken: seq<ClipJobs.Job>, queued: seq<ClipJobs.Job>, j: Sel)
    requires taken != []
    ensures Sent(taken + queued, j) == (if taken[0].Publish? && taken[0].k == j then [taken[0].data] else []) + Sent(taken[1..] + queued, j)
  {
    assert taken + queued == [taken[0]] + (taken[1..] + queued);
    hide Sent;
    SentConcat([taken[0]], taken[1..] + queued, j);
    SentOne(taken[0], j);
  }

  lemma PerformView(w: World, j: Sel)
    requires w.taken != []
    ensures var job := w.taken[0];
            && (job.Publish? && job.k == j ==> ViewOf(w, j).sent != [])
            && ViewOf(PerformStep(w), j)
               == if job.Publish? && job.k == j then Moved(ViewOf(w, j), Move.Perform(w.nextOffer)) else ViewOf(w, j)
  {
    hide Sent;
    SentHead(w.taken, w.queue.jobs, j);
    var job, later := w.taken[0], Sent(w.taken[1..] + w.queue.jobs, j);
    if job.Publish? && job.k == j {
      assert ([job.data] + later)[1..] == later && ([job.data] + later)[0] == job.data;
    } else {
      assert [] + later == later;
    }
  }

  lemma PostedView(w: World, job: ClipJobs.Job, now: Millis, j: Sel)
    requires Possible(w, PostOther(job, now))
    ensures ViewOf(Act(w, PostOther(job, now)), j) == ViewOf(w, j)
  {
    hide Sent, ClipJobs.Post, ClipJobs.Waiting;
    SentPosted(w.taken, w.queue, job, now, j);
  }

  lemma SweptView(w: World, now: Millis, j: Sel)
    ensures ViewOf(Act(w, SweepJobs(now)), j) == ViewOf(w, j)
  {
    hide Sent, ClipJobs.Post, ClipJobs.Waiting;
    SentSwept(w.queue.jobs, now, j);
    SentConcat(w.taken, w.queue.jobs, j);
    SentConcat(w.taken, ClipJobs.Waiting(w.queue.jobs, now, false), j);
  }

  lemma TakenView(w: World, j: Sel)
    requires Possible(w, TakeJobs)
    ensures ViewOf(Act(w, TakeJobs), j) == ViewOf(w, j)
  {
    hide Sent, ClipJobs.Post, ClipJobs.Waiting;
    assert [] + w.queue.jobs == w.queue.jobs + [];
  }

  lemma ForeignView(w: World, k: Sel, mimes: Option<seq<string>>, j: Sel)
    ensures Enabled(ViewOf(w, j), MoveOf(w, ForeignSet(k, mimes), j))
    ensures ViewOf(Act(w, ForeignSet(k, mimes)), j) == Moved(ViewOf(w, j), MoveOf(w, ForeignSet(k, mimes), j))
  {
    hide Sent, ClipJobs.Post, ClipJobs.Waiting;
  }

  lemma JobsView(w: World, e: Step, j: Sel)
    requires Possible(w, e) && (e.PostOther? || e.SweepJobs? || e.TakeJobs? || e.ForeignSet?)
    ensures Enabled(ViewOf(w, j), MoveOf(w, e, j))
    ensures ViewOf(Act(w, e), j) == Moved(ViewOf(w, j), MoveOf(w, e, j))
  {
    hide Sent, ViewOf, Act;
    match e
    case PostOther(job, now) => PostedView(w, job, now, j);
    case SweepJobs(now) => SweptView(w, now, j);
    case TakeJobs => TakenView(w, j);
    case ForeignSet(k, mimes) => ForeignView(w, k, mimes, j);
  }

  lemma GoneStepView(w: World, c: ClientId, k: Sel, window: Option<u32>, subtype: Subtype, raw: u32, now: Millis, j: Sel)
    ensures ViewOf(GoneStep(w, c, k, window, subtype, raw, now), j)
            == if j == k && OwnedBy(w.board.sels.Get(k).owner, c, window)
               then Moved(ViewOf(w, k), Vacate(Accepts(w, k, None, now))) else ViewOf(w, j)
  {
    var r := XOwnerGone(w.board, w.queue, raw, k, c, window, subtype, now);
    CarryViews(w, k, r, j);
    GoneView(w, c, k, window, subtype, raw, now, j);
    hide Sent, Carry, XOwnerGone, Accepts, ResultView, Moved;
  }

  /** Every step of the world is, to each selection, a move of the protocol. */
  lemma StepsAreMoves(w: World, e: Step, j: Sel)
    requires Possible(w, e)
    ensures Enabled(ViewOf(w, j), MoveOf(w, e, j))
    ensures ViewOf(Act(w, e), j) == Moved(ViewOf(w, j), MoveOf(w, e, j))
  {
    hide Sent, Live, Carry, XTook, XReleased, XFetched, XFetchFailed, XOwnerGone, Accepts, GoneStep,
         TakeStep, DeliverStep, PerformStep, Delivered, Withdrawing, Publishing, ResolveResult, FetchTable.Expired,
         FetchTable.Begin, FetchTable.Answer, FetchTable.Unexpired, FetchTable.Push;
    match e
    case Take(c, k, window, time, raw, now) => TakeView(w, c, k, window, time, raw, now, j);
    case Release(c, k, time, raw, now) =>
      CarryViews(w, k, XReleased(w.board, w.queue, raw, k, time, now), j);
      ReleaseView(w, k, time, raw, now, j);
    case Resolve(c, raw, now) =>
      var r := w.conns[c].busy.rs[0];
      CarryViews(w, r.fetch.kind, ResolveResult(w, r, raw, now), j);
      ResolveView(w, r, raw, now, j);
    case WindowGone(c, k, window, raw, now) => GoneStepView(w, c, k, Some(window), WindowDestroy, raw, now, j);
    case CloseNext(c, raw, now) =>
      GoneStepView(w, c, w.conns[c].busy.left[0], None, ClientClose, raw, now, j);
    case RunJob => PerformView(w, j);
    case Announce(k, raw) => DeliverView(w, k, raw, j);
    case PostOther(_, _) => JobsView(w, e, j);
    case SweepJobs(_) => JobsView(w, e, j);
    case TakeJobs => JobsView(w, e, j);
    case ForeignSet(_, _) => JobsView(w, e, j);
    case _ =>
  }
}
