/** What holds in every state of every run of the bridge. */
module BridgeRuns {
  import opened BridgeTypes
  import opened ClipboardState
  import opened EchoProtocol
  import opened BridgeWorld
  import FetchTable
  import ClipJobs
  import MapSum

  function OwnerIn(w: World, k: Sel): Owner {
    w.board.sels.Get(k).owner
  }

  // --- the fetches out, all together ---

  lemma LiveUpdated(conns: map<ClientId, Conn>, c: ClientId, conn: Conn)
    ensures c in conns ==> Live(conns[c := conn]) + LiveOn(conns[c]) == Live(conns) + LiveOn(conn)
    ensures c !in conns ==> Live(conns[c := conn]) == Live(conns) + LiveOn(conn)
  {
    hide MapSum.Sum, LiveOn;
    assert LiveCells(conns[c := conn]) == LiveCells(conns)[c := LiveOn(conn)];
    MapSum.Updated(LiveCells(conns), c, LiveOn(conn));
  }

  lemma LiveMember(conns: map<ClientId, Conn>, c: ClientId)
    requires c in conns
    ensures LiveOn(conns[c]) <= Live(conns)
  {
    hide MapSum.Sum, LiveOn;
    MapSum.Member(LiveCells(conns), c);
  }

  // --- the invariants ---

  /** An acquisition no watcher has heard of, with its fetch still to be resolved by a
      connection that is there to do it. */
  ghost predicate AwaitsNews(w: World, x: XOwner, k: Sel) {
    && x.client in w.conns
    && Fetching(LiveOn(w.conns[x.client]), Acquisition(k, x.window, x.time))
  }

  /** The owner last called for is the owner, or is about to be. */
  ghost predicate Watched(w: World, k: Sel) {
    || w.due.Get(k) == OwnerIn(w, k).Window()
    || (OwnerIn(w, k).X? && AwaitsNews(w, OwnerIn(w, k).x, k))
  }

  /** The client that owns the selection is the only one that believes it does, and its
      connection has not gone. */
  predicate Believed(w: World, k: Sel) {
    var o := OwnerIn(w, k);
    && w.holders.Get(k) == (if o.X? then {o.x.client} else {})
    && (o.X? ==> o.x.client in w.conns && CanOwn(w.conns[o.x.client].busy, k))
  }

  predicate CanOwn(busy: Busy, k: Sel) {
    !busy.Gone? && (busy.Closing? ==> k in busy.left)
  }

  /** Every offer announced is a current owner's or was handed out for destruction, once. */
  ghost predicate OffersKept(w: World) {
    w.delivered == w.handedOut + multiset(w.board.sels.clipboard.owner.Offers())
                                + multiset(w.board.sels.primary.owner.Offers())
  }

  predicate TablesFit(conns: map<ClientId, Conn>) {
    forall c :: c in conns ==> FetchTable.WellFormed(conns[c].table)
  }

  /** Every fetch begun is live or resolved, as many times as it was begun. */
  ghost predicate FetchesKept(w: World) {
    w.begun == Live(w.conns) + w.resolved
  }

  /** The fetches out for a selection can be told apart by their acquisitions' windows and times. */
  ghost predicate ToldApart(live: multiset<FetchTable.Fetch>, k: Sel) {
    && (forall f :: f in live && f.kind == k ==> live[f] == 1)
    && (forall f, g :: f in live && g in live && f.kind == k && AcquisitionOf(f) == AcquisitionOf(g) ==> f == g)
  }

  /** An X owner that has its value is owed no other answer for the same acquisition. */
  ghost predicate ValueFetched(w: World, k: Sel) {
    var o := OwnerIn(w, k);
    !w.retaken.Get(k) && o.X? && o.x.data.Some? ==> !Fetching(Live(w.conns), OwnAcquisition(o.x, k))
  }

  /** What X is due to hear of a selection, and where its value came from, are in order. */
  ghost predicate Known(w: World, k: Sel) {
    Watched(w, k) && Believed(w, k) && ValueFetched(w, k)
  }

  ghost predicate Apart(w: World) {
    && (!w.retaken.clipboard ==> ToldApart(Live(w.conns), Clipboard))
    && (!w.retaken.primary ==> ToldApart(Live(w.conns), Primary))
  }

  ghost predicate XSide(w: World) {
    && Known(w, Clipboard) && Known(w, Primary)
    && OffersKept(w) && TablesFit(w.conns) && FetchesKept(w) && Apart(w)
  }

  ghost predicate CompositorSide(w: World, k: Sel) {
    && Holds(ViewOf(w, k), w.mishaps.Get(k))
    && (!w.retaken.Get(k) ==> ResolvedTwice !in w.mishaps.Get(k))
  }

  ghost predicate Invariant(w: World) {
    XSide(w) && CompositorSide(w, Clipboard) && CompositorSide(w, Primary)
  }

  // --- what the transitions do to owners ---

  lemma PublishKeepsOwners(b: Board, q: ClipJobs.Queue, k: Sel, data: Option<Bytes>, now: Millis, j: Sel)
    ensures var r := ClipboardState.Publish(b, q, k, data, now).0.sels.Get(j);
            r.owner == b.sels.Get(j).owner && r.generation == b.sels.Get(j).generation
    ensures var r := Withdraw(b, q, k, now).0.sels.Get(j);
            r.owner == b.sels.Get(j).owner && r.generation == b.sels.Get(j).generation
  {
    hide ClipJobs.Post;
  }

  /** Owners and events of a result whose transition concerned `k` alone. */
  ghost predicate Handover(b: Board, r: Result, k: Sel, owner: Owner, cleared: Option<XOwner>, due: Option<u32>) {
    && r.board.sels.Get(k).owner == owner
    && (forall j: Sel :: j != k ==> r.board.sels.Get(j).owner == b.sels.Get(j).owner)
    && r.effects.Some?
    && r.effects.value.destroy == []
    && r.effects.value.cleared == cleared
    && (if due.Some? then r.effects.value.notify.Some? && r.effects.value.notify.value.owner == due.value
        else r.effects.value.notify.None?)
  }

  lemma ReleaseHandover(b: Board, q: ClipJobs.Queue, raw: u32, k: Sel, time: u32, now: Millis)
    ensures var r := XReleased(b, q, raw, k, time, now);
            var o := b.sels.Get(k).owner;
            if r.effects.None? then r.board == b
            else if o.Wayland? then Handover(b, r, k, o, None, None)
            else Handover(b, r, k, Nobody, ClearedOf(o), Some(0))
  {
    var s := b.sels.Get(k);
    var left := ChangedAt(if s.owner.X? then b.With(k, Enter(s, Nobody)) else b, k, time);
    forall j: Sel {
      PublishKeepsOwners(left, q, k, None, now, j);
    }
    hide Withdraw, ServerClock.TimeCmp, ServerClock.ServerTime;
  }

  lemma ResolveHandover(w: World, f: FetchTable.Resolution, raw: u32, now: Millis)
    ensures var r := ResolveResult(w, f, raw, now);
            var k := f.fetch.kind;
            var o := w.board.sels.Get(k).owner;
            if o.IsAcquisition(f.fetch.owner, f.fetch.time)
            then Handover(w.board, r, k, if f.data.Some? then X(o.x.(data := f.data)) else o, None, Some(f.fetch.owner))
            else r.effects.None? && r.board == w.board
  {
    var k := f.fetch.kind;
    var s := w.board.sels.Get(k);
    forall j: Sel {
      PublishKeepsOwners(w.board, w.queue, k, None, now, j);
    }
    if s.owner.X? {
      forall j: Sel {
        PublishKeepsOwners(w.board.With(k, s.(owner := X(s.owner.x.(data := f.data)))), w.queue, k, f.data, now, j);
      }
    }
    hide Withdraw, ClipboardState.Publish, ServerClock.ServerTime;
  }

  lemma GoneHandover(b: Board, q: ClipJobs.Queue, raw: u32, k: Sel, c: ClientId, window: Option<u32>,
                     subtype: Subtype, now: Millis)
    ensures var r := XOwnerGone(b, q, raw, k, c, window, subtype, now);
            if OwnedBy(b.sels.Get(k).owner, c, window) then Handover(b, r, k, Nobody, None, Some(0))
            else r.effects.None? && r.board == b
  {
    var s := b.sels.Get(k);
    forall j: Sel {
      PublishKeepsOwners(b.With(k, Enter(s, Nobody)), q, k, None, now, j);
    }
    hide Withdraw, ServerClock.ServerTime;
  }

  // --- steps ---

  /** The steps a connection takes on its own, which only move its fetches about. */
  predicate OwnBusiness(e: Step) {
    e.Join? || e.StartFetch? || e.Notified? || e.Chunk? || e.Sweep? || e.Hangup?
  }

  lemma UnansweredFetches(fs: seq<FetchTable.Fetch>)
    ensures FetchTable.FetchesOf(Unanswered(fs)) == fs
  {
  }

  lemma PendingToResolve(rs: seq<FetchTable.Resolution>)
    ensures PendingOf(ToResolve(rs)) == multiset(FetchTable.FetchesOf(rs))
  {
  }

  lemma ChunkLive(conn: Conn, p: u32, chunk: Bytes, now: Millis)
    requires FetchTable.WellFormed(conn.table) && conn.busy == Idle && p in conn.table.incr
    ensures var (t, step) := FetchTable.Push(conn.table, p, chunk, now);
            var rs := match step
                      case More(_) => []
                      case Done(f, data) => [FetchTable.Resolution(f, Some(data))]
                      case TooBig(f) => [FetchTable.Resolution(f, None)];
            SameFetches(conn, Conn(t, conn.seqno, ToResolve(rs)))
  {
    hide FetchTable.Push, FetchTable.WellFormed, FetchTable.Live;
    FetchTable.PushKeeps(conn.table, p, chunk, now);
  }

  /** What a connection's own business leaves: the same fetches out, in a table that fits. */
  ghost predicate SameFetches(before: Conn, after: Conn) {
    && FetchTable.WellFormed(after.table)
    && LiveOn(after) == LiveOn(before)
    && !after.busy.Closing? && !after.busy.Gone?
  }

  lemma StartFetchLive(conn: Conn)
    requires FetchTable.WellFormed(conn.table) && conn.busy.Starting?
    ensures var (t, displaced) := FetchTable.Begin(conn.table, conn.busy.fetch);
            SameFetches(conn, Conn(t, conn.seqno, ToResolve(Unanswered(displaced))))
  {
    FetchTable.BeginKeeps(conn.table, conn.busy.fetch);
    FetchTable.BeginKeepsForm(conn.table, conn.busy.fetch);
    var displaced := FetchTable.Begin(conn.table, conn.busy.fetch).1;
    UnansweredFetches(displaced);
    PendingToResolve(Unanswered(displaced));
    hide FetchTable.Begin, FetchTable.Live, FetchTable.WellFormed, Unanswered, FetchTable.FetchesOf;
  }

  lemma NotifiedLive(conn: Conn, selection: u32, property: u32, stored: FetchTable.Stored, now: Millis)
    requires FetchTable.WellFormed(conn.table) && conn.busy == Idle
    ensures var (t, out) := FetchTable.Answer(conn.table, selection, property, stored, now);
            SameFetches(conn, Conn(t, conn.seqno, ToResolve(out)))
  {
    FetchTable.AnswerKeeps(conn.table, selection, property, stored, now);
    FetchTable.AnswerKeepsForm(conn.table, selection, property, stored, now);
    PendingToResolve(FetchTable.Answer(conn.table, selection, property, stored, now).1);
    hide FetchTable.Answer, FetchTable.Live, FetchTable.WellFormed, FetchTable.FetchesOf;
  }

  lemma SweepLive(conn: Conn, now: Millis, out: seq<FetchTable.Fetch>)
    requires FetchTable.WellFormed(conn.table) && conn.busy == Idle && FetchTable.Expired(conn.table, now, out)
    ensures SameFetches(conn, Conn(FetchTable.Unexpired(conn.table, now), conn.seqno, ToResolve(Unanswered(out))))
  {
    FetchTable.UnexpiredKeeps(conn.table, now, out);
    UnansweredFetches(out);
    PendingToResolve(Unanswered(out));
    hide FetchTable.Unexpired, FetchTable.Live, FetchTable.WellFormed, FetchTable.Expired, Unanswered,
         FetchTable.FetchesOf;
  }

  lemma NewConnLive()
    ensures FetchTable.WellFormed(FetchTable.Table([], map[]))
    ensures LiveOn(Conn(FetchTable.Table([], map[]), 0, Idle)) == multiset{}
  {
    FetchTable.NothingReceiving();
  }

  lemma OwnBusinessLive(w: World, e: Step)
    requires Possible(w, e) && OwnBusiness(e) && TablesFit(w.conns)
    ensures var r := Act(w, e);
            && r == w.(conns := r.conns)
            && e.c in r.conns && r.conns == w.conns[e.c := r.conns[e.c]]
            && (e.Join? ==> e.c !in w.conns && FetchTable.WellFormed(r.conns[e.c].table)
                            && LiveOn(r.conns[e.c]) == multiset{})
            && (!e.Join? && !e.Hangup? ==> e.c in w.conns && SameFetches(w.conns[e.c], r.conns[e.c]))
            && (e.Hangup? ==> e.c in w.conns && w.conns[e.c].busy == Idle
                              && r.conns[e.c] == w.conns[e.c].(busy := Closing([Clipboard, Primary])))
  {
    hide FetchTable.Begin, FetchTable.Answer, FetchTable.Push, FetchTable.Unexpired, FetchTable.Expired,
         FetchTable.WellFormed, SameFetches, LiveOn, ToResolve, Unanswered;
    match e
    case Join(c) => NewConnLive();
    case StartFetch(c) => StartFetchLive(w.conns[c]);
    case Notified(c, selection, property, stored, now) =>
      NotifiedLive(w.conns[c], selection, property, stored, now);
    case Chunk(c, p, chunk, now) => ChunkLive(w.conns[c], p, chunk, now);
    case Sweep(c, now, out) => SweepLive(w.conns[c], now, out);
    case Hangup(c) =>
  }

  /** Nothing moved but fetches within a connection, and no connection stopped being able to own. */
  ghost predicate Quiet(w: World, r: World) {
    && r == w.(conns := r.conns)
    && (forall c :: c in w.conns ==> Kept(w.conns[c], c, r.conns))
  }

  ghost predicate Kept(conn: Conn, c: ClientId, conns: map<ClientId, Conn>) {
    && c in conns && LiveOn(conns[c]) == LiveOn(conn)
    && (forall k: Sel :: CanOwn(conn.busy, k) ==> CanOwn(conns[c].busy, k))
  }

  lemma OneConnQuiet(w: World, r: World, c: ClientId)
    requires c in r.conns && r == w.(conns := w.conns[c := r.conns[c]])
    requires TablesFit(w.conns) && FetchTable.WellFormed(r.conns[c].table)
    requires c in w.conns ==> Kept(w.conns[c], c, r.conns)
    ensures Quiet(w, r) && TablesFit(r.conns)
  {
    hide FetchTable.WellFormed, LiveOn, CanOwn;
    forall d | d in w.conns ensures Kept(w.conns[d], d, r.conns) {
      if d != c {
        assert r.conns[d] == w.conns[d];
      }
    }
  }

  lemma OwnBusinessIsQuiet(w: World, e: Step)
    requires Possible(w, e) && OwnBusiness(e) && TablesFit(w.conns)
    ensures Quiet(w, Act(w, e)) && TablesFit(Act(w, e).conns)
  {
    hide Act, Possible, FetchTable.WellFormed, LiveOn, SameFetches, Kept, Quiet, TablesFit;
    OwnBusinessLive(w, e);
    var r := Act(w, e);
    if e.c in w.conns {
      KeptCases(w.conns[e.c], e.c, r.conns);
      WellFormedAfter(w.conns[e.c], r.conns[e.c], w.conns, e.c);
    }
    OneConnQuiet(w, r, e.c);
  }

  lemma WellFormedAfter(before: Conn, after: Conn, conns: map<ClientId, Conn>, c: ClientId)
    requires c in conns && conns[c] == before && TablesFit(conns)
    requires SameFetches(before, after) || after.table == before.table
    ensures FetchTable.WellFormed(after.table)
  {
  }

  lemma KeptCases(conn: Conn, c: ClientId, conns: map<ClientId, Conn>)
    requires c in conns
    requires || conns[c] == conn
             || SameFetches(conn, conns[c])
             || (conn.busy == Idle && conns[c] == conn.(busy := Closing([Clipboard, Primary])))
    ensures Kept(conn, c, conns)
  {
    hide LiveOn, FetchTable.WellFormed;
    if conn.busy == Idle {
      HangupLive(conn);
      forall k: Sel {
        ClosingOwns(k);
      }
    }
  }

  lemma ClosingOwns(k: Sel)
    ensures CanOwn(Closing([Clipboard, Primary]), k)
  {
    assert k == [Clipboard, Primary][if k == Clipboard then 0 else 1];
  }

  lemma HangupLive(conn: Conn)
    requires conn.busy == Idle
    ensures LiveOn(conn.(busy := Closing([Clipboard, Primary]))) == LiveOn(conn)
  {
    hide FetchTable.Live;
  }

  lemma Cancel<T>(a: multiset<T>, b: multiset<T>, c: multiset<T>)
    requires a + c == b + c
    ensures a == b
  {
    assert a == a + c - c;
    assert b == b + c - c;
  }

  lemma OwnBusinessConserves(w: World, e: Step)
    requires Possible(w, e) && OwnBusiness(e) && TablesFit(w.conns)
    ensures Live(Act(w, e).conns) == Live(w.conns)
  {
    OwnBusinessLive(w, e);
    var r := Act(w, e).conns;
    if e.Hangup? {
      HangupLive(w.conns[e.c]);
    }
    hide Act, FetchTable.WellFormed, Live, LiveOn, Possible, TablesFit;
    LiveUpdated(w.conns, e.c, r[e.c]);
    if e.Join? {
      assert Live(w.conns) + multiset{} == Live(w.conns);
    } else {
      Cancel(Live(r), Live(w.conns), LiveOn(w.conns[e.c]));
    }
  }

  /** A connection has lost nothing that acquisition `a` relies on. */
  ghost predicate KeptFor(conn: Conn, c: ClientId, conns: map<ClientId, Conn>, a: Acquisition) {
    && c in conns
    && (Fetching(LiveOn(conn), a) ==> Fetching(LiveOn(conns[c]), a))
    && (CanOwn(conn.busy, a.k) ==> CanOwn(conns[c].busy, a.k))
  }

  function OwnAcquisition(x: XOwner, k: Sel): Acquisition {
    Acquisition(k, x.window, x.time)
  }

  /** A step that touched nothing of selection `k` keeps what X knows of it. */
  lemma UntouchedKnown(w: World, r: World, k: Sel)
    requires Known(w, k)
    requires OwnerIn(r, k) == OwnerIn(w, k)
    requires r.due.Get(k) == w.due.Get(k) && r.holders.Get(k) == w.holders.Get(k)
    requires var o := OwnerIn(w, k);
             o.X? && o.x.client in w.conns
             ==> KeptFor(w.conns[o.x.client], o.x.client, r.conns, OwnAcquisition(o.x, k))
    requires FewerOut(w, r, k)
    ensures Known(r, k)
  {
    hide LiveOn, CanOwn, Fetching, Live;
  }

  /** No fetch for the owner of `k` has been begun in between. */
  ghost predicate FewerOut(w: World, r: World, k: Sel) {
    && r.retaken.Get(k) == w.retaken.Get(k)
    && (OwnerIn(w, k).X? && Fetching(Live(r.conns), OwnAcquisition(OwnerIn(w, k).x, k))
        ==> Fetching(Live(w.conns), OwnAcquisition(OwnerIn(w, k).x, k)))
  }

  lemma QuietKnown(w: World, r: World, k: Sel)
    requires Known(w, k) && Quiet(w, r) && Live(r.conns) == Live(w.conns)
    ensures Known(r, k)
  {
    hide LiveOn, CanOwn, Fetching, Known, Live;
    var o := OwnerIn(w, k);
    if o.X? && o.x.client in w.conns {
      assert Kept(w.conns[o.x.client], o.x.client, r.conns);
    }
    UntouchedKnown(w, r, k);
  }

  lemma OwnBusinessKept(w: World, e: Step)
    requires Possible(w, e) && OwnBusiness(e) && XSide(w)
    ensures XSide(Act(w, e))
  {
    hide Act, Possible, Known, Live, Kept, ToldApart, TablesFit;
    OwnBusinessIsQuiet(w, e);
    OwnBusinessConserves(w, e);
    QuietKnown(w, Act(w, e), Clipboard);
    QuietKnown(w, Act(w, e), Primary);
  }

  // --- transitions of one selection ---

  /** A result with nothing to destroy, carried out. */
  lemma CarryHandover(w: World, k: Sel, r: Result, owner: Owner, cleared: Option<XOwner>, due: Option<u32>)
    requires Handover(w.board, r, k, owner, cleared, due)
    ensures var m := Carry(w, k, r);
            && OwnerIn(m, k) == owner
            && OwnerIn(m, Other(k)) == OwnerIn(w, Other(k))
            && m.due == (if due.Some? then w.due.Set(k, due.value) else w.due)
            && m.holders == (if cleared.Some? then w.holders.Set(k, w.holders.Get(k) - {cleared.value.client})
                             else w.holders)
            && m == w.(board := m.board, queue := m.queue, due := m.due, holders := m.holders)
  {
    assert w.handedOut + multiset([]) == w.handedOut;
  }

  function Other(k: Sel): Sel {
    if k == Clipboard then Primary else Clipboard
  }

  lemma CarryNothing(w: World, k: Sel, r: Result)
    requires r.effects.None? && r.board == w.board
    ensures Carry(w, k, r) == w.(queue := r.queue)
  {
  }

  /** The offers of both owners, as they count towards those announced. */
  ghost function OwnersOffers(b: Board): multiset<OfferId> {
    multiset(b.sels.clipboard.owner.Offers()) + multiset(b.sels.primary.owner.Offers())
  }

  lemma OffersOfBoth(b: Board, k: Sel)
    ensures OwnersOffers(b) == multiset(b.sels.Get(k).owner.Offers()) + multiset(b.sels.Get(Other(k)).owner.Offers())
  {
  }

  /** One selection changed hands: its offers and those destroyed balance those that came. */
  lemma OffersBalance(w: World, m: World, k: Sel, arrived: seq<OfferId>, destroyed: seq<OfferId>)
    requires OffersKept(w)
    requires m.delivered == w.delivered + multiset(arrived) && m.handedOut == w.handedOut + multiset(destroyed)
    requires OwnerIn(m, Other(k)) == OwnerIn(w, Other(k))
    requires multiset(OwnerIn(w, k).Offers()) + multiset(arrived) == multiset(OwnerIn(m, k).Offers()) + multiset(destroyed)
    ensures OffersKept(m)
  {
    hide OwnersOffers, OffersKept;
    OffersOfBoth(w.board, k);
    OffersOfBoth(m.board, k);
    var was, became := multiset(OwnerIn(w, k).Offers()), multiset(OwnerIn(m, k).Offers());
    var rest := multiset(OwnerIn(w, Other(k)).Offers());
    KeptMeans(w);
    KeptMeans(m);
    Moving(w.handedOut, rest, was, became, multiset(arrived), multiset(destroyed));
  }

  lemma KeptMeans(w: World)
    ensures OffersKept(w) <==> w.delivered == w.handedOut + OwnersOffers(w.board)
  {
  }

  lemma Moving<T>(out: multiset<T>, rest: multiset<T>, was: multiset<T>, became: multiset<T>, came: multiset<T>, went: multiset<T>)
    requires was + came == became + went
    ensures out + (was + rest) + came == (out + went) + (became + rest)
  {
    assert out + (was + rest) + came == out + rest + (was + came);
    assert (out + went) + (became + rest) == out + rest + (became + went);
  }

  /** Selection `k` is known again, the other was not touched, and the books balance. */
  lemma AssembleXSide(w: World, m: World, k: Sel)
    requires XSide(w) && Known(m, k)
    requires OwnerIn(m, Other(k)) == OwnerIn(w, Other(k))
    requires m.due.Get(Other(k)) == w.due.Get(Other(k)) && m.holders.Get(Other(k)) == w.holders.Get(Other(k))
    requires m.conns == w.conns && m.resolved == w.resolved && m.begun == w.begun && m.retaken == w.retaken
    requires OffersKept(m)
    ensures XSide(m)
  {
    hide Known, Live, TablesFit, ToldApart, OffersKept, LiveOn, CanOwn, Fetching;
    UntouchedKnown(w, m, Other(k));
  }

  lemma NothingChanged(w: World, m: World)
    requires XSide(w)
    requires m == w.(board := m.board, queue := m.queue, taken := m.taken, shown := m.shown, stream := m.stream,
                     nextOffer := m.nextOffer, mishaps := m.mishaps)
    requires OwnerIn(m, Clipboard) == OwnerIn(w, Clipboard) && OwnerIn(m, Primary) == OwnerIn(w, Primary)
    ensures XSide(m)
  {
    hide Live, TablesFit, ToldApart, Fetching, LiveOn, CanOwn;
  }

  lemma JobStepsFrame(w: World, e: Step)
    requires Possible(w, e)
    requires e.PostOther? || e.SweepJobs? || e.TakeJobs? || e.RunJob? || e.ForeignSet?
    ensures var m := Act(w, e);
            && m.board == w.board
            && m == w.(queue := m.queue, taken := m.taken, shown := m.shown, stream := m.stream,
                       nextOffer := m.nextOffer, mishaps := m.mishaps)
  {
    hide ClipJobs.Post;
  }

  lemma JobStepsKept(w: World, e: Step)
    requires Possible(w, e) && XSide(w)
    requires e.PostOther? || e.SweepJobs? || e.TakeJobs? || e.RunJob? || e.ForeignSet?
    ensures XSide(Act(w, e))
  {
    JobStepsFrame(w, e);
    hide Act, XSide;
    NothingChanged(w, Act(w, e));
  }

  lemma VacatedKnown(w: World, m: World, k: Sel)
    requires OwnerIn(m, k) == Nobody && m.due.Get(k) == 0 && m.holders.Get(k) == {}
    ensures Known(m, k)
  {
    hide Fetching, CanOwn, AwaitsNews;
  }

  lemma VacatedOffers(w: World, m: World, k: Sel)
    requires OffersKept(w) && !OwnerIn(w, k).Wayland? && OwnerIn(m, k) == Nobody
    requires OwnerIn(m, Other(k)) == OwnerIn(w, Other(k)) && m.delivered == w.delivered && m.handedOut == w.handedOut
    ensures OffersKept(m)
  {
    hide OffersKept, OwnerIn;
    assert w.delivered + multiset([]) == w.delivered && w.handedOut + multiset([]) == w.handedOut;
    OffersBalance(w, m, k, [], []);
  }

  /** An X owner (or nobody) gave the selection up, and everyone who has to was told. */
  lemma VacatedKept(w: World, m: World, k: Sel)
    requires XSide(w) && !OwnerIn(w, k).Wayland?
    requires OwnerIn(m, k) == Nobody && OwnerIn(m, Other(k)) == OwnerIn(w, Other(k))
    requires m.due == w.due.Set(k, 0) && m.holders == w.holders.Set(k, {})
    requires m == w.(board := m.board, queue := m.queue, due := m.due, holders := m.holders)
    ensures XSide(m)
  {
    assert OffersKept(w) by { hide Known, TablesFit, FetchesKept, Apart, OffersKept; }
    hide XSide, OffersKept, Known, OwnerIn;
    VacatedOffers(w, m, k);
    VacatedKnown(w, m, k);
    AssembleXSide(w, m, k);
  }

  lemma HoldersOf(w: World, k: Sel)
    requires XSide(w)
    ensures w.holders.Get(k) == if OwnerIn(w, k).X? then {OwnerIn(w, k).x.client} else {}
    ensures OwnerIn(w, k).X? ==> var c := OwnerIn(w, k).x.client; c in w.conns && CanOwn(w.conns[c].busy, k)
    ensures Known(w, k)
  {
    hide Live, TablesFit, ToldApart, Fetching, LiveOn, CanOwn, Watched, ValueFetched, OffersKept;
  }

  lemma ReleaseKept(w: World, k: Sel, time: u32, raw: u32, now: Millis)
    requires XSide(w)
    ensures XSide(Carry(w, k, XReleased(w.board, w.queue, raw, k, time, now)))
  {
    hide XReleased, Carry, Handover, XSide, Known, CanOwn;
    var r := XReleased(w.board, w.queue, raw, k, time, now);
    var m := Carry(w, k, r);
    var o := OwnerIn(w, k);
    ReleaseHandover(w.board, w.queue, raw, k, time, now);
    if r.effects.None? {
      CarryNothing(w, k, r);
      NothingChanged(w, m);
    } else if o.Wayland? {
      CarryHandover(w, k, r, o, None, None);
      NothingChanged(w, m);
    } else {
      CarryHandover(w, k, r, Nobody, ClearedOf(o), Some(0));
      HoldersOf(w, k);
      assert o.X? ==> {o.x.client} - {o.x.client} == {};
      SetSame(w.holders, k);
      VacatedKept(w, m, k);
    }
  }

  lemma SetSame<T>(t: Two<T>, k: Sel)
    ensures t.Set(k, t.Get(k)) == t
  {
  }

  lemma GoneKept(w: World, c: ClientId, k: Sel, window: Option<u32>, subtype: Subtype, raw: u32, now: Millis)
    requires XSide(w)
    ensures var m := GoneStep(w, c, k, window, subtype, raw, now);
            && XSide(m) && m.conns == w.conns && m.resolved == w.resolved
            && (OwnedBy(OwnerIn(w, k), c, window) ==> OwnerIn(m, k) == Nobody)
            && (!OwnedBy(OwnerIn(w, k), c, window) ==> OwnerIn(m, k) == OwnerIn(w, k))
            && OwnerIn(m, Other(k)) == OwnerIn(w, Other(k))
  {
    hide XOwnerGone, Carry, Handover, XSide, Known, CanOwn;
    var r := XOwnerGone(w.board, w.queue, raw, k, c, window, subtype, now);
    GoneHandover(w.board, w.queue, raw, k, c, window, subtype, now);
    if OwnedBy(OwnerIn(w, k), c, window) {
      CarryHandover(w, k, r, Nobody, None, Some(0));
      HandoverHasEffects(w.board, r, k, Nobody, None, Some(0));
      HoldersOf(w, k);
      var m := GoneStep(w, c, k, window, subtype, raw, now);
      assert {c} - {c} == {};
      VacatedKept(w, m, k);
    } else {
      CarryNothing(w, k, r);
      NothingChanged(w, Carry(w, k, r));
    }
  }

  lemma HandoverHasEffects(b: Board, r: Result, k: Sel, owner: Owner, cleared: Option<XOwner>, due: Option<u32>)
    requires Handover(b, r, k, owner, cleared, due)
    ensures r.effects.Some?
  {
  }

  // --- a connection going ---

  /** A connection's entry was replaced; what it and the owners rely on is still there. */
  lemma SetConnKept(w: World, c: ClientId, conn: Conn)
    requires XSide(w) && c in w.conns && FetchTable.WellFormed(conn.table)
    requires LiveOn(conn) == LiveOn(w.conns[c])
    requires forall k: Sel :: OwnerIn(w, k).X? && OwnerIn(w, k).x.client == c && CanOwn(w.conns[c].busy, k) ==> CanOwn(conn.busy, k)
    ensures XSide(SetConn(w, c, conn))
  {
    hide LiveOn, CanOwn, Known, Live, FetchTable.WellFormed, ToldApart;
    var r := SetConn(w, c, conn);
    LiveUpdated(w.conns, c, conn);
    Cancel(Live(r.conns), Live(w.conns), LiveOn(conn));
    forall k: Sel ensures Known(w, k) ==> Known(r, k) {
      if Known(w, k) {
        UntouchedKnown(w, r, k);
      }
    }
  }

  lemma FitTable(w: World, c: ClientId)
    requires XSide(w) && c in w.conns
    ensures FetchTable.WellFormed(w.conns[c].table)
  {
    hide Known, Live, ToldApart, OffersKept, FetchesKept, FetchTable.WellFormed;
  }

  lemma StillLeft(left: seq<Sel>, k: Sel)
    requires left != [] && k in left && k != left[0]
    ensures |left| > 1 && k in left[1..]
  {
    var i :| 0 <= i < |left| && left[i] == k;
    assert left[1..][i - 1] == k;
  }

  lemma CloseKept(w: World, c: ClientId, raw: u32, now: Millis)
    requires XSide(w) && c in w.conns && w.conns[c].busy.Closing? && w.conns[c].busy.left != []
    ensures XSide(Act(w, CloseNext(c, raw, now)))
  {
    var left := w.conns[c].busy.left;
    var conn := w.conns[c].(busy := if |left| == 1 then Gone else Closing(left[1..]));
    var m := GoneStep(w, c, left[0], None, ClientClose, raw, now);
    assert Act(w, CloseNext(c, raw, now)) == SetConn(m, c, conn);
    hide Act, GoneStep, SetConn, XSide, LiveOn, FetchTable.WellFormed;
    GoneKept(w, c, left[0], None, ClientClose, raw, now);
    ClosingLive(w.conns[c], conn);
    FitTable(w, c);
    forall k: Sel | OwnerIn(m, k).X? && OwnerIn(m, k).x.client == c && CanOwn(m.conns[c].busy, k)
      ensures CanOwn(conn.busy, k)
    {
      StillLeft(left, k);
    }
    hide CanOwn;
    SetConnKept(m, c, conn);
  }

  lemma ClosingLive(before: Conn, after: Conn)
    requires before.table == after.table
    requires before.busy.Closing? && (after.busy.Closing? || after.busy.Gone?)
    ensures LiveOn(after) == LiveOn(before)
  {
    hide FetchTable.Live;
  }

  // --- a fetch resolved ---

  lemma ResolvedLive(conn: Conn)
    requires conn.busy.Resolving? && conn.busy.rs != []
    ensures LiveOn(conn) == LiveOn(conn.(busy := ToResolve(conn.busy.rs[1..]))) + multiset{conn.busy.rs[0].fetch}
  {
    hide FetchTable.Live;
    var rs := conn.busy.rs;
    PendingToResolve(rs[1..]);
    assert FetchTable.FetchesOf(rs) == [rs[0].fetch] + FetchTable.FetchesOf(rs[1..]);
  }

  lemma StillFetching(live: multiset<FetchTable.Fetch>, f: FetchTable.Fetch, a: Acquisition)
    requires Fetching(live + multiset{f}, a) && AcquisitionOf(f) != a
    ensures Fetching(live, a)
  {
    var g :| g in live + multiset{f} && AcquisitionOf(g) == a;
    assert g in live;
  }

  /** One of a connection's fetches resolved: the books balance. */
  lemma ResolvedBooks(w: World, r: World, c: ClientId, conn: Conn, f: FetchTable.Fetch)
    requires c in w.conns && r.conns == w.conns[c := conn]
    requires LiveOn(w.conns[c]) == LiveOn(conn) + multiset{f} && conn.table == w.conns[c].table
    requires r.resolved == w.resolved + multiset{f} && r.begun == w.begun
    requires TablesFit(w.conns) && FetchesKept(w) && Apart(w) && r.retaken == w.retaken
    ensures TablesFit(r.conns) && FetchesKept(r) && Apart(r) && Live(w.conns) == Live(r.conns) + multiset{f}
  {
    hide LiveOn, Live, FetchTable.WellFormed;
    LiveUpdated(w.conns, c, conn);
    assert Live(r.conns) + multiset{f} + LiveOn(conn) == Live(w.conns) + LiveOn(conn);
    Cancel(Live(r.conns) + multiset{f}, Live(w.conns), LiveOn(conn));
    FewerApart(Live(w.conns), Live(r.conns), Clipboard);
    FewerApart(Live(w.conns), Live(r.conns), Primary);
  }

  lemma FewerApart(before: multiset<FetchTable.Fetch>, after: multiset<FetchTable.Fetch>, k: Sel)
    requires after <= before
    ensures ToldApart(before, k) ==> ToldApart(after, k)
  {
    assert forall f :: f in after ==> f in before && after[f] <= before[f];
  }

  lemma UntouchedResolved(w: World, r: World, k: Sel, c: ClientId, conn: Conn, f: FetchTable.Fetch)
    requires c in w.conns && r.conns == w.conns[c := conn]
    requires LiveOn(w.conns[c]) == LiveOn(conn) + multiset{f}
    requires w.conns[c].busy.Resolving? && (conn.busy.Resolving? || conn.busy.Idle?)
    requires Known(w, k) && OwnerIn(r, k) == OwnerIn(w, k)
    requires r.due.Get(k) == w.due.Get(k) && r.holders.Get(k) == w.holders.Get(k)
    requires r.retaken == w.retaken && Live(r.conns) <= Live(w.conns)
    requires OwnerIn(w, k).X? ==> OwnAcquisition(OwnerIn(w, k).x, k) != AcquisitionOf(f)
    ensures Known(r, k)
  {
    hide LiveOn, Known, Live;
    var o := OwnerIn(w, k);
    if o.X? && o.x.client == c && Fetching(LiveOn(w.conns[c]), OwnAcquisition(o.x, k)) {
      StillFetching(LiveOn(conn), f, OwnAcquisition(o.x, k));
    }
    hide Fetching;
    UntouchedKnown(w, r, k);
  }

  lemma AnnouncedKnown(w: World, r: World, k: Sel, c: ClientId, conn: Conn, f: FetchTable.Resolution)
    requires Known(w, k) && OwnerIn(w, k).IsAcquisition(f.fetch.owner, f.fetch.time) && f.fetch.kind == k
    requires OwnerIn(r, k) == if f.data.Some? then X(OwnerIn(w, k).x.(data := f.data)) else OwnerIn(w, k)
    requires r.due.Get(k) == f.fetch.owner && r.holders.Get(k) == w.holders.Get(k)
    requires c in w.conns && r.conns == w.conns[c := conn]
    requires w.conns[c].busy.Resolving? && (conn.busy.Resolving? || conn.busy.Idle?)
    requires r.retaken == w.retaken && Live(w.conns) == Live(r.conns) + multiset{f.fetch}
    requires !w.retaken.Get(k) ==> ToldApart(Live(w.conns), k)
    ensures Known(r, k)
  {
    hide LiveOn, Live;
    if !w.retaken.Get(k) {
      LastOfItsKind(Live(w.conns), Live(r.conns), f.fetch);
    }
    hide Fetching;
  }

  /** While fetches can be told apart, one that is resolved leaves none out for its acquisition. */
  lemma LastOfItsKind(before: multiset<FetchTable.Fetch>, after: multiset<FetchTable.Fetch>, f: FetchTable.Fetch)
    requires ToldApart(before, f.kind) && before == after + multiset{f}
    ensures !Fetching(after, AcquisitionOf(f))
  {
    assert before[f] == after[f] + 1 && f in before;
    forall g | g in after ensures AcquisitionOf(g) != AcquisitionOf(f) {
      assert g in before;
    }
  }

  /** The selection a resolution is about is known afterwards. */
  lemma ResolvedKnown(w: World, r: World, k: Sel, c: ClientId, conn: Conn, f: FetchTable.Resolution)
    requires Known(w, k) && f.fetch.kind == k && c in w.conns && r.conns == w.conns[c := conn]
    requires LiveOn(w.conns[c]) == LiveOn(conn) + multiset{f.fetch} && Live(w.conns) == Live(r.conns) + multiset{f.fetch}
    requires w.conns[c].busy.Resolving? && (conn.busy.Resolving? || conn.busy.Idle?)
    requires r.retaken == w.retaken && r.holders.Get(k) == w.holders.Get(k)
    requires !w.retaken.Get(k) ==> ToldApart(Live(w.conns), k)
    requires if OwnerIn(w, k).IsAcquisition(f.fetch.owner, f.fetch.time)
             then OwnerIn(r, k) == (if f.data.Some? then X(OwnerIn(w, k).x.(data := f.data)) else OwnerIn(w, k))
                  && r.due.Get(k) == f.fetch.owner
             else OwnerIn(r, k) == OwnerIn(w, k) && r.due.Get(k) == w.due.Get(k)
    ensures Known(r, k)
  {
    hide Known, LiveOn, Live, ToldApart;
    if OwnerIn(w, k).IsAcquisition(f.fetch.owner, f.fetch.time) {
      AnnouncedKnown(w, r, k, c, conn, f);
    } else {
      UntouchedResolved(w, r, k, c, conn, f.fetch);
    }
  }

  lemma ResolveKept(w: World, c: ClientId, raw: u32, now: Millis)
    requires XSide(w) && c in w.conns && w.conns[c].busy.Resolving? && w.conns[c].busy.rs != []
    ensures XSide(Act(w, Resolve(c, raw, now)))
  {
    hide ResolveResult, Carry, Handover, Known, LiveOn, Live, TablesFit, ToldApart;
    var f := w.conns[c].busy.rs[0];
    var k := f.fetch.kind;
    var res := ResolveResult(w, f, raw, now);
    var m := Carry(w, k, res);
    var conn := w.conns[c].(busy := ToResolve(w.conns[c].busy.rs[1..]));
    var r := Act(w, Resolve(c, raw, now));
    ResolveHandover(w, f, raw, now);
    if OwnerIn(w, k).IsAcquisition(f.fetch.owner, f.fetch.time) {
      CarryHandover(w, k, res, if f.data.Some? then X(OwnerIn(w, k).x.(data := f.data)) else OwnerIn(w, k),
                    None, Some(f.fetch.owner));
    } else {
      CarryNothing(w, k, res);
    }
    assert r == SetConn(m, c, conn).(resolved := w.resolved + multiset{f.fetch});
    hide Act;
    ResolvedLive(w.conns[c]);
    ResolvedBooks(w, r, c, conn, f.fetch);
    OffersBalance(w, r, k, [], []);
    UntouchedResolved(w, r, Other(k), c, conn, f.fetch);
    ResolvedKnown(w, r, k, c, conn, f);
  }

  // --- a selection taken, and an announcement delivered ---

  /** One selection changed hands and its events went out; connections and fetches as they were. */
  ghost predicate ChangedHands(w: World, m: World, k: Sel, owner: Owner, due: u32, holders: set<ClientId>,
                               arrived: seq<OfferId>, destroyed: seq<OfferId>) {
    && OwnerIn(m, k) == owner && OwnerIn(m, Other(k)) == OwnerIn(w, Other(k))
    && m.due == w.due.Set(k, due) && m.holders == w.holders.Set(k, holders)
    && m.delivered == w.delivered + multiset(arrived) && m.handedOut == w.handedOut + multiset(destroyed)
    && m.conns == w.conns && m.resolved == w.resolved && m.begun == w.begun && m.retaken == w.retaken
  }

  lemma TookOwners(b: Board, raw: u32, k: Sel, window: u32, c: ClientId, time: u32)
    ensures var (r, fx) := XTook(b, raw, k, window, c, time);
            var o := b.sels.Get(k).owner;
            && (fx.None? ==> r == b)
            && (fx.Some? ==>
                  && r.sels.Get(k).owner == X(XOwner(window, c, time, None))
                  && r.sels.Get(Other(k)) == b.sels.Get(Other(k))
                  && fx.value.destroy == o.Offers() && fx.value.notify.None?
                  && fx.value.cleared == (if o.X? && o.x.client != c then Some(o.x) else None))
  {
    hide ServerClock.StaleOwnerTime, ServerClock.TimeCmp;
  }

  /** The world once an X client has been granted the selection, before its fetch. */
  function Granted(w: World, c: ClientId, k: Sel, b: Board, fx: Effects): World {
    var moved := CallFor(w.(board := b), k, fx);
    moved.(holders := moved.holders.Set(k, moved.holders.Get(k) + {c}))
  }

  lemma GrantedHands(w: World, c: ClientId, k: Sel, window: u32, time: u32, raw: u32, now: Millis)
    requires XSide(w) && XTook(w.board, raw, k, window, c, time).1.Some?
    ensures var (b, fx) := XTook(w.board, raw, k, window, c, time);
            ChangedHands(w, Granted(w, c, k, b, fx.value), k, X(XOwner(window, c, time, None)),
                         w.due.Get(k), {c}, [], OwnerIn(w, k).Offers())
  {
    hide XTook, XSide;
    TookOwners(w.board, raw, k, window, c, time);
    HoldersOf(w, k);
    SetSame(w.due, k);
    assert w.delivered + multiset([]) == w.delivered;
    var o := OwnerIn(w, k);
    var h := w.holders.Get(k);
    assert (if o.X? && o.x.client != c then h - {o.x.client} else h) + {c} == {c};
    SetTwice(w.holders, k, h - {if o.X? then o.x.client else c}, {c});
  }

  lemma SetTwice<T>(t: Two<T>, k: Sel, a: T, b: T)
    ensures t.Set(k, a).Set(k, b) == t.Set(k, b)
  {
  }

  /** A connection that starts a fetch has that one more out, and can own as before. */
  lemma StartedLive(conn: Conn, n: nat, f: FetchTable.Fetch)
    requires conn.busy == Idle
    ensures LiveOn(Conn(conn.table, n, Starting(f))) == LiveOn(conn) + multiset{f}
  {
    hide FetchTable.Live;
  }

  lemma NowFetching(live: multiset<FetchTable.Fetch>, f: FetchTable.Fetch, a: Acquisition)
    ensures Fetching(live, a) ==> Fetching(live + multiset{f}, a)
    ensures Fetching(live + multiset{f}, AcquisitionOf(f))
  {
    assert f in live + multiset{f};
    if Fetching(live, a) {
      var g :| g in live && AcquisitionOf(g) == a;
      assert g in live + multiset{f};
    }
  }

  lemma TakenApart(live: multiset<FetchTable.Fetch>, f: FetchTable.Fetch)
    requires !Fetching(live, AcquisitionOf(f))
    ensures ToldApart(live, f.kind) ==> ToldApart(live + multiset{f}, f.kind)
  {
    assert f !in live;
  }

  lemma OthersApart(live: multiset<FetchTable.Fetch>, f: FetchTable.Fetch, k: Sel)
    requires k != f.kind && ToldApart(live, k)
    ensures ToldApart(live + multiset{f}, k)
  {
  }

  /** The owner just granted the selection is known, through its own fetch. */
  lemma GrantedKnown(r: World, k: Sel, c: ClientId, x: XOwner)
    requires OwnerIn(r, k) == X(x) && x.client == c && x.data == None && r.holders.Get(k) == {c}
    requires c in r.conns && CanOwn(r.conns[c].busy, k)
    requires r.due.Get(k) == x.window || Fetching(LiveOn(r.conns[c]), OwnAcquisition(x, k))
    ensures Known(r, k)
  {
    hide LiveOn, Fetching, CanOwn;
  }

  lemma TakeKept(w: World, c: ClientId, k: Sel, window: u32, time: u32, raw: u32, now: Millis)
    requires XSide(w) && c in w.conns && w.conns[c].busy == Idle
    ensures XSide(TakeStep(w, c, k, window, time, raw, now))
  {
    hide XTook, XSide, Granted, LiveOn, Live, Known, Fetching;
    var r := TakeStep(w, c, k, window, time, raw, now);
    var (b, fx) := XTook(w.board, raw, k, window, c, time);
    if fx.Some? {
      GrantedHands(w, c, k, window, time, raw, now);
      GrantedIs(w, c, k, b, fx.value);
      var m := Granted(w, c, k, b, fx.value);
      if window == OWNER_WINDOW {
        assert r == m.(due := m.due.Set(k, window));
        GrantedKnown(r, k, c, XOwner(window, c, time, None));
        TakeAssembles(w, m, r, c, k, w.conns[c], window);
      } else {
        var n := (w.conns[c].seqno + 1) % FETCH_PROPERTIES;
        var f := FetchTable.Fetch(k, AtomOf(k), PropertyOf(k, n), window, time, now);
        var conn := Conn(w.conns[c].table, n, Starting(f));
        StartedLive(w.conns[c], n, f);
        NowFetching(LiveOn(w.conns[c]), f, AcquisitionOf(f));
        GrantedKnown(r, k, c, XOwner(window, c, time, None));
        BegunAssembles(w, m, r, c, k, conn, f);
      }
    }
  }

  lemma GrantedIs(w: World, c: ClientId, k: Sel, b: Board, fx: Effects)
    ensures var moved := CallFor(w.(board := b), k, fx);
            Granted(w, c, k, b, fx) == moved.(holders := moved.holders.Set(k, moved.holders.Get(k) + {c}))
  {
  }

  lemma TakeAssembles(w: World, m: World, r: World, c: ClientId, k: Sel, conn: Conn, due: u32)
    requires XSide(w) && Known(r, k)
    requires ChangedHands(w, m, k, OwnerIn(m, k), w.due.Get(k), {c}, [], OwnerIn(w, k).Offers())
    requires OwnerIn(m, k).X?
    requires r == m.(due := m.due.Set(k, due))
    ensures XSide(r)
  {
    hide Known, Live, TablesFit, ToldApart, LiveOn;
    OffersBalance(w, r, k, [], OwnerIn(w, k).Offers());
    hide OffersKept;
    AssembleXSide(w, r, k);
  }

  lemma BegunAssembles(w: World, m: World, r: World, c: ClientId, k: Sel, conn: Conn, f: FetchTable.Fetch)
    requires XSide(w) && Known(r, k)
    requires ChangedHands(w, m, k, OwnerIn(m, k), w.due.Get(k), {c}, [], OwnerIn(w, k).Offers())
    requires OwnerIn(m, k).X?
    requires c in w.conns && w.conns[c].busy == Idle
    requires conn.table == w.conns[c].table && conn.busy == Starting(f) && f.kind == k
    requires LiveOn(conn) == LiveOn(w.conns[c]) + multiset{f}
    requires r == SetConn(m, c, conn)
                    .(begun := w.begun + multiset{f},
                      retaken := w.retaken.Set(k, w.retaken.Get(k) || Fetching(Live(w.conns), AcquisitionOf(f))))
    ensures XSide(r)
  {
    hide Known, Live, LiveOn, FetchTable.WellFormed, Fetching, OffersKept, ToldApart, FetchesKept, Apart;
    BegunBooks(w, m, r, c, k, conn, f);
    hide OwnerIn;
    BegunOther(w, m, r, c, k, conn, f);
  }

  lemma BegunOther(w: World, m: World, r: World, c: ClientId, k: Sel, conn: Conn, f: FetchTable.Fetch)
    requires Known(w, Other(k))
    requires ChangedHands(w, m, k, OwnerIn(m, k), w.due.Get(k), {c}, [], OwnerIn(w, k).Offers())
    requires c in w.conns && w.conns[c].busy == Idle && conn.busy == Starting(f)
    requires LiveOn(conn) == LiveOn(w.conns[c]) + multiset{f}
    requires r.board == m.board && r.due == m.due && r.holders == m.holders
    requires r.retaken.Get(Other(k)) == w.retaken.Get(Other(k))
    requires r.conns == w.conns[c := conn] && f.kind == k
    ensures Known(r, Other(k))
  {
    hide Known, LiveOn, Live, Fetching;
    var j := Other(k);
    LiveUpdated(w.conns, c, conn);
    Cancel(Live(r.conns), Live(w.conns) + multiset{f}, LiveOn(w.conns[c]));
    if OwnerIn(w, j).X? && Fetching(Live(r.conns), OwnAcquisition(OwnerIn(w, j).x, j)) {
      StillFetching(Live(w.conns), f, OwnAcquisition(OwnerIn(w, j).x, j));
    }
    if OwnerIn(w, j).X? && OwnerIn(w, j).x.client == c {
      NowFetching(LiveOn(w.conns[c]), f, OwnAcquisition(OwnerIn(w, j).x, j));
    }
    UntouchedKnown(w, r, j);
  }

  /** The books of one more fetch begun, and of the offers of the owner it displaced. */
  lemma BegunBooks(w: World, m: World, r: World, c: ClientId, k: Sel, conn: Conn, f: FetchTable.Fetch)
    requires XSide(w)
    requires ChangedHands(w, m, k, OwnerIn(m, k), w.due.Get(k), {c}, [], OwnerIn(w, k).Offers())
    requires OwnerIn(m, k).X?
    requires c in w.conns && w.conns[c].busy == Idle && f.kind == k
    requires LiveOn(conn) == LiveOn(w.conns[c]) + multiset{f}
    requires r == SetConn(m, c, conn)
                    .(begun := w.begun + multiset{f},
                      retaken := w.retaken.Set(k, w.retaken.Get(k) || Fetching(Live(w.conns), AcquisitionOf(f))))
    ensures OffersKept(r) && FetchesKept(r) && Apart(r)
  {
    hide Known, Live, LiveOn, FetchTable.WellFormed, Fetching, OffersKept, ToldApart;
    OffersBalance(w, r, k, [], OwnerIn(w, k).Offers());
    LiveUpdated(w.conns, c, conn);
    Cancel(Live(r.conns), Live(w.conns) + multiset{f}, LiveOn(w.conns[c]));
    if !Fetching(Live(w.conns), AcquisitionOf(f)) {
      TakenApart(Live(w.conns), f);
    }
    if !w.retaken.Get(Other(k)) {
      OthersApart(Live(w.conns), f, Other(k));
    }
  }

  lemma AnnouncedOwners(b: Board, raw: u32, k: Sel, offer: Option<OfferId>, mimes: seq<string>)
    ensures var (r, fx) := Announced(b, raw, k, offer, mimes);
            var o := b.sels.Get(k).owner;
            && r.sels.Get(Other(k)) == b.sels.Get(Other(k))
            && (if fx.notify.None?
                then r.sels.Get(k).owner == o && !o.Wayland? && fx.cleared.None? && fx.destroy == Listed(offer)
                else r.sels.Get(k).owner == OwnerOf(offer, mimes) && fx.cleared == ClearedOf(o)
                     && fx.destroy == o.Offers() && fx.notify.value.owner == OwnerOf(offer, mimes).Window())
  {
    hide MatchesFront, ServerClock.NextTimestamp, ServerClock.ServerTime, ServerClock.NotedFloor;
  }

  lemma DeliveredHands(w: World, k: Sel, raw: u32)
    requires XSide(w) && w.stream.Get(k) != []
    ensures var a := w.stream.Get(k)[0];
            var (b, fx) := Announced(w.board, raw, k, a.offer, a.mimes);
            var m := DeliverStep(w, k, raw);
            if fx.notify.None?
            then !OwnerIn(w, k).Wayland?
                 && ChangedHands(w, m, k, OwnerIn(w, k), w.due.Get(k), w.holders.Get(k), Listed(a.offer), Listed(a.offer))
            else ChangedHands(w, m, k, OwnerOf(a.offer, a.mimes), OwnerOf(a.offer, a.mimes).Window(), {},
                              Listed(a.offer), OwnerIn(w, k).Offers())
  {
    hide Announced, XSide, CanOwn, Known;
    var a := w.stream.Get(k)[0];
    AnnouncedOwners(w.board, raw, k, a.offer, a.mimes);
    HoldersOf(w, k);
    SetSame(w.due, k);
    SetSame(w.holders, k);
    var o := OwnerIn(w, k);
    var (b, fx) := Announced(w.board, raw, k, a.offer, a.mimes);
    var m := DeliverStep(w, k, raw);
    if fx.notify.Some? && o.X? {
      var left := w.holders.Get(k) - {o.x.client};
      assert left == {};
      assert m.holders == w.holders.Set(k, left);
    }
  }

  lemma OwnerOfOffers(offer: Option<OfferId>, mimes: seq<string>)
    ensures OwnerOf(offer, mimes).Offers() == Listed(offer)
  {
  }

  lemma AnnounceOffers(w: World, k: Sel, raw: u32)
    requires XSide(w) && w.stream.Get(k) != []
    ensures OffersKept(DeliverStep(w, k, raw))
  {
    hide DeliverStep, Announced, Known, TablesFit, FetchesKept, Apart, CanOwn, OffersKept;
    var a := w.stream.Get(k)[0];
    var m := DeliverStep(w, k, raw);
    DeliveredHands(w, k, raw);
    OwnerOfOffers(a.offer, a.mimes);
    if Announced(w.board, raw, k, a.offer, a.mimes).1.notify.None? {
      OffersBalance(w, m, k, Listed(a.offer), Listed(a.offer));
    } else {
      OffersBalance(w, m, k, Listed(a.offer), OwnerIn(w, k).Offers());
    }
  }

  lemma AnnounceKnown(w: World, k: Sel, raw: u32)
    requires XSide(w) && w.stream.Get(k) != []
    ensures Known(DeliverStep(w, k, raw), k)
  {
    hide DeliverStep, Announced, Live, TablesFit, FetchesKept, Apart, LiveOn, Fetching, CanOwn, OffersKept;
    DeliveredHands(w, k, raw);
    assert Known(w, k);
  }

  lemma AnnounceKept(w: World, k: Sel, raw: u32)
    requires XSide(w) && w.stream.Get(k) != []
    ensures XSide(DeliverStep(w, k, raw))
  {
    hide DeliverStep, Announced, Live, TablesFit, ToldApart, LiveOn, Fetching, CanOwn, Known, OffersKept;
    DeliveredHands(w, k, raw);
    AnnounceOffers(w, k, raw);
    AnnounceKnown(w, k, raw);
    AssembleXSide(w, DeliverStep(w, k, raw), k);
  }

  // --- every step ---

  lemma XSideStep(w: World, e: Step)
    requires Possible(w, e) && XSide(w)
    ensures XSide(Act(w, e))
  {
    hide XSide, Carry, GoneStep, TakeStep, DeliverStep, XReleased;
    match e
    case Take(c, k, window, time, raw, now) => TakeKept(w, c, k, window, time, raw, now);
    case Release(_, k, time, raw, now) => ReleaseKept(w, k, time, raw, now);
    case Resolve(c, raw, now) => ResolveKept(w, c, raw, now);
    case WindowGone(c, k, window, raw, now) => GoneKept(w, c, k, Some(window), WindowDestroy, raw, now);
    case CloseNext(c, raw, now) => CloseKept(w, c, raw, now);
    case Announce(k, raw) => AnnounceKept(w, k, raw);
    case Join(_) => OwnBusinessKept(w, e);
    case StartFetch(_) => OwnBusinessKept(w, e);
    case Notified(_, _, _, _, _) => OwnBusinessKept(w, e);
    case Chunk(_, _, _, _) => OwnBusinessKept(w, e);
    case Sweep(_, _, _) => OwnBusinessKept(w, e);
    case Hangup(_) => OwnBusinessKept(w, e);
    case PostOther(_, _) => JobStepsKept(w, e);
    case SweepJobs(_) => JobStepsKept(w, e);
    case TakeJobs => JobStepsKept(w, e);
    case RunJob => JobStepsKept(w, e);
    case ForeignSet(_, _) => JobStepsKept(w, e);
  }

  // --- the compositor side ---

  lemma ProtocolKept(w: World, e: Step, k: Sel)
    requires Possible(w, e) && Holds(ViewOf(w, k), w.mishaps.Get(k))
    ensures Holds(ViewOf(Act(w, e), k), MetBy(w, e, k))
  {
    hide Act, MoveOf, Moved, Holds, ViewOf, Mishaps, Enabled, Possible;
    StepsAreMoves(w, e, k);
    MoveHolds(ViewOf(w, k), MoveOf(w, e, k), w.mishaps.Get(k));
  }

  /** Only a second answer for the same acquisition can fail an owner that has its value. */
  lemma OnlyFailuresResolveTwice(w: World, e: Step, k: Sel)
    requires Possible(w, e) && Enabled(ViewOf(w, k), MoveOf(w, e, k))
    requires ResolvedTwice in Mishaps(ViewOf(w, k), MoveOf(w, e, k))
    ensures e.Resolve? && e.c in w.conns && w.conns[e.c].busy.Resolving? && w.conns[e.c].busy.rs != []
    ensures var f := w.conns[e.c].busy.rs[0];
            && f.fetch.kind == k && OwnerIn(w, k).IsAcquisition(f.fetch.owner, f.fetch.time)
            && OwnerIn(w, k).x.data.Some?
  {
    hide Sent, Accepts, XTook, XReleased, FetchTable.Expired;
    assert MoveOf(w, e, k).Fail?;
  }

  lemma ResolvingIsLive(w: World, c: ClientId)
    requires c in w.conns && w.conns[c].busy.Resolving? && w.conns[c].busy.rs != []
    ensures Live(w.conns)[w.conns[c].busy.rs[0].fetch] >= 1
  {
    ResolvedLive(w.conns[c]);
    LiveMember(w.conns, c);
    hide Live, LiveOn;
    assert LiveOn(w.conns[c])[w.conns[c].busy.rs[0].fetch] >= 1;
  }

  lemma NeverResolvedTwice(w: World, e: Step, k: Sel)
    requires Possible(w, e) && XSide(w) && !w.retaken.Get(k)
    requires Enabled(ViewOf(w, k), MoveOf(w, e, k))
    ensures ResolvedTwice !in Mishaps(ViewOf(w, k), MoveOf(w, e, k))
  {
    hide ViewOf, MoveOf, Mishaps, Enabled, Possible, Live, LiveOn, Watched, Believed, OffersKept, TablesFit,
         FetchesKept, Apart;
    assert Known(w, k);
    if ResolvedTwice in Mishaps(ViewOf(w, k), MoveOf(w, e, k)) {
      OnlyFailuresResolveTwice(w, e, k);
      ResolvingIsLive(w, e.c);
      assert false;
    }
  }

  lemma CompositorKept(w: World, e: Step, k: Sel)
    requires Possible(w, e) && Invariant(w) && CompositorSide(w, k)
    ensures Holds(ViewOf(Act(w, e), k), MetBy(w, e, k))
    ensures !w.retaken.Get(k) ==> ResolvedTwice !in MetBy(w, e, k)
  {
    hide Act, MoveOf, Moved, Holds, ViewOf, Mishaps, Enabled, Possible, XSide;
    ProtocolKept(w, e, k);
    StepsAreMoves(w, e, k);
    if !w.retaken.Get(k) {
      NeverResolvedTwice(w, e, k);
    }
  }

  lemma NextIs(w: World, e: Step)
    requires Possible(w, e)
    ensures var r := Next(w, e);
            && r == Act(w, e).(mishaps := r.mishaps)
            && (forall k: Sel :: r.mishaps.Get(k) == MetBy(w, e, k))
            && (forall k: Sel :: ViewOf(r, k) == ViewOf(Act(w, e), k))
            && (forall k: Sel :: w.retaken.Get(k) ==> Act(w, e).retaken.Get(k))
  {
    RetakenStays(w, e);
    hide Act, Sent, MetBy, Possible;
  }

  lemma RetakenStays(w: World, e: Step)
    requires Possible(w, e)
    ensures forall k: Sel :: w.retaken.Get(k) ==> Act(w, e).retaken.Get(k)
  {
    hide ClipJobs.Post, XTook, XReleased, XOwnerGone, Announced, ResolveResult, FetchTable.Begin, FetchTable.Answer,
         FetchTable.Push, FetchTable.Unexpired, FetchTable.Expired, Live;
  }

  lemma InvariantStep(w: World, e: Step)
    requires Possible(w, e) && Invariant(w)
    ensures Invariant(Next(w, e))
  {
    hide Next, Act, MetBy, XSide, Holds, ViewOf, Possible;
    NextIs(w, e);
    XSideStep(w, e);
    CompositorKept(w, e, Clipboard);
    CompositorKept(w, e, Primary);
    XSideMishaps(Act(w, e), Next(w, e));
  }

  lemma XSideMishaps(w: World, r: World)
    requires XSide(w) && r == w.(mishaps := r.mishaps)
    ensures XSide(r)
  {
    hide XSide;
    NothingChanged(w, r);
  }

  // --- runs ---

  function Start(publishable: Two<bool>, running: bool): World {
    var idle := (p: bool) => SelState(Nobody, 0, 0, [], false, p);
    World(Board(Two(idle(publishable.clipboard), idle(publishable.primary)), 0, 0),
          ClipJobs.Queue([], running), [], Two(NOTHING_SHOWN, NOTHING_SHOWN), Two([], []), 0, map[],
          Two(0, 0), Two({}, {}), multiset{}, multiset{}, multiset{}, multiset{}, Two(false, false), Two({}, {}))
  }

  ghost predicate Run(ws: seq<World>, es: seq<Step>) {
    && |ws| == |es| + 1
    && (exists p: Two<bool>, running: bool :: ws[0] == Start(p, running))
    && forall i :: 0 <= i < |es| ==> Possible(ws[i], es[i]) && ws[i + 1] == Next(ws[i], es[i])
  }

  lemma StartHoldsX(p: Two<bool>, running: bool)
    ensures XSide(Start(p, running))
  {
    assert LiveCells(map[]) == map[];
    assert Live(map[]) == multiset{};
    hide Live, FetchTable.WellFormed;
  }

  lemma StartHoldsCompositor(p: Two<bool>, running: bool, k: Sel)
    ensures CompositorSide(Start(p, running), k)
  {
    var v := ViewOf(Start(p, running), k);
    assert Start(p, running).taken + Start(p, running).queue.jobs == [];
    assert v.sent == [] && v.stream == [] && v.echoes == [] && v.shown == NOTHING_SHOWN && v.owner == Nobody;
    hide ViewOf, Start;
    assert Holds(v, {});
  }

  lemma StartHolds(p: Two<bool>, running: bool)
    ensures Invariant(Start(p, running))
  {
    StartHoldsX(p, running);
    StartHoldsCompositor(p, running, Clipboard);
    StartHoldsCompositor(p, running, Primary);
    hide XSide, CompositorSide, Start;
  }

  lemma {:induction false} RunsKeepInvariant(ws: seq<World>, es: seq<Step>)
    requires Run(ws, es)
    ensures forall i :: 0 <= i < |ws| ==> Invariant(ws[i])
  {
    hide Invariant, Next, Possible, Start;
    var p: Two<bool>, running: bool :| ws[0] == Start(p, running);
    StartHolds(p, running);
    if es != [] {
      var n := |es|;
      RunsKeepInvariant(ws[..n], es[..n - 1]);
      assert ws[n - 1] == ws[..n][n - 1];
      InvariantStep(ws[n - 1], es[n - 1]);
    }
  }

  /** Agreement. In any run where no acquisition of `k` is repeated while its fetch is out: once nothing of `k` is in
      flight, an X owner whose value is `d` means the compositor's selection is our source, carrying exactly `d`, if
      no post was refused and no lookalike taken for an echo. If no more echoes were owed than can be recorded
      either, none is left over, and `published` holds exactly if the source shown is ours. */
  lemma BothSidesAgree(ws: seq<World>, es: seq<Step>, k: Sel)
    requires Run(ws, es)
    requires |ws| == |es| + 1 && var w := ws[|es|]; w.stream.Get(k) == [] && Sent(w.taken + w.queue.jobs, k) == []
    ensures var w := ws[|es|];
            && (!w.retaken.Get(k) && w.board.sels.Get(k).publishable && w.mishaps.Get(k) !! {Misattributed, PostRefused}
                && OwnerIn(w, k).X? && OwnerIn(w, k).x.data.Some?
                ==> w.shown.Get(k).ours && w.shown.Get(k).offer.Some? && w.shown.Get(k).value == OwnerIn(w, k).x.data)
            && (OwnerIn(w, k).Wayland?
                ==> w.shown.Get(k).offer == Some(OwnerIn(w, k).offer) && w.shown.Get(k).mimes == OwnerIn(w, k).mimes)
            && (w.mishaps.Get(k) !! {EchoOverflow, Misattributed} ==> w.board.sels.Get(k).echoes == [])
            && (w.mishaps.Get(k) !! {EchoOverflow, Misattributed, PostRefused}
                ==> (w.board.sels.Get(k).published <==> w.shown.Get(k).ours && w.shown.Get(k).offer.Some?))
  {
    hide Next, Possible, XSide, Run, Sent;
    RunsKeepInvariant(ws, es);
    RunIsLong(ws, es);
    var w := ws[|es|];
    assert CompositorSide(w, k);
    assert Owed([]) == [] && Kinds([]) == [];
  }

  lemma RunIsLong(ws: seq<World>, es: seq<Step>)
    requires Run(ws, es)
    ensures |ws| == |es| + 1
  {
  }

  /** The news called for is true: at every moment the owner in the last notification a transition called for is the
      owner, unless that is an X acquisition whose fetch its connection, still there, has yet to resolve; and the
      clients no SelectionClear has been called for are the X owner's. */
  lemma NewsCalledForIsTrue(ws: seq<World>, es: seq<Step>, i: nat, k: Sel)
    requires Run(ws, es) && i < |ws|
    ensures var w := ws[i];
            var o := OwnerIn(w, k);
            || w.due.Get(k) == o.Window()
            || (&& o.X? && o.x.client in w.conns && !w.conns[o.x.client].busy.Gone?
                && Fetching(LiveOn(w.conns[o.x.client]), OwnAcquisition(o.x, k)))
    ensures ws[i].holders.Get(k) == if OwnerIn(ws[i], k).X? then {OwnerIn(ws[i], k).x.client} else {}
  {
    hide Next, Possible, Holds, ViewOf, OffersKept, TablesFit, FetchesKept, Apart, Live, LiveOn, Fetching, Run;
    RunsKeepInvariant(ws, es);
    assert Invariant(ws[i]);
    assert Known(ws[i], k);
  }

  /** Every offer announced so far is a current owner's, or has been handed out to be destroyed,
      exactly once; and every fetch begun is out or resolved, exactly once. */
  lemma NothingIsLostOrDoubled(ws: seq<World>, es: seq<Step>, i: nat)
    requires Run(ws, es) && i < |ws|
    ensures OffersKept(ws[i]) && FetchesKept(ws[i])
  {
    hide Next, Possible, Holds, ViewOf, OffersKept, TablesFit, FetchesKept, Apart, Known, Run;
    RunsKeepInvariant(ws, es);
    assert Invariant(ws[i]);
  }
}
