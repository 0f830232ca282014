/** The generation number, over whole runs of the bridge: a conversion prepared for one owner
    is never carried out against another. The times the board keeps, step by step, besides. */
module OfferGenerations {
  import opened BridgeTypes
  import opened ClipboardState
  import opened BridgeWorld
  import BridgeRuns
  import ServerClock
  import ClipJobs

  /** The same owner, whatever has become known of its value. */
  predicate Alike(a: Owner, b: Owner) {
    if a.X? then b.X? && a.x.(data := None) == b.x.(data := None) else a == b
  }

  /** One step: the same owner under the same generation, or the next generation. */
  predicate Follows(a: SelState, b: SelState) {
    || (b.generation == a.generation && Alike(a.owner, b.owner))
    || b.generation == (a.generation + 1) % TWO_TO_64
  }

  lemma ReleaseFollows(b: Board, q: ClipJobs.Queue, raw: u32, k: Sel, time: u32, now: Millis, j: Sel)
    ensures Follows(b.sels.Get(j), XReleased(b, q, raw, k, time, now).board.sels.Get(j))
  {
    var s := b.sels.Get(k);
    var left := ChangedAt(if s.owner.X? then b.With(k, Enter(s, Nobody)) else b, k, time);
    BridgeRuns.PublishKeepsOwners(left, q, k, None, now, j);
    hide Withdraw, ServerClock.TimeCmp, ServerClock.ServerTime;
  }

  lemma GoneFollows(w: World, c: ClientId, k: Sel, window: Option<u32>, subtype: Subtype, raw: u32, now: Millis, j: Sel)
    ensures Follows(w.board.sels.Get(j), GoneStep(w, c, k, window, subtype, raw, now).board.sels.Get(j))
  {
    var s := w.board.sels.Get(k);
    BridgeRuns.PublishKeepsOwners(w.board.With(k, Enter(s, Nobody)), w.queue, k, None, now, j);
    hide Withdraw, ServerClock.ServerTime, ClipJobs.Post;
  }

  lemma ResolveFollows(w: World, r: BridgeWorld.FetchTable.Resolution, raw: u32, now: Millis, j: Sel)
    ensures Follows(w.board.sels.Get(j), ResolveResult(w, r, raw, now).board.sels.Get(j))
  {
    var k := r.fetch.kind;
    var s := w.board.sels.Get(k);
    BridgeRuns.PublishKeepsOwners(w.board, w.queue, k, None, now, j);
    if s.owner.X? {
      BridgeRuns.PublishKeepsOwners(w.board.With(k, s.(owner := X(s.owner.x.(data := r.data)))), w.queue, k, r.data, now, j);
    }
    hide Withdraw, ClipboardState.Publish, ServerClock.ServerTime;
  }

  lemma AnnouncedFollows(b: Board, raw: u32, k: Sel, offer: Option<OfferId>, mimes: seq<string>, j: Sel)
    ensures Follows(b.sels.Get(j), Announced(b, raw, k, offer, mimes).0.sels.Get(j))
  {
    hide MatchesFront, ServerClock.NextTimestamp, ServerClock.ServerTime, ServerClock.NotedFloor;
  }

  lemma TookFollows(b: Board, raw: u32, k: Sel, window: u32, c: ClientId, time: u32, j: Sel)
    ensures Follows(b.sels.Get(j), XTook(b, raw, k, window, c, time).0.sels.Get(j))
  {
    hide ServerClock.StaleOwnerTime, ServerClock.TimeCmp;
  }

  lemma StepFollows(w: World, e: Step, k: Sel)
    requires Possible(w, e)
    ensures Follows(w.board.sels.Get(k), Next(w, e).board.sels.Get(k))
  {
    hide Follows, XTook, XReleased, Announced, ResolveResult, GoneStep, ClipJobs.Post, MetBy,
         BridgeWorld.FetchTable.Begin, BridgeWorld.FetchTable.Answer, BridgeWorld.FetchTable.Push,
         BridgeWorld.FetchTable.Unexpired, BridgeWorld.FetchTable.Expired;
    SameFollows(w.board.sels.Get(k));
    match e
    case Take(c, j, window, time, raw, _) => TookFollows(w.board, raw, j, window, c, time, k);
    case Release(_, j, time, raw, now) => ReleaseFollows(w.board, w.queue, raw, j, time, now, k);
    case Resolve(c, raw, now) => ResolveFollows(w, w.conns[c].busy.rs[0], raw, now, k);
    case WindowGone(c, j, window, raw, now) => GoneFollows(w, c, j, Some(window), WindowDestroy, raw, now, k);
    case CloseNext(c, raw, now) => GoneFollows(w, c, w.conns[c].busy.left[0], None, ClientClose, raw, now, k);
    case Announce(j, raw) =>
      var a := w.stream.Get(j)[0];
      AnnouncedFollows(w.board, raw, j, a.offer, a.mimes, k);
    case _ =>
  }

  lemma SameFollows(s: SelState)
    ensures Follows(s, s)
  {
  }

  /** The generation counts the owners there have been since, and none since means the same one. */
  ghost predicate Counted(a: SelState, b: SelState, n: nat) {
    b.generation == (a.generation + n) % TWO_TO_64 && (n == 0 ==> Alike(a.owner, b.owner))
  }

  lemma CountOne(a: SelState, b: SelState, c: SelState, n: nat) returns (m: nat)
    requires Counted(a, b, n) && Follows(b, c)
    ensures Counted(a, c, m) && m <= n + 1
  {
    m := if c.generation == b.generation && Alike(b.owner, c.owner) then n else n + 1;
  }

  lemma {:induction false} GenerationsCount(ws: seq<World>, es: seq<Step>, i: nat, j: nat, k: Sel) returns (n: nat)
    requires BridgeRuns.Run(ws, es) && i <= j < |ws|
    ensures n <= j - i
    ensures Counted(ws[i].board.sels.Get(k), ws[j].board.sels.Get(k), n)
    decreases j
  {
    hide Next, Possible, Follows, Counted;
    if i == j {
      n := 0;
      SelfCounted(ws[i].board.sels.Get(k));
    } else {
      n := GenerationsCount(ws, es, i, j - 1, k);
      var w, e := ws[j - 1], es[j - 1];
      assert Possible(w, e) && ws[j] == Next(w, e);
      hide BridgeRuns.Run;
      StepFollows(w, e, k);
      n := CountOne(ws[i].board.sels.Get(k), w.board.sels.Get(k), ws[j].board.sels.Get(k), n);
    }
  }

  lemma SelfCounted(s: SelState)
    ensures Counted(s, s, 0)
  {
  }

  /** In any run short of 2^64 steps: a conversion prepared from the mimes and generation seen at
      one moment is given an offer later only if it is the very offer those mimes came with. */
  lemma OffersAreTheOnesSeen(ws: seq<World>, es: seq<Step>, i: nat, j: nat, k: Sel)
    requires BridgeRuns.Run(ws, es) && i <= j < |ws| && j - i < TWO_TO_64
    requires OfferAt(ws[j].board.sels.Get(k), Convertible(ws[i].board.sels.Get(k)).1).Some?
    ensures ws[i].board.sels.Get(k).owner
         == Wayland(OfferAt(ws[j].board.sels.Get(k), Convertible(ws[i].board.sels.Get(k)).1).value,
                    Convertible(ws[i].board.sels.Get(k)).0)
  {
    var n := GenerationsCount(ws, es, i, j, k);
    hide BridgeRuns.Run;
    assert n == 0;
  }

  /** Every step leaves the times alone or is one change of the clock's. */
  lemma StepsFollowTheClock(w: World, e: Step)
    requires Possible(w, e)
    ensures var before, after := StampsOf(w.board), StampsOf(Next(w, e).board);
            || after == before
            || (e.Take? && after == ServerClock.WrappedStep(before, e.raw, ServerClock.FromClient(e.k, e.time)))
            || (e.Release? && after == ServerClock.WrappedStep(before, e.raw, ServerClock.FromClient(e.k, e.time)))
            || (e.Announce? && after == ServerClock.WrappedStep(before, e.raw, ServerClock.FromWayland(e.k)))
  {
    hide StampsOf, ServerClock.WrappedStep, XTook, XReleased, XFetched, XFetchFailed, XOwnerGone, Announced,
         ClipJobs.Post, MetBy, BridgeWorld.FetchTable.Begin, BridgeWorld.FetchTable.Answer,
         BridgeWorld.FetchTable.Push, BridgeWorld.FetchTable.Unexpired, BridgeWorld.FetchTable.Expired;
    match e
    case Take(c, k, window, time, raw, now) =>
      RequestsFollowTheClock(w.board, w.queue, raw, k, window, c, time, [], ClientClose, now);
    case Release(c, k, time, raw, now) =>
      RequestsFollowTheClock(w.board, w.queue, raw, k, 0, c, time, [], ClientClose, now);
    case Resolve(c, raw, now) =>
      var r := w.conns[c].busy.rs[0];
      RequestsFollowTheClock(w.board, w.queue, raw, r.fetch.kind, r.fetch.owner, 0, r.fetch.time,
                             if r.data.Some? then r.data.value else [], ClientClose, now);
    case WindowGone(c, k, window, raw, now) =>
      RequestsFollowTheClock(w.board, w.queue, raw, k, 0, c, 0, [], WindowDestroy, now);
    case CloseNext(c, raw, now) =>
      RequestsFollowTheClock(w.board, w.queue, raw, w.conns[c].busy.left[0], 0, c, 0, [], ClientClose, now);
    case Announce(k, raw) =>
      var a := w.stream.Get(k)[0];
      AnnouncementsFollowTheClock(w.board, raw, k, a.offer, a.mimes);
    case _ =>
  }
}
