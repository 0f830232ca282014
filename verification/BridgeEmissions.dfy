/** Carrying out what the transitions call for. A transition hands its effects to the thread that made it; the thread
    carries them out afterwards, one by one, with the clipboard unlocked, while other threads go on. What is told is
    told here to any one watcher: each has an outbox of its own. */
module BridgeEmissions {
  import opened BridgeTypes
  import opened ClipboardState
  import opened EchoProtocol
  import opened BridgeWorld
  import opened BridgeRuns
  import ClipJobs
  import MapSum

  datatype Thread = Connection(c: ClientId) | WaylandThread

  /** One thing to carry out; news of a selection is numbered in the order of the transitions that called for it. */
  datatype Call =
    | Return(offers: seq<OfferId>)
    | Clear(k: Sel, client: ClientId)
    | Tell(k: Sel, owner: u32, n: nat)

  /** `news` are the owners in the notifications called for, in order, after the nobody that X starts with; `called`
      and `done` are all calls, as made and as carried out. `crowded`: when the last news of a selection was called
      for, some earlier news of it was still to be told. */
  datatype Bridge = Bridge(
    world: World,
    owed: map<Thread, seq<Call>>,
    news: Two<seq<u32>>,
    called: seq<Call>,
    done: seq<Call>,
    crowded: Two<bool>)

  datatype Doing =
    | Moves(e: BridgeWorld.Step)
    | Carries(t: Thread, now: Millis)

  function ThreadOf(e: BridgeWorld.Step): Option<Thread> {
    match e
    case PostOther(_, _) => None
    case SweepJobs(_) => None
    case ForeignSet(_, _) => None
    case TakeJobs => Some(WaylandThread)
    case RunJob => Some(WaylandThread)
    case Announce(_, _) => Some(WaylandThread)
    case _ => Some(Connection(e.c))
  }

  function OwedBy(b: Bridge, t: Thread): seq<Call> {
    if t in b.owed then b.owed[t] else []
  }

  // --- what a step calls for ---

  ghost function EffectsOf(w: World, e: BridgeWorld.Step): Option<(Sel, Effects)>
    requires BridgeWorld.Possible(w, e)
  {
    match e
    case Take(c, k, window, time, raw, _) =>
      var fx := XTook(w.board, raw, k, window, c, time).1;
      if fx.Some? then Some((k, fx.value)) else None
    case Release(_, k, time, raw, now) => Of(k, XReleased(w.board, w.queue, raw, k, time, now))
    case Resolve(c, raw, now) =>
      var r := w.conns[c].busy.rs[0];
      Of(r.fetch.kind, ResolveResult(w, r, raw, now))
    case WindowGone(c, k, window, raw, now) => Of(k, XOwnerGone(w.board, w.queue, raw, k, c, Some(window), WindowDestroy, now))
    case CloseNext(c, raw, now) =>
      var k := w.conns[c].busy.left[0];
      Of(k, XOwnerGone(w.board, w.queue, raw, k, c, None, ClientClose, now))
    case Announce(k, raw) =>
      var a := w.stream.Get(k)[0];
      Some((k, Announced(w.board, raw, k, a.offer, a.mimes).1))
    case _ => None
  }

  function Of(k: Sel, r: Result): Option<(Sel, Effects)> {
    if r.effects.Some? then Some((k, r.effects.value)) else None
  }

  ghost function OffersToReturn(w: World, e: BridgeWorld.Step): seq<OfferId>
    requires BridgeWorld.Possible(w, e)
  {
    var fx := EffectsOf(w, e);
    if fx.Some? then fx.value.1.destroy else []
  }

  /** A client that takes a selection on our own window has nothing to be asked for, so it is news at once. */
  ghost function NewsOf(w: World, e: BridgeWorld.Step): Option<(Sel, u32)>
    requires BridgeWorld.Possible(w, e)
  {
    var fx := EffectsOf(w, e);
    if fx.None? then None
    else if e.Take? && e.window == OWNER_WINDOW then Some((e.k, OWNER_WINDOW))
    else if fx.value.1.notify.Some? then Some((fx.value.0, fx.value.1.notify.value.owner))
    else None
  }

  ghost function CallsOf(b: Bridge, e: BridgeWorld.Step): seq<Call>
    requires BridgeWorld.Possible(b.world, e)
  {
    var fx, news := EffectsOf(b.world, e), NewsOf(b.world, e);
    Assemble(OffersToReturn(b.world, e),
             if fx.Some? && fx.value.1.cleared.Some? then Some(Clear(fx.value.0, fx.value.1.cleared.value.client)) else None,
             if news.Some? then Some(Tell(news.value.0, news.value.1, |b.news.Get(news.value.0)|)) else None)
  }

  /** The order of one transition's calls: offers first, and news last, after the SelectionClear. */
  function Assemble(offers: seq<OfferId>, clear: Option<Call>, tell: Option<Call>): seq<Call> {
    (if offers == [] then [] else [Return(offers)])
    + (if clear.Some? then [clear.value] else [])
    + (if tell.Some? then [tell.value] else [])
  }

  predicate IsNews(call: Call, k: Sel) {
    call.Tell? && call.k == k
  }

  ghost predicate OwesNews(b: Bridge, k: Sel) {
    exists t :: t in b.owed && HasNews(b.owed[t], k)
  }

  predicate HasNews(calls: seq<Call>, k: Sel) {
    exists i :: 0 <= i < |calls| && IsNews(calls[i], k)
  }

  // --- steps ---

  ghost predicate Can(b: Bridge, d: Doing) {
    match d
    case Moves(e) => BridgeWorld.Possible(b.world, e) && (ThreadOf(e).Some? ==> OwedBy(b, ThreadOf(e).value) == [])
    case Carries(t, _) => OwedBy(b, t) != []
  }

  ghost function AfterMove(b: Bridge, e: BridgeWorld.Step): Bridge
    requires BridgeWorld.Possible(b.world, e)
  {
    var calls, news := CallsOf(b, e), NewsOf(b.world, e);
    var t := b.(world := BridgeWorld.Next(b.world, e), called := b.called + calls,
                owed := if ThreadOf(e).Some? then b.owed[ThreadOf(e).value := calls] else b.owed);
    if news.None? then t
    else
      var (k, owner) := news.value;
      t.(news := b.news.Set(k, b.news.Get(k) + [owner]), crowded := b.crowded.Set(k, OwesNews(b, k)))
  }

  /** Offers to be destroyed go on the Wayland thread's queue, while it runs. */
  ghost function WorldAfter(w: World, call: Call, now: Millis): World {
    if call.Return? && w.queue.running then BridgeWorld.Next(w, PostOther(ClipJobs.Destroy(call.offers), now)) else w
  }

  ghost function AfterCarry(b: Bridge, t: Thread, now: Millis): Bridge
    requires OwedBy(b, t) != []
  {
    var calls := b.owed[t];
    b.(world := WorldAfter(b.world, calls[0], now), owed := b.owed[t := calls[1..]], done := b.done + [calls[0]])
  }

  ghost function After(b: Bridge, d: Doing): Bridge
    requires Can(b, d)
  {
    match d
    case Moves(e) => AfterMove(b, e)
    case Carries(t, now) => AfterCarry(b, t, now)
  }

  function Begin(publishable: Two<bool>, running: bool): Bridge {
    Bridge(Start(publishable, running), map[], Two([0], [0]), [], [], Two(false, false))
  }

  ghost predicate Runs(bs: seq<Bridge>, ds: seq<Doing>) {
    && |bs| == |ds| + 1
    && (exists p: Two<bool>, running: bool :: bs[0] == Begin(p, running))
    && forall i :: 0 <= i < |ds| ==> Can(bs[i], ds[i]) && bs[i + 1] == After(bs[i], ds[i])
  }

  // --- what a watcher has heard ---

  /** The number of the last news of `k` carried out. */
  function LastTold(done: seq<Call>, k: Sel): nat {
    if done == [] then 0
    else if IsNews(done[|done| - 1], k) then done[|done| - 1].n
    else LastTold(done[..|done| - 1], k)
  }

  function LastOwner(done: seq<Call>, k: Sel): u32 {
    if done == [] then 0
    else if IsNews(done[|done| - 1], k) then done[|done| - 1].owner
    else LastOwner(done[..|done| - 1], k)
  }

  /** The owner a watcher of `k` was last told of. */
  function Heard(b: Bridge, k: Sel): u32 {
    LastOwner(b.done, k)
  }

  // --- the books ---

  ghost function Cells(owed: map<Thread, seq<Call>>): map<Thread, multiset<Call>> {
    map t | t in owed :: multiset(owed[t])
  }

  ghost function Outstanding(owed: map<Thread, seq<Call>>): multiset<Call> {
    MapSum.Sum(Cells(owed))
  }

  lemma OutstandingUpdated(owed: map<Thread, seq<Call>>, t: Thread, calls: seq<Call>)
    ensures t in owed ==> Outstanding(owed[t := calls]) + multiset(owed[t]) == Outstanding(owed) + multiset(calls)
    ensures t !in owed ==> Outstanding(owed[t := calls]) == Outstanding(owed) + multiset(calls)
  {
    hide MapSum.Sum;
    assert Cells(owed[t := calls]) == Cells(owed)[t := multiset(calls)];
    MapSum.Updated(Cells(owed), t, multiset(calls));
  }

  /** Every call is owed or carried out, once. */
  ghost predicate CallsKept(b: Bridge) {
    multiset(b.called) == multiset(b.done) + Outstanding(b.owed)
  }

  /** Every owner news is called for is news of its own number. */
  ghost predicate Numbered(called: seq<Call>, news: seq<u32>, k: Sel) {
    && news != [] && news[0] == 0
    && (forall i :: 0 <= i < |called| && IsNews(called[i], k) ==>
          0 < called[i].n < |news| && called[i].owner == news[called[i].n])
  }

  ghost predicate LastIsDue(b: Bridge, k: Sel) {
    b.news.Get(k) != [] && b.world.due.Get(k) == b.news.Get(k)[|b.news.Get(k)| - 1]
  }

  /** Unless the last news was crowded, it is all there is left to tell, or it was told last. */
  ghost predicate InOrder(b: Bridge, k: Sel) {
    !b.crowded.Get(k) ==>
      && (forall t, i :: t in b.owed && 0 <= i < |b.owed[t]| && IsNews(b.owed[t][i], k) ==>
            b.owed[t][i].n == |b.news.Get(k)| - 1)
      && (!OwesNews(b, k) ==> LastTold(b.done, k) == |b.news.Get(k)| - 1)
  }

  ghost function OffersIn(calls: seq<Call>): multiset<OfferId> {
    if calls == [] then multiset{} else
      var last := calls[|calls| - 1];
      OffersIn(calls[..|calls| - 1]) + (if last.Return? then multiset(last.offers) else multiset{})
  }

  ghost predicate Accounted(b: Bridge) {
    && CallsKept(b) && b.world.handedOut == OffersIn(b.called)
    && Numbered(b.called, b.news.clipboard, Clipboard) && Numbered(b.called, b.news.primary, Primary)
    && LastIsDue(b, Clipboard) && LastIsDue(b, Primary)
    && InOrder(b, Clipboard) && InOrder(b, Primary)
  }

  // --- what a step does to the books ---

  /** What a result of a transition enters in the books. */
  ghost predicate Entered(w: World, r: World, fx: Option<(Sel, Effects)>) {
    && r.handedOut == w.handedOut + multiset(if fx.Some? then fx.value.1.destroy else [])
    && forall k: Sel :: r.due.Get(k) == if fx.Some? && fx.value.1.notify.Some? && fx.value.0 == k
                                         then fx.value.1.notify.value.owner else w.due.Get(k)
  }

  lemma CarryEnters(w: World, k: Sel, r: Result)
    ensures Entered(w, Carry(w, k, r), Of(k, r))
  {
    assert w.handedOut + multiset([]) == w.handedOut;
  }

  lemma TakeEnters(w: World, e: BridgeWorld.Step)
    requires BridgeWorld.Possible(w, e) && e.Take?
    ensures var fx, r := EffectsOf(w, e), Act(w, e);
            && r.handedOut == w.handedOut + multiset(OffersToReturn(w, e))
            && (fx.Some? ==> fx.value.0 == e.k && fx.value.1.notify.None?)
            && forall k: Sel :: r.due.Get(k) == if fx.Some? && e.window == OWNER_WINDOW && k == e.k then OWNER_WINDOW else w.due.Get(k)
  {
    TookOwners(w.board, e.raw, e.k, e.window, e.c, e.time);
    hide XTook, Live, Fetching;
    assert w.handedOut + multiset([]) == w.handedOut;
  }

  lemma AnnounceEnters(w: World, e: BridgeWorld.Step)
    requires BridgeWorld.Possible(w, e) && e.Announce?
    ensures Entered(w, Act(w, e), EffectsOf(w, e))
  {
    hide Announced;
  }

  lemma QuietEnters(w: World, e: BridgeWorld.Step)
    requires BridgeWorld.Possible(w, e) && EffectsOf(w, e).None?
    requires OwnBusiness(e) || e.PostOther? || e.SweepJobs? || e.TakeJobs? || e.RunJob? || e.ForeignSet?
    ensures Act(w, e).handedOut == w.handedOut && Act(w, e).due == w.due
  {
    hide ClipJobs.Post, Live, BridgeRuns.FetchTable.Begin, BridgeRuns.FetchTable.Answer, BridgeRuns.FetchTable.Push,
         BridgeRuns.FetchTable.Unexpired, BridgeRuns.FetchTable.Expired;
  }

  lemma RequestEnters(w: World, e: BridgeWorld.Step)
    requires BridgeWorld.Possible(w, e) && (e.Release? || e.Resolve? || e.WindowGone? || e.CloseNext?)
    ensures Entered(w, Act(w, e), EffectsOf(w, e))
  {
    hide XReleased, ResolveResult, XOwnerGone, Carry, Entered;
    match e
    case Release(_, k, time, raw, now) => CarryEnters(w, k, XReleased(w.board, w.queue, raw, k, time, now));
    case Resolve(c, raw, now) =>
      var r := w.conns[c].busy.rs[0];
      CarryEnters(w, r.fetch.kind, ResolveResult(w, r, raw, now));
      EnteredFrame(w, Carry(w, r.fetch.kind, ResolveResult(w, r, raw, now)), Act(w, e), EffectsOf(w, e));
    case WindowGone(c, k, window, raw, now) => GoneEnters(w, c, k, Some(window), WindowDestroy, raw, now);
    case CloseNext(c, raw, now) =>
      var k := w.conns[c].busy.left[0];
      GoneEnters(w, c, k, None, ClientClose, raw, now);
      EnteredFrame(w, GoneStep(w, c, k, None, ClientClose, raw, now), Act(w, e), EffectsOf(w, e));
  }

  lemma GoneEnters(w: World, c: ClientId, k: Sel, window: Option<u32>, subtype: Subtype, raw: u32, now: Millis)
    ensures Entered(w, GoneStep(w, c, k, window, subtype, raw, now),
                    Of(k, XOwnerGone(w.board, w.queue, raw, k, c, window, subtype, now)))
  {
    hide XOwnerGone;
    CarryEnters(w, k, XOwnerGone(w.board, w.queue, raw, k, c, window, subtype, now));
  }

  lemma EnteredFrame(w: World, m: World, r: World, fx: Option<(Sel, Effects)>)
    requires Entered(w, m, fx) && r.due == m.due && r.handedOut == m.handedOut
    ensures Entered(w, r, fx)
  {
  }

  /** The transitions' books record exactly what is called for. */
  lemma BooksRecordCalls(w: World, e: BridgeWorld.Step, k: Sel)
    requires BridgeWorld.Possible(w, e)
    ensures var news := NewsOf(w, e);
            Next(w, e).due.Get(k) == if news.Some? && news.value.0 == k then news.value.1 else w.due.Get(k)
    ensures Next(w, e).handedOut == w.handedOut + multiset(OffersToReturn(w, e))
  {
    hide BridgeWorld.Possible, Act, MetBy, EffectsOf;
    assert w.handedOut + multiset([]) == w.handedOut;
    if e.Take? {
      TakeEnters(w, e);
    } else if e.Announce? {
      AnnounceEnters(w, e);
    } else if e.Release? || e.Resolve? || e.WindowGone? || e.CloseNext? {
      RequestEnters(w, e);
    } else {
      QuietHasNoEffects(w, e);
      QuietEnters(w, e);
    }
  }

  lemma QuietHasNoEffects(w: World, e: BridgeWorld.Step)
    requires BridgeWorld.Possible(w, e)
    requires OwnBusiness(e) || e.PostOther? || e.SweepJobs? || e.TakeJobs? || e.RunJob? || e.ForeignSet?
    ensures EffectsOf(w, e).None?
  {
  }

  // --- every step keeps the books ---

  lemma {:induction false} OffersInConcat(a: seq<Call>, b: seq<Call>)
    ensures OffersIn(a + b) == OffersIn(a) + OffersIn(b)
  {
    if b == [] {
      assert a + b == a;
    } else {
      assert (a + b)[..|a + b| - 1] == a + b[..|b| - 1];
      OffersInConcat(a, b[..|b| - 1]);
    }
  }

  lemma OffersInOne(call: Call)
    ensures OffersIn([call]) == if call.Return? then multiset(call.offers) else multiset{}
  {
    assert [call][..0] == [];
  }

  lemma AssembledOffers(offers: seq<OfferId>, clear: Option<Call>, tell: Option<Call>)
    requires (clear.Some? ==> clear.value.Clear?) && (tell.Some? ==> tell.value.Tell?)
    ensures OffersIn(Assemble(offers, clear, tell)) == multiset(offers)
  {
    var returned := if offers == [] then [] else [Return(offers)];
    var cleared := if clear.Some? then [clear.value] else [];
    var told := if tell.Some? then [tell.value] else [];
    assert OffersIn(returned) == multiset(offers) by { OffersInOne(Return(offers)); }
    assert OffersIn(cleared) == multiset{} by { if clear.Some? { OffersInOne(clear.value); } }
    assert OffersIn(told) == multiset{} by { if tell.Some? { OffersInOne(tell.value); } }
    OffersInConcat(returned + cleared, told);
    OffersInConcat(returned, cleared);
    hide OffersIn;
  }

  lemma AssembledNews(offers: seq<OfferId>, clear: Option<Call>, tell: Option<Call>, k: Sel)
    requires (clear.Some? ==> clear.value.Clear?) && (tell.Some? ==> tell.value.Tell?)
    ensures var calls := Assemble(offers, clear, tell);
            && (HasNews(calls, k) <==> tell.Some? && tell.value.k == k)
            && (forall i :: 0 <= i < |calls| && IsNews(calls[i], k) ==> tell == Some(calls[i]))
  {
    var returned := if offers == [] then [] else [Return(offers)];
    var cleared := if clear.Some? then [clear.value] else [];
    var told := if tell.Some? then [tell.value] else [];
    var calls := Assemble(offers, clear, tell);
    var n := |returned + cleared|;
    assert calls == returned + cleared + told;
    hide Assemble;
    assert forall i :: 0 <= i < n ==> calls[i] == (returned + cleared)[i] && !(returned + cleared)[i].Tell?;
    assert forall i :: n <= i < |calls| ==> calls[i] == told[i - n];
    if tell.Some? {
      assert calls[n] == tell.value;
    }
  }

  /** What a step calls for: the offers to be returned, and its news under the next number. */
  lemma CallsAre(b: Bridge, e: BridgeWorld.Step, k: Sel)
    requires BridgeWorld.Possible(b.world, e)
    ensures var calls, news := CallsOf(b, e), NewsOf(b.world, e);
            && OffersIn(calls) == multiset(OffersToReturn(b.world, e))
            && (HasNews(calls, k) <==> news.Some? && news.value.0 == k)
            && (forall i :: 0 <= i < |calls| && IsNews(calls[i], k) ==>
                  news.Some? && news.value.0 == k && calls[i] == Tell(k, news.value.1, |b.news.Get(k)|))
            && (ThreadOf(e).None? ==> calls == [] && news.None?)
  {
    var fx, offers, news := EffectsOf(b.world, e), OffersToReturn(b.world, e), NewsOf(b.world, e);
    if ThreadOf(e).None? {
      QuietHasNoEffects(b.world, e);
      assert CallsOf(b, e) == [] && news.None?;
    }
    hide EffectsOf, OffersToReturn, NewsOf, ThreadOf, BridgeWorld.Possible, HasNews, OffersIn, Assemble;
    var clear := if fx.Some? && fx.value.1.cleared.Some? then Some(Clear(fx.value.0, fx.value.1.cleared.value.client)) else None;
    var tell := if news.Some? then Some(Tell(news.value.0, news.value.1, |b.news.Get(news.value.0)|)) else None;
    var calls := CallsOf(b, e);
    assert calls == Assemble(offers, clear, tell);
    hide CallsOf;
    AssembledOffers(offers, clear, tell);
    AssembledNews(offers, clear, tell, k);
  }

  lemma NowOwed(owed: map<Thread, seq<Call>>, t: Thread, calls: seq<Call>)
    requires t in owed ==> owed[t] == []
    ensures Outstanding(owed[t := calls]) == Outstanding(owed) + multiset(calls)
  {
    hide Outstanding;
    OutstandingUpdated(owed, t, calls);
    if t in owed {
      assert Outstanding(owed[t := calls]) + multiset(owed[t]) == Outstanding(owed[t := calls]);
    }
  }

  lemma MoveKeepsCalls(b: Bridge, e: BridgeWorld.Step)
    requires Can(b, Moves(e)) && CallsKept(b)
    ensures CallsKept(AfterMove(b, e))
  {
    hide BridgeWorld.Possible, NewsOf, OffersToReturn, Outstanding, OffersIn, BridgeWorld.Next, HasNews, CallsOf;
    var calls := CallsOf(b, e);
    CallsAre(b, e, Clipboard);
    if ThreadOf(e).Some? {
      NowOwed(b.owed, ThreadOf(e).value, calls);
      var r := AfterMove(b, e);
      assert r.called == b.called + calls && r.done == b.done && r.owed == b.owed[ThreadOf(e).value := calls];
      hide AfterMove;
      assert multiset(b.called + calls) == multiset(b.called) + multiset(calls);
      KeptGrows(multiset(b.called), multiset(b.done), Outstanding(b.owed), multiset(calls));
    } else {
      assert b.called + [] == b.called;
    }
  }

  lemma KeptGrows(called: multiset<Call>, done: multiset<Call>, owed: multiset<Call>, calls: multiset<Call>)
    requires called == done + owed
    ensures called + calls == done + (owed + calls)
  {
  }

  lemma MoveKeepsOffers(b: Bridge, e: BridgeWorld.Step)
    requires Can(b, Moves(e)) && b.world.handedOut == OffersIn(b.called)
    ensures var r := AfterMove(b, e); r.world.handedOut == OffersIn(r.called)
  {
    hide BridgeWorld.Possible, NewsOf, OffersToReturn, OffersIn, BridgeWorld.Next, HasNews, CallsOf;
    CallsAre(b, e, Clipboard);
    BooksRecordCalls(b.world, e, Clipboard);
    OffersInConcat(b.called, CallsOf(b, e));
  }

  lemma NumbersGrow(called: seq<Call>, calls: seq<Call>, news: seq<u32>, more: seq<u32>, k: Sel)
    requires Numbered(called, news, k)
    requires forall i :: 0 <= i < |calls| && IsNews(calls[i], k) ==> calls[i].n == |news| && more == [calls[i].owner]
    ensures Numbered(called + calls, news + more, k)
  {
    var all := called + calls;
    forall i | 0 <= i < |all| && IsNews(all[i], k)
      ensures 0 < all[i].n < |news + more| && all[i].owner == (news + more)[all[i].n]
    {
      if i < |called| {
        assert all[i] == called[i];
      } else {
        assert all[i] == calls[i - |called|];
      }
    }
  }

  lemma MoveKeepsNumbers(b: Bridge, e: BridgeWorld.Step, k: Sel)
    requires Can(b, Moves(e)) && Numbered(b.called, b.news.Get(k), k) && LastIsDue(b, k)
    ensures var r := AfterMove(b, e); Numbered(r.called, r.news.Get(k), k) && LastIsDue(r, k)
  {
    hide BridgeWorld.Possible, NewsOf, OffersToReturn, BridgeWorld.Next, OffersIn, OwesNews, HasNews, CallsOf, Numbered;
    var calls, news := CallsOf(b, e), NewsOf(b.world, e);
    CallsAre(b, e, k);
    BooksRecordCalls(b.world, e, k);
    var more := if news.Some? && news.value.0 == k then [news.value.1] else [];
    NumbersGrow(b.called, calls, b.news.Get(k), more, k);
    assert b.news.Get(k) + [] == b.news.Get(k);
  }

  lemma MoveKeepsOrder(b: Bridge, e: BridgeWorld.Step, k: Sel)
    requires Can(b, Moves(e)) && InOrder(b, k)
    ensures InOrder(AfterMove(b, e), k)
  {
    hide BridgeWorld.Possible, NewsOf, OffersToReturn, BridgeWorld.Next, OffersIn, LastTold;
    var calls, news := CallsOf(b, e), NewsOf(b.world, e);
    CallsAre(b, e, k);
    hide CallsOf;
    var r := AfterMove(b, e);
    if ThreadOf(e).None? {
      assert r.owed == b.owed;
    } else {
      var t := ThreadOf(e).value;
      if OwesNews(b, k) {
        var u :| u in b.owed && HasNews(b.owed[u], k);
        assert u != t;
        assert r.owed[u] == b.owed[u] && OwesNews(r, k);
      }
      if news.Some? && news.value.0 == k {
        assert HasNews(r.owed[t], k);
      }
      forall u, i | !r.crowded.Get(k) && u in r.owed && 0 <= i < |r.owed[u]| && IsNews(r.owed[u][i], k)
        ensures r.owed[u][i].n == |r.news.Get(k)| - 1
      {
        assert HasNews(r.owed[u], k);
        if u != t {
          assert r.owed[u] == b.owed[u] && OwesNews(b, k);
        }
      }
    }
  }

  lemma CarryFrame(w: World, call: Call, now: Millis)
    ensures WorldAfter(w, call, now).due == w.due && WorldAfter(w, call, now).handedOut == w.handedOut
  {
    var e := PostOther(ClipJobs.Destroy(if call.Return? then call.offers else []), now);
    QuietHasNoEffects(w, e);
    QuietEnters(w, e);
    hide Act, MetBy, EffectsOf;
  }

  lemma CarryKeeps(b: Bridge, t: Thread, now: Millis)
    requires Can(b, Carries(t, now)) && Accounted(b)
    ensures Accounted(AfterCarry(b, t, now))
  {
    hide WorldAfter, InOrder, CallsKept, OffersIn, Numbered;
    CarryFrame(b.world, b.owed[t][0], now);
    CarryKeepsCalls(b, t, now);
    CarryKeepsOrder(b, t, now, Clipboard);
    CarryKeepsOrder(b, t, now, Primary);
  }

  lemma CarryKeepsCalls(b: Bridge, t: Thread, now: Millis)
    requires OwedBy(b, t) != [] && CallsKept(b)
    ensures CallsKept(AfterCarry(b, t, now))
  {
    hide WorldAfter, Outstanding;
    var calls := b.owed[t];
    OutstandingUpdated(b.owed, t, calls[1..]);
    assert calls == [calls[0]] + calls[1..];
    var before, after, one := Outstanding(b.owed), Outstanding(b.owed[t := calls[1..]]), multiset{calls[0]};
    assert multiset(calls) == one + multiset(calls[1..]);
    assert after + one + multiset(calls[1..]) == before + multiset(calls[1..]);
    Cancel(after + one, before, multiset(calls[1..]));
    assert multiset(b.done + [calls[0]]) == multiset(b.done) + one;
  }

  lemma CarryKeepsOrder(b: Bridge, t: Thread, now: Millis, k: Sel)
    requires OwedBy(b, t) != [] && InOrder(b, k)
    ensures InOrder(AfterCarry(b, t, now), k)
  {
    hide WorldAfter;
    var calls := b.owed[t];
    var r := AfterCarry(b, t, now);
    assert r.done[..|b.done|] == b.done;
    forall u, i | !r.crowded.Get(k) && u in r.owed && 0 <= i < |r.owed[u]| && IsNews(r.owed[u][i], k)
      ensures r.owed[u][i].n == |r.news.Get(k)| - 1
    {
      if u == t {
        assert calls[i + 1] == r.owed[u][i];
      }
    }
    if OwesNews(b, k) && !IsNews(calls[0], k) {
      StillOwesNews(b, t, now, k);
    }
  }

  lemma StillOwesNews(b: Bridge, t: Thread, now: Millis, k: Sel)
    requires OwedBy(b, t) != [] && OwesNews(b, k) && !IsNews(b.owed[t][0], k)
    ensures OwesNews(AfterCarry(b, t, now), k)
  {
    hide WorldAfter;
    var r := AfterCarry(b, t, now);
    var u :| u in b.owed && HasNews(b.owed[u], k);
    var i :| 0 <= i < |b.owed[u]| && IsNews(b.owed[u][i], k);
    if u == t {
      assert IsNews(r.owed[t][i - 1], k);
    } else {
      assert IsNews(r.owed[u][i], k);
    }
    assert HasNews(r.owed[u], k);
  }

  lemma MoveKeeps(b: Bridge, e: BridgeWorld.Step)
    requires Can(b, Moves(e)) && Accounted(b)
    ensures Accounted(AfterMove(b, e))
  {
    hide Can, AfterMove, CallsKept, Numbered, LastIsDue, InOrder, OffersIn;
    MoveKeepsCalls(b, e);
    MoveKeepsOffers(b, e);
    MoveKeepsNumbers(b, e, Clipboard);
    MoveKeepsNumbers(b, e, Primary);
    MoveKeepsOrder(b, e, Clipboard);
    MoveKeepsOrder(b, e, Primary);
  }

  lemma {:induction false} RunsAreAccounted(bs: seq<Bridge>, ds: seq<Doing>)
    requires Runs(bs, ds)
    ensures Accounted(bs[|ds|])
  {
    hide Accounted, Can, AfterMove, AfterCarry;
    if ds == [] {
      BeginAccounted(bs[0]);
    } else {
      var n := |ds| - 1;
      RunsAreAccounted(bs[..n + 1], ds[..n]);
      match ds[n]
      case Moves(e) => MoveKeeps(bs[n], e);
      case Carries(t, now) => CarryKeeps(bs[n], t, now);
    }
  }

  lemma BeginAccounted(b: Bridge)
    requires exists p: Two<bool>, running: bool :: b == Begin(p, running)
    ensures Accounted(b)
  {
    assert Cells(map[]) == map[];
    assert Outstanding(map[]) == multiset{};
  }

  // --- the world under the emissions ---

  /** Under the emissions the world makes a run of its own, so what holds of every run of it holds here. */
  lemma {:induction false} WorldMakesARun(bs: seq<Bridge>, ds: seq<Doing>) returns (ws: seq<World>, es: seq<BridgeWorld.Step>)
    requires Runs(bs, ds)
    ensures BridgeRuns.Run(ws, es) && |ws| == |es| + 1 && ws[|es|] == bs[|ds|].world
    decreases |ds|
  {
    hide BridgeWorld.Possible, BridgeWorld.Next, Start, CallsOf, NewsOf;
    if ds == [] {
      ws, es := [bs[0].world], [];
    } else {
      var n := |ds| - 1;
      ws, es := WorldMakesARun(bs[..n + 1], ds[..n]);
      var w, e := bs[n].world, StepOf(bs[n], ds[n]);
      if e.Some? {
        assert BridgeWorld.Possible(w, e.value) by { StepIsPossible(bs[n], ds[n]); }
        RunGrows(ws, es, e.value);
        ws, es := ws + [BridgeWorld.Next(w, e.value)], es + [e.value];
      }
    }
  }

  /** The step of the world that something done makes, if any. */
  ghost function StepOf(b: Bridge, d: Doing): Option<BridgeWorld.Step>
    requires Can(b, d)
  {
    match d
    case Moves(e) => Some(e)
    case Carries(t, now) =>
      if b.owed[t][0].Return? && b.world.queue.running then Some(PostOther(ClipJobs.Destroy(b.owed[t][0].offers), now)) else None
  }

  lemma StepIsPossible(b: Bridge, d: Doing)
    requires Can(b, d) && StepOf(b, d).Some?
    ensures BridgeWorld.Possible(b.world, StepOf(b, d).value)
    ensures After(b, d).world == BridgeWorld.Next(b.world, StepOf(b, d).value)
  {
    hide BridgeWorld.Next;
  }

  lemma RunGrows(ws: seq<World>, es: seq<BridgeWorld.Step>, e: BridgeWorld.Step)
    requires BridgeRuns.Run(ws, es) && BridgeWorld.Possible(ws[|es|], e)
    ensures BridgeRuns.Run(ws + [BridgeWorld.Next(ws[|es|], e)], es + [e])
  {
    hide BridgeWorld.Possible, BridgeWorld.Next, Start;
  }

  // --- what watchers hear ---

  /** An X acquisition that is not news yet: its connection, still there, has its fetch out. */
  ghost predicate FetchOut(w: World, k: Sel) {
    var o := OwnerIn(w, k);
    o.X? && o.x.client in w.conns && !w.conns[o.x.client].busy.Gone? && Fetching(LiveOn(w.conns[o.x.client]), OwnAcquisition(o.x, k))
  }

  lemma CalledIfDone(b: Bridge, i: nat)
    requires CallsKept(b) && i < |b.done|
    ensures b.done[i] in b.called
  {
    hide Outstanding;
    assert b.done[i] in multiset(b.done);
    assert b.done[i] in multiset(b.called);
  }

  lemma {:induction false} LastOwnerIsNews(called: seq<Call>, done: seq<Call>, news: seq<u32>, k: Sel)
    requires Numbered(called, news, k) && forall i :: 0 <= i < |done| ==> done[i] in called
    ensures LastTold(done, k) < |news| && LastOwner(done, k) == news[LastTold(done, k)]
  {
    if done != [] {
      var last := done[|done| - 1];
      assert last in called;
      var i :| 0 <= i < |called| && called[i] == last;
      assert IsNews(called[i], k) <==> IsNews(last, k);
      LastOwnerIsNews(called, done[..|done| - 1], news, k);
    }
  }

  lemma HeardIsNews(bs: seq<Bridge>, ds: seq<Doing>, k: Sel)
    requires Runs(bs, ds)
    ensures var b := bs[|ds|];
            && Accounted(b) && b.news.Get(k) != [] && LastTold(b.done, k) < |b.news.Get(k)|
            && Heard(b, k) == b.news.Get(k)[LastTold(b.done, k)]
            && (OwnerIn(b.world, k).Window() == b.news.Get(k)[|b.news.Get(k)| - 1] || FetchOut(b.world, k))
  {
    var b := bs[|ds|];
    hide BridgeRuns.Run, Runs, LiveOn, Fetching, CallsKept, InOrder, OffersIn;
    RunsAreAccounted(bs, ds);
    forall i | 0 <= i < |b.done| ensures b.done[i] in b.called {
      CalledIfDone(b, i);
    }
    LastOwnerIsNews(b.called, b.done, b.news.Get(k), k);
    var ws, es := WorldMakesARun(bs, ds);
    NewsCalledForIsTrue(ws, es, |es|, k);
  }

  /** At every moment of every run, a watcher knows the owner, unless it is an acquisition whose fetch is out, or news
      of the selection is still to be told, or the last news was called for while earlier news was still to be told. */
  lemma WatchersKnowUnless(bs: seq<Bridge>, ds: seq<Doing>, k: Sel)
    requires Runs(bs, ds)
    ensures var b := bs[|ds|];
            Heard(b, k) == OwnerIn(b.world, k).Window() || FetchOut(b.world, k) || OwesNews(b, k) || b.crowded.Get(k)
  {
    HeardIsNews(bs, ds, k);
    var b := bs[|ds|];
    hide Runs, CallsKept, Numbered, LastIsDue, FetchOut, OffersIn, OwesNews, Heard, LastTold;
    assert InOrder(b, k);
  }

  /** Once nothing of the selection is outstanding, a watcher knows the owner exactly if what it was told last names the
      owner the last transition called for: so whenever the last news told is the last called for, and otherwise
      only if the two name the same owner. */
  lemma WatchersKnowIff(bs: seq<Bridge>, ds: seq<Doing>, k: Sel)
    requires Runs(bs, ds) && !OwesNews(bs[|ds|], k) && !FetchOut(bs[|ds|].world, k)
    ensures var b := bs[|ds|];
            var told, last := LastTold(b.done, k), |b.news.Get(k)| - 1;
            && told <= last
            && (Heard(b, k) == OwnerIn(b.world, k).Window() <==> told == last || b.news.Get(k)[told] == b.news.Get(k)[last])
            && (told != last ==> b.crowded.Get(k))
  {
    HeardIsNews(bs, ds, k);
    var b := bs[|ds|];
    hide Runs, CallsKept, Numbered, LastIsDue, FetchOut, OffersIn, OwesNews, Heard, LastTold;
    assert InOrder(b, k);
  }

  // --- every effect is carried out ---

  lemma {:induction false} EmptySum(m: map<Thread, multiset<Call>>)
    requires forall t :: t in m ==> m[t] == multiset{}
    ensures MapSum.Sum(m) == multiset{}
    decreases |m|
  {
    if m != map[] {
      var t :| t in m && MapSum.Sum(m) == m[t] + MapSum.Sum(m - {t});
      EmptySum(m - {t});
    }
  }

  lemma {:induction false} OffersInPermuted(a: seq<Call>, b: seq<Call>)
    requires multiset(a) == multiset(b)
    ensures OffersIn(a) == OffersIn(b)
  {
    if a == [] {
      assert |b| == |multiset(b)|;
    } else {
      var init, last := a[..|a| - 1], a[|a| - 1];
      assert a == init + [last];
      assert last in multiset(b);
      var i :| 0 <= i < |b| && b[i] == last;
      var left, right := b[..i], b[i + 1..];
      assert b == left + [last] + right;
      assert multiset(left + [last] + right) == multiset(left + right) + multiset{last};
      assert multiset(init + [last]) == multiset(init) + multiset{last};
      Cancel(multiset(init), multiset(left + right), multiset{last});
      OffersInPermuted(init, left + right);
      OffersInConcat(left, right);
      OffersInConcat(left + [last], right);
      OffersInConcat(left, [last]);
      OffersInConcat(init, [last]);
    }
  }

  /** Every effect called for is owed by a thread or carried out, once. When none is owed, each has been carried out
      once, and every offer announced so far is an owner's or has been destroyed, once. */
  lemma EveryEffectIsCarriedOutOnce(bs: seq<Bridge>, ds: seq<Doing>)
    requires Runs(bs, ds)
    ensures var b := bs[|ds|];
            && multiset(b.called) == multiset(b.done) + Outstanding(b.owed)
            && ((forall t :: t in b.owed ==> b.owed[t] == []) ==>
                  && multiset(b.called) == multiset(b.done)
                  && b.world.delivered == OffersIn(b.done) + OwnersOffers(b.world.board))
  {
    var b := bs[|ds|];
    hide BridgeRuns.Run, Runs, InOrder, Numbered, LastIsDue, OwnersOffers;
    RunsAreAccounted(bs, ds);
    if forall t :: t in b.owed ==> b.owed[t] == [] {
      EmptySum(Cells(b.owed));
      OffersInPermuted(b.called, b.done);
      var ws, es := WorldMakesARun(bs, ds);
      NothingIsLostOrDoubled(ws, es, |es|);
      hide OffersKept, OffersIn;
      KeptMeans(b.world);
    }
  }

  // --- the race ---

  const IMAGE: Option<seq<string>> := Some(["image/png"])

  /** An X client releases a selection nobody owns, and a Wayland app takes it, before the X thread has told its news. */
  const RACE: seq<Doing> := [
    Moves(Join(1)),
    Moves(ForeignSet(Clipboard, IMAGE)),
    Moves(Release(1, Clipboard, 100, 100, 0)),
    Moves(Announce(Clipboard, 100)),
    Carries(WaylandThread, 0),
    Carries(Connection(1), 0)]

  lemma QuietMove(b: Bridge, e: BridgeWorld.Step)
    requires BridgeWorld.Possible(b.world, e)
    requires OwnBusiness(e) || e.PostOther? || e.SweepJobs? || e.TakeJobs? || e.RunJob? || e.ForeignSet?
    ensures AfterMove(b, e) == b.(world := Next(b.world, e),
                                  owed := if ThreadOf(e).Some? then b.owed[ThreadOf(e).value := []] else b.owed)
  {
    QuietHasNoEffects(b.world, e);
    hide BridgeWorld.Possible, Next, EffectsOf;
    assert CallsOf(b, e) == [] && b.called + [] == b.called;
  }

  lemma RaceJoins(w: World)
    requires w == Start(Two(true, true), true)
    ensures BridgeWorld.Possible(w, Join(1))
    ensures var r := Next(w, Join(1));
            r == w.(conns := map[1 := Conn(BridgeRuns.FetchTable.Table([], map[]), 0, Idle)], mishaps := r.mishaps)
  {
    hide MetBy;
  }

  lemma RaceIsTaken(w: World)
    ensures BridgeWorld.Possible(w, ForeignSet(Clipboard, IMAGE))
    ensures var r := Next(w, ForeignSet(Clipboard, IMAGE));
            var a := Ann(false, Some(w.nextOffer), ["image/png"], None);
            r == w.(shown := w.shown.Set(Clipboard, a), stream := w.stream.Set(Clipboard, w.stream.Get(Clipboard) + [a]),
                    nextOffer := w.nextOffer + 1, mishaps := r.mishaps)
  {
    hide MetBy;
  }

  lemma RaceReleases(b: Bridge)
    requires 1 in b.world.conns && b.world.conns[1].busy == Idle && OwedBy(b, Connection(1)) == []
    requires b.world.board.floor == 0 && b.world.board.sels.clipboard.owner == Nobody && b.world.board.sels.clipboard.lastChanged == 0
    ensures Can(b, RACE[2])
    ensures var r := After(b, RACE[2]);
            && r.owed == b.owed[Connection(1) := [Tell(Clipboard, 0, |b.news.clipboard|)]]
            && r.news == b.news.Set(Clipboard, b.news.clipboard + [0]) && r.done == b.done
            && r.world.stream == b.world.stream && r.world.queue == b.world.queue
            && r.world.board.sels.clipboard == b.world.board.sels.clipboard.(lastChanged := 100)
  {
    var e := RACE[2].e;
    var fx := XReleased(b.world.board, b.world.queue, 100, Clipboard, 100, 0);
    assert fx.effects == Some(Effects([], None, Some(Notify(SetSelectionOwner, 0, 100, 100)), 100));
    assert EffectsOf(b.world, e) == Some((Clipboard, fx.effects.value));
    assert Next(b.world, e).board == fx.board && Next(b.world, e).queue == fx.queue && Next(b.world, e).stream == b.world.stream;
    assert ThreadOf(e) == Some(Connection(1));
    hide Next, XReleased, EffectsOf;
    assert CallsOf(b, e) == [Tell(Clipboard, 0, |b.news.clipboard|)];
  }

  lemma RaceIsAnnounced(b: Bridge)
    requires OwedBy(b, WaylandThread) == [] && b.world.stream.clipboard == [Ann(false, Some(0), ["image/png"], None)]
    requires b.world.board.sels.clipboard.owner == Nobody && b.world.board.sels.clipboard.echoes == []
    ensures Can(b, RACE[3])
    ensures var r := After(b, RACE[3]);
            && r.owed == b.owed[WaylandThread := [Tell(Clipboard, OWNER_WINDOW, |b.news.clipboard|)]]
            && r.done == b.done && r.world.stream.clipboard == [] && r.world.queue == b.world.queue
            && OwnerIn(r.world, Clipboard) == Wayland(0, ["image/png"])
  {
    var e := RACE[3].e;
    var (board, fx) := Announced(b.world.board, 100, Clipboard, Some(0), ["image/png"]);
    assert fx.destroy == [] && fx.cleared == None && fx.notify.Some? && fx.notify.value.owner == OWNER_WINDOW;
    assert board.sels.clipboard.owner == Wayland(0, ["image/png"]);
    assert EffectsOf(b.world, e) == Some((Clipboard, fx));
    assert Next(b.world, e).board == board && Next(b.world, e).queue == b.world.queue && Next(b.world, e).stream.clipboard == [];
    assert ThreadOf(e) == Some(WaylandThread);
    hide Next, Announced, EffectsOf;
    assert CallsOf(b, e) == [Tell(Clipboard, OWNER_WINDOW, |b.news.clipboard|)];
  }

  lemma RaceToRelease() returns (b1: Bridge, b2: Bridge)
    ensures var b0 := Begin(Two(true, true), true);
            && Can(b0, RACE[0]) && b1 == After(b0, RACE[0]) && Can(b1, RACE[1]) && b2 == After(b1, RACE[1])
            && 1 in b2.world.conns && b2.world.conns[1].busy == Idle && b2.owed == map[Connection(1) := []]
            && b2.world.board.floor == 0 && b2.world.board.sels.clipboard == SelState(Nobody, 0, 0, [], false, true)
            && b2.world.stream.clipboard == [Ann(false, Some(0), ["image/png"], None)]
            && b2.news == Two([0], [0]) && b2.done == []
  {
    var b0 := Begin(Two(true, true), true);
    hide Next, BridgeWorld.Possible;
    RaceJoins(b0.world);
    QuietMove(b0, Join(1));
    b1 := After(b0, RACE[0]);
    RaceIsTaken(b1.world);
    QuietMove(b1, ForeignSet(Clipboard, IMAGE));
    b2 := After(b1, RACE[1]);
  }

  /** A race this bridge can lose, from its start: an X client releases a selection nobody owns, a Wayland app takes it,
      and the Wayland thread tells its news before the X thread tells its own. Nothing is left outstanding, and
      watchers believe that nobody owns what the Wayland app does. */
  lemma WatchersCanBeMisled() returns (bs: seq<Bridge>)
    ensures |bs| == 7 && Runs(bs, RACE)
    ensures var b := bs[6];
            && !OwesNews(b, Clipboard) && !OwesNews(b, Primary) && !FetchOut(b.world, Clipboard)
            && b.world.stream.clipboard == [] && OwnerIn(b.world, Clipboard) == Wayland(0, ["image/png"])
            && Heard(b, Clipboard) == 0 && OwnerIn(b.world, Clipboard).Window() == OWNER_WINDOW
  {
    hide After, Can, OwesNews, Heard, Begin, FetchOut, RACE;
    var b0 := Begin(Two(true, true), true);
    var b1, b2 := RaceToRelease();
    var b3, b4 := RaceChanges(b2);
    var b5, b6 := RaceTells(b4);
    bs := [b0, b1, b2, b3, b4, b5, b6];
    RaceRuns(bs);
    RaceEnds(b6);
    RaceHasNoFetch(b6);
  }

  lemma RaceHasNoFetch(b: Bridge)
    requires OwnerIn(b.world, Clipboard).Wayland?
    ensures !FetchOut(b.world, Clipboard)
  {
  }

  lemma RaceChanges(b2: Bridge) returns (b3: Bridge, b4: Bridge)
    requires 1 in b2.world.conns && b2.world.conns[1].busy == Idle && b2.owed == map[Connection(1) := []]
    requires b2.world.board.floor == 0 && b2.world.board.sels.clipboard == SelState(Nobody, 0, 0, [], false, true)
    requires b2.world.stream.clipboard == [Ann(false, Some(0), ["image/png"], None)] && b2.news == Two([0], [0]) && b2.done == []
    ensures Can(b2, RACE[2]) && b3 == After(b2, RACE[2]) && Can(b3, RACE[3]) && b4 == After(b3, RACE[3])
    ensures b4.owed == map[Connection(1) := [Tell(Clipboard, 0, 1)]][WaylandThread := [Tell(Clipboard, OWNER_WINDOW, 2)]]
    ensures b4.done == [] && b4.world.stream.clipboard == [] && OwnerIn(b4.world, Clipboard) == Wayland(0, ["image/png"])
  {
    hide Can, After;
    RaceReleases(b2);
    b3 := After(b2, RACE[2]);
    RaceIsAnnounced(b3);
    b4 := After(b3, RACE[3]);
  }

  lemma RaceTells(b4: Bridge) returns (b5: Bridge, b6: Bridge)
    requires b4.owed == map[Connection(1) := [Tell(Clipboard, 0, 1)]][WaylandThread := [Tell(Clipboard, OWNER_WINDOW, 2)]]
    requires b4.done == []
    ensures Can(b4, RACE[4]) && b5 == After(b4, RACE[4]) && Can(b5, RACE[5]) && b6 == After(b5, RACE[5])
    ensures b6.owed == map[Connection(1) := [], WaylandThread := []] && b6.world == b4.world
    ensures b6.done == [Tell(Clipboard, OWNER_WINDOW, 2), Tell(Clipboard, 0, 1)]
  {
    b5 := After(b4, RACE[4]);
    assert b5.owed == map[Connection(1) := [Tell(Clipboard, 0, 1)], WaylandThread := []];
    b6 := After(b5, RACE[5]);
  }

  lemma RaceRuns(bs: seq<Bridge>)
    requires |bs| == 7 && bs[0] == Begin(Two(true, true), true)
    requires forall i :: 0 <= i < 6 ==> Can(bs[i], RACE[i]) && bs[i + 1] == After(bs[i], RACE[i])
    ensures Runs(bs, RACE)
  {
    hide Can, After, Begin;
  }

  lemma RaceEnds(b: Bridge)
    requires b.owed == map[Connection(1) := [], WaylandThread := []]
    requires b.done == [Tell(Clipboard, OWNER_WINDOW, 2), Tell(Clipboard, 0, 1)]
    ensures !OwesNews(b, Clipboard) && !OwesNews(b, Primary) && Heard(b, Clipboard) == 0
  {
  }
}
