/** What X clients believe they own, with each SelectionClear carried out after the transition that calls for it. */
module BridgeClears {
  import opened BridgeTypes
  import opened ClipboardState
  import opened BridgeWorld
  import opened BridgeRuns
  import opened BridgeEmissions

  // --- what a transition does to who holds a selection ---

  /** The client a step takes the selection from, which is owed a SelectionClear. */
  ghost function Loser(w: World, e: BridgeWorld.Step, k: Sel): Option<ClientId>
    requires BridgeWorld.Possible(w, e)
  {
    var fx := EffectsOf(w, e);
    if fx.Some? && fx.value.0 == k && fx.value.1.cleared.Some? then Some(fx.value.1.cleared.value.client) else None
  }

  ghost predicate Grants(w: World, e: BridgeWorld.Step, k: Sel)
    requires BridgeWorld.Possible(w, e)
  {
    e.Take? && e.k == k && EffectsOf(w, e).Some?
  }

  /** The owner's window or connection goes, which its client needs no telling of. */
  ghost predicate Leaves(w: World, e: BridgeWorld.Step, k: Sel)
    requires BridgeWorld.Possible(w, e)
  {
    && ((e.WindowGone? && e.k == k) || (e.CloseNext? && w.conns[e.c].busy.left[0] == k))
    && EffectsOf(w, e).Some?
  }

  ghost function HoldersAfter(w: World, e: BridgeWorld.Step, k: Sel): set<ClientId>
    requires BridgeWorld.Possible(w, e)
  {
    var rest := w.holders.Get(k) - (if Loser(w, e, k).Some? then {Loser(w, e, k).value} else {});
    if Grants(w, e, k) then rest + {e.c} else if Leaves(w, e, k) then rest - {e.c} else rest
  }

  lemma CarryHolders(w: World, j: Sel, r: Result, k: Sel)
    ensures Carry(w, j, r).holders.Get(k) ==
              if r.effects.Some? && r.effects.value.cleared.Some? && j == k
              then w.holders.Get(k) - {r.effects.value.cleared.value.client} else w.holders.Get(k)
  {
  }

  lemma TakeHolders(w: World, e: BridgeWorld.Step, k: Sel)
    requires BridgeWorld.Possible(w, e) && e.Take?
    ensures Act(w, e).holders.Get(k) == HoldersAfter(w, e, k)
  {
    var (b, fx) := XTook(w.board, e.raw, e.k, e.window, e.c, e.time);
    assert EffectsOf(w, e) == if fx.Some? then Some((e.k, fx.value)) else None;
    hide XTook, Live, Fetching, EffectsOf, BridgeWorld.Possible;
    assert w.holders.Get(k) - {} == w.holders.Get(k);
  }

  lemma AnnounceHolders(w: World, e: BridgeWorld.Step, k: Sel)
    requires BridgeWorld.Possible(w, e) && e.Announce?
    ensures Act(w, e).holders.Get(k) == HoldersAfter(w, e, k)
  {
    hide Announced;
    assert w.holders.Get(k) - {} == w.holders.Get(k);
  }

  lemma RequestHolders(w: World, e: BridgeWorld.Step, k: Sel)
    requires BridgeWorld.Possible(w, e) && (e.Release? || e.Resolve?)
    ensures Act(w, e).holders.Get(k) == HoldersAfter(w, e, k)
  {
    hide XReleased, ResolveResult, Carry;
    assert w.holders.Get(k) - {} == w.holders.Get(k);
    match e
    case Release(_, j, time, raw, now) => CarryHolders(w, j, XReleased(w.board, w.queue, raw, j, time, now), k);
    case Resolve(c, raw, now) =>
      var r := w.conns[c].busy.rs[0];
      CarryHolders(w, r.fetch.kind, ResolveResult(w, r, raw, now), k);
  }

  lemma GoneHolders(w: World, c: ClientId, j: Sel, window: Option<u32>, subtype: Subtype, raw: u32, now: Millis, k: Sel)
    ensures var r := XOwnerGone(w.board, w.queue, raw, j, c, window, subtype, now);
            var rest := w.holders.Get(k) - (if r.effects.Some? && j == k && r.effects.value.cleared.Some?
                                            then {r.effects.value.cleared.value.client} else {});
            GoneStep(w, c, j, window, subtype, raw, now).holders.Get(k) == if r.effects.Some? && j == k then rest - {c} else rest
  {
    hide XOwnerGone, Carry;
    CarryHolders(w, j, XOwnerGone(w.board, w.queue, raw, j, c, window, subtype, now), k);
    assert w.holders.Get(k) - {} == w.holders.Get(k);
  }

  lemma LeavingHolders(w: World, e: BridgeWorld.Step, k: Sel)
    requires BridgeWorld.Possible(w, e) && (e.WindowGone? || e.CloseNext?)
    ensures Act(w, e).holders.Get(k) == HoldersAfter(w, e, k)
  {
    hide XOwnerGone, GoneStep;
    match e
    case WindowGone(c, j, window, raw, now) => GoneHolders(w, c, j, Some(window), WindowDestroy, raw, now, k);
    case CloseNext(c, raw, now) => GoneHolders(w, c, w.conns[c].busy.left[0], None, ClientClose, raw, now, k);
  }

  lemma QuietHolders(w: World, e: BridgeWorld.Step, k: Sel)
    requires BridgeWorld.Possible(w, e)
    requires OwnBusiness(e) || e.PostOther? || e.SweepJobs? || e.TakeJobs? || e.RunJob? || e.ForeignSet?
    ensures Act(w, e).holders == w.holders && HoldersAfter(w, e, k) == w.holders.Get(k)
  {
    QuietHasNoEffects(w, e);
    hide ClipJobs.Post, Live, BridgeRuns.FetchTable.Begin, BridgeRuns.FetchTable.Answer, BridgeRuns.FetchTable.Push,
         BridgeRuns.FetchTable.Unexpired, BridgeRuns.FetchTable.Expired, EffectsOf;
    assert w.holders.Get(k) - {} == w.holders.Get(k);
  }

  lemma HoldersNext(w: World, e: BridgeWorld.Step, k: Sel)
    requires BridgeWorld.Possible(w, e)
    ensures Next(w, e).holders.Get(k) == HoldersAfter(w, e, k)
  {
    hide BridgeWorld.Possible, Act, MetBy, HoldersAfter;
    if e.Take? {
      TakeHolders(w, e, k);
    } else if e.Announce? {
      AnnounceHolders(w, e, k);
    } else if e.Release? || e.Resolve? {
      RequestHolders(w, e, k);
    } else if e.WindowGone? || e.CloseNext? {
      LeavingHolders(w, e, k);
    } else {
      QuietHolders(w, e, k);
    }
  }

  // --- what clients are told ---

  ghost predicate Owes(owed: map<Thread, seq<Call>>, call: Call) {
    exists t :: t in owed && call in owed[t]
  }

  /** Some thread is still to send the client its SelectionClear. */
  ghost predicate OwesClear(b: Bridge, k: Sel, c: ClientId) {
    Owes(b.owed, Clear(k, c))
  }

  /** `holders` are the clients that believe they own the selection; `hasty` those that took it last while a
      SelectionClear of it for them was still to be sent. */
  datatype Beliefs = Beliefs(holders: set<ClientId>, hasty: set<ClientId>)

  ghost function Learned(f: Beliefs, b: Bridge, d: Doing, k: Sel): Beliefs
    requires Can(b, d)
  {
    match d
    case Moves(e) =>
      if Grants(b.world, e, k) then
        Beliefs(f.holders + {e.c}, if OwesClear(b, k, e.c) then f.hasty + {e.c} else f.hasty - {e.c})
      else if Leaves(b.world, e, k) then f.(holders := f.holders - {e.c})
      else f
    case Carries(t, _) =>
      var call := b.owed[t][0];
      if call.Clear? && call.k == k then f.(holders := f.holders - {call.client}) else f
  }

  ghost function BeliefsOf(bs: seq<Bridge>, ds: seq<Doing>, k: Sel): Beliefs
    requires |bs| >= |ds| && forall i :: 0 <= i < |ds| ==> Can(bs[i], ds[i])
  {
    if ds == [] then Beliefs({}, {})
    else Learned(BeliefsOf(bs, ds[..|ds| - 1], k), bs[|ds| - 1], ds[|ds| - 1], k)
  }

  /** A client that wrongly believes it owns the selection is still to be sent its SelectionClear; one that wrongly
      believes it does not, or is yet to, was hasty; and a hasty one comes to believe so. */
  ghost predicate Told(b: Bridge, f: Beliefs, k: Sel, c: ClientId) {
    var owns := c in b.world.holders.Get(k);
    && (c in f.holders && !owns ==> OwesClear(b, k, c))
    && (owns && (c !in f.holders || OwesClear(b, k, c)) ==> c in f.hasty)
    && (c in f.hasty && c in f.holders ==> OwesClear(b, k, c))
  }

  lemma AssembledClears(offers: seq<OfferId>, clear: Option<Call>, tell: Option<Call>, k: Sel, c: ClientId)
    requires (clear.Some? ==> clear.value.Clear?) && (tell.Some? ==> tell.value.Tell?)
    ensures Clear(k, c) in Assemble(offers, clear, tell) <==> clear == Some(Clear(k, c))
  {
    var returned := if offers == [] then [] else [Return(offers)];
    var cleared := if clear.Some? then [clear.value] else [];
    var told := if tell.Some? then [tell.value] else [];
    assert Assemble(offers, clear, tell) == returned + cleared + told;
    assert Clear(k, c) in returned + cleared + told <==> Clear(k, c) in returned || Clear(k, c) in cleared || Clear(k, c) in told;
  }

  lemma CallsClear(b: Bridge, e: BridgeWorld.Step, k: Sel, c: ClientId)
    requires BridgeWorld.Possible(b.world, e)
    ensures Clear(k, c) in CallsOf(b, e) <==> Loser(b.world, e, k) == Some(c)
    ensures Loser(b.world, e, k).Some? || Grants(b.world, e, k) || Leaves(b.world, e, k) ==> ThreadOf(e).Some?
  {
    if ThreadOf(e).None? {
      QuietHasNoEffects(b.world, e);
    }
    hide EffectsOf, OffersToReturn, NewsOf, ThreadOf, BridgeWorld.Possible, Assemble;
    var fx, news := EffectsOf(b.world, e), NewsOf(b.world, e);
    AssembledClears(OffersToReturn(b.world, e),
                    if fx.Some? && fx.value.1.cleared.Some? then Some(Clear(fx.value.0, fx.value.1.cleared.value.client)) else None,
                    if news.Some? then Some(Tell(news.value.0, news.value.1, |b.news.Get(news.value.0)|)) else None, k, c);
  }

  lemma ListOwes(owed: map<Thread, seq<Call>>, t: Thread, calls: seq<Call>, call: Call)
    requires t in owed ==> owed[t] == []
    ensures Owes(owed[t := calls], call) <==> call in calls || Owes(owed, call)
  {
    var next := owed[t := calls];
    assert next[t] == calls;
    forall u | u in owed && call in owed[u] ensures u in next && call in next[u] {
      assert u != t && next[u] == owed[u];
    }
    forall u | u in next && call in next[u] ensures call in calls || (u in owed && call in owed[u]) {
      if u != t {
        assert next[u] == owed[u];
      }
    }
  }

  lemma MoveIs(b: Bridge, e: BridgeWorld.Step)
    requires BridgeWorld.Possible(b.world, e)
    ensures var r := AfterMove(b, e);
            && r.world == BridgeWorld.Next(b.world, e)
            && r.owed == if ThreadOf(e).Some? then b.owed[ThreadOf(e).value := CallsOf(b, e)] else b.owed
  {
    hide CallsOf, NewsOf, BridgeWorld.Next, BridgeWorld.Possible, OwesNews;
  }

  lemma MoveOwes(b: Bridge, e: BridgeWorld.Step, k: Sel, c: ClientId)
    requires Can(b, Moves(e))
    ensures OwesClear(AfterMove(b, e), k, c) <==> OwesClear(b, k, c) || Loser(b.world, e, k) == Some(c)
  {
    CallsClear(b, e, k, c);
    MoveIs(b, e);
    hide CallsOf, Loser, AfterMove, BridgeWorld.Next, BridgeWorld.Possible, Grants, Leaves, ThreadOf;
    if ThreadOf(e).Some? {
      ListOwes(b.owed, ThreadOf(e).value, CallsOf(b, e), Clear(k, c));
    }
  }

  /** A client that takes the selection takes it from another. */
  lemma LosersHold(b: Bridge, e: BridgeWorld.Step, k: Sel)
    requires Can(b, Moves(e))
    ensures Grants(b.world, e, k) ==> Loser(b.world, e, k) != Some(e.c)
  {
    if e.Take? {
      TookOwners(b.world.board, e.raw, e.k, e.window, e.c, e.time);
      hide XTook;
    }
  }

  lemma MoveTells(b: Bridge, e: BridgeWorld.Step, f: Beliefs, k: Sel, c: ClientId)
    requires Can(b, Moves(e)) && Told(b, f, k, c)
    ensures Told(After(b, Moves(e)), Learned(f, b, Moves(e), k), k, c)
  {
    MoveOwes(b, e, k, c);
    MoveIs(b, e);
    HoldersNext(b.world, e, k);
    LosersHold(b, e, k);
    hide Can, AfterMove, OwesClear, Loser, Grants, Leaves, BridgeWorld.Next, BridgeWorld.Possible, HoldersAfter;
    assert HoldersAfter(b.world, e, k) == After(b, Moves(e)).world.holders.Get(k);
    TellsMoved(b, After(b, Moves(e)), e, f, k, c);
  }

  lemma TellsMoved(b: Bridge, r: Bridge, e: BridgeWorld.Step, f: Beliefs, k: Sel, c: ClientId)
    requires Can(b, Moves(e)) && Told(b, f, k, c) && r.world.holders.Get(k) == HoldersAfter(b.world, e, k)
    requires OwesClear(r, k, c) <==> OwesClear(b, k, c) || Loser(b.world, e, k) == Some(c)
    requires Grants(b.world, e, k) ==> Loser(b.world, e, k) != Some(e.c)
    ensures Told(r, Learned(f, b, Moves(e), k), k, c)
  {
    assert Grants(b.world, e, k) ==> e.Take?;
    hide Can, OwesClear, Loser, Grants, Leaves, BridgeWorld.Possible;
  }

  lemma CarryIs(b: Bridge, t: Thread, now: Millis, k: Sel)
    requires OwedBy(b, t) != []
    ensures var r := AfterCarry(b, t, now); r.owed == b.owed[t := b.owed[t][1..]] && r.world.holders.Get(k) == b.world.holders.Get(k)
  {
    hide BridgeWorld.MetBy, ClipJobs.Post;
  }

  lemma CarryOwes(b: Bridge, t: Thread, now: Millis, k: Sel, c: ClientId)
    requires OwedBy(b, t) != []
    ensures OwesClear(AfterCarry(b, t, now), k, c) ==> OwesClear(b, k, c)
    ensures b.owed[t][0] != Clear(k, c) ==> (OwesClear(b, k, c) <==> OwesClear(AfterCarry(b, t, now), k, c))
    ensures b.owed[t][0] == Clear(k, c) ==> OwesClear(b, k, c)
  {
    CarryIs(b, t, now, k);
    hide AfterCarry;
    var r := AfterCarry(b, t, now);
    var calls := b.owed[t];
    assert calls == [calls[0]] + calls[1..];
    assert r.owed[t] == calls[1..];
    if u :| u in b.owed && Clear(k, c) in b.owed[u] {
      assert u != t ==> r.owed[u] == b.owed[u];
    }
  }

  lemma CarryTells(b: Bridge, t: Thread, now: Millis, f: Beliefs, k: Sel, c: ClientId)
    requires Can(b, Carries(t, now)) && Told(b, f, k, c)
    ensures Told(After(b, Carries(t, now)), Learned(f, b, Carries(t, now), k), k, c)
  {
    CarryIs(b, t, now, k);
    CarryOwes(b, t, now, k, c);
    hide AfterCarry, OwesClear;
  }

  lemma BeginTells(p: Two<bool>, running: bool, k: Sel, c: ClientId)
    ensures Told(Begin(p, running), Beliefs({}, {}), k, c)
  {
  }

  lemma {:induction false} BeliefsOfPrefix(bs: seq<Bridge>, ds: seq<Doing>, k: Sel)
    requires |bs| > |ds| && forall i :: 0 <= i < |ds| ==> Can(bs[i], ds[i])
    ensures BeliefsOf(bs[..|ds| + 1], ds, k) == BeliefsOf(bs, ds, k)
    decreases |ds|
  {
    hide Can, Learned;
    if ds != [] {
      BeliefsOfPrefix(bs, ds[..|ds| - 1], k);
      BeliefsOfPrefix(bs[..|ds| + 1], ds[..|ds| - 1], k);
      assert bs[..|ds| + 1][..|ds|] == bs[..|ds|];
    }
  }

  lemma {:induction false} RunsTell(bs: seq<Bridge>, ds: seq<Doing>, k: Sel, c: ClientId)
    requires Runs(bs, ds)
    ensures Told(bs[|ds|], BeliefsOf(bs, ds, k), k, c)
  {
    hide Told, Can, After, Learned, Begin;
    var p: Two<bool>, running: bool :| bs[0] == Begin(p, running);
    if ds == [] {
      BeginTells(p, running, k, c);
    } else {
      var n := |ds| - 1;
      assert Runs(bs[..n + 1], ds[..n]) by {
        assert bs[..n + 1][0] == Begin(p, running);
      }
      RunsTell(bs[..n + 1], ds[..n], k, c);
      BeliefsOfPrefix(bs, ds[..n], k);
      var f := BeliefsOf(bs, ds[..n], k);
      match ds[n]
      case Moves(e) => MoveTells(bs[n], e, f, k, c);
      case Carries(t, now) => CarryTells(bs[n], t, now, f, k, c);
    }
  }

  lemma HolderIsOwner(bs: seq<Bridge>, ds: seq<Doing>, k: Sel)
    requires Runs(bs, ds)
    ensures var w := bs[|ds|].world;
            w.holders.Get(k) == if OwnerIn(w, k).X? then {OwnerIn(w, k).x.client} else {}
  {
    hide Runs, Invariant;
    var ws, es := WorldMakesARun(bs, ds);
    RunsKeepInvariant(ws, es);
    SidesOf(ws[|es|]);
    HoldersOf(ws[|es|], k);
  }

  lemma SidesOf(w: World)
    requires Invariant(w)
    ensures XSide(w)
  {
    hide XSide, CompositorSide;
  }

  ghost predicate Owns(w: World, k: Sel, c: ClientId) {
    OwnerIn(w, k).X? && OwnerIn(w, k).x.client == c
  }

  /** At every moment of every run: a client believes it owns a selection exactly if it does, unless a SelectionClear of
      it is still to be sent to that client, or it took the selection last while one was. */
  lemma ClientsKnowUnless(bs: seq<Bridge>, ds: seq<Doing>, k: Sel, c: ClientId)
    requires Runs(bs, ds)
    ensures var b, f := bs[|ds|], BeliefsOf(bs, ds, k);
            (c in f.holders <==> Owns(b.world, k, c)) || OwesClear(b, k, c) || c in f.hasty
  {
    RunsTell(bs, ds, k, c);
    HolderIsOwner(bs, ds, k);
    hide Runs, OwesClear;
  }

  /** Once no SelectionClear of the selection is still to be sent, no client wrongly believes it owns the selection; and
      the owner believes it does exactly if it did not take it last while a SelectionClear for it was to be sent: else it
      was told of a loss it had already undone. */
  lemma ClientsKnowIff(bs: seq<Bridge>, ds: seq<Doing>, k: Sel, c: ClientId)
    requires Runs(bs, ds) && !OwesClear(bs[|ds|], k, c)
    ensures var w, f := bs[|ds|].world, BeliefsOf(bs, ds, k);
            c in f.holders <==> Owns(w, k, c) && c !in f.hasty
  {
    RunsTell(bs, ds, k, c);
    HolderIsOwner(bs, ds, k);
    hide Runs, OwesClear;
  }

  // --- a loss undone before it is told ---

  const WINDOW: u32 := 0x10

  function TakeBy(c: ClientId, time: u32): BridgeWorld.Step {
    Take(c, Clipboard, WINDOW, time, time, 0)
  }

  function Taker(c: ClientId, time: u32): Owner {
    X(XOwner(WINDOW, c, time, None))
  }

  /** Client 1 takes the selection, client 2 takes it, and client 1 takes it back before the thread of client 2 sends the
      SelectionClear it owes. */
  const RETAKE: seq<Doing> := [
    Moves(Join(1)), Moves(Join(2)), Moves(TakeBy(1, 100)), Moves(StartFetch(1)),
    Moves(TakeBy(2, 101)), Moves(TakeBy(1, 102)), Carries(Connection(2), 0), Carries(Connection(1), 0)]

  const FRESH := Conn(BridgeRuns.FetchTable.Table([], map[]), 0, Idle)

  lemma Joins(b: Bridge, c: ClientId)
    requires c !in b.world.conns
    ensures Can(b, Moves(Join(c))) || OwedBy(b, Connection(c)) != []
    ensures var r := AfterMove(b, Join(c));
            && r.world == b.world.(conns := b.world.conns[c := FRESH], mishaps := r.world.mishaps)
            && r.owed == b.owed[Connection(c) := []]
  {
    QuietMove(b, Join(c));
    hide MetBy, AfterMove;
  }

  lemma JoinBeliefs(b: Bridge, f: Beliefs, e: BridgeWorld.Step)
    requires Can(b, Moves(e)) && (e.Join? || e.StartFetch?)
    ensures Learned(f, b, Moves(e), Clipboard) == f
  {
  }

  ghost predicate CanTake(b: Bridge, c: ClientId, time: u32) {
    var s := b.world.board.sels.clipboard;
    && c in b.world.conns && b.world.conns[c].busy == Idle && OwedBy(b, Connection(c)) == []
    && b.world.board.floor == 0 && s.lastChanged <= time < 1000 && !s.owner.Wayland?
  }

  lemma TakeIs(b: Board, c: ClientId, time: u32)
    requires b.floor == 0 && b.sels.clipboard.lastChanged <= time < 1000 && !b.sels.clipboard.owner.Wayland?
    ensures var (r, fx) := XTook(b, time, Clipboard, WINDOW, c, time);
            var o := b.sels.clipboard.owner;
            && r.floor == 0 && r.sels.clipboard.lastChanged == time && r.sels.clipboard.owner == Taker(c, time)
            && fx == Some(Effects([], if o.X? && o.x.client != c then Some(o.x) else None, None, time))
  {
  }

  lemma TakeNext(w: World, c: ClientId, time: u32)
    requires c in w.conns && w.conns[c].busy == Idle
    requires w.board.floor == 0 && w.board.sels.clipboard.lastChanged <= time < 1000 && !w.board.sels.clipboard.owner.Wayland?
    ensures BridgeWorld.Possible(w, TakeBy(c, time))
    ensures var r := Next(w, TakeBy(c, time));
            && r.board == XTook(w.board, time, Clipboard, WINDOW, c, time).0
            && r.conns.Keys == w.conns.Keys && (forall d :: d in w.conns && d != c ==> r.conns[d] == w.conns[d])
            && r.conns[c].table == w.conns[c].table && r.conns[c].busy.Starting?
  {
    TakeIs(w.board, c, time);
    hide XTook, MetBy, Live, Fetching;
  }

  lemma Takes(b: Bridge, c: ClientId, time: u32)
    requires CanTake(b, c, time)
    ensures var o := b.world.board.sels.clipboard.owner;
            var r := AfterMove(b, TakeBy(c, time));
            && Can(b, Moves(TakeBy(c, time)))
            && r.owed == b.owed[Connection(c) := if o.X? && o.x.client != c then [Clear(Clipboard, o.x.client)] else []]
            && r.world.board.floor == 0 && r.world.board.sels.clipboard.lastChanged == time
            && OwnerIn(r.world, Clipboard) == Taker(c, time)
            && r.world.conns.Keys == b.world.conns.Keys
            && (forall d :: d in b.world.conns && d != c ==> r.world.conns[d] == b.world.conns[d])
            && r.world.conns[c].table == b.world.conns[c].table && r.world.conns[c].busy.Starting?
  {
    var e, o := TakeBy(c, time), b.world.board.sels.clipboard.owner;
    TakeIs(b.world.board, c, time);
    TakeNext(b.world, c, time);
    assert EffectsOf(b.world, e) == Some((Clipboard, Effects([], if o.X? && o.x.client != c then Some(o.x) else None, None, time)));
    assert NewsOf(b.world, e) == None && OffersToReturn(b.world, e) == [];
    hide XTook, Next, EffectsOf, NewsOf, OffersToReturn;
    assert CallsOf(b, e) == if o.X? && o.x.client != c then [Clear(Clipboard, o.x.client)] else [];
    hide CallsOf;
    MoveIs(b, e);
  }

  lemma TakeBeliefs(b: Bridge, f: Beliefs, c: ClientId, time: u32)
    requires CanTake(b, c, time) && Can(b, Moves(TakeBy(c, time)))
    ensures Learned(f, b, Moves(TakeBy(c, time)), Clipboard)
         == Beliefs(f.holders + {c}, if OwesClear(b, Clipboard, c) then f.hasty + {c} else f.hasty - {c})
  {
    TakeIs(b.world.board, c, time);
    hide XTook, OwesClear;
  }

  lemma Fetches(b: Bridge, c: ClientId)
    requires c in b.world.conns && b.world.conns[c].busy.Starting? && b.world.conns[c].table == FRESH.table
    requires OwedBy(b, Connection(c)) == []
    ensures Can(b, Moves(StartFetch(c)))
    ensures var r := AfterMove(b, StartFetch(c));
            && r.owed == b.owed[Connection(c) := []] && r.world.board == b.world.board
            && r.world.conns.Keys == b.world.conns.Keys && (forall d :: d in b.world.conns && d != c ==> r.world.conns[d] == b.world.conns[d])
            && r.world.conns[c].busy == Idle
  {
    BeginsAlone(b.world.conns[c].busy.fetch);
    QuietMove(b, StartFetch(c));
    hide MetBy, AfterMove, BridgeRuns.FetchTable.Begin;
  }

  lemma BeginsAlone(f: BridgeRuns.FetchTable.Fetch)
    ensures BridgeRuns.FetchTable.Begin(FRESH.table, f).1 == []
  {
    var none: map<u32, BridgeRuns.FetchTable.IncrRecv> := map[];
    assert BridgeRuns.FetchTable.Keep([], BridgeRuns.FetchTable.OnProperty(f.property), true) == [];
    assert BridgeRuns.FetchTable.Keep([], BridgeRuns.FetchTable.OnProperty(f.property), false) == [];
    assert BridgeRuns.FetchTable.ReceivingOn(none, f.property) == [];
  }

  lemma Sends(b: Bridge, t: Thread, c: ClientId, f: Beliefs)
    requires OwedBy(b, t) == [Clear(Clipboard, c)]
    ensures Can(b, Carries(t, 0))
    ensures var r := After(b, Carries(t, 0)); r.owed == b.owed[t := []] && r.world == b.world
    ensures Learned(f, b, Carries(t, 0), Clipboard) == f.(holders := f.holders - {c})
  {
  }

  lemma NothingOwed(owed: map<Thread, seq<Call>>, call: Call)
    requires forall t :: t in owed ==> owed[t] == []
    ensures !Owes(owed, call)
  {
  }

  const NOBODY := Beliefs({}, {})
  const NONE: seq<Call> := []
  const NO_CALLS := map[Connection(1) := NONE, Connection(2) := NONE]

  lemma RetakeJoins() returns (b1: Bridge, b2: Bridge)
    ensures var b0 := Begin(Two(true, true), true);
            && Can(b0, RETAKE[0]) && b1 == After(b0, RETAKE[0]) && Can(b1, RETAKE[1]) && b2 == After(b1, RETAKE[1])
            && Learned(NOBODY, b0, RETAKE[0], Clipboard) == NOBODY && Learned(NOBODY, b1, RETAKE[1], Clipboard) == NOBODY
    ensures b2.owed == NO_CALLS && b2.world.conns == map[1 := FRESH, 2 := FRESH] && CanTake(b2, 1, 100)
    ensures OwnerIn(b2.world, Clipboard) == Nobody
  {
    var b0 := Begin(Two(true, true), true);
    hide AfterMove, Learned;
    Joins(b0, 1);
    b1 := After(b0, RETAKE[0]);
    Joins(b1, 2);
    b2 := After(b1, RETAKE[1]);
    JoinBeliefs(b0, NOBODY, Join(1));
    JoinBeliefs(b1, NOBODY, Join(2));
  }

  lemma RetakeTakes(b2: Bridge) returns (b3: Bridge, b4: Bridge)
    requires b2.owed == NO_CALLS && b2.world.conns == map[1 := FRESH, 2 := FRESH] && CanTake(b2, 1, 100)
    requires OwnerIn(b2.world, Clipboard) == Nobody
    ensures Can(b2, RETAKE[2]) && b3 == After(b2, RETAKE[2]) && Can(b3, RETAKE[3]) && b4 == After(b3, RETAKE[3])
    ensures Learned(NOBODY, b2, RETAKE[2], Clipboard) == Beliefs({1}, {})
    ensures Learned(Beliefs({1}, {}), b3, RETAKE[3], Clipboard) == Beliefs({1}, {})
    ensures b4.owed == NO_CALLS && CanTake(b4, 2, 101) && 1 in b4.world.conns && b4.world.conns[1].busy == Idle
    ensures OwnerIn(b4.world, Clipboard) == Taker(1, 100)
  {
    hide AfterMove, Learned, OwesClear;
    Takes(b2, 1, 100);
    b3 := After(b2, RETAKE[2]);
    Fetches(b3, 1);
    b4 := After(b3, RETAKE[3]);
    NothingOwed(b2.owed, Clear(Clipboard, 1));
    assert !OwesClear(b2, Clipboard, 1) by { OwesClearIs(b2, Clipboard, 1); }
    TakeBeliefs(b2, NOBODY, 1, 100);
    JoinBeliefs(b3, Beliefs({1}, {}), StartFetch(1));
  }

  lemma OwesClearIs(b: Bridge, k: Sel, c: ClientId)
    ensures OwesClear(b, k, c) == Owes(b.owed, Clear(k, c))
  {
  }

  lemma RetakeLoses(b4: Bridge) returns (b5: Bridge)
    requires b4.owed == NO_CALLS && CanTake(b4, 2, 101) && 1 in b4.world.conns && b4.world.conns[1].busy == Idle
    requires OwnerIn(b4.world, Clipboard) == Taker(1, 100)
    ensures Can(b4, RETAKE[4]) && b5 == After(b4, RETAKE[4])
    ensures Learned(Beliefs({1}, {}), b4, RETAKE[4], Clipboard) == Beliefs({1, 2}, {})
    ensures b5.owed == map[Connection(1) := NONE, Connection(2) := [Clear(Clipboard, 1)]] && CanTake(b5, 1, 102)
    ensures OwnerIn(b5.world, Clipboard) == Taker(2, 101)
  {
    hide AfterMove, Learned, OwesClear;
    Takes(b4, 2, 101);
    b5 := After(b4, RETAKE[4]);
    NothingOwed(b4.owed, Clear(Clipboard, 2));
    OwesClearIs(b4, Clipboard, 2);
    TakeBeliefs(b4, Beliefs({1}, {}), 2, 101);
  }

  lemma RetakeBack(b5: Bridge) returns (b6: Bridge)
    requires b5.owed == map[Connection(1) := NONE, Connection(2) := [Clear(Clipboard, 1)]] && CanTake(b5, 1, 102)
    requires OwnerIn(b5.world, Clipboard) == Taker(2, 101)
    ensures Can(b5, RETAKE[5]) && b6 == After(b5, RETAKE[5])
    ensures Learned(Beliefs({1, 2}, {}), b5, RETAKE[5], Clipboard) == Beliefs({1, 2}, {1})
    ensures b6.owed == map[Connection(1) := [Clear(Clipboard, 2)], Connection(2) := [Clear(Clipboard, 1)]]
    ensures OwnerIn(b6.world, Clipboard) == Taker(1, 102)
  {
    hide AfterMove, Learned, OwesClear;
    Takes(b5, 1, 102);
    b6 := After(b5, RETAKE[5]);
    assert Connection(2) in b5.owed && Clear(Clipboard, 1) in b5.owed[Connection(2)];
    OwesClearIs(b5, Clipboard, 1);
    TakeBeliefs(b5, Beliefs({1, 2}, {}), 1, 102);
  }

  lemma RetakeSends(b6: Bridge) returns (b7: Bridge, b8: Bridge)
    requires b6.owed == map[Connection(1) := [Clear(Clipboard, 2)], Connection(2) := [Clear(Clipboard, 1)]]
    ensures Can(b6, RETAKE[6]) && b7 == After(b6, RETAKE[6]) && Can(b7, RETAKE[7]) && b8 == After(b7, RETAKE[7])
    ensures Learned(Beliefs({1, 2}, {1}), b6, RETAKE[6], Clipboard) == Beliefs({2}, {1})
    ensures Learned(Beliefs({2}, {1}), b7, RETAKE[7], Clipboard) == Beliefs({}, {1})
    ensures b8.owed == NO_CALLS && b8.world == b6.world
  {
    hide After, Learned;
    Sends(b6, Connection(2), 1, Beliefs({1, 2}, {1}));
    b7 := After(b6, RETAKE[6]);
    Sends(b7, Connection(1), 2, Beliefs({2}, {1}));
    b8 := After(b7, RETAKE[7]);
  }

  lemma {:induction false} BeliefsAre(bs: seq<Bridge>, ds: seq<Doing>, fs: seq<Beliefs>, k: Sel)
    requires |bs| >= |ds| && |fs| == |ds| + 1 && fs[0] == NOBODY
    requires forall i :: 0 <= i < |ds| ==> Can(bs[i], ds[i]) && fs[i + 1] == Learned(fs[i], bs[i], ds[i], k)
    ensures BeliefsOf(bs, ds, k) == fs[|ds|]
    decreases |ds|
  {
    hide Can, Learned;
    if ds != [] {
      BeliefsAre(bs, ds[..|ds| - 1], fs[..|ds|], k);
    }
  }

  lemma EightSteps(bs: seq<Bridge>, ds: seq<Doing>)
    requires |bs| == 9 && |ds| == 8 && bs[0] == Begin(Two(true, true), true)
    requires Can(bs[0], ds[0]) && bs[1] == After(bs[0], ds[0]) && Can(bs[1], ds[1]) && bs[2] == After(bs[1], ds[1])
    requires Can(bs[2], ds[2]) && bs[3] == After(bs[2], ds[2]) && Can(bs[3], ds[3]) && bs[4] == After(bs[3], ds[3])
    requires Can(bs[4], ds[4]) && bs[5] == After(bs[4], ds[4]) && Can(bs[5], ds[5]) && bs[6] == After(bs[5], ds[5])
    requires Can(bs[6], ds[6]) && bs[7] == After(bs[6], ds[6]) && Can(bs[7], ds[7]) && bs[8] == After(bs[7], ds[7])
    ensures Runs(bs, ds)
  {
    hide Can, After, Begin;
    forall i | 0 <= i < 8 ensures Can(bs[i], ds[i]) && bs[i + 1] == After(bs[i], ds[i]) {
      if i < 4 {
        assert i == 0 || i == 1 || i == 2 || i == 3;
      } else {
        assert i == 4 || i == 5 || i == 6 || i == 7;
      }
    }
  }

  /** A run from the start that ends with nothing still to be sent, client 1 the owner, and nobody believing it owns the
      selection: the owner was told last of the loss it had undone. */
  lemma RetakerIsToldOfItsLoss() returns (bs: seq<Bridge>)
    ensures |bs| == 9 && Runs(bs, RETAKE)
    ensures Owns(bs[8].world, Clipboard, 1) && (forall c :: !OwesClear(bs[8], Clipboard, c))
    ensures BeliefsOf(bs, RETAKE, Clipboard).holders == {}
  {
    hide After, Can, Learned, Begin, OwesClear, CanTake, Runs, BeliefsOf;
    var b1, b2 := RetakeJoins();
    var b3, b4 := RetakeTakes(b2);
    var b5 := RetakeLoses(b4);
    var b6 := RetakeBack(b5);
    var b7, b8 := RetakeSends(b6);
    bs := [Begin(Two(true, true), true), b1, b2, b3, b4, b5, b6, b7, b8];
    EightSteps(bs, RETAKE);
    var fs := [NOBODY, NOBODY, NOBODY, Beliefs({1}, {}), Beliefs({1}, {}), Beliefs({1, 2}, {}), Beliefs({1, 2}, {1}), Beliefs({2}, {1}), Beliefs({}, {1})];
    BeliefsAre(bs, RETAKE, fs, Clipboard);
    forall c ensures !OwesClear(b8, Clipboard, c) {
      NothingOwed(b8.owed, Clear(Clipboard, c));
      OwesClearIs(b8, Clipboard, c);
    }
  }
}
