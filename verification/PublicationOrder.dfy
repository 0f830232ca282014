/** The record of echoes when publications overlap: it comes out right exactly if they are posted in the order in which
    they were recorded. */
module PublicationOrder {
  import opened BridgeTypes
  import opened ClipboardState
  import opened EchoProtocol
  import opened PublicationLocks

  /** Of a run: the echoes recorded and not taken back, and the announcements of ours that were delivered. */
  datatype History = History(recorded: seq<Echo>, heard: seq<Echo>)

  function Noted(h: History, s: Split, e: Step): History
    requires Can(s, e)
  {
    match e
    case Whole(m) =>
      if m.Deliver? && s.view.stream[0].ours then h.(heard := h.heard + [s.view.stream[0].Kind()]) else h
    case Proceed(c, _) => NotedAt(h, s.view, s.busy[c])
    case _ => h
  }

  function NotedAt(h: History, v: View, stage: Stage): History {
    match stage
    case Wants(data) => if v.publishable then h.(recorded := h.recorded + [KindOf(data)]) else h
    case Undoes(echo) =>
      if v.echoes != [] && v.echoes[|v.echoes| - 1] == echo && h.recorded != []
      then h.(recorded := h.recorded[..|h.recorded| - 1]) else h
    case _ => h
  }

  function HistoryOf(ss: seq<Split>, es: seq<Step>): History
    requires |ss| >= |es| && forall i :: 0 <= i < |es| ==> Can(ss[i], es[i])
  {
    if es == [] then History([], [])
    else Noted(HistoryOf(ss, es[..|es| - 1]), ss[|es| - 1], es[|es| - 1])
  }

  /** The order of posting is that of recording. */
  predicate InOrder(ss: seq<Split>, es: seq<Step>)
    requires |ss| == |es| + 1 && forall i :: 0 <= i < |es| ==> Can(ss[i], es[i])
  {
    HistoryOf(ss, es).recorded == Kinds(ss[|es|].posted)
  }

  // --- what every step keeps ---

  /** Everything posted was announced and heard, or is on its way. */
  predicate PostedIsHeard(s: Split, h: History) {
    Kinds(s.posted) == h.heard + Owed(s.view.stream) + Kinds(s.view.sent)
  }

  function Committed(busy: map<ClientId, Stage>): set<ClientId> {
    set c | c in busy && (busy[c].Posts? || busy[c].Undoes?)
  }

  predicate RecordedFirst(s: Split, h: History) {
    |h.recorded| >= |s.posted| + |Committed(s.busy)|
  }

  /** The echoes owed are the last ones recorded, and as many are gone as announcements of ours were heard exactly if
      those are what was recorded first. */
  predicate OwedAreLast(echoes: seq<Echo>, h: History) {
    && |echoes| <= |h.recorded|
    && echoes == h.recorded[|h.recorded| - |echoes|..]
    && |h.recorded| - |echoes| <= |h.heard|
    && (|h.recorded| - |echoes| == |h.heard| <==> h.heard <= h.recorded)
  }

  predicate PublishedFollows(s: Split, h: History) {
    Committed(s.busy) == {} && h.heard <= h.recorded ==> PublishedIsOurs(s.view)
  }

  predicate Kept(s: Split, h: History) {
    && PostedIsHeard(s, h) && RecordedFirst(s, h)
    && (s.past !! {EchoOverflow, Misattributed} ==> OwedAreLast(s.view.echoes, h))
    && (s.past !! {EchoOverflow, Misattributed, PostRefused} ==> PublishedFollows(s, h))
  }

  // --- deliveries ---

  lemma HeardWithin(s: Split, h: History)
    requires PostedIsHeard(s, h) && RecordedFirst(s, h)
    ensures |h.heard| + |Owed(s.view.stream)| <= |h.recorded|
  {
    assert |Kinds(s.posted)| == |s.posted|;
  }

  lemma HeardNext(v: View, h: History, posted: seq<Option<Bytes>>)
    requires v.stream != [] && Kinds(posted) == h.heard + Owed(v.stream) + Kinds(v.sent)
    ensures var a := v.stream[0];
            && |Owed(v.stream)| == (if a.ours then 1 else 0) + |Owed(v.stream[1..])|
            && Kinds(posted) == (h.heard + if a.ours then [a.Kind()] else []) + Owed(v.stream[1..]) + Kinds(v.sent)
  {
    OwedHead(v.stream);
    hide Owed, Kinds;
    Regroup(h.heard, if v.stream[0].ours then [v.stream[0].Kind()] else [], Owed(v.stream[1..]));
  }

  /** An announcement of ours is taken for ours exactly if it was recorded next. */
  lemma OursTakes(echoes: seq<Echo>, h: History, kind: Echo)
    requires OwedAreLast(echoes, h) && |h.heard| < |h.recorded|
    ensures var taken := echoes != [] && echoes[0] == kind;
            var g := h.(heard := h.heard + [kind]);
            && OwedAreLast(if taken then echoes[1..] else echoes, g)
            && (g.heard <= g.recorded ==> h.heard <= h.recorded && taken)
  {
    var heard := h.heard + [kind];
    assert heard <= h.recorded <==> h.heard <= h.recorded && h.recorded[|h.heard|] == kind;
    if h.heard <= h.recorded {
      assert echoes == h.recorded[|h.heard|..];
    }
  }

  lemma DeliveryTakes(v: View, h: History)
    requires v.stream != [] && v.stream[0].Plausible() && OwedAreLast(v.echoes, h) && Misattributed !in Mishaps(v, Deliver)
    requires |h.heard| + (if v.stream[0].ours then 1 else 0) <= |h.recorded|
    ensures var a := v.stream[0];
            var g := if a.ours then h.(heard := h.heard + [a.Kind()]) else h;
            && OwedAreLast(Delivered(v).echoes, g)
            && (g.heard <= g.recorded ==> h.heard <= h.recorded)
            && (g.heard <= g.recorded ==> (MatchesFront(v.echoes, a.offer.Some?, a.mimes) <==> a.ours))
  {
    var a := v.stream[0];
    var taken := MatchesFront(v.echoes, a.offer.Some?, a.mimes);
    assert Delivered(v).echoes == if taken then v.echoes[1..] else v.echoes;
    assert taken ==> a.ours;
    hide Delivered, Mishaps, OwedAreLast;
    if a.ours {
      assert taken <==> v.echoes != [] && v.echoes[0] == a.Kind();
      hide MatchesFront;
      OursTakes(v.echoes, h, a.Kind());
    }
  }

  lemma DeliverPublishes(s: Split, h: History)
    requires Coherent(s.view) && Kept(s, h) && Can(s, Whole(Deliver)) && OwedAreLast(s.view.echoes, h)
    requires Misattributed !in Mishaps(s.view, Deliver)
    ensures var g := Noted(h, s, Whole(Deliver));
            OwedAreLast(Delivered(s.view).echoes, g) && (g.heard <= g.recorded ==> PublishedIsOurs(Delivered(s.view)))
  {
    HeardNext(s.view, h, s.posted);
    HeardWithin(s, h);
    assert s.view.stream[0].Plausible();
    hide Kept, Delivered, Mishaps, Owed, Kinds, MatchesFront, OwedAreLast, PublishedIsOurs, Coherent;
    DeliveryTakes(s.view, h);
    if Noted(h, s, Whole(Deliver)).heard <= h.recorded {
      DeliverPublished(s.view);
    }
  }

  lemma DeliverKept(s: Split, h: History)
    requires Coherent(s.view) && Kept(s, h) && Can(s, Whole(Deliver))
    ensures Kept(Next(s, Whole(Deliver)), Noted(h, s, Whole(Deliver)))
  {
    var r, g := Next(s, Whole(Deliver)), Noted(h, s, Whole(Deliver));
    HeardNext(s.view, h, s.posted);
    DeliveredIs(s.view);
    assert r == s.(view := Delivered(s.view), past := s.past + Mishaps(s.view, Deliver));
    if r.past !! {EchoOverflow, Misattributed} {
      DeliverPublishes(s, h);
    }
    hide Delivered, Mishaps, Owed, Kinds, Committed, OwedAreLast, PublishedIsOurs, Coherent, MatchesFront;
  }

  /** The record and what was heard are as they were, and nothing of ours came or went unrecorded. */
  lemma FrameKept(s: Split, r: Split, h: History)
    requires Kept(s, h) && r.posted == s.posted && s.past <= r.past && r.view.echoes == s.view.echoes
    requires Owed(r.view.stream) + Kinds(r.view.sent) == Owed(s.view.stream) + Kinds(s.view.sent)
    requires Committed(r.busy) == Committed(s.busy)
    requires Committed(s.busy) == {} && PublishedIsOurs(s.view) ==> PublishedIsOurs(r.view)
    ensures Kept(r, h)
  {
    hide PublishedIsOurs, Owed, Kinds, Committed;
    assert h.heard + Owed(r.view.stream) + Kinds(r.view.sent) == h.heard + (Owed(r.view.stream) + Kinds(r.view.sent));
    assert h.heard + Owed(s.view.stream) + Kinds(s.view.sent) == h.heard + (Owed(s.view.stream) + Kinds(s.view.sent));
  }

  lemma WholeKept(s: Split, m: Move, h: History)
    requires Coherent(s.view) && Kept(s, h) && Can(s, Whole(m))
    ensures Kept(Next(s, Whole(m)), Noted(h, s, Whole(m)))
  {
    hide Kept, Committed;
    if m.Deliver? {
      DeliverKept(s, h);
    } else {
      if m.Perform? {
        PerformAttributes(s.view, m.newOffer);
      } else if m.Foreign? {
        OwedSnoc(s.view.stream, Ann(false, m.offer, m.mimes, None));
      }
      FrameKept(s, Next(s, Whole(m)), h);
    }
  }

  lemma BegunKept(s: Split, e: Step, h: History)
    requires Kept(s, h) && Can(s, e) && (e.Fetched? || e.Refused? || e.Left?)
    ensures Kept(Next(s, e), Noted(h, s, e))
  {
    var r := Next(s, e);
    assert Committed(r.busy) == Committed(s.busy);
    hide Kept, Committed;
    FrameKept(s, r, h);
  }

  // --- the regions of a publication ---

  lemma RecordedAreLast(echoes: seq<Echo>, echo: Echo, h: History)
    requires OwedAreLast(echoes, h) && |h.heard| <= |h.recorded|
    ensures OwedAreLast(echoes + [echo], h.(recorded := h.recorded + [echo]))
    ensures h.heard <= h.recorded + [echo] <==> h.heard <= h.recorded
  {
  }

  lemma RecordingKept(s: Split, c: ClientId, accepted: bool, h: History)
    requires Kept(s, h) && c in s.busy && s.busy[c].Wants? && s.view.publishable
    ensures Kept(Proceeded(s, c, accepted), NotedAt(h, s.view, s.busy[c]))
  {
    var r := Proceeded(s, c, accepted);
    HeardWithin(s, h);
    assert Committed(r.busy) == Committed(s.busy) + {c};
    assert Committed(r.busy) != {};
    hide Owed, Kinds, Committed, PublishedIsOurs, OwedAreLast;
    if r.past !! {EchoOverflow, Misattributed} {
      assert r.view.echoes == s.view.echoes + [KindOf(s.busy[c].data)];
      RecordedAreLast(s.view.echoes, KindOf(s.busy[c].data), h);
    }
    hide Recorded;
  }

  lemma PostingKept(s: Split, c: ClientId, accepted: bool, h: History)
    requires Kept(s, h) && c in s.busy && s.busy[c].Posts?
    ensures Kept(Proceeded(s, c, accepted), h)
  {
    var data, r := s.busy[c].data, Proceeded(s, c, accepted);
    if accepted {
      assert Committed(r.busy) == Committed(s.busy) - {c};
      PublishAttributes(s.view, data, true);
      assert Kinds(s.posted + [data]) == Kinds(s.posted) + [KindOf(data)];
      hide Committed, Owed, Kinds;
      assert h.heard + Owed(s.view.stream) + (Kinds(s.view.sent) + [KindOf(data)])
          == (h.heard + Owed(s.view.stream) + Kinds(s.view.sent)) + [KindOf(data)];
    } else {
      assert Committed(r.busy) == Committed(s.busy);
      hide Committed, Owed, Kinds;
    }
  }

  lemma UndoneAreLast(v: View, echo: Echo, h: History)
    requires OwedAreLast(v.echoes, h) && |h.heard| <= |NotedAt(h, v, Undoes(echo)).recorded|
    ensures OwedAreLast(Undone(v, echo).echoes, NotedAt(h, v, Undoes(echo)))
  {
    var rec := NotedAt(h, v, Undoes(echo)).recorded;
    assert h.heard <= rec <==> h.heard <= h.recorded;
  }

  lemma UndoingKept(s: Split, c: ClientId, accepted: bool, h: History)
    requires Kept(s, h) && c in s.busy && s.busy[c].Undoes? && PostRefused in s.past
    ensures Kept(Proceeded(s, c, accepted), NotedAt(h, s.view, s.busy[c]))
  {
    var r := Proceeded(s, c, accepted);
    assert Committed(r.busy) == Committed(s.busy) - {c} && |Committed(r.busy)| == |Committed(s.busy)| - 1;
    hide Owed, Kinds, Committed, PublishedIsOurs, OwedAreLast, Undone;
    HeardWithin(s, h);
    assert r.view.stream == s.view.stream && r.view.sent == s.view.sent by { UndoneKeeps(s.view, s.busy[c].echo); }
    HeardWithin(r, NotedAt(h, s.view, s.busy[c]));
    if r.past !! {EchoOverflow, Misattributed} {
      UndoneAreLast(s.view, s.busy[c].echo, h);
    }
  }

  lemma UndoneKeeps(v: View, echo: Echo)
    ensures Undone(v, echo).stream == v.stream && Undone(v, echo).sent == v.sent
  {
  }

  lemma ProceedKept(s: Split, c: ClientId, accepted: bool, h: History)
    requires Kept(s, h) && c in s.busy && (s.busy[c].Undoes? ==> PostRefused in s.past)
    ensures Kept(Proceeded(s, c, accepted), NotedAt(h, s.view, s.busy[c]))
  {
    var r := Proceeded(s, c, accepted);
    if s.busy[c].Posts? {
      PostingKept(s, c, accepted, h);
    } else if s.busy[c].Undoes? {
      UndoingKept(s, c, accepted, h);
    } else if s.busy[c].Wants? && s.view.publishable {
      RecordingKept(s, c, accepted, h);
    } else {
      assert Committed(r.busy) == Committed(s.busy);
      hide Kept, Committed;
      FrameKept(s, r, h);
    }
  }

  lemma StepKept(s: Split, e: Step, h: History)
    requires PublicationLocks.Holds(s) && Kept(s, h) && Can(s, e)
    ensures Kept(Next(s, e), Noted(h, s, e))
  {
    assert Coherent(s.view);
    assert e.Proceed? && s.busy[e.c].Undoes? ==> PostRefused in s.past;
    hide PublicationLocks.Holds, Kept, Coherent;
    match e
    case Whole(m) => WholeKept(s, m, h);
    case Proceed(c, accepted) => ProceedKept(s, c, accepted, h);
    case _ => BegunKept(s, e, h);
  }

  // --- runs ---

  lemma StartKept(publishable: bool)
    ensures Kept(Start(publishable), History([], []))
  {
  }

  lemma {:induction false} HistoryOfPrefix(ss: seq<Split>, es: seq<Step>)
    requires |ss| > |es| && forall i :: 0 <= i < |es| ==> Can(ss[i], es[i])
    ensures HistoryOf(ss[..|es| + 1], es) == HistoryOf(ss, es)
    decreases |es|
  {
    hide Noted, Can;
    if es != [] {
      HistoryOfPrefix(ss, es[..|es| - 1]);
      HistoryOfPrefix(ss[..|es| + 1], es[..|es| - 1]);
      assert ss[..|es| + 1][..|es|] == ss[..|es|];
    }
  }

  lemma {:induction false} RunsKept(ss: seq<Split>, es: seq<Step>)
    requires Runs(ss, es)
    ensures Kept(ss[|es|], HistoryOf(ss, es))
  {
    hide Kept, Can, Next, PublicationLocks.Holds, Noted;
    var p: bool :| ss[0] == Start(p);
    if es == [] {
      StartKept(p);
    } else {
      var n := |es| - 1;
      assert Runs(ss[..|es|], es[..n]) by {
        assert ss[..|es|][0] == Start(p);
      }
      RunsKept(ss[..|es|], es[..n]);
      HistoryOfPrefix(ss, es[..n]);
      LockedRunsHold(ss[..|es|], es[..n]);
      StepKept(ss[n], es[n], HistoryOf(ss, es[..n]));
    }
  }

  /** However publications overlap and whichever posts are refused, in any run where each announcement is taken for what
      it is but by the order of our own, and no more echoes are owed than can be recorded: once everything is settled,
      no echo is left owed exactly if the publications were posted in the order they were recorded. If they were, and
      none was refused, `published` says whether the source shown is ours. */
  lemma RecordSettlesIff(ss: seq<Split>, es: seq<Step>)
    requires Runs(ss, es) && ss[|es|].past !! {EchoOverflow, Misattributed} && Settled(ss[|es|])
    ensures ss[|es|].view.echoes == [] <==> InOrder(ss, es)
    ensures InOrder(ss, es) && PostRefused !in ss[|es|].past ==>
              (ss[|es|].view.published <==> ss[|es|].view.shown.ours && ss[|es|].view.shown.offer.Some?)
  {
    RunsKept(ss, es);
    var s, h := ss[|es|], HistoryOf(ss, es);
    assert Owed([]) == [] && Kinds([]) == [];
    assert Committed(map[]) == {};
    assert Kinds(s.posted) == h.heard && |h.heard| <= |h.recorded|;
    hide Owed, Kinds, Committed, Runs;
    assert h.heard <= h.recorded && |h.heard| == |h.recorded| ==> h.heard == h.recorded;
  }

  /** Publications that do not overlap are posted in the order they are recorded, but for those refused. */
  lemma OneAtATimeIsInOrder(ss: seq<Split>, es: seq<Step>)
    requires Runs(ss, es) && ss[|es|].past !! {EchoOverflow, Misattributed} && Settled(ss[|es|])
    ensures !ss[|es|].overlapped ==> InOrder(ss, es)
  {
    RecordSettlesIff(ss, es);
    if !ss[|es|].overlapped {
      RecordSettles(ss, es);
    }
  }
}
