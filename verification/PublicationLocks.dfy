/** Publishing at the grain of the locks. A transition that publishes takes the clipboard's lock to change the owner,
    takes it again to record the echo owed, posts the job without it, and takes it once more if the post is refused;
    other connections, the Wayland thread and the compositor go on in between. */
module PublicationLocks {
  import opened BridgeTypes
  import opened ClipboardState
  import opened EchoProtocol

  /** What a connection's thread has left to do for a publication. */
  datatype Stage =
    | Withdraws
    | Wants(data: Option<Bytes>)
    | Posts(data: Option<Bytes>)
    | Undoes(echo: Echo)
  {
    predicate Carries(data: Option<Bytes>) {
      (Wants? || Posts?) && this.data == data
    }
  }

  /** `posted` are the publications the queue took, in order; `overlapped`: one connection's publication was begun
      while another's was under way. */
  datatype Split = Split(
    view: View,
    busy: map<ClientId, Stage>,
    posted: seq<Option<Bytes>>,
    overlapped: bool,
    past: set<Mishap>)

  datatype Step =
    | Whole(m: Move)
    | Fetched(c: ClientId, data: Bytes)
    | Refused(c: ClientId)
    | Left(c: ClientId)
    | Proceed(c: ClientId, accepted: bool)

  predicate Can(s: Split, e: Step) {
    match e
    case Whole(m) =>
      && (m.Stutter? || m.Acquire? || m.Perform? || m.Foreign? || m.Deliver?)
      && Enabled(s.view, m)
      && (m.Acquire? ==> m.x.client !in s.busy)
    case Fetched(c, _) => c !in s.busy && s.view.owner.X?
    case Refused(c) => c !in s.busy && s.view.owner.X?
    case Left(c) => c !in s.busy && s.view.owner.X?
    case Proceed(c, _) => c in s.busy
  }

  function Begun(s: Split, c: ClientId, view: View, stage: Stage, met: set<Mishap>): Split {
    s.(view := view, busy := s.busy[c := stage], overlapped := s.overlapped || s.busy != map[], past := s.past + met)
  }

  function Done(s: Split, c: ClientId): Split {
    s.(busy := s.busy - {c})
  }

  function Recorded(v: View, data: Option<Bytes>): View {
    v.(echoes := (if |v.echoes| >= MAX_ECHOES then v.echoes[1..] else v.echoes) + [KindOf(data)], published := data.Some?)
  }

  function Undone(v: View, echo: Echo): View {
    v.(published := false,
       echoes := if v.echoes != [] && v.echoes[|v.echoes| - 1] == echo then v.echoes[..|v.echoes| - 1] else v.echoes)
  }

  function Proceeded(s: Split, c: ClientId, accepted: bool): Split
    requires c in s.busy
  {
    match s.busy[c]
    case Withdraws => if s.view.published then s.(busy := s.busy[c := Wants(None)]) else Done(s, c)
    case Wants(data) =>
      if !s.view.publishable then Done(s, c) else
        s.(view := Recorded(s.view, data), busy := s.busy[c := Posts(data)],
           past := s.past + (if |s.view.echoes| >= MAX_ECHOES then {EchoOverflow} else {}))
    case Posts(data) =>
      if accepted then Done(s.(view := s.view.(sent := s.view.sent + [data]), posted := s.posted + [data]), c)
      else s.(busy := s.busy[c := Undoes(KindOf(data))], past := s.past + {PostRefused})
    case Undoes(echo) => Done(s.(view := Undone(s.view, echo)), c)
  }

  function Next(s: Split, e: Step): Split
    requires Can(s, e)
  {
    var v := s.view;
    match e
    case Whole(m) => s.(view := Moved(v, m), past := s.past + Mishaps(v, m))
    case Fetched(c, data) =>
      Begun(s, c, v.(owner := X(v.owner.x.(data := Some(data)))), Wants(Some(data)), {})
    case Refused(c) => Begun(s, c, v, Withdraws, if v.owner.x.data.Some? then {ResolvedTwice} else {})
    case Left(c) => Begun(s, c, v.(owner := Nobody), Withdraws, {})
    case Proceed(c, accepted) => Proceeded(s, c, accepted)
  }

  // --- a publication without interruption is one move ---

  function Ahead(s: Split, c: ClientId): nat {
    if c !in s.busy then 0 else
      match s.busy[c]
      case Withdraws => 4
      case Wants(_) => 3
      case Posts(_) => 2
      case Undoes(_) => 1
  }

  /** The rest of a publication, with nothing in between. */
  function Finished(s: Split, c: ClientId, accepted: bool): Split
    decreases Ahead(s, c)
  {
    if c !in s.busy then s else Finished(Proceeded(s, c, accepted), c, accepted)
  }

  lemma UndoingFinishes(s: Split, c: ClientId, accepted: bool)
    requires c in s.busy && s.busy[c].Undoes?
    ensures Finished(s, c, accepted) == Done(s.(view := Undone(s.view, s.busy[c].echo)), c)
  {
    assert Finished(Proceeded(s, c, accepted), c, accepted) == Proceeded(s, c, accepted);
  }

  lemma PostingFinishes(s: Split, c: ClientId, accepted: bool)
    requires c in s.busy && s.busy[c].Posts?
    ensures var data, r := s.busy[c].data, Finished(s, c, accepted);
            && r.busy == s.busy - {c}
            && r.past == s.past + (if accepted then {} else {PostRefused})
            && r.view == (if accepted then s.view.(sent := s.view.sent + [data]) else Undone(s.view, KindOf(data)))
            && r.posted == s.posted + if accepted then [data] else []
  {
    var r := Proceeded(s, c, accepted);
    if accepted {
      assert Finished(r, c, accepted) == r;
    } else {
      UndoingFinishes(r, c, accepted);
      assert Done(r, c).busy == Done(s, c).busy;
    }
  }

  lemma UndoneAsBefore(v: View, data: Option<Bytes>)
    requires v.publishable
    ensures Undone(Recorded(v, data), KindOf(data)) == Publishing(v, data, false)
  {
    var e := Recorded(v, data).echoes;
    assert e[..|e| - 1] == if |v.echoes| >= MAX_ECHOES then v.echoes[1..] else v.echoes;
  }

  lemma UnfoldFinished(s: Split, c: ClientId, accepted: bool)
    requires c in s.busy
    ensures Finished(s, c, accepted) == Finished(Proceeded(s, c, accepted), c, accepted)
    ensures c !in Proceeded(s, c, accepted).busy ==> Finished(s, c, accepted) == Proceeded(s, c, accepted)
  {
  }

  lemma WantingFinishes(s: Split, c: ClientId, accepted: bool)
    requires c in s.busy && s.busy[c].Wants?
    ensures var data, r := s.busy[c].data, Finished(s, c, accepted);
            && r.view == Publishing(s.view, data, accepted) && r.busy == s.busy - {c}
            && r.past == s.past + PublishMishaps(s.view, accepted)
            && r.posted == s.posted + if s.view.publishable && accepted then [data] else []
  {
    UnfoldFinished(s, c, accepted);
    var r, data := Proceeded(s, c, accepted), s.busy[c].data;
    if s.view.publishable {
      assert r.view == Recorded(s.view, data) && r.busy == s.busy[c := Posts(data)] && r.posted == s.posted;
      assert r.past + (if accepted then {} else {PostRefused}) == s.past + PublishMishaps(s.view, accepted);
      hide Finished, Undone, Proceeded, PublishMishaps;
      PostingFinishes(r, c, accepted);
      UndoneAsBefore(s.view, data);
      assert r.busy - {c} == s.busy - {c};
    }
  }

  lemma WithdrawingFinishes(s: Split, c: ClientId, accepted: bool)
    requires c in s.busy && s.busy[c].Withdraws?
    ensures var r := Finished(s, c, accepted);
            && r.view == Withdrawing(s.view, accepted) && r.busy == s.busy - {c}
            && r.past == s.past + (if s.view.published then PublishMishaps(s.view, accepted) else {})
  {
    UnfoldFinished(s, c, accepted);
    hide Finished, Publishing, PublishMishaps;
    var r := Proceeded(s, c, accepted);
    if s.view.published {
      WantingFinishes(r, c, accepted);
      assert r.busy - {c} == s.busy - {c};
    }
  }

  predicate MakesMove(s: Split, r: Split, m: Move)
    requires Enabled(s.view, m)
  {
    r.view == Moved(s.view, m) && r.busy == s.busy && r.past == s.past + Mishaps(s.view, m)
  }

  lemma FetchedFinishes(s: Split, c: ClientId, data: Bytes, accepted: bool)
    requires c !in s.busy && s.view.owner.X?
    ensures MakesMove(s, Finished(Next(s, Fetched(c, data)), c, accepted), Fill(data, accepted))
  {
    WantingFinishes(Next(s, Fetched(c, data)), c, accepted);
    hide Finished, Publishing, PublishMishaps;
    assert s.busy[c := Wants(Some(data))] - {c} == s.busy;
  }

  lemma RefusedFinishes(s: Split, c: ClientId, accepted: bool)
    requires c !in s.busy && s.view.owner.X?
    ensures MakesMove(s, Finished(Next(s, Refused(c)), c, accepted), Fail(accepted))
  {
    WithdrawingFinishes(Next(s, Refused(c)), c, accepted);
    hide Finished, Withdrawing, PublishMishaps;
    assert s.busy[c := Withdraws] - {c} == s.busy;
  }

  lemma LeftFinishes(s: Split, c: ClientId, accepted: bool)
    requires c !in s.busy && s.view.owner.X?
    ensures MakesMove(s, Finished(Next(s, Left(c)), c, accepted), Vacate(accepted))
  {
    WithdrawingFinishes(Next(s, Left(c)), c, accepted);
    hide Finished, Withdrawing, PublishMishaps;
    assert s.busy[c := Withdraws] - {c} == s.busy;
  }

  /** With nothing in between, the regions of a publication make up the one move of the selection's protocol, with
      the same mishaps. */
  lemma UninterruptedIsOneMove(s: Split, c: ClientId, data: Bytes, accepted: bool)
    requires c !in s.busy && s.view.owner.X?
    ensures MakesMove(s, Finished(Next(s, Fetched(c, data)), c, accepted), Fill(data, accepted))
    ensures MakesMove(s, Finished(Next(s, Refused(c)), c, accepted), Fail(accepted))
    ensures MakesMove(s, Finished(Next(s, Left(c)), c, accepted), Vacate(accepted))
  {
    hide MakesMove, Finished, Next;
    FetchedFinishes(s, c, data, accepted);
    RefusedFinishes(s, c, accepted);
    LeftFinishes(s, c, accepted);
  }

  // --- the properties ---

  predicate Alone(s: Split) {
    forall c, d :: c in s.busy && d in s.busy ==> c == d
  }

  /** A value held by X is still to be posted, or what the compositor comes to show is what was posted last, or a
      foreign announcement is to come. */
  predicate LastPostedShows(s: Split) {
    s.view.owner.X? && s.view.owner.x.data.Some? ==>
      || ForeignComing(s.view.stream)
      || (s.posted != [] && Final(s.view) == s.posted[|s.posted| - 1])
      || exists c :: c in s.busy && s.busy[c].Carries(s.view.owner.x.data)
  }

  /** It is the value under way, or the one posted last. */
  predicate ValuePosted(s: Split) {
    s.view.owner.X? && s.view.owner.x.data.Some? ==>
      && (forall c :: c in s.busy ==> s.busy[c].Carries(s.view.owner.x.data))
      && (s.busy == map[] ==> s.posted != [] && s.posted[|s.posted| - 1] == s.view.owner.x.data)
  }

  /** What is recorded for a publication that is not yet posted. */
  function OwedFor(stage: Stage): seq<Echo> {
    match stage
    case Posts(data) => [KindOf(data)]
    case Undoes(echo) => [echo]
    case _ => []
  }

  /** The echoes recorded are those owed for what was made and for what was posted, and then `tail`. */
  predicate Exact(v: View, tail: seq<Echo>) {
    v.echoes == Owed(v.stream) + Kinds(v.sent) + tail
  }

  /** The record is exact, counting the publication that is about to be posted. */
  predicate RecordExact(s: Split) {
    && (forall c :: c in s.busy ==> Exact(s.view, OwedFor(s.busy[c])))
    && (s.busy == map[] ==> Exact(s.view, []))
  }

  predicate PublishedSettles(s: Split) {
    (forall c :: c in s.busy ==> OwedFor(s.busy[c]) == []) ==> PublishedIsOurs(s.view)
  }

  /** Which property survives what. */
  predicate Holds(s: Split) {
    && Coherent(s.view) && WaylandOwnerIsShown(s.view)
    && (!s.overlapped ==> Alone(s))
    && (forall c :: c in s.busy && s.busy[c].Undoes? ==> PostRefused in s.past)
    && (s.view.publishable && s.past !! {Misattributed, PostRefused} ==> LastPostedShows(s))
    && (s.view.publishable && !s.overlapped && s.past !! {PostRefused, ResolvedTwice} ==> ValuePosted(s))
    && (!s.overlapped && s.past !! {EchoOverflow, Misattributed} ==> RecordExact(s))
    && (!s.overlapped && s.past !! {EchoOverflow, Misattributed, PostRefused} ==> PublishedSettles(s))
  }

  // --- every step keeps them ---

  lemma WholeKeeps(s: Split, m: Move)
    requires Holds(s) && Can(s, Whole(m))
    ensures Holds(Next(s, Whole(m)))
  {
    hide Coherent, WaylandOwnerIsShown, LastPostedShows, ValuePosted, RecordExact, PublishedSettles, PublishedIsOurs;
    WholeShows(s, m);
    hide Moved, Mishaps;
    if s.view.publishable && Next(s, Whole(m)).past !! {Misattributed, PostRefused} {
      WholeLastPosted(s, m);
    }
    if s.view.publishable && !s.overlapped && s.past !! {PostRefused, ResolvedTwice} {
      WholeValue(s, m);
    }
    if !s.overlapped && Next(s, Whole(m)).past !! {EchoOverflow, Misattributed} {
      WholeRecord(s, m);
      if PublishedSettles(s) {
        WholePublished(s, m);
      }
    }
  }

  lemma WholeShows(s: Split, m: Move)
    requires Coherent(s.view) && WaylandOwnerIsShown(s.view) && Can(s, Whole(m))
    ensures Coherent(Moved(s.view, m)) && WaylandOwnerIsShown(Moved(s.view, m))
    ensures Moved(s.view, m).publishable == s.view.publishable
  {
    match m
    case Perform(offer) => PerformAttributes(s.view, offer);
    case Deliver =>
      DeliverCoherent(s.view);
      DeliverShown(s.view);
      DeliverKeepsDevice(s.view);
    case _ =>
  }

  lemma WholeLastPosted(s: Split, m: Move)
    requires LastPostedShows(s) && Can(s, Whole(m)) && Misattributed !in Mishaps(s.view, m)
    ensures LastPostedShows(Next(s, Whole(m)))
  {
    var v, r := s.view, Moved(s.view, m);
    hide MatchesFront;
    if m.Perform? || m.Foreign? {
      assert ForeignComing(v.stream) ==> ForeignComing(r.stream) by {
        if ForeignComing(v.stream) {
          var i :| 0 <= i < |v.stream| && !v.stream[i].ours;
          assert !r.stream[i].ours;
        }
      }
      if m.Foreign? {
        assert !r.stream[|v.stream|].ours;
      }
    } else if m.Deliver? && ForeignComing(v.stream) && v.stream[0].ours {
      ForeignLater(v.stream);
    }
    hide ForeignComing;
  }

  lemma WholeValue(s: Split, m: Move)
    requires ValuePosted(s) && Can(s, Whole(m))
    ensures ValuePosted(Next(s, Whole(m)))
  {
    hide MatchesFront;
  }

  lemma DequeueBefore<T>(all: seq<T>, first: seq<T>, rest: seq<T>, later: seq<T>, tail: seq<T>)
    requires all == first + rest + later + tail && |first| <= 1
    ensures first == [] ==> all == rest + later + tail
    ensures first != [] ==> all != [] && all[0] == first[0] && all[1..] == rest + later + tail
  {
    assert all == first + rest + (later + tail) by { Regroup(first + rest, later, tail); }
    assert rest + later + tail == rest + (later + tail) by { Regroup(rest, later, tail); }
    Dequeue(all, first, rest, later + tail);
  }

  lemma DeliveredIs(v: View)
    requires v.stream != []
    ensures var a, r := v.stream[0], Delivered(v);
            && r.stream == v.stream[1..] && r.sent == v.sent
            && r.echoes == if MatchesFront(v.echoes, a.offer.Some?, a.mimes) then v.echoes[1..] else v.echoes
  {
    hide MatchesFront;
  }

  lemma DeliveryExact(v: View, tail: seq<Echo>)
    requires v.stream != [] && Coherent(v) && Exact(v, tail) && Misattributed !in Mishaps(v, Deliver)
    ensures Exact(Delivered(v), tail)
    ensures MatchesFront(v.echoes, v.stream[0].offer.Some?, v.stream[0].mimes) <==> v.stream[0].ours
  {
    var a := v.stream[0];
    var first := if a.ours then [a.Kind()] else [];
    assert a.Plausible();
    assert MatchesFront(v.echoes, a.offer.Some?, a.mimes) ==> a.ours;
    assert v.echoes != [] && a.ours && v.echoes[0] == a.Kind() ==> MatchesFront(v.echoes, a.offer.Some?, a.mimes);
    OwedHead(v.stream);
    DeliveredIs(v);
    hide Owed, Kinds, Coherent, Delivered, Mishaps, MatchesFront;
    DequeueBefore(v.echoes, first, Owed(v.stream[1..]), Kinds(v.sent), tail);
  }

  lemma WholeExact(v: View, m: Move, tail: seq<Echo>)
    requires Exact(v, tail) && Coherent(v) && Enabled(v, m) && Misattributed !in Mishaps(v, m)
    requires m.Stutter? || m.Acquire? || m.Perform? || m.Foreign? || m.Deliver?
    ensures Exact(Moved(v, m), tail)
  {
    match m
    case Deliver => DeliveryExact(v, tail);
    case Perform(offer) =>
      PerformAttributes(v, offer);
      hide Owed, Kinds;
    case Foreign(offer, mimes) =>
      OwedSnoc(v.stream, Ann(false, offer, mimes, None));
      hide Owed, Kinds;
    case _ =>
  }

  lemma WholeRecord(s: Split, m: Move)
    requires RecordExact(s) && Coherent(s.view) && Can(s, Whole(m)) && Misattributed !in Mishaps(s.view, m)
    ensures RecordExact(Next(s, Whole(m)))
  {
    hide Exact, Coherent, Mishaps, Moved;
    if s.busy == map[] {
      WholeExact(s.view, m, []);
    }
    forall c | c in s.busy ensures Exact(Moved(s.view, m), OwedFor(s.busy[c])) {
      WholeExact(s.view, m, OwedFor(s.busy[c]));
    }
  }

  lemma WholePublished(s: Split, m: Move)
    requires PublishedSettles(s) && RecordExact(s) && Coherent(s.view) && Can(s, Whole(m)) && Misattributed !in Mishaps(s.view, m)
    ensures PublishedSettles(Next(s, Whole(m)))
  {
    if m.Deliver? && (forall c :: c in s.busy ==> OwedFor(s.busy[c]) == []) {
      var tail := [];
      if c :| c in s.busy {
        assert OwedFor(s.busy[c]) == tail;
      } else {
        assert s.busy == map[];
      }
      assert Exact(s.view, tail);
      DeliveryExact(s.view, tail);
      DeliverPublished(s.view);
    }
    hide Owed, Kinds, Exact, MatchesFront, Coherent;
  }

  lemma BegunKeeps(s: Split, e: Step)
    requires Holds(s) && Can(s, e) && (e.Fetched? || e.Refused? || e.Left?)
    ensures Holds(Next(s, e))
  {
    hide Owed, Kinds, ForeignComing, Exact;
    var r := Next(s, e);
    assert r.view == s.view.(owner := r.view.owner) && !r.view.owner.Wayland?;
    assert Coherent(r.view);
    assert Exact(s.view, []) ==> Exact(r.view, []) by { ExactFrame(s.view, r.view); }
    hide Coherent;
    if LastPostedShows(s) {
      BegunLastPosted(s, e);
    }
    hide LastPostedShows;
  }

  lemma ExactFrame(v: View, r: View)
    requires r == v.(owner := r.owner)
    ensures forall tail :: Exact(v, tail) ==> Exact(r, tail)
  {
  }

  lemma BegunLastPosted(s: Split, e: Step)
    requires LastPostedShows(s) && Can(s, e) && (e.Fetched? || e.Refused? || e.Left?)
    ensures LastPostedShows(Next(s, e))
  {
    hide ForeignComing;
    var r := Next(s, e);
    if e.Fetched? {
      assert r.busy[e.c].Carries(r.view.owner.x.data);
    } else if e.Refused? {
      if c :| c in s.busy && s.busy[c].Carries(s.view.owner.x.data) {
        assert r.busy[c] == s.busy[c];
      }
    }
  }

  lemma ProceedKeeps(s: Split, c: ClientId, accepted: bool)
    requires Holds(s) && c in s.busy
    ensures Holds(Proceeded(s, c, accepted))
  {
    var r := Proceeded(s, c, accepted);
    ProceedShows(s, c, accepted);
    hide Coherent, WaylandOwnerIsShown, LastPostedShows, ValuePosted, RecordExact, PublishedSettles;
    if r.view.publishable && r.past !! {Misattributed, PostRefused} {
      ProceedLastPosted(s, c, accepted);
    }
    if !s.overlapped {
      if r.view.publishable && r.past !! {PostRefused, ResolvedTwice} {
        ProceedValue(s, c, accepted);
      }
      if r.past !! {EchoOverflow, Misattributed} {
        ProceedRecord(s, c, accepted);
        if PostRefused !in r.past {
          ProceedPublished(s, c, accepted);
        }
      }
    }
    hide Proceeded;
  }

  lemma ProceedShows(s: Split, c: ClientId, accepted: bool)
    requires Holds(s) && c in s.busy
    ensures var r := Proceeded(s, c, accepted);
            && Coherent(r.view) && WaylandOwnerIsShown(r.view) && s.past <= r.past
            && r.view.publishable == s.view.publishable && r.overlapped == s.overlapped
            && (!s.overlapped ==> Alone(r))
            && (forall d :: d in r.busy && r.busy[d].Undoes? ==> PostRefused in r.past)
  {
    hide LastPostedShows, ValuePosted, RecordExact, PublishedSettles;
  }

  lemma ProceedLastPosted(s: Split, c: ClientId, accepted: bool)
    requires LastPostedShows(s) && c in s.busy && s.view.publishable
    requires PostRefused !in Proceeded(s, c, accepted).past
    ensures LastPostedShows(Proceeded(s, c, accepted))
  {
    hide ForeignComing;
    var r := Proceeded(s, c, accepted);
    if r.view.owner.X? && r.view.owner.x.data.Some? {
      if d :| d in s.busy && s.busy[d].Carries(s.view.owner.x.data) {
        assert d != c ==> d in r.busy && r.busy[d] == s.busy[d];
        assert d == c && s.busy[c].Wants? ==> r.busy[c].Carries(s.view.owner.x.data);
      }
    }
  }

  lemma ProceedValue(s: Split, c: ClientId, accepted: bool)
    requires ValuePosted(s) && Alone(s) && c in s.busy && s.view.publishable
    requires PostRefused !in Proceeded(s, c, accepted).past
    ensures ValuePosted(Proceeded(s, c, accepted))
  {
  }

  lemma PostedExact(v: View, data: Option<Bytes>)
    requires Exact(v, [KindOf(data)])
    ensures Exact(v.(sent := v.sent + [data]), [])
  {
    PublishAttributes(v, data, true);
    hide Owed, Kinds, KindOf;
    Regroup(Owed(v.stream), Kinds(v.sent), [KindOf(data)]);
  }

  lemma RecordedExact(v: View, data: Option<Bytes>)
    requires Exact(v, []) && |v.echoes| < MAX_ECHOES
    ensures Exact(Recorded(v, data), [KindOf(data)])
  {
    hide Owed, Kinds, KindOf;
  }

  lemma UndoneExact(v: View, echo: Echo)
    requires Exact(v, [echo])
    ensures Exact(Undone(v, echo), [])
  {
    hide Owed, Kinds;
    var owed := Owed(v.stream) + Kinds(v.sent);
    assert v.echoes[|owed|] == echo && v.echoes[..|owed|] == owed;
  }

  /** One region of a publication keeps the record exact for what is then still to be posted. */
  lemma ProceedExact(s: Split, c: ClientId, accepted: bool)
    requires c in s.busy && Exact(s.view, OwedFor(s.busy[c])) && EchoOverflow !in Proceeded(s, c, accepted).past
    ensures var r := Proceeded(s, c, accepted); Exact(r.view, if c in r.busy then OwedFor(r.busy[c]) else [])
  {
    hide Exact, Recorded, Undone;
    match s.busy[c]
    case Posts(data) => PostedExact(s.view, data);
    case Undoes(echo) => UndoneExact(s.view, echo);
    case Wants(data) => if s.view.publishable { RecordedExact(s.view, data); }
    case Withdraws =>
  }

  lemma AloneThen(s: Split, c: ClientId, accepted: bool)
    requires Alone(s) && c in s.busy
    ensures var r := Proceeded(s, c, accepted); r.busy == map[] || (c in r.busy && r.busy == map[c := r.busy[c]])
  {
    assert s.busy == map[c := s.busy[c]];
  }

  lemma ProceedRecord(s: Split, c: ClientId, accepted: bool)
    requires RecordExact(s) && Alone(s) && c in s.busy && EchoOverflow !in Proceeded(s, c, accepted).past
    ensures RecordExact(Proceeded(s, c, accepted))
  {
    ProceedExact(s, c, accepted);
    AloneThen(s, c, accepted);
    hide Exact, OwedFor, Proceeded;
  }

  lemma ProceedPublished(s: Split, c: ClientId, accepted: bool)
    requires PublishedSettles(s) && Alone(s) && c in s.busy && (s.busy[c].Undoes? ==> PostRefused in s.past)
    requires PostRefused !in Proceeded(s, c, accepted).past
    ensures PublishedSettles(Proceeded(s, c, accepted))
  {
    AloneThen(s, c, accepted);
    assert s.busy == map[c := s.busy[c]];
    var r := Proceeded(s, c, accepted);
    if s.busy[c].Wants? && s.view.publishable {
      assert OwedFor(r.busy[c]) != [];
    }
  }

  lemma StepKeeps(s: Split, e: Step)
    requires Holds(s) && Can(s, e)
    ensures Holds(Next(s, e))
  {
    hide Holds;
    match e
    case Whole(m) => WholeKeeps(s, m);
    case Proceed(c, accepted) => ProceedKeeps(s, c, accepted);
    case _ => BegunKeeps(s, e);
  }

  // --- runs ---

  function Start(publishable: bool): Split {
    Split(View(Nobody, [], false, publishable, [], [], NOTHING_SHOWN), map[], [], false, {})
  }

  ghost predicate Runs(ss: seq<Split>, es: seq<Step>) {
    && |ss| == |es| + 1
    && (exists p: bool :: ss[0] == Start(p))
    && forall i :: 0 <= i < |es| ==> Can(ss[i], es[i]) && ss[i + 1] == Next(ss[i], es[i])
  }

  lemma {:induction false} LockedRunsHold(ss: seq<Split>, es: seq<Step>)
    requires Runs(ss, es)
    ensures Holds(ss[|es|])
  {
    if es != [] {
      var n := |es| - 1;
      hide Holds, Can, Next;
      assert Runs(ss[..|es|], es[..n]) by {
        var p: bool :| ss[0] == Start(p);
        assert ss[..|es|][0] == Start(p);
      }
      LockedRunsHold(ss[..|es|], es[..n]);
      StepKeeps(ss[n], es[n]);
    }
  }

  predicate Settled(s: Split) {
    s.busy == map[] && !InFlight(s.view)
  }

  /** However connections' publications interleave, in any run with no lookalike announced and no post refused: once
      everything is settled, an X owner that has its value finds the compositor showing what was posted last. So the
      two sides agree exactly if that was its own value, and they do if no publication was begun during another. */
  lemma LastPublicationWins(ss: seq<Split>, es: seq<Step>)
    requires Runs(ss, es) && ss[|es|].past !! {Misattributed, PostRefused}
    ensures var s := ss[|es|];
            s.view.publishable && Settled(s) && s.view.owner.X? && s.view.owner.x.data.Some? ==>
              && s.posted != [] && s.view.shown.value == s.posted[|s.posted| - 1]
              && (s.view.shown.ours && s.view.shown.offer.Some? && s.view.shown.value == s.view.owner.x.data
                  <==> s.posted[|s.posted| - 1] == s.view.owner.x.data)
              && (!s.overlapped && ResolvedTwice !in s.past ==> s.posted[|s.posted| - 1] == s.view.owner.x.data)
  {
    LockedRunsHold(ss, es);
  }

  /** One publication at a time, in any run where each announcement is taken for what it is and no more echoes are owed
      than can be recorded: whatever comes between the regions of a publication, and even if its post is refused, no
      echo is left owed once everything is settled, and if no post was refused `published` says whether the source
      shown is ours. */
  lemma RecordSettles(ss: seq<Split>, es: seq<Step>)
    requires Runs(ss, es) && !ss[|es|].overlapped && ss[|es|].past !! {EchoOverflow, Misattributed} && Settled(ss[|es|])
    ensures ss[|es|].view.echoes == []
    ensures PostRefused !in ss[|es|].past ==>
              (ss[|es|].view.published <==> ss[|es|].view.shown.ours && ss[|es|].view.shown.offer.Some?)
  {
    LockedRunsHold(ss, es);
    assert Owed([]) == [];
  }

  // --- two publications at once ---

  const OLD := XOwner(0x10, 1, 100, None)
  const NEW := XOwner(0x20, 2, 200, None)
  const FIRST: Bytes := [1]
  const SECOND: Bytes := [2]

  /** A connection with a value to publish is held up while another client takes the selection and publishes its own. */
  const OVERTAKEN: seq<Step> := [
    Whole(Acquire(OLD)), Fetched(1, FIRST), Whole(Acquire(NEW)), Fetched(2, SECOND),
    Proceed(2, true), Proceed(2, true), Proceed(1, true), Proceed(1, true),
    Whole(Perform(10)), Whole(Perform(11)), Whole(Deliver), Whole(Deliver)]

  function Held(echoes: nat, sent: seq<Option<Bytes>>, stream: seq<Ann>, shown: Ann): View {
    View(X(NEW.(data := Some(SECOND))), Sources(echoes), echoes > 0, true, sent, stream, shown)
  }

  function OvertakenAt(i: nat): Split {
    var both := map[1 := Wants(Some(FIRST)), 2 := Wants(Some(SECOND))];
    var a, b := Ann(true, Some(10), TEXT_MIMES, Some(SECOND)), Ann(true, Some(11), TEXT_MIMES, Some(FIRST));
    var posted := [Some(SECOND), Some(FIRST)];
    match i
    case 0 => Start(true)
    case 1 => Start(true).(view := Start(true).view.(owner := X(OLD)))
    case 2 => Start(true).(view := Start(true).view.(owner := X(OLD.(data := Some(FIRST)))), busy := both - {2})
    case 3 => Start(true).(view := Start(true).view.(owner := X(NEW)), busy := both - {2})
    case 4 => Split(Held(0, [], [], NOTHING_SHOWN), both, [], true, {})
    case 5 => Split(Held(1, [], [], NOTHING_SHOWN), both[2 := Posts(Some(SECOND))], [], true, {})
    case 6 => Split(Held(1, posted[..1], [], NOTHING_SHOWN), both - {2}, posted[..1], true, {})
    case 7 => Split(Held(2, posted[..1], [], NOTHING_SHOWN), map[1 := Posts(Some(FIRST))], posted[..1], true, {})
    case 8 => Split(Held(2, posted, [], NOTHING_SHOWN), map[], posted, true, {})
    case 9 => Split(Held(2, posted[1..], [a], a), map[], posted, true, {})
    case 10 => Split(Held(2, [], [a, b], b), map[], posted, true, {})
    case 11 => Split(Held(1, [], [b], b), map[], posted, true, {})
    case _ => Split(Held(0, [], [], b).(published := true), map[], posted, true, {})
  }

  lemma OvertakenTakes(i: nat)
    requires i < 4
    ensures Can(OvertakenAt(i), OVERTAKEN[i]) && Next(OvertakenAt(i), OVERTAKEN[i]) == OvertakenAt(i + 1)
  {
    var r := Next(OvertakenAt(i), OVERTAKEN[i]);
    assert i == 3 ==> 1 in OvertakenAt(i).busy;
    assert r.view == OvertakenAt(i + 1).view;
    assert r.busy == OvertakenAt(i + 1).busy;
  }

  lemma OvertakenPublishes(i: nat)
    requires 4 <= i < 8
    ensures Can(OvertakenAt(i), OVERTAKEN[i]) && Next(OvertakenAt(i), OVERTAKEN[i]) == OvertakenAt(i + 1)
  {
    var r := Next(OvertakenAt(i), OVERTAKEN[i]);
    assert Sources(0) + [Source] == Sources(1) && Sources(1) + [Source] == Sources(2);
    assert r.view == OvertakenAt(i + 1).view;
    assert r.busy == OvertakenAt(i + 1).busy;
  }

  lemma OvertakenAnnounces(i: nat)
    requires 8 <= i < 12
    ensures Can(OvertakenAt(i), OVERTAKEN[i]) && Next(OvertakenAt(i), OVERTAKEN[i]) == OvertakenAt(i + 1)
  {
    var r := Next(OvertakenAt(i), OVERTAKEN[i]);
    assert Sources(2)[1..] == Sources(1) && Sources(1)[1..] == Sources(0);
    assert Sources(2)[0] == Sources(1)[0] == Source;
    assert r.past == {};
    assert r.view == OvertakenAt(i + 1).view;
  }

  lemma OvertakenSteps(i: nat)
    requires i < 12
    ensures Can(OvertakenAt(i), OVERTAKEN[i]) && Next(OvertakenAt(i), OVERTAKEN[i]) == OvertakenAt(i + 1)
  {
    hide Can, Next, OvertakenAt;
    if i < 4 {
      OvertakenTakes(i);
    } else if i < 8 {
      OvertakenPublishes(i);
    } else {
      OvertakenAnnounces(i);
    }
  }

  /** Publications that overlap can leave the two sides apart, with no mishap at all: the value the compositor shows in
      the end is that of the owner before, for the one held up was posted last. */
  lemma OvertakenPublicationWins() returns (ss: seq<Split>, es: seq<Step>)
    ensures Runs(ss, es) && ss[|es|].past == {} && Settled(ss[|es|]) && ss[|es|].view.publishable
    ensures ss[|es|].view.owner == X(NEW.(data := Some(SECOND)))
    ensures ss[|es|].view.shown.ours && ss[|es|].view.shown.value == Some(FIRST) && ss[|es|].view.echoes == []
  {
    ss := seq(13, i requires 0 <= i < 13 => OvertakenAt(i));
    es := OVERTAKEN;
    assert ss[0] == Start(true);
    hide Can, Next, OvertakenAt;
    forall i | 0 <= i < 12 ensures Can(ss[i], es[i]) && ss[i + 1] == Next(ss[i], es[i]) {
      OvertakenSteps(i);
    }
    OvertakenEnds();
  }

  lemma OvertakenEnds()
    ensures var s := OvertakenAt(12);
            && s.past == {} && Settled(s) && s.view.publishable && s.view.owner == X(NEW.(data := Some(SECOND)))
            && s.view.shown.ours && s.view.shown.value == Some(FIRST) && s.view.echoes == []
  {
    assert Sources(0) == [];
  }

  /** A withdrawal and a publication that record their echoes in one order and are posted in the other. */
  const CROSSED: seq<Step> := [
    Whole(Acquire(OLD)), Fetched(1, FIRST), Proceed(1, true), Proceed(1, true), Whole(Perform(10)), Whole(Deliver),
    Left(1), Proceed(1, true), Whole(Acquire(NEW)), Fetched(2, SECOND),
    Proceed(2, true), Proceed(1, true), Proceed(1, true), Proceed(2, true),
    Whole(Perform(11)), Whole(Perform(12)), Whole(Deliver), Whole(Deliver)]

  function Seen(owner: Owner, echoes: seq<Echo>, published: bool, sent: seq<Option<Bytes>>, stream: seq<Ann>, shown: Ann): View {
    View(owner, echoes, published, true, sent, stream, shown)
  }

  const OURS := Ann(true, Some(10), TEXT_MIMES, Some(FIRST))
  const CLEARED := Ann(true, None, [], None)
  const RENEWED := Ann(true, Some(12), TEXT_MIMES, Some(SECOND))

  function CrossedAt(i: nat): Split {
    var before, after := X(OLD.(data := Some(FIRST))), X(NEW.(data := Some(SECOND)));
    var one, two := [Some(FIRST)], [Some(FIRST), None];
    var all := [Some(FIRST), None, Some(SECOND)];
    match i
    case 0 => Start(true)
    case 1 => Split(Seen(X(OLD), [], false, [], [], NOTHING_SHOWN), map[], [], false, {})
    case 2 => Split(Seen(before, [], false, [], [], NOTHING_SHOWN), map[1 := Wants(Some(FIRST))], [], false, {})
    case 3 => Split(Seen(before, [Source], true, [], [], NOTHING_SHOWN), map[1 := Posts(Some(FIRST))], [], false, {})
    case 4 => Split(Seen(before, [Source], true, one, [], NOTHING_SHOWN), map[], one, false, {})
    case 5 => Split(Seen(before, [Source], true, [], [OURS], OURS), map[], one, false, {})
    case 6 => Split(Seen(before, [], true, [], [], OURS), map[], one, false, {})
    case 7 => Split(Seen(Nobody, [], true, [], [], OURS), map[1 := Withdraws], one, false, {})
    case 8 => Split(Seen(Nobody, [], true, [], [], OURS), map[1 := Wants(None)], one, false, {})
    case 9 => Split(Seen(X(NEW), [], true, [], [], OURS), map[1 := Wants(None)], one, false, {})
    case 10 => Split(Seen(after, [], true, [], [], OURS), map[1 := Wants(None), 2 := Wants(Some(SECOND))], one, true, {})
    case 11 => Split(Seen(after, [Source], true, [], [], OURS), map[1 := Wants(None), 2 := Posts(Some(SECOND))], one, true, {})
    case 12 => Split(Seen(after, [Source, Withdrawn], false, [], [], OURS), map[1 := Posts(None), 2 := Posts(Some(SECOND))], one, true, {})
    case 13 => Split(Seen(after, [Source, Withdrawn], false, [None], [], OURS), map[2 := Posts(Some(SECOND))], two, true, {})
    case 14 => Split(Seen(after, [Source, Withdrawn], false, [None, Some(SECOND)], [], OURS), map[], all, true, {})
    case 15 => Split(Seen(after, [Source, Withdrawn], false, [Some(SECOND)], [CLEARED], CLEARED), map[], all, true, {})
    case 16 => Split(Seen(after, [Source, Withdrawn], false, [], [CLEARED, RENEWED], RENEWED), map[], all, true, {})
    case 17 => Split(Seen(Nobody, [Source, Withdrawn], false, [], [RENEWED], RENEWED), map[], all, true, {})
    case _ => Split(Seen(Wayland(12, TEXT_MIMES), [Withdrawn], true, [], [], RENEWED), map[], all, true, {})
  }

  lemma CrossedPublishes(i: nat)
    requires i < 6
    ensures Can(CrossedAt(i), CROSSED[i]) && Next(CrossedAt(i), CROSSED[i]) == CrossedAt(i + 1)
  {
    var r := Next(CrossedAt(i), CROSSED[i]);
    assert r.past == {};
    assert r.view == CrossedAt(i + 1).view;
    assert r.busy == CrossedAt(i + 1).busy;
  }

  lemma CrossedLeaves(i: nat)
    requires 6 <= i < 10
    ensures Can(CrossedAt(i), CROSSED[i]) && Next(CrossedAt(i), CROSSED[i]) == CrossedAt(i + 1)
  {
    var r := Next(CrossedAt(i), CROSSED[i]);
    assert i > 6 ==> 1 in CrossedAt(i).busy;
    assert r.past == {};
    assert r.view == CrossedAt(i + 1).view;
    assert r.busy == CrossedAt(i + 1).busy;
  }

  lemma CrossedRecords(i: nat)
    requires 10 <= i < 14
    ensures Can(CrossedAt(i), CROSSED[i]) && Next(CrossedAt(i), CROSSED[i]) == CrossedAt(i + 1)
  {
    var r := Next(CrossedAt(i), CROSSED[i]);
    assert r.past == {};
    assert r.view == CrossedAt(i + 1).view;
    assert r.busy == CrossedAt(i + 1).busy;
  }

  lemma CrossedAnnounces(i: nat)
    requires 14 <= i < 18
    ensures Can(CrossedAt(i), CROSSED[i]) && Next(CrossedAt(i), CROSSED[i]) == CrossedAt(i + 1)
  {
    var r := Next(CrossedAt(i), CROSSED[i]);
    assert r.past == {};
    assert r.view == CrossedAt(i + 1).view;
    assert r.busy == CrossedAt(i + 1).busy;
  }

  /** And they can leave the record crossed, with no mishap at all: our withdrawal is taken for a foreign one, our own
      source then for a foreign app's, which displaces the owner whose value it carries, and an echo is owed for good. */
  lemma CrossedRecordDisplaces() returns (ss: seq<Split>, es: seq<Step>)
    ensures |es| == 18 && Runs(ss, es) && ss[|es|].past == {} && Settled(ss[|es|])
    ensures var v := ss[|es|].view;
            v.shown.ours && v.shown.value == Some(SECOND) && v.owner == Wayland(12, TEXT_MIMES) && v.echoes == [Withdrawn]
    ensures ss[16].view.owner == X(NEW.(data := Some(SECOND)))
  {
    ss := seq(19, i requires 0 <= i < 19 => CrossedAt(i));
    es := CROSSED;
    assert ss[0] == Start(true);
    hide Can, Next, CrossedAt;
    forall i | 0 <= i < 18 ensures Can(ss[i], es[i]) && ss[i + 1] == Next(ss[i], es[i]) {
      CrossedSteps(i);
    }
    CrossedEnds();
  }

  lemma CrossedSteps(i: nat)
    requires i < 18
    ensures Can(CrossedAt(i), CROSSED[i]) && Next(CrossedAt(i), CROSSED[i]) == CrossedAt(i + 1)
  {
    hide Can, Next, CrossedAt;
    if i < 6 {
      CrossedPublishes(i);
    } else if i < 10 {
      CrossedLeaves(i);
    } else if i < 14 {
      CrossedRecords(i);
    } else {
      CrossedAnnounces(i);
    }
  }

  lemma CrossedEnds()
    ensures var s := CrossedAt(18);
            && s.past == {} && Settled(s) && s.view.shown.ours && s.view.shown.value == Some(SECOND)
            && s.view.owner == Wayland(12, TEXT_MIMES) && s.view.echoes == [Withdrawn]
    ensures CrossedAt(16).view.owner == X(NEW.(data := Some(SECOND)))
  {
  }
}
