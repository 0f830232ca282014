/** One selection between the clipboard and the compositor: publications on their way out,
    announcements on their way back, and which of those are taken for ours. */
module EchoProtocol {
  import opened BridgeTypes
  import opened ClipboardState

  /** An announcement; `ours` and `value` are the compositor's knowledge, not the bridge's. */
  datatype Ann = Ann(ours: bool, offer: Option<OfferId>, mimes: seq<string>, value: Option<Bytes>) {
    /** A source of ours advertises our mimes; a withdrawal of ours announces nothing. */
    predicate Plausible() {
      if ours then (offer.Some? <==> value.Some?) && (offer.Some? ==> mimes == TEXT_MIMES) else value.None?
    }

    function Kind(): Echo {
      if offer.Some? then Source else Withdrawn
    }
  }

  const NOTHING_SHOWN := Ann(false, None, [], None)

  /** A selection as both sides see it: `sent` are publications posted but not yet made, `stream`
      announcements made but not yet delivered, `shown` what the compositor announced last. */
  datatype View = View(
    owner: Owner,
    echoes: seq<Echo>,
    published: bool,
    publishable: bool,
    sent: seq<Option<Bytes>>,
    stream: seq<Ann>,
    shown: Ann)

  datatype Move =
    | Stutter
    | Acquire(x: XOwner)
    | Vacate(accepted: bool)
    | Fill(data: Bytes, accepted: bool)
    | Fail(accepted: bool)
    | Perform(newOffer: OfferId)
    | Foreign(offer: Option<OfferId>, mimes: seq<string>)
    | Deliver

  /** What the environment may do that the bridge cannot tell apart or carry out. */
  datatype Mishap = EchoOverflow | PostRefused | Misattributed | ResolvedTwice

  predicate Enabled(v: View, m: Move) {
    match m
    case Stutter => true
    case Acquire(x) => x.data == None
    case Vacate(_) => v.owner.X?
    case Fill(_, _) => v.owner.X?
    case Fail(_) => v.owner.X?
    case Perform(_) => v.sent != []
    case Foreign(_, _) => true
    case Deliver => v.stream != []
  }

  function KindOf(data: Option<Bytes>): Echo {
    if data.Some? then Source else Withdrawn
  }

  function Publishing(v: View, data: Option<Bytes>, accepted: bool): View {
    if !v.publishable then v else
      var owed := if |v.echoes| >= MAX_ECHOES then v.echoes[1..] else v.echoes;
      if accepted then v.(echoes := owed + [KindOf(data)], published := data.Some?, sent := v.sent + [data])
      else v.(echoes := owed, published := false)
  }

  function Withdrawing(v: View, accepted: bool): View {
    if v.published then Publishing(v, None, accepted) else v
  }

  function Show(v: View, a: Ann): View {
    v.(stream := v.stream + [a], shown := a)
  }

  function Delivered(v: View): View
    requires v.stream != []
  {
    var a := v.stream[0];
    var rest := v.(stream := v.stream[1..]);
    if MatchesFront(v.echoes, a.offer.Some?, a.mimes) then
      var taken := rest.(echoes := v.echoes[1..], published := a.offer.Some?);
      if v.owner.X? || (a.offer.None? && v.owner.Nobody?) then taken
      else taken.(owner := OwnerOf(a.offer, a.mimes))
    else rest.(published := false, owner := OwnerOf(a.offer, a.mimes))
  }

  function Moved(v: View, m: Move): View
    requires Enabled(v, m)
  {
    match m
    case Stutter => v
    case Acquire(x) => v.(owner := X(x))
    case Vacate(accepted) => Withdrawing(v.(owner := Nobody), accepted)
    case Fill(data, accepted) => Publishing(v.(owner := X(v.owner.x.(data := Some(data)))), Some(data), accepted)
    case Fail(accepted) => Withdrawing(v, accepted)
    case Perform(offer) =>
      Show(v.(sent := v.sent[1..]),
           if v.sent[0].Some? then Ann(true, Some(offer), TEXT_MIMES, v.sent[0]) else Ann(true, None, [], None))
    case Foreign(offer, mimes) => Show(v, Ann(false, offer, mimes, None))
    case Deliver => Delivered(v)
  }

  function Mishaps(v: View, m: Move): set<Mishap>
    requires Enabled(v, m)
  {
    match m
    case Vacate(accepted) => if v.published then PublishMishaps(v, accepted) else {}
    case Fill(_, accepted) => PublishMishaps(v, accepted)
    case Fail(accepted) =>
      (if v.published then PublishMishaps(v, accepted) else {})
      + (if v.owner.x.data.Some? then {ResolvedTwice} else {})
    case Deliver =>
      if !v.stream[0].ours && MatchesFront(v.echoes, v.stream[0].offer.Some?, v.stream[0].mimes)
      then {Misattributed} else {}
    case _ => {}
  }

  function PublishMishaps(v: View, accepted: bool): set<Mishap> {
    if !v.publishable then {} else
      (if |v.echoes| >= MAX_ECHOES then {EchoOverflow} else {}) + (if accepted then {} else {PostRefused})
  }

  // --- the properties ---

  function Owed(stream: seq<Ann>): seq<Echo> {
    if stream == [] then [] else
      (if stream[0].ours then [stream[0].Kind()] else []) + Owed(stream[1..])
  }

  function Kinds(sent: seq<Option<Bytes>>): seq<Echo> {
    seq(|sent|, i requires 0 <= i < |sent| => KindOf(sent[i]))
  }

  /** The echoes recorded are, in order, the publications made or to be made and not yet announced. */
  predicate Attributed(v: View) {
    v.echoes == Owed(v.stream) + Kinds(v.sent)
  }

  predicate Coherent(v: View) {
    && (v.stream != [] ==> v.stream[|v.stream| - 1] == v.shown)
    && (forall i :: 0 <= i < |v.stream| ==> v.stream[i].Plausible())
    && v.shown.Plausible()
  }

  predicate InFlight(v: View) {
    v.stream != [] || v.sent != []
  }

  predicate PublishedIsOurs(v: View) {
    !InFlight(v) ==> (v.published <==> v.shown.ours && v.shown.offer.Some?)
  }

  /** What the compositor would come to show if only our publications were still to come. */
  function Final(v: View): Option<Bytes> {
    if v.sent != [] then v.sent[|v.sent| - 1] else v.shown.value
  }

  predicate ForeignComing(stream: seq<Ann>) {
    exists i :: 0 <= i < |stream| && !stream[i].ours
  }

  predicate Agreeing(v: View) {
    v.owner.X? && v.owner.x.data.Some? ==> Final(v) == v.owner.x.data || ForeignComing(v.stream)
  }

  /** With nothing in flight, a Wayland owner is the very offer the compositor shows. */
  predicate WaylandOwnerIsShown(v: View) {
    v.owner.Wayland? && !InFlight(v) ==> v.shown.offer == Some(v.owner.offer) && v.shown.mimes == v.owner.mimes
  }

  /** Which property survives which mishaps. */
  predicate Holds(v: View, past: set<Mishap>) {
    && Coherent(v)
    && WaylandOwnerIsShown(v)
    && (past !! {EchoOverflow, Misattributed} ==> Attributed(v))
    && (past !! {EchoOverflow, Misattributed, PostRefused} ==> PublishedIsOurs(v))
    && (past !! {Misattributed, PostRefused, ResolvedTwice} && v.publishable ==> Agreeing(v))
  }

  lemma Regroup<T>(a: seq<T>, b: seq<T>, c: seq<T>)
    ensures a + b + c == a + (b + c)
  {
  }

  lemma {:induction false} OwedSnoc(stream: seq<Ann>, a: Ann)
    ensures Owed(stream + [a]) == Owed(stream) + (if a.ours then [a.Kind()] else [])
  {
    var last := if a.ours then [a.Kind()] else [];
    if stream == [] {
      assert [a][1..] == [];
    } else {
      assert (stream + [a])[0] == stream[0] && (stream + [a])[1..] == stream[1..] + [a];
      OwedHead(stream);
      OwedHead(stream + [a]);
      hide Owed;
      OwedSnoc(stream[1..], a);
      Regroup(if stream[0].ours then [stream[0].Kind()] else [], Owed(stream[1..]), last);
    }
  }

  lemma PerformAttributes(v: View, offer: OfferId)
    requires v.sent != [] && Coherent(v)
    ensures var r := Moved(v, Perform(offer));
            Coherent(r) && Owed(r.stream) + Kinds(r.sent) == Owed(v.stream) + Kinds(v.sent)
  {
    var r := Moved(v, Perform(offer));
    OwedSnoc(v.stream, r.shown);
    assert Kinds(v.sent) == [KindOf(v.sent[0])] + Kinds(r.sent);
  }

  lemma PublishAttributes(v: View, data: Option<Bytes>, accepted: bool)
    ensures Kinds(v.sent + [data]) == Kinds(v.sent) + [KindOf(data)]
  {
  }

  lemma OwedHead(stream: seq<Ann>)
    requires stream != []
    ensures Owed(stream) == (if stream[0].ours then [stream[0].Kind()] else []) + Owed(stream[1..])
  {
  }

  lemma Dequeue<T>(all: seq<T>, first: seq<T>, rest: seq<T>, later: seq<T>)
    requires all == first + rest + later && |first| <= 1
    ensures first == [] ==> all == rest + later
    ensures first != [] ==> all != [] && all[0] == first[0] && all[1..] == rest + later
  {
    if first == [] {
      assert first + rest == rest;
    } else {
      assert all == first + (rest + later);
    }
  }

  /** An announcement of ours always matches what is owed first; a foreign one leaves the
      record exact just when it does not. */
  lemma DeliveryMatches(v: View)
    requires v.stream != [] && Coherent(v) && Attributed(v)
    ensures var a := v.stream[0];
            var rest := Owed(v.stream[1..]) + Kinds(v.sent);
            && (a.ours ==> MatchesFront(v.echoes, a.offer.Some?, a.mimes) && v.echoes[1..] == rest)
            && (!a.ours ==> v.echoes == rest)
  {
    var a := v.stream[0];
    assert a.Plausible();
    OwedHead(v.stream);
    hide Owed, Kinds, Coherent;
    Dequeue(v.echoes, if a.ours then [a.Kind()] else [], Owed(v.stream[1..]), Kinds(v.sent));
  }

  /** In an attributed state the next delivery is taken for ours exactly when it is ours,
      unless it is a foreign one that looks like what we are owed. */
  lemma DeliveryIsAttributedIff(v: View)
    requires v.stream != [] && Coherent(v) && Attributed(v)
    ensures var a := v.stream[0];
            var taken := MatchesFront(v.echoes, a.offer.Some?, a.mimes);
            && (a.ours ==> taken)
            && ((taken <==> a.ours) <==> Mishaps(v, Deliver) == {})
            && (Attributed(Delivered(v)) <==> Mishaps(v, Deliver) == {})
  {
    DeliveryMatches(v);
    hide Owed, Kinds, Coherent;
    var a := v.stream[0];
    var taken := MatchesFront(v.echoes, a.offer.Some?, a.mimes);
    assert Delivered(v).echoes == if taken then v.echoes[1..] else v.echoes;
    if taken && !a.ours {
      assert |v.echoes[1..]| < |v.echoes|;
    }
  }

  /** A publication the queue takes keeps the record exact precisely while it is not full. */
  lemma PublishingIsAttributedIff(v: View, data: Option<Bytes>)
    requires Attributed(v) && v.publishable
    ensures Attributed(Publishing(v, data, true)) <==> |v.echoes| < MAX_ECHOES
  {
    PublishAttributes(v, data, true);
    var r := Publishing(v, data, true);
    if |v.echoes| >= MAX_ECHOES {
      assert |Owed(r.stream) + Kinds(r.sent)| == |v.echoes| + 1;
    }
  }

  lemma DeliverCoherent(v: View)
    requires Coherent(v) && v.stream != []
    ensures Coherent(Delivered(v))
  {
    hide MatchesFront;
    var r := Delivered(v);
    assert forall i :: 0 <= i < |r.stream| ==> r.stream[i] == v.stream[i + 1];
  }

  lemma ForeignLater(stream: seq<Ann>)
    requires stream != [] && ForeignComing(stream) && stream[0].ours
    ensures ForeignComing(stream[1..])
  {
    var i :| 0 <= i < |stream| && !stream[i].ours;
    assert !stream[1..][i - 1].ours;
  }

  lemma DeliverShown(v: View)
    requires Coherent(v) && v.stream != []
    ensures WaylandOwnerIsShown(Delivered(v))
  {
    hide MatchesFront;
    assert |v.stream| == 1 ==> v.stream[0] == v.shown;
    hide Coherent;
  }

  lemma DeliverPublished(v: View)
    requires Coherent(v) && v.stream != []
    requires MatchesFront(v.echoes, v.stream[0].offer.Some?, v.stream[0].mimes) <==> v.stream[0].ours
    ensures PublishedIsOurs(Delivered(v))
  {
    hide MatchesFront;
    assert |v.stream| == 1 ==> v.stream[0] == v.shown;
    hide Coherent;
  }

  /** A delivery keeps the two sides agreeing unless a lookalike is taken for the echo of an older value. */
  lemma DeliverAgreesIff(v: View)
    requires Agreeing(v) && v.stream != []
    ensures Agreeing(Delivered(v))
      <==> || v.stream[0].ours || !MatchesFront(v.echoes, v.stream[0].offer.Some?, v.stream[0].mimes)
           || !v.owner.X? || v.owner.x.data.None? || Final(v) == v.owner.x.data || ForeignComing(v.stream[1..])
  {
    hide MatchesFront;
    if ForeignComing(v.stream) && v.stream[0].ours {
      ForeignLater(v.stream);
    }
    hide ForeignComing;
  }

  lemma DeliverHolds(v: View, past: set<Mishap>)
    requires Holds(v, past) && v.stream != []
    ensures Holds(Delivered(v), past + Mishaps(v, Deliver))
  {
    DeliverCoherent(v);
    DeliverShown(v);
    var all := past + Mishaps(v, Deliver);
    if all !! {EchoOverflow, Misattributed} {
      assert Misattributed !in Mishaps(v, Deliver);
      DeliveryIsAttributedIff(v);
      DeliverPublished(v);
    }
    if all !! {Misattributed, PostRefused, ResolvedTwice} && v.publishable {
      assert Misattributed !in Mishaps(v, Deliver);
      DeliverAgreesIff(v);
    }
    hide Coherent, Attributed, WaylandOwnerIsShown, PublishedIsOurs, Agreeing, Delivered, MatchesFront;
    assert v.publishable == Delivered(v).publishable by {
      DeliverKeepsDevice(v);
    }
  }

  lemma DeliverKeepsDevice(v: View)
    requires v.stream != []
    ensures Delivered(v).publishable == v.publishable
  {
  }

  lemma PublishHolds(v: View, data: Option<Bytes>, accepted: bool, past: set<Mishap>)
    requires Coherent(v) && WaylandOwnerIsShown(v) && !v.owner.Wayland?
    requires past !! {EchoOverflow, Misattributed} ==> Attributed(v)
    requires past !! {EchoOverflow, Misattributed, PostRefused} ==> PublishedIsOurs(v)
    requires v.owner.X? && v.owner.x.data.Some? ==> data == v.owner.x.data
    requires v.publishable
    ensures Holds(Publishing(v, data, accepted), past + PublishMishaps(v, accepted))
  {
    PublishAttributes(v, data, accepted);
    hide Owed, Kinds;
  }

  lemma FillHolds(v: View, data: Bytes, accepted: bool, past: set<Mishap>)
    requires Holds(v, past) && v.owner.X?
    ensures Holds(Moved(v, Fill(data, accepted)), past + Mishaps(v, Fill(data, accepted)))
  {
    hide Owed, Kinds;
    if v.publishable {
      PublishHolds(v.(owner := X(v.owner.x.(data := Some(data)))), Some(data), accepted, past);
    }
  }

  lemma VacateHolds(v: View, accepted: bool, past: set<Mishap>)
    requires Holds(v, past) && v.owner.X?
    ensures Holds(Moved(v, Vacate(accepted)), past + Mishaps(v, Vacate(accepted)))
  {
    hide Owed, Kinds;
    if v.published && v.publishable {
      PublishHolds(v.(owner := Nobody), None, accepted, past);
    }
  }

  lemma FailHolds(v: View, accepted: bool, past: set<Mishap>)
    requires Holds(v, past) && v.owner.X?
    ensures Holds(Moved(v, Fail(accepted)), past + Mishaps(v, Fail(accepted)))
  {
    hide Owed, Kinds;
    if v.published && v.publishable {
      if v.owner.x.data.None? {
        PublishHolds(v, None, accepted, past);
      } else {
        PublishHolds(v.(owner := X(v.owner.x.(data := None))), None, accepted, past);
      }
    }
  }

  lemma AcquireHolds(v: View, x: XOwner, past: set<Mishap>)
    requires Holds(v, past) && x.data == None
    ensures Holds(Moved(v, Acquire(x)), past)
  {
    hide Owed, Kinds;
  }

  lemma MoveHolds(v: View, m: Move, past: set<Mishap>)
    requires Holds(v, past) && Enabled(v, m)
    ensures Holds(Moved(v, m), past + Mishaps(v, m))
  {
    hide Holds;
    match m
    case Deliver => DeliverHolds(v, past);
    case Perform(offer) => PerformHolds(v, offer, past); assert past + {} == past;
    case Foreign(offer, mimes) => ForeignHolds(v, offer, mimes, past); assert past + {} == past;
    case Fill(data, accepted) => FillHolds(v, data, accepted, past);
    case Vacate(accepted) => VacateHolds(v, accepted, past);
    case Fail(accepted) => FailHolds(v, accepted, past);
    case Acquire(x) => AcquireHolds(v, x, past); assert past + {} == past;
    case Stutter => assert past + {} == past;
  }

  lemma PerformHolds(v: View, offer: OfferId, past: set<Mishap>)
    requires Holds(v, past) && v.sent != []
    ensures Holds(Moved(v, Perform(offer)), past)
  {
    var r := Moved(v, Perform(offer));
    PerformAttributes(v, offer);
    hide Owed, Kinds;
    if ForeignComing(v.stream) {
      var i :| 0 <= i < |v.stream| && !v.stream[i].ours;
      assert !r.stream[i].ours;
    }
  }

  lemma ForeignHolds(v: View, offer: Option<OfferId>, mimes: seq<string>, past: set<Mishap>)
    requires Holds(v, past)
    ensures Holds(Moved(v, Foreign(offer, mimes)), past)
  {
    var r := Moved(v, Foreign(offer, mimes));
    OwedSnoc(v.stream, r.shown);
    hide Owed, Kinds;
    assert !r.stream[|v.stream|].ours;
  }

  // --- runs ---

  ghost predicate Run(vs: seq<View>, ms: seq<Move>) {
    && |vs| == |ms| + 1
    && (exists p: bool :: vs[0] == View(Nobody, [], false, p, [], [], NOTHING_SHOWN))
    && forall i :: 0 <= i < |ms| ==> Enabled(vs[i], ms[i]) && vs[i + 1] == Moved(vs[i], ms[i])
  }

  function Past(vs: seq<View>, ms: seq<Move>): set<Mishap>
    requires |vs| >= |ms|
    requires forall i :: 0 <= i < |ms| ==> Enabled(vs[i], ms[i])
  {
    if ms == [] then {} else Past(vs, ms[..|ms| - 1]) + Mishaps(vs[|ms| - 1], ms[|ms| - 1])
  }

  lemma StartHolds(p: bool)
    ensures Holds(View(Nobody, [], false, p, [], [], NOTHING_SHOWN), {})
  {
  }

  lemma {:induction false} RunsHold(vs: seq<View>, ms: seq<Move>)
    requires Run(vs, ms)
    ensures Holds(vs[|ms|], Past(vs, ms))
  {
    hide Holds, Moved, Enabled, Mishaps;
    if ms == [] {
      var p: bool :| vs[0] == View(Nobody, [], false, p, [], [], NOTHING_SHOWN);
      StartHolds(p);
    } else {
      var init := ms[..|ms| - 1];
      RunsHold(vs[..|ms|], init);
      PastOfPrefix(vs, init);
      MoveHolds(vs[|ms| - 1], ms[|ms| - 1], Past(vs, init));
    }
  }

  lemma {:induction false} PastOfPrefix(vs: seq<View>, ms: seq<Move>)
    requires |vs| > |ms|
    requires forall i :: 0 <= i < |ms| ==> Enabled(vs[i], ms[i])
    ensures Past(vs[..|ms| + 1], ms) == Past(vs, ms)
    decreases |ms|
  {
    if ms != [] {
      PastOfPrefix(vs, ms[..|ms| - 1]);
      PastOfPrefix(vs[..|ms| + 1], ms[..|ms| - 1]);
      assert vs[..|ms| + 1][..|ms|] == vs[..|ms|];
    }
  }

  /** Agreement: in every run where each announcement is taken for what it is, no post is refused and no owner that
      has answered refuses, once nothing is in flight an X owner whose value is `d` has exactly `d` on the
      compositor, in a source of ours. */
  lemma AgreementWhenSettled(vs: seq<View>, ms: seq<Move>)
    requires Run(vs, ms) && Past(vs, ms) !! {Misattributed, PostRefused, ResolvedTwice}
    ensures var v := vs[|ms|];
            v.publishable && !InFlight(v) && v.owner.X? && v.owner.x.data.Some?
            ==> v.shown.ours && v.shown.offer.Some? && v.shown.value == v.owner.x.data
    ensures var v := vs[|ms|]; EchoOverflow !in Past(vs, ms) && !InFlight(v) ==> v.echoes == []
  {
    RunsHold(vs, ms);
    assert vs[|ms|].stream == [] ==> Owed(vs[|ms|].stream) == [];
  }

  // --- when each mishap breaks agreement ---

  /** A value fetched agrees with the compositor exactly if its post is taken, or it changes nothing, or a foreign
      announcement is still to come; whatever went before. */
  lemma FillAgreesIff(v: View, data: Bytes, accepted: bool)
    requires v.owner.X? && v.publishable
    ensures Agreeing(Moved(v, Fill(data, accepted))) <==> accepted || Final(v) == Some(data) || ForeignComing(v.stream)
  {
  }

  /** A refusal leaves the two sides agreeing exactly if the owner has no value, or nothing of ours is withdrawn for
      it, or a foreign announcement is still to come. */
  lemma FailAgreesIff(v: View, accepted: bool)
    requires v.owner.X? && v.publishable && Agreeing(v)
    ensures Agreeing(Moved(v, Fail(accepted)))
      <==> v.owner.x.data.None? || !v.published || !accepted || ForeignComing(v.stream)
  {
  }

  /** In any state, what a refusal withdraws: our source, exactly if one is recorded as published, on a device that
      carries the selection, and the queue takes the job. Otherwise whatever of ours was coming stays. */
  lemma RefusalWithdrawsIff(v: View, accepted: bool)
    requires v.owner.X?
    ensures var after := Moved(v, Fail(accepted));
            && (after.sent == v.sent + [None] <==> v.published && v.publishable && accepted)
            && (Final(after).Some? <==> Final(v).Some? && !(v.published && v.publishable && accepted))
  {
    if !(v.published && v.publishable && accepted) {
      assert |Moved(v, Fail(accepted)).sent| == |v.sent|;
    }
  }

  /** Met with nothing in flight, it takes our old source down exactly when the compositor shows one. */
  lemma RefusalWithdrawsWhenSettled(v: View, past: set<Mishap>)
    requires Holds(v, past) && past !! {EchoOverflow, Misattributed, PostRefused}
    requires v.owner.X? && !InFlight(v) && v.publishable
    ensures (Moved(v, Fail(true)).sent == [None]) <==> v.shown.ours && v.shown.offer.Some?
    ensures Moved(v, Fail(true)).sent == [] <==> !(v.shown.ours && v.shown.offer.Some?)
  {
    RefusalWithdrawsIff(v, true);
  }

  function Sources(n: nat): seq<Echo> {
    seq(n, i => Source)
  }
}
