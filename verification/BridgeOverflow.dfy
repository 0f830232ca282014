/** A run of the bridge in which seventeen echoes are owed at once. */
module BridgeOverflow {
  import opened BridgeTypes
  import opened ClipboardState
  import opened EchoProtocol
  import opened BridgeWorld
  import opened BridgeRuns
  import opened BridgeCases
  import FetchTable
  import ClipJobs

  /** A client takes the selection once more, its value is fetched and published, and the compositor makes the source,
      which it announces only later. */
  function Round(i: nat): seq<Step>
    requires i < 17
  {
    [TakeAt(100 + i), StartFetch(1)] + [AnswerTo(i + 1), Resolve(1, 100 + i, 0)] + [TakeJobs, RunJob]
  }

  function Rounds(n: nat): seq<Step>
    requires n <= 17
  {
    if n == 0 then [] else Rounds(n - 1) + Round(n - 1)
  }

  function OurOffer(i: nat): Ann {
    Ann(true, Some(i), TEXT_MIMES, Some(VALUE))
  }

  function OurOffers(from: nat, to: nat): seq<Ann>
    requires from <= to
  {
    seq(to - from, i requires 0 <= i < to - from => OurOffer(from + i))
  }

  function OwedAfter(n: nat): seq<Echo> {
    Sources(if n > 16 then 16 else n)
  }

  function Holder(i: nat): Owner
    requires i < 17
  {
    X(XOwner(WINDOW, 1, 100 + i, Some(VALUE)))
  }

  /** After `n` rounds. */
  function RoundFace(n: nat): Face
    requires n <= 17
  {
    var f := Opening(true);
    if n == 0 then f else
      var s := SelState(Holder(n - 1), n, 99 + n, OwedAfter(n), true, true);
      Face(Board(Two(s, f.board.sels.primary), 99 + n, 0), f.queue, [], OurOffer(n - 1), OurOffers(0, n), n,
           Conn(FetchTable.Table([], map[]), n, Idle))
  }

  /** A face after its client took the selection. */
  function TakenFace(n: nat): Face
    requires n < 17
  {
    var f := RoundFace(n);
    f.(board := TakenBy(f.board, 100 + n), conn := Conn(FetchTable.Table([FetchOf(n + 1, 100 + n)], map[]), n + 1, Idle))
  }

  function AnsweredFace(n: nat): Face
    requires n < 17
  {
    var f := TakenFace(n);
    f.(board := Filled(f.board, true), queue := ClipJobs.Queue([OUR_SOURCE], true), conn := Conn(FetchTable.Table([], map[]), n + 1, Idle))
  }

  lemma RoundTakes(n: nat)
    requires n < 17
    ensures Plays(RoundFace(n), [TakeAt(100 + n), StartFetch(1)])
    ensures Played(RoundFace(n), [TakeAt(100 + n), StartFetch(1)]) == TakenFace(n)
  {
    hide Plays, Played, FetchOf;
    assert [] + [FetchOf(n + 1, 100 + n)] == [FetchOf(n + 1, 100 + n)];
    Taking(RoundFace(n), 100 + n, [], n);
  }

  lemma RoundAnswers(n: nat)
    requires n < 17
    ensures Plays(TakenFace(n), [AnswerTo(n + 1), Resolve(1, 100 + n, 0)])
    ensures Played(TakenFace(n), [AnswerTo(n + 1), Resolve(1, 100 + n, 0)]) == AnsweredFace(n)
  {
    hide Plays, Played, FetchOf;
    assert [FetchOf(n + 1, 100 + n)] + [] == [FetchOf(n + 1, 100 + n)];
    assert TakenFace(n).queue == ClipJobs.Queue([], true);
    assert Published(TakenFace(n).queue, Some(VALUE)) == ClipJobs.Queue([OUR_SOURCE], true);
    Answering(TakenFace(n), n + 1, 100 + n, []);
  }

  lemma AnsweredBoard(n: nat)
    requires n < 17
    ensures AnsweredFace(n).board == RoundFace(n + 1).board
  {
    if n < 16 {
      assert Sources(n) + [Source] == Sources(n + 1);
    } else {
      assert Sources(16)[1..] + [Source] == Sources(16);
    }
  }

  lemma RoundMakes(n: nat)
    requires n < 17
    ensures Plays(AnsweredFace(n), [TakeJobs, RunJob]) && Played(AnsweredFace(n), [TakeJobs, RunJob]) == RoundFace(n + 1)
  {
    var f := AnsweredFace(n);
    var f1 := TakesJobs(f);
    var f2 := MakesJob(f1);
    AnsweredBoard(n);
    assert OurOffers(0, n) + [OurOffer(n)] == OurOffers(0, n + 1);
    assert f2 == RoundFace(n + 1);
    hide FaceCan, FaceNext, Plain, Plays, Played;
    FacesPlay([f, f1, f2], [TakeJobs, RunJob]);
  }

  lemma {:induction false} RoundsPlay(n: nat)
    requires n <= 17
    ensures Plays(RoundFace(0), Rounds(n)) && Played(RoundFace(0), Rounds(n)) == RoundFace(n)
  {
    if n > 0 {
      hide Plays, Played, RoundFace, TakenFace, AnsweredFace;
      RoundsPlay(n - 1);
      RoundTakes(n - 1);
      RoundAnswers(n - 1);
      RoundMakes(n - 1);
      var f := RoundFace(n - 1);
      var taking, answering := [TakeAt(99 + n), StartFetch(1)], [AnswerTo(n), Resolve(1, 99 + n, 0)];
      PlaysInTurn(f, taking, answering);
      PlaysInTurn(f, taking + answering, [TakeJobs, RunJob]);
      PlaysInTurn(RoundFace(0), Rounds(n - 1), Round(n - 1));
    } else {
      PlaysNothing(RoundFace(0));
    }
  }

  lemma PlaysNothing(f: Face)
    ensures Plays(f, []) && Played(f, []) == f
  {
  }

  // --- the announcements ---

  function Hearings(n: nat): seq<Step> {
    seq(n, i => Announce(Clipboard, 116))
  }

  /** After the first `n` of the seventeen announcements. */
  function HeardFace(n: nat): Face
    requires n <= 16
  {
    var f := RoundFace(17);
    f.(stream := OurOffers(n, 17), board := f.board.(sels := f.board.sels.Set(Clipboard, f.board.sels.clipboard.(echoes := Sources(16 - n)))))
  }

  lemma HearsOne(n: nat)
    requires n < 16
    ensures var e := Announce(Clipboard, 116); Plain(e) && FaceCan(HeardFace(n), e) && FaceNext(HeardFace(n), e) == HeardFace(n + 1)
  {
    var f := HeardFace(n);
    assert f.stream[0] == OurOffer(n) && f.stream[1..] == OurOffers(n + 1, 17);
    assert Sources(16 - n)[0] == Source && Sources(16 - n)[1..] == Sources(16 - (n + 1));
    var r := HearsEcho(f, 116);
    hide FaceNext;
    assert r == HeardFace(n + 1);
  }

  lemma {:induction false} HearingsPlay(n: nat)
    requires n <= 16
    ensures Plays(RoundFace(17), Hearings(n)) && Played(RoundFace(17), Hearings(n)) == HeardFace(n)
  {
    if n > 0 {
      hide FaceCan, FaceNext, Plain, RoundFace, HeardFace;
      HearingsPlay(n - 1);
      HearsOne(n - 1);
      FacesPlay([HeardFace(n - 1), HeardFace(n)], [Announce(Clipboard, 116)]);
      hide Plays, Played;
      assert Hearings(n) == Hearings(n - 1) + [Announce(Clipboard, 116)];
      PlaysInTurn(RoundFace(17), Hearings(n - 1), [Announce(Clipboard, 116)]);
    } else {
      assert OurOffers(0, 17) == RoundFace(17).stream && HeardFace(0) == RoundFace(17);
      PlaysNothing(RoundFace(17));
    }
  }

  lemma LastIsForeign()
    ensures Plays(HeardFace(16), [Announce(Clipboard, 116)])
    ensures var r := Played(HeardFace(16), [Announce(Clipboard, 116)]);
            && r.stream == [] && r.taken == [] && r.queue.jobs == [] && r.shown == OurOffer(16)
            && r.board.sels.clipboard.owner == Wayland(16, TEXT_MIMES) && !r.board.sels.clipboard.published
  {
    var f := HeardFace(16);
    assert f.stream[0] == OurOffer(16) && f.stream[1..] == [];
    assert f.board.sels.clipboard.echoes == [];
    ForeignIs(f.board, 116, Some(16), TEXT_MIMES);
    hide Announced;
    var e := Announce(Clipboard, 116);
    assert Plain(e) && FaceCan(f, e);
    var r := FaceNext(f, e);
    assert r.board == Announced(f.board, 116, Clipboard, Some(16), TEXT_MIMES).0;
    hide FaceNext, FaceCan, Plain;
    FacesPlay([f, r], [e]);
  }

  const ALL_HEARD: seq<Step> := Hearings(16) + [Announce(Clipboard, 116)]

  lemma OverflowPlays()
    ensures Plays(Opening(true), Rounds(17)) && Played(Opening(true), Rounds(17)) == RoundFace(17)
    ensures Plays(RoundFace(17), ALL_HEARD)
    ensures var r := Played(RoundFace(17), ALL_HEARD);
            && r.stream == [] && r.taken == [] && r.queue.jobs == [] && r.shown == OurOffer(16)
            && r.board.sels.clipboard.owner == Wayland(16, TEXT_MIMES) && !r.board.sels.clipboard.published
  {
    hide Plays, Played, RoundFace, HeardFace, Rounds, Hearings;
    RoundsPlay(17);
    HearingsPlay(16);
    LastIsForeign();
    assert RoundFace(0) == Opening(true) by { FirstFace(); }
    PlaysInTurn(RoundFace(17), Hearings(16), [Announce(Clipboard, 116)]);
  }

  lemma Seen(w: World, f: Face)
    requires Shows(w, f)
    ensures OwnerIn(w, Clipboard) == f.board.sels.clipboard.owner && w.shown.clipboard == f.shown && w.stream.clipboard == f.stream
    ensures w.board.sels.clipboard.published == f.board.sels.clipboard.published
    ensures f.taken == [] && f.queue.jobs == [] ==> Sent(w.taken + w.queue.jobs, Clipboard) == []
  {
    NothingSent(w);
  }

  /** What a seventeenth echo breaks: its record is lost. A window takes the selection 17 times before the compositor
      announces anything, each time with its value fetched and published. Then the 17 announcements come: the last of
      our own is taken for a foreign app's, and displaces the owner that still holds the value shown. */
  lemma SeventeenthEchoDisplacesItsOwner() returns (ws: seq<World>, es: seq<Step>, at: nat)
    ensures BridgeRuns.Run(ws, es) && |ws| == |es| + 1 && at < |ws|
    ensures OwnerIn(ws[at], Clipboard) == Holder(16)
    ensures forall e :: e in es[at..] ==> e.Announce?
    ensures var w := ws[|es|];
            && w.stream.clipboard == [] && Sent(w.taken + w.queue.jobs, Clipboard) == []
            && w.shown.clipboard.ours && w.shown.clipboard.value == Some(VALUE)
            && OwnerIn(w, Clipboard) == Wayland(16, TEXT_MIMES) && !w.board.sels.clipboard.published
  {
    assert RoundFace(17).board.sels.clipboard.owner == Holder(16);
    hide Plays, Played, RoundFace, Rounds, Holder, Opening, Shows, BridgeRuns.Run, Sent, OwnerIn, Hearings, HeardFace;
    OverflowPlays();
    AllAnnounce();
    ws, es, at := ScriptsMeet(true, Rounds(17), ALL_HEARD);
    Seen(ws[at], RoundFace(17));
    Seen(ws[|es|], Played(RoundFace(17), ALL_HEARD));
  }

  lemma FirstFace()
    ensures RoundFace(0) == Opening(true)
  {
  }

  lemma AllAnnounce()
    ensures forall e :: e in ALL_HEARD ==> e.Announce?
  {
  }
}
