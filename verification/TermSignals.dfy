/** Handing a terminating signal to the child while it is being spawned, one atomic operation at a time. */
module TermSignals {
  import opened BridgeTypes
  import opened MapSum

  const SPAWNING := -1

  /** Where the main thread is: each constructor names what it has just done. */
  datatype Main = NotStarted | SpawnAnnounced | PidStored | Delivering(sig: nat) | Waiting

  /** Where a signal handler is: each constructor names what it is about to do. */
  datatype Handler =
    | Loading(sig: nat)
    | Forwarding(sig: nat)
    | Parking(sig: nat)
    | Rechecking
    | Swapping
    | Sending(sig: nat)
    | Leaving
    | Exiting

  /** `parked` and `overwritten` are the signals put in the slot and those put over; `sent` those taken out and sent,
      `direct` those sent straight away. A party that has taken a signal out carries it: handlers by their number,
      main as -1. */
  datatype World = World(
    child: int, pending: nat, main: Main, handlers: seq<Handler>,
    parked: multiset<nat>, overwritten: multiset<nat>, sent: multiset<nat>, direct: multiset<nat>,
    carrying: map<int, multiset<nat>>)

  const MAIN := -1

  const START := World(0, 0, NotStarted, [], multiset{}, multiset{}, multiset{}, multiset{}, map[])

  datatype Step = MainMoves(pid: nat) | SignalArrives(sig: nat) | HandlerMoves(h: nat)

  predicate Possible(w: World, s: Step) {
    match s
    case MainMoves(pid) => pid > 0 && w.main != Waiting
    case SignalArrives(sig) => sig > 0
    case HandlerMoves(h) => h < |w.handlers| && w.handlers[h] != Leaving && w.handlers[h] != Exiting
  }

  /** Main announces the spawn, stores the pid, swaps the slot out, and sends what it found. */
  function MainNext(w: World, pid: nat): World {
    match w.main
    case NotStarted => w.(child := SPAWNING, main := SpawnAnnounced)
    case SpawnAnnounced => w.(child := pid, main := PidStored)
    case PidStored =>
      if w.pending == 0 then w.(main := Waiting)
      else w.(pending := 0, main := Delivering(w.pending), carrying := w.carrying[MAIN := multiset{w.pending}])
    case Delivering(sig) => w.(main := Waiting, sent := w.sent + multiset{sig}, carrying := w.carrying - {MAIN})
    case Waiting => w
  }

  function HandlerNext(w: World, h: nat): World
    requires h < |w.handlers|
  {
    match w.handlers[h]
    case Loading(sig) =>
      w.(handlers := w.handlers[h := if w.child > 0 then Forwarding(sig) else if w.child == SPAWNING then Parking(sig) else Exiting])
    case Forwarding(sig) => w.(handlers := w.handlers[h := Leaving], direct := w.direct + multiset{sig})
    case Parking(sig) =>
      w.(handlers := w.handlers[h := Rechecking], pending := sig, parked := w.parked + multiset{sig},
         overwritten := if w.pending == 0 then w.overwritten else w.overwritten + multiset{w.pending})
    case Rechecking => w.(handlers := w.handlers[h := if w.child > 0 then Swapping else Leaving])
    case Swapping =>
      if w.pending == 0 then w.(handlers := w.handlers[h := Leaving])
      else w.(pending := 0, handlers := w.handlers[h := Sending(w.pending)], carrying := w.carrying[h := multiset{w.pending}])
    case Sending(sig) =>
      w.(handlers := w.handlers[h := Leaving], sent := w.sent + multiset{sig}, carrying := w.carrying - {h})
    case _ => w
  }

  function Next(w: World, s: Step): World
    requires Possible(w, s)
  {
    match s
    case MainMoves(pid) => MainNext(w, pid)
    case SignalArrives(sig) => w.(handlers := w.handlers + [Loading(sig)])
    case HandlerMoves(h) => HandlerNext(w, h)
  }

  // --- what every interleaving keeps ---

  ghost predicate ChildHolds(w: World) {
    match w.main
    case NotStarted => w.child == 0 && w.pending == 0
    case SpawnAnnounced => w.child == SPAWNING
    case _ => w.child > 0
  }

  /** What one handler is about to do is possible. */
  predicate Real(w: World, h: Handler) {
    match h
    case Loading(sig) => sig > 0
    case Parking(sig) => sig > 0 && w.main != NotStarted
    case Forwarding(sig) => sig > 0 && w.child > 0
    case Swapping => w.child > 0
    case _ => true
  }

  ghost predicate SignalsReal(w: World) {
    forall h :: 0 <= h < |w.handlers| ==> Real(w, w.handlers[h])
  }

  ghost predicate Seeks(h: Handler) {
    h == Rechecking || h == Swapping
  }

  /** A parked signal always has someone who will look for it: main, or a handler. */
  ghost predicate Sought(w: World) {
    w.pending != 0 ==> w.main == SpawnAnnounced || w.main == PidStored || exists h :: 0 <= h < |w.handlers| && Seeks(w.handlers[h])
  }

  /** Handler `h` is in the carriers' table exactly if it is about to send, and with its own signal. */
  predicate Carries(carrying: map<int, multiset<nat>>, h: int, handler: Handler) {
    (h in carrying <==> handler.Sending?) && (handler.Sending? ==> carrying[h] == multiset{handler.sig})
  }

  /** Those who carry a signal are those about to send it. */
  ghost predicate CarriersHold(w: World) {
    && (forall p :: p in w.carrying ==> p == MAIN || 0 <= p < |w.handlers|)
    && (MAIN in w.carrying <==> w.main.Delivering?)
    && (w.main.Delivering? ==> w.carrying[MAIN] == multiset{w.main.sig})
    && (forall h :: 0 <= h < |w.handlers| ==> Carries(w.carrying, h, w.handlers[h]))
  }

  /** Every signal parked was put over, is in the slot, is being sent, or was sent: each exactly once. */
  ghost predicate Conserved(w: World) {
    w.parked == w.overwritten + (if w.pending == 0 then multiset{} else multiset{w.pending}) + Sum(w.carrying) + w.sent
  }

  /** Something parked is never wholly put over. */
  ghost predicate SomeoneSends(w: World) {
    w.parked != multiset{} ==> w.pending != 0 || w.carrying != map[] || w.sent != multiset{}
  }

  ghost predicate Holds(w: World) {
    ChildHolds(w) && SignalsReal(w) && Sought(w) && CarriersHold(w) && Conserved(w) && SomeoneSends(w)
  }

  lemma MainHolds(w: World, pid: nat)
    requires Holds(w) && Possible(w, MainMoves(pid))
    ensures Holds(MainNext(w, pid))
  {
    MainKeepsSignals(w, pid);
    MainKeepsCarriers(w, pid);
    MainConserves(w, pid);
    MainSends(w, pid);
  }

  lemma MainKeepsSignals(w: World, pid: nat)
    requires Holds(w) && Possible(w, MainMoves(pid))
    ensures ChildHolds(MainNext(w, pid)) && SignalsReal(MainNext(w, pid)) && Sought(MainNext(w, pid))
  {
    hide CarriersHold, Conserved, SomeoneSends, Seeks;
  }

  /** Nothing but what main carries has changed, and that goes with where main is. */
  lemma MainsCarrierAlone(w: World, r: World)
    requires CarriersHold(w) && r.handlers == w.handlers && r.carrying - {MAIN} == w.carrying - {MAIN}
    requires MAIN in r.carrying <==> r.main.Delivering?
    requires r.main.Delivering? ==> r.carrying[MAIN] == multiset{r.main.sig}
    ensures CarriersHold(r)
  {
    assert forall p :: p != MAIN ==> (p in r.carrying <==> p in r.carrying - {MAIN}) && (p in w.carrying <==> p in w.carrying - {MAIN});
    assert forall p :: p != MAIN && p in r.carrying ==> r.carrying[p] == (r.carrying - {MAIN})[p] == w.carrying[p];
    forall h | 0 <= h < |r.handlers| ensures Carries(r.carrying, h, r.handlers[h]) {
      assert Carries(w.carrying, h, w.handlers[h]);
    }
  }

  lemma MainKeepsCarriers(w: World, pid: nat)
    requires Holds(w) && Possible(w, MainMoves(pid))
    ensures CarriersHold(MainNext(w, pid))
  {
    assert CarriersHold(w) && (MAIN in w.carrying <==> w.main.Delivering?);
    hide Holds, CarriersHold;
    assert w.carrying[MAIN := multiset{w.pending}] - {MAIN} == w.carrying - {MAIN} == w.carrying - {MAIN} - {MAIN};
    MainsCarrierAlone(w, MainNext(w, pid));
  }

  lemma TakenIsConserved(w: World, r: World, p: int)
    requires Conserved(w) && w.pending != 0 && p !in w.carrying
    requires r.pending == 0 && r.carrying == w.carrying[p := multiset{w.pending}]
    requires r.parked == w.parked && r.overwritten == w.overwritten && r.sent == w.sent
    ensures Conserved(r)
  {
    hide Sum;
    Updated(w.carrying, p, multiset{w.pending});
  }

  lemma SentIsConserved(w: World, r: World, p: int, sig: nat)
    requires Conserved(w) && p in w.carrying && w.carrying[p] == multiset{sig}
    requires r.carrying == w.carrying - {p} && r.sent == w.sent + multiset{sig}
    requires r.parked == w.parked && r.overwritten == w.overwritten && r.pending == w.pending
    ensures Conserved(r)
  {
    hide Sum;
    Without(w.carrying, p);
  }

  lemma MainConserves(w: World, pid: nat)
    requires Holds(w) && Possible(w, MainMoves(pid))
    ensures Conserved(MainNext(w, pid))
  {
    assert MAIN in w.carrying <==> w.main.Delivering?;
    assert w.main.Delivering? ==> w.carrying[MAIN] == multiset{w.main.sig};
    hide ChildHolds, SignalsReal, Sought, CarriersHold, SomeoneSends, Sum;
    if w.main == PidStored && w.pending != 0 {
      hide Conserved;
      TakenIsConserved(w, MainNext(w, pid), MAIN);
    } else if w.main.Delivering? {
      hide Conserved;
      SentIsConserved(w, MainNext(w, pid), MAIN, w.main.sig);
    }
  }

  lemma MainSends(w: World, pid: nat)
    requires Holds(w) && Possible(w, MainMoves(pid))
    ensures SomeoneSends(MainNext(w, pid))
  {
    hide SignalsReal, Sought, CarriersHold, Conserved, Sum;
    if w.main == PidStored && w.pending != 0 {
      assert MAIN in MainNext(w, pid).carrying;
    }
  }

  lemma HandlerHolds(w: World, h: nat)
    requires Holds(w) && Possible(w, HandlerMoves(h))
    ensures Holds(HandlerNext(w, h))
  {
    assert Carries(w.carrying, h, w.handlers[h]) && Real(w, w.handlers[h]);
    HandlerKeepsSignals(w, h);
    HandlersStaySought(w, h);
    HandlerKeepsCarriers(w, h);
    HandlerConserves(w, h);
    hide ChildHolds, SignalsReal, Sought, CarriersHold, Conserved, SomeoneSends, HandlerNext;
  }

  lemma HandlerKeepsSignals(w: World, h: nat)
    requires Holds(w) && Possible(w, HandlerMoves(h))
    ensures ChildHolds(HandlerNext(w, h)) && SignalsReal(HandlerNext(w, h))
  {
    hide CarriersHold, Conserved, SomeoneSends, Sought;
    var t := HandlerNext(w, h);
    assert Real(w, w.handlers[h]);
    assert Real(t, t.handlers[h]) by { hide SignalsReal; }
    forall k | 0 <= k < |t.handlers| ensures Real(t, t.handlers[k]) {
      if k != h {
        assert Real(w, w.handlers[k]) && t.handlers[k] == w.handlers[k];
      }
    }
    hide HandlerNext;
  }

  lemma CarriersFrame(w: World, t: World, h: nat)
    requires CarriersHold(w) && h < |w.handlers| == |t.handlers| && t.main == w.main
    requires forall k :: 0 <= k < |w.handlers| && k != h ==> t.handlers[k] == w.handlers[k]
    requires t.carrying - {h} == w.carrying - {h}
    requires Carries(t.carrying, h, t.handlers[h])
    ensures CarriersHold(t)
  {
    forall p: int | p != h
      ensures (p in t.carrying <==> p in w.carrying) && (p in w.carrying ==> t.carrying[p] == w.carrying[p])
    {
      assert p in t.carrying - {h} <==> p in w.carrying - {h};
    }
    forall k | 0 <= k < |t.handlers| ensures Carries(t.carrying, k, t.handlers[k]) {
      if k != h {
        assert Carries(w.carrying, k, w.handlers[k]);
      }
    }
  }

  lemma HandlerKeepsCarriers(w: World, h: nat)
    requires CarriersHold(w) && h < |w.handlers|
    ensures CarriersHold(HandlerNext(w, h))
  {
    assert Carries(w.carrying, h, w.handlers[h]);
    hide CarriersHold;
    match w.handlers[h]
    case Swapping => assert w.carrying[h as int := multiset{w.pending}] - {h} == w.carrying - {h};
    case Sending(_) => assert w.carrying - {h} - {h} == w.carrying - {h};
    case _ =>
    CarriersFrame(w, HandlerNext(w, h), h);
  }

  /** A signal may be parked, taken out, or sent: the sum of where they are stays that of those parked. */
  lemma Regroup(over: multiset<nat>, slot: multiset<nat>, held: multiset<nat>, sent: multiset<nat>, s: multiset<nat>)
    ensures over + slot + held + sent + s == (over + slot) + s + held + sent
    ensures over + slot + held + sent == over + multiset{} + (held + slot) + sent
    ensures over + slot + (s + held) + sent == over + slot + held + (sent + s)
  {
  }

  lemma HandlerConserves(w: World, h: nat)
    requires Conserved(w) && SomeoneSends(w) && h < |w.handlers|
    requires Carries(w.carrying, h, w.handlers[h]) && Real(w, w.handlers[h])
    ensures Conserved(HandlerNext(w, h)) && SomeoneSends(HandlerNext(w, h))
  {
    hide Sum;
    var slot := if w.pending == 0 then multiset{} else multiset{w.pending};
    match w.handlers[h]
    case Parking(sig) => Regroup(w.overwritten, slot, Sum(w.carrying), w.sent, multiset{sig});
    case Swapping =>
      if w.pending != 0 {
        Updated(w.carrying, h, slot);
        Regroup(w.overwritten, slot, Sum(w.carrying), w.sent, multiset{});
        assert h in HandlerNext(w, h).carrying;
      }
    case Sending(sig) =>
      Without(w.carrying, h);
      Regroup(w.overwritten, slot, Sum(w.carrying - {h}), w.sent, multiset{sig});
    case _ =>
  }

  lemma HandlersStaySought(w: World, h: nat)
    requires Holds(w) && Possible(w, HandlerMoves(h))
    ensures Sought(HandlerNext(w, h))
  {
    assert Sought(w) && SignalsReal(w) && ChildHolds(w);
    hide Holds;
    var t := HandlerNext(w, h);
    if t.pending != 0 {
      if w.handlers[h].Parking? {
        assert Seeks(t.handlers[h]);
      } else if k :| 0 <= k < |w.handlers| && Seeks(w.handlers[k]) {
        if k != h {
          assert Seeks(t.handlers[k]);
        } else if w.handlers[h] == Rechecking && w.child > 0 {
          assert Seeks(t.handlers[h]);
        }
      }
    }
  }

  lemma ArrivalHolds(w: World, sig: nat)
    requires Holds(w) && sig > 0
    ensures Holds(Next(w, SignalArrives(sig)))
  {
    hide Sum;
    var t := Next(w, SignalArrives(sig));
    assert CarriersHold(t) && SignalsReal(t);
    hide CarriersHold, SignalsReal;
    if w.pending != 0 && w.main != SpawnAnnounced && w.main != PidStored {
      var h :| 0 <= h < |w.handlers| && Seeks(w.handlers[h]);
      assert Seeks(t.handlers[h]);
    }
  }

  lemma StepsHold(w: World, s: Step)
    requires Holds(w) && Possible(w, s)
    ensures Holds(Next(w, s))
  {
    hide Holds, MainNext, HandlerNext;
    match s
    case MainMoves(pid) => MainHolds(w, pid);
    case SignalArrives(sig) => ArrivalHolds(w, sig);
    case HandlerMoves(h) => HandlerHolds(w, h);
  }

  predicate Run(w: World, steps: seq<Step>)
    decreases |steps|
  {
    steps != [] ==> Possible(w, steps[0]) && Run(Next(w, steps[0]), steps[1..])
  }

  function After(w: World, steps: seq<Step>): World
    requires Run(w, steps)
    decreases |steps|
  {
    if steps == [] then w else After(Next(w, steps[0]), steps[1..])
  }

  lemma {:induction false} RunsHold(w: World, steps: seq<Step>)
    requires Holds(w) && Run(w, steps)
    ensures Holds(After(w, steps))
    decreases |steps|
  {
    hide Holds, Next, Possible;
    if steps != [] {
      StepsHold(w, steps[0]);
      RunsHold(Next(w, steps[0]), steps[1..]);
    }
  }

  predicate Quiet(w: World) {
    w.main == Waiting && forall h :: 0 <= h < |w.handlers| ==> w.handlers[h] == Leaving || w.handlers[h] == Exiting
  }

  /** However main and any number of handlers interleave: once main waits for the child and every handler is done,
      the slot is empty, every parked signal was sent once or put over by a later one, and if any was parked at all
      at least one was sent. */
  lemma ParkedSignalsAreDelivered(steps: seq<Step>)
    requires Run(START, steps) && Quiet(After(START, steps))
    ensures var w := After(START, steps);
            && w.pending == 0
            && w.parked == w.overwritten + w.sent
            && (w.parked != multiset{} ==> w.sent != multiset{})
  {
    assert Holds(START) by {
      assert Sum<int, nat>(map[]) == multiset{};
    }
    RunsHold(START, steps);
    var w := After(START, steps);
    hide After, Run;
    assert w.carrying == map[] by {
      forall p ensures p !in w.carrying {
        if 0 <= p < |w.handlers| {
          assert Carries(w.carrying, p, w.handlers[p]);
        }
      }
    }
    assert Sum<int, nat>(map[]) == multiset{};
  }

  /** At every moment, what has been sent from the slot was parked there, no more often than it was parked. */
  lemma SendsNeverExceedParks(steps: seq<Step>)
    requires Run(START, steps)
    ensures After(START, steps).sent <= After(START, steps).parked
  {
    assert Holds(START) by {
      assert Sum<int, nat>(map[]) == multiset{};
    }
    RunsHold(START, steps);
  }
}
