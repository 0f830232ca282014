/** Runs of the resolution protocol: X threads park and wait, the Wayland thread takes, tries and completes,
    each step as much as one lock or one event covers. */
module ResolutionRuns {
  import opened BridgeTypes
  import opened RequestSlots
  import opened OutputRetry

  /** What the Wayland thread holds between two locks. */
  datatype Hand = Idle | Taken(req: Request) | Owes(req: Request, outcome: Outcome)

  /** One completion: the outcome, what the model showed when it was decided, and what it took. */
  datatype Completion = Completion(req: Request, outcome: Outcome, shown: bool, applied: nat)

  /** What has happened: requests taken, completed, withdrawn, waited for and answered.
      `planned` and `applied` count the attempts planned and the configurations applied for the request in hand. */
  datatype History = History(
    taken: seq<nat>, completed: seq<Completion>, withdrawn: set<nat>,
    waiting: set<nat>, collected: map<nat, Outcome>, planned: nat, applied: nat, shown: bool)

  datatype World = World(slots: Slots, hand: Hand, config: Option<Config>, model: Model, past: History)

  const START := World(NO_REQUESTS, Idle, None, map[], History([], [], {}, {}, map[], 0, 0, false))

  datatype Step =
    | ClientParks(wlName: nat, width: u16, height: u16)
    | ClientCollects(id: nat)
    | ClientGivesUp(id: nat)
    | ManagerBound
    | RequestTaken
    | RequestBegun(output: Option<OutputInfo>, now: Millis)
    | RequestCompleted
    | Ticked(now: Millis)
    | AnswerArrived(config: nat, answer: Answer, now: Millis)
    | SerialArrived(serial: u32, now: Millis)
    | HeadsChanged(heads: seq<Head>)
    | HeadWent(head: nat)
    | OutputWent(wlName: nat)
    | ModelChanged(wlName: nat, width: u16, height: u16)
    | ManagerWent
    | ConnectionLost

  /** When a step can happen: the Wayland thread finishes what is in its hand before anything else. */
  predicate Possible(w: World, s: Step) {
    match s
    case ClientParks(_, _, _) => !Busy(w.slots)
    case ClientCollects(id) => id in w.past.waiting && Readable(w.slots, id)
    case ClientGivesUp(id) => id in w.past.waiting && !Readable(w.slots, id)
    case ManagerBound => w.hand == Idle && w.config.None?
    case RequestTaken => w.hand == Idle && (w.config.None? || w.config.value.active.None?)
    case RequestBegun(_, _) => w.hand.Taken?
    case RequestCompleted => w.hand.Owes?
    case _ => w.hand == Idle
  }

  /** The Wayland thread's part of the world after a move of the retry machine. */
  function Moved(w: World, m: Move): World {
    w.(config := Some(m.config),
       hand := if m.ended.Some? then Owes(m.ended.value.0, m.ended.value.1) else w.hand,
       past := w.past.(applied := w.past.applied + |m.applied|,
                       shown := if m.ended.Some? then Shows(w.model, m.ended.value.0) else w.past.shown))
  }

  function Retry(w: World, s: Step): World
    requires w.config.Some?
  {
    var c := w.config.value;
    match s
    case Ticked(now) => Moved(w, Advance(c, w.model, now))
    case AnswerArrived(config, answer, now) => Moved(w, TakeAnswer(c, config, answer, w.model, now))
    case SerialArrived(serial, now) => Moved(w, SerialSent(c, serial, w.model, now))
    case HeadsChanged(heads) => w.(config := Some(c.(heads := heads)))
    case HeadWent(head) => Moved(w, HeadGone(c, head))
    case OutputWent(wlName) => Moved(w, OutputGone(c, wlName)).(model := w.model - {wlName})
    case ModelChanged(wlName, width, height) =>
      var model := w.model[wlName := (width, height)];
      Moved(w.(model := model), OutputShown(c, wlName, model))
    case ManagerWent => Moved(w, Fail(c)).(config := None)
    case ConnectionLost => Moved(w, Fail(c))
    case _ => w
  }

  function Next(w: World, s: Step): World {
    match s
    case ClientParks(wlName, width, height) =>
      w.(slots := Park(w.slots, wlName, width, height), past := w.past.(waiting := w.past.waiting + {w.slots.nextId + 1}))
    case ClientCollects(id) =>
      if !Readable(w.slots, id) then w else
        w.(slots := w.slots.(done := None),
           past := w.past.(waiting := w.past.waiting - {id}, collected := w.past.collected[id := w.slots.done.value.1]))
    case ClientGivesUp(id) =>
      w.(slots := GiveUp(w.slots, id),
         past := w.past.(waiting := w.past.waiting - {id},
                         withdrawn := if GiveUp(w.slots, id) != w.slots then w.past.withdrawn + {id} else w.past.withdrawn))
    case ManagerBound => w.(config := Some(Config(None, [], None, true, 0)))
    case RequestTaken =>
      var (slots, r) := Take(w.slots);
      if r.None? then w
      else w.(slots := slots, hand := Taken(r.value), past := w.past.(taken := w.past.taken + [r.value.id], planned := 0, applied := 0))
    case RequestBegun(output, now) =>
      if !w.hand.Taken? then w
      else if w.config.None? then w.(hand := Owes(w.hand.req, Refused), past := w.past.(shown := Shows(w.model, w.hand.req)))
      else
        var m := Start(w.config.value, w.hand.req, output, now);
        var t := Moved(w.(hand := Idle), m);
        t.(past := t.past.(planned := if m.config.active.Some? then |m.config.active.value.attempts| else 0))
    case RequestCompleted =>
      if !w.hand.Owes? then w else
        w.(slots := Complete(w.slots, w.hand.req.id, w.hand.outcome), hand := Idle,
           past := w.past.(completed := w.past.completed + [Completion(w.hand.req, w.hand.outcome, w.past.shown, w.past.applied)]))
    case _ => if w.config.None? then
                (match s
                 case OutputWent(wlName) => w.(model := w.model - {wlName})
                 case ModelChanged(wlName, width, height) => w.(model := w.model[wlName := (width, height)])
                 case _ => w)
              else Retry(w, s)
  }

  // --- what every run keeps ---

  /** The request the Wayland thread is answerable for. */
  function InHand(w: World): Option<Request> {
    if w.hand.Taken? || w.hand.Owes? then Some(w.hand.req)
    else if w.config.Some? && w.config.value.active.Some? then Some(w.config.value.active.value.req)
    else None
  }

  ghost predicate SlotsHold(s: Slots) {
    && (s.queued.Some? ==> s.inFlight.None? && s.done.None? && s.queued.value.id == s.nextId)
    && (s.inFlight.Some? ==> s.inFlight.value == s.nextId && s.done.None?)
    && (s.done.Some? ==> s.done.value.0 == s.nextId)
  }

  ghost predicate HandHolds(w: World) {
    && w.slots.inFlight == (if InHand(w).Some? then Some(InHand(w).value.id) else None)
    && (w.hand != Idle && w.config.Some? ==> w.config.value.active.None?)
    && (w.hand.Owes? && w.hand.outcome == Changed ==> w.past.shown)
  }

  function Ids(cs: seq<Completion>): seq<nat> {
    if cs == [] then [] else Ids(cs[..|cs| - 1]) + [cs[|cs| - 1].req.id]
  }

  /** Each request taken has been completed, in order, but for the one in hand. */
  ghost predicate TakenAnswered(w: World) {
    w.past.taken == Ids(w.past.completed) + (if InHand(w).Some? then [InHand(w).value.id] else [])
  }

  ghost predicate Ascending(ids: seq<nat>, last: nat) {
    && (forall i :: 0 <= i < |ids| ==> ids[i] <= last)
    && (forall i, j :: 0 <= i < j < |ids| ==> ids[i] < ids[j])
  }

  ghost predicate TakenOnce(w: World) {
    && Ascending(w.past.taken, w.slots.nextId)
    && (w.slots.queued.Some? ==> w.slots.queued.value.id !in w.past.taken)
  }

  ghost predicate WithdrawnNeverTaken(w: World) {
    forall id :: id in w.past.withdrawn ==>
      id !in w.past.taken && id <= w.slots.nextId && (w.slots.queued.Some? ==> id != w.slots.queued.value.id)
  }

  /** A configuration is applied for each attempt used up; a cancelled one gives its attempt back, at most 3 times. */
  ghost predicate Counted(w: World) {
    && w.past.applied <= 6
    && (w.hand.Taken? ==> w.past.applied == 0)
    && (w.config.Some? && w.config.value.active.Some? ==> Tallied(w.config.value, w.past))
  }

  ghost predicate Tallied(c: Config, past: History)
    requires c.active.Some?
  {
    var a := c.active.value;
    && past.planned <= 3 && a.cancelled <= MAX_CANCELLED
    && past.applied + |a.attempts| == past.planned + a.cancelled
    && (a.config.Some? <==> a.phase == Applying)
    && (a.phase == Applying || a.phase == Settling ==> a.current.Some?)
    && (a.phase != NeedSerial ==> c.serial.Some?)
  }

  /** At most six configurations are applied for a request, and one reported as changed was seen to be. */
  ghost predicate Truthful(cs: seq<Completion>) {
    forall i :: 0 <= i < |cs| ==> cs[i].applied <= 6 && (cs[i].outcome == Changed ==> cs[i].shown)
  }

  ghost predicate Recorded(cs: seq<Completion>, id: nat, outcome: Outcome) {
    exists i :: 0 <= i < |cs| && cs[i].req.id == id && cs[i].outcome == outcome
  }

  /** What is ready to be read, and what has been read, is what was completed for that very request. */
  ghost predicate OwnOutcomes(w: World) {
    && (w.slots.done.Some? ==> Recorded(w.past.completed, w.slots.done.value.0, w.slots.done.value.1))
    && (forall id :: id in w.past.collected ==> Recorded(w.past.completed, id, w.past.collected[id]))
  }

  /** A waiting client's outcome is there to be read exactly if no other request has been parked since. */
  ghost predicate ReadableIff(w: World) {
    && (forall id :: id in w.past.waiting ==> id <= w.slots.nextId)
    && (forall id :: id in w.past.waiting && id in Ids(w.past.completed) ==> (Readable(w.slots, id) <==> id == w.slots.nextId))
  }

  ghost predicate Holds(w: World) {
    && SlotsHold(w.slots) && HandHolds(w) && TakenAnswered(w) && TakenOnce(w)
    && WithdrawnNeverTaken(w) && Counted(w) && Truthful(w.past.completed) && OwnOutcomes(w) && ReadableIff(w)
  }

  // --- the retry machine's part ---

  /** A move of the retry machine keeps its request, its tally and its honesty. */
  ghost predicate MoveHolds(c: Config, m: Move, past: History, model: Model) {
    && (c.active.None? ==> m.ended.None? && m.config.active.None? && m.applied == [])
    && (c.active.Some? ==>
          (if m.ended.Some? then
             m.config.active.None? && m.ended.value.0 == c.active.value.req
             && (m.ended.value.1 == Changed ==> Shows(model, c.active.value.req)) && past.applied + |m.applied| <= 6
           else
             m.config.active.Some? && m.config.active.value.req == c.active.value.req
             && Tallied(m.config, past.(applied := past.applied + |m.applied|))))
  }

  lemma ApplyNextHolds(c: Config, past: History, model: Model, now: Millis)
    requires c.active.Some? && c.serial.Some? && past.planned <= 3 && c.active.value.cancelled <= MAX_CANCELLED
    requires past.applied + |c.active.value.attempts| == past.planned + c.active.value.cancelled
    ensures MoveHolds(c, ApplyNext(c, now), past, model)
  {
  }

  lemma AdvanceHolds(c: Config, past: History, model: Model, now: Millis)
    requires c.active.Some? ==> Tallied(c, past)
    ensures MoveHolds(c, Advance(c, model, now), past, model)
  {
    hide ApplyNext;
    if c.active.Some? && c.serial.Some? {
      ApplyNextHolds(c, past, model, now);
    }
  }

  lemma AnswerHolds(c: Config, config: nat, answer: Answer, past: History, model: Model, now: Millis)
    requires c.active.Some? ==> Tallied(c, past)
    ensures MoveHolds(c, TakeAnswer(c, config, answer, model, now), past, model)
  {
    hide ApplyNext, Advance;
    if c.active.Some? && c.active.value.config == Some(config) {
      var a := c.active.value.(config := None);
      match answer
      case Succeeded =>
      case Failed => ApplyNextHolds(c.(active := Some(a)), past, model, now);
      case CancelledIt =>
        if a.cancelled + 1 <= MAX_CANCELLED {
          var e := a.(cancelled := a.cancelled + 1, attempts := [a.current.value] + a.attempts, current := None,
                      phase := Cancelled, deadline := now + CANCEL_TIMEOUT);
          AdvanceHolds(c.(active := Some(e)), past, model, now);
        }
    }
  }

  // --- every step keeps it ---

  lemma ParkingHolds(w: World, wlName: nat, width: u16, height: u16)
    requires Holds(w) && !Busy(w.slots)
    ensures Holds(Next(w, ClientParks(wlName, width, height)))
  {
    var t := Next(w, ClientParks(wlName, width, height));
    CountsStand(w, t);
    TakenBefore(w);
    hide Ids, Counted, Truthful, Recorded;
  }

  /** Every request completed was parked no later than the last. */
  lemma TakenBefore(w: World)
    requires Holds(w)
    ensures forall id :: id in Ids(w.past.completed) ==> id in w.past.taken
    ensures forall id :: id in w.past.taken ==> id <= w.slots.nextId
  {
    hide Ids;
  }

  lemma CollectingHolds(w: World, id: nat)
    requires Holds(w) && id in w.past.waiting && Readable(w.slots, id)
    ensures Holds(Next(w, ClientCollects(id)))
  {
    CountsStand(w, Next(w, ClientCollects(id)));
    hide Ids, Counted, Truthful, Recorded;
  }

  lemma GivingUpHolds(w: World, id: nat)
    requires Holds(w) && id in w.past.waiting && !Readable(w.slots, id)
    ensures Holds(Next(w, ClientGivesUp(id)))
  {
    CountsStand(w, Next(w, ClientGivesUp(id)));
    hide Ids, Counted, Truthful, Recorded;
  }

  lemma CountsStand(w: World, t: World)
    requires Counted(w) && Truthful(w.past.completed)
    requires t.hand == w.hand && t.config == w.config && t.past.applied == w.past.applied && t.past.planned == w.past.planned
    requires t.past.completed == w.past.completed
    ensures Counted(t) && Truthful(t.past.completed)
  {
  }

  lemma TakingHolds(w: World)
    requires Holds(w) && Possible(w, RequestTaken)
    ensures Holds(Next(w, RequestTaken))
  {
    hide Ids, Recorded, Truthful;
  }

  /** A move of the retry machine, made while the Wayland thread's hand is empty. */
  lemma MoveKeeps(w: World, model: Model, m: Move)
    requires Holds(w) && w.hand == Idle && w.config.Some? && MoveHolds(w.config.value, m, w.past, model)
    ensures Holds(Moved(w.(model := model), m))
  {
    hide Ids, Recorded, Truthful, SlotsHold;
  }

  lemma BeginningHolds(w: World, output: Option<OutputInfo>, now: Millis)
    requires Holds(w) && w.hand.Taken?
    ensures Holds(Next(w, RequestBegun(output, now)))
  {
    hide Ids, Recorded, Truthful, BestMode, HeadNamed;
  }

  lemma {:induction false} IdsGrow(cs: seq<Completion>, c: Completion)
    ensures Ids(cs + [c]) == Ids(cs) + [c.req.id]
  {
    assert (cs + [c])[..|cs|] == cs;
  }

  lemma {:induction false} IdsAre(cs: seq<Completion>)
    ensures |Ids(cs)| == |cs| && forall i :: 0 <= i < |cs| ==> Ids(cs)[i] == cs[i].req.id
  {
    if cs != [] {
      IdsAre(cs[..|cs| - 1]);
    }
  }

  lemma StillRecorded(cs: seq<Completion>, c: Completion, id: nat, outcome: Outcome)
    requires Recorded(cs, id, outcome)
    ensures Recorded(cs + [c], id, outcome)
  {
    var i :| 0 <= i < |cs| && cs[i].req.id == id && cs[i].outcome == outcome;
    assert (cs + [c])[i] == cs[i];
  }

  lemma CollectedStays(w: World, c: Completion)
    requires OwnOutcomes(w)
    ensures forall id :: id in w.past.collected ==> Recorded(w.past.completed + [c], id, w.past.collected[id])
  {
    forall id | id in w.past.collected ensures Recorded(w.past.completed + [c], id, w.past.collected[id]) {
      StillRecorded(w.past.completed, c, id, w.past.collected[id]);
    }
  }

  lemma CompletingFrees(w: World)
    requires Holds(w) && w.hand.Owes?
    ensures var t := Next(w, RequestCompleted); SlotsHold(t.slots) && HandHolds(t) && Counted(t)
  {
    hide TakenAnswered, TakenOnce, WithdrawnNeverTaken, OwnOutcomes, ReadableIff, Truthful;
  }

  lemma CompletedIs(w: World)
    requires w.hand.Owes?
    ensures var t := Next(w, RequestCompleted);
            var c := Completion(w.hand.req, w.hand.outcome, w.past.shown, w.past.applied);
            t == w.(slots := Complete(w.slots, w.hand.req.id, w.hand.outcome), hand := Idle,
                    past := w.past.(completed := w.past.completed + [c]))
  {
  }

  lemma OwedIsInHand(w: World)
    requires w.hand.Owes?
    ensures InHand(w) == Some(w.hand.req) && InHand(Next(w, RequestCompleted)) == if w.config.Some? && w.config.value.active.Some? then Some(w.config.value.active.value.req) else None
  {
  }

  lemma CompletingAnswers(w: World)
    requires TakenAnswered(w) && w.hand.Owes? && (w.config.Some? ==> w.config.value.active.None?)
    ensures TakenAnswered(Next(w, RequestCompleted))
  {
    hide Ids, InHand, Next;
    CompletedIs(w);
    OwedIsInHand(w);
    IdsGrow(w.past.completed, Completion(w.hand.req, w.hand.outcome, w.past.shown, w.past.applied));
    NothingMore(Ids(Next(w, RequestCompleted).past.completed));
  }

  lemma NothingMore(ids: seq<nat>)
    ensures ids + [] == ids
  {
  }

  lemma CompletingKeeps(w: World)
    requires Holds(w) && w.hand.Owes?
    ensures var t := Next(w, RequestCompleted); TakenOnce(t) && WithdrawnNeverTaken(t) && Truthful(t.past.completed)
  {
    assert TakenOnce(w) && WithdrawnNeverTaken(w) && Truthful(w.past.completed);
    assert w.past.applied <= 6 && (w.hand.outcome == Changed ==> w.past.shown);
    hide Holds, Ascending;
  }

  lemma CompletingRecords(w: World)
    requires Holds(w) && w.hand.Owes?
    ensures OwnOutcomes(Next(w, RequestCompleted))
  {
    var t := Next(w, RequestCompleted);
    var c := Completion(w.hand.req, w.hand.outcome, w.past.shown, w.past.applied);
    CollectedStays(w, c);
    assert Recorded(t.past.completed, c.req.id, c.outcome) by {
      assert t.past.completed[|w.past.completed|] == c;
    }
    hide Recorded, Holds;
  }

  lemma CompletingReports(w: World)
    requires Holds(w) && w.hand.Owes?
    ensures ReadableIff(Next(w, RequestCompleted))
  {
    CompletedIs(w);
    assert w.slots.inFlight == Some(w.hand.req.id) && w.hand.req.id == w.slots.nextId;
    assert forall id :: id in w.past.waiting ==> id <= w.slots.nextId;
    hide Ids, Holds, Next;
  }

  lemma CompletingHolds(w: World)
    requires Holds(w) && w.hand.Owes?
    ensures Holds(Next(w, RequestCompleted))
  {
    CompletingFrees(w);
    CompletingAnswers(w);
    CompletingKeeps(w);
    CompletingRecords(w);
    CompletingReports(w);
    hide Next, SlotsHold, HandHolds, TakenAnswered, TakenOnce, WithdrawnNeverTaken, Counted, Truthful, OwnOutcomes, ReadableIff;
  }

  lemma RetryStepsHold(w: World, s: Step)
    requires Holds(w) && w.hand == Idle && w.config.Some?
    requires !s.RequestTaken? && !s.ClientParks? && !s.ClientCollects? && !s.ClientGivesUp? && !s.ManagerBound?
    ensures Holds(Retry(w, s))
  {
    hide Holds, Moved, Advance, TakeAnswer, Fail, SerialSent, OutputShown, OutputGone, HeadGone;
    var c := w.config.value;
    ActiveTallied(w);
    match s
    case Ticked(now) =>
      AdvanceHolds(c, w.past, w.model, now);
      MoveKeeps(w, w.model, Advance(c, w.model, now));
    case AnswerArrived(config, answer, now) =>
      AnswerHolds(c, config, answer, w.past, w.model, now);
      MoveKeeps(w, w.model, TakeAnswer(c, config, answer, w.model, now));
    case SerialArrived(serial, now) =>
      SerialHolds(c, serial, w.past, w.model, now);
      MoveKeeps(w, w.model, SerialSent(c, serial, w.model, now));
    case HeadsChanged(heads) =>
      SmallMovesHold(c, heads, 0, 0, w.past, w.model);
      MoveKeeps(w, w.model, Stay(c.(heads := heads)));
      StayMoves(w, c.(heads := heads));
    case HeadWent(head) =>
      SmallMovesHold(c, [], head, 0, w.past, w.model);
      MoveKeeps(w, w.model, HeadGone(c, head));
    case OutputWent(wlName) =>
      SmallMovesHold(c, [], 0, wlName, w.past, w.model);
      MoveKeeps(w, w.model, OutputGone(c, wlName));
      ModelIsFree(Moved(w, OutputGone(c, wlName)), w.model - {wlName});
    case ModelChanged(wlName, width, height) =>
      var model := w.model[wlName := (width, height)];
      SmallMovesHold(c, [], 0, wlName, w.past, model);
      MoveKeeps(w, model, OutputShown(c, wlName, model));
    case ManagerWent =>
      SmallMovesHold(c, [], 0, 0, w.past, w.model);
      MoveKeeps(w, w.model, Fail(c));
      FailLeavesNone(w, c);
      ConfigGone(Moved(w, Fail(c)));
    case ConnectionLost =>
      SmallMovesHold(c, [], 0, 0, w.past, w.model);
      MoveKeeps(w, w.model, Fail(c));
    case _ =>
  }

  lemma ActiveTallied(w: World)
    requires Holds(w) && w.config.Some?
    ensures w.config.value.active.Some? ==> Tallied(w.config.value, w.past) && w.past.applied <= 6
  {
  }

  lemma SerialHolds(c: Config, serial: u32, past: History, model: Model, now: Millis)
    requires c.active.Some? ==> Tallied(c, past)
    ensures MoveHolds(c, SerialSent(c, serial, model, now), past, model)
  {
    hide Advance;
    AdvanceHolds(c.(serial := Some(serial)), past, model, now);
  }

  lemma SmallMovesHold(c: Config, heads: seq<Head>, head: nat, wlName: nat, past: History, model: Model)
    requires c.active.Some? ==> Tallied(c, past) && past.applied <= 6
    ensures MoveHolds(c, Stay(c.(heads := heads)), past, model) && MoveHolds(c, HeadGone(c, head), past, model)
    ensures MoveHolds(c, OutputGone(c, wlName), past, model) && MoveHolds(c, OutputShown(c, wlName, model), past, model)
    ensures MoveHolds(c, Fail(c), past, model)
  {
    hide WithoutHead;
  }

  lemma StayMoves(w: World, c: Config)
    ensures Moved(w, Stay(c)) == w.(config := Some(c))
  {
  }

  lemma FailLeavesNone(w: World, c: Config)
    ensures Moved(w, Fail(c)).config.Some? && Moved(w, Fail(c)).config.value.active.None?
  {
  }

  /** The model may change, and an idle retry machine may go, without touching anything promised. */
  lemma ModelIsFree(w: World, model: Model)
    requires Holds(w)
    ensures Holds(w.(model := model))
  {
    hide Ids, Recorded, Truthful, SlotsHold;
  }

  lemma ConfigGone(w: World)
    requires Holds(w) && w.config.Some? && w.config.value.active.None?
    ensures Holds(w.(config := None))
  {
    hide Ids, Recorded, Truthful, SlotsHold;
  }

  lemma BindingHolds(w: World)
    requires Holds(w) && w.hand == Idle && w.config.None?
    ensures Holds(Next(w, ManagerBound))
  {
    hide Ids, Recorded, Truthful, SlotsHold;
  }

  lemma StepsHold(w: World, s: Step)
    requires Holds(w) && Possible(w, s)
    ensures Holds(Next(w, s))
  {
    hide Holds, Retry, Moved;
    match s
    case ClientParks(wlName, width, height) => ParkingHolds(w, wlName, width, height);
    case ClientCollects(id) => CollectingHolds(w, id);
    case ClientGivesUp(id) => GivingUpHolds(w, id);
    case ManagerBound => BindingHolds(w);
    case RequestTaken => TakingHolds(w);
    case RequestBegun(output, now) => BeginningHolds(w, output, now);
    case RequestCompleted => CompletingHolds(w);
    case _ =>
      if w.config.Some? {
        RetryStepsHold(w, s);
      } else {
        match s
        case OutputWent(wlName) => ModelIsFree(w, w.model - {wlName});
        case ModelChanged(wlName, width, height) => ModelIsFree(w, w.model[wlName := (width, height)]);
        case _ =>
      }
  }

  // --- runs ---

  predicate Run(w: World, steps: seq<Step>)
    decreases |steps|
  {
    steps != [] ==> Possible(w, steps[0]) && Run(Next(w, steps[0]), steps[1..])
  }

  function After(w: World, steps: seq<Step>): World
    decreases |steps|
  {
    if steps == [] then w else After(Next(w, steps[0]), steps[1..])
  }

  lemma {:induction false} RunsHold(w: World, steps: seq<Step>)
    requires Holds(w) && Run(w, steps)
    ensures Holds(After(w, steps))
    decreases |steps|
  {
    hide Holds, Next, Possible;
    if steps != [] {
      StepsHold(w, steps[0]);
      RunsHold(Next(w, steps[0]), steps[1..]);
    }
  }

  lemma StartHolds()
    ensures Holds(START)
  {
  }

  /** In every run, each request taken is completed exactly once, in order, but for the one in hand. */
  lemma EachTakenIsCompletedOnce(steps: seq<Step>)
    requires Run(START, steps)
    ensures var w := After(START, steps);
            && |w.past.taken| == |w.past.completed| + (if InHand(w).Some? then 1 else 0)
            && (forall i :: 0 <= i < |w.past.completed| ==> w.past.completed[i].req.id == w.past.taken[i])
            && (forall i, j :: 0 <= i < j < |w.past.taken| ==> w.past.taken[i] != w.past.taken[j])
            && (InHand(w).Some? ==> w.past.taken[|w.past.completed|] == InHand(w).value.id)
            && !(w.slots.queued.Some? && w.slots.inFlight.Some?)
  {
    StartHolds();
    RunsHold(START, steps);
    IdsAre(After(START, steps).past.completed);
    hide After, Ids, Counted, Truthful;
  }

  /** In every run, at most six configurations are applied for a request, and a client is told its size was set
      only if the model showed that size when the request ended. */
  lemma OutcomesAreTruthful(steps: seq<Step>, i: nat)
    requires Run(START, steps) && i < |After(START, steps).past.completed|
    ensures var c := After(START, steps).past.completed[i];
            c.applied <= 6 && (c.outcome == Changed ==> c.shown)
  {
    StartHolds();
    RunsHold(START, steps);
  }

  /** In every run, a client is only ever given the outcome of its own request, and a withdrawn request is
      never taken. */
  lemma WaitersGetTheirOwn(steps: seq<Step>, id: nat)
    requires Run(START, steps)
    ensures var past := After(START, steps).past;
            && (id in past.collected ==> Recorded(past.completed, id, past.collected[id]))
            && (id in past.withdrawn ==> id !in past.taken)
  {
    StartHolds();
    RunsHold(START, steps);
  }

  /** In every run, a waiting client whose request is complete finds its outcome exactly if no other request has
      been parked since its own. */
  lemma OutcomeIsThereIff(steps: seq<Step>, id: nat)
    requires Run(START, steps)
    requires var w := After(START, steps); id in w.past.waiting && id in Ids(w.past.completed)
    ensures var w := After(START, steps); Readable(w.slots, id) <==> w.slots.nextId == id
  {
    StartHolds();
    RunsHold(START, steps);
  }

  /** And it can be lost: a second client parks between the first one's completion and its next look. */
  lemma OutcomeCanBeDiscarded()
    ensures var steps := [ClientParks(1, 800, 600), RequestTaken, RequestBegun(None, 0), RequestCompleted, ClientParks(1, 640, 480)];
            && Run(START, steps)
            && 1 in After(START, steps).past.waiting && 1 in Ids(After(START, steps).past.completed)
            && !Readable(After(START, steps).slots, 1)
  {
    var s0 := ClientParks(1, 800, 600);
    var s4 := ClientParks(1, 640, 480);
    var w1 := Next(START, s0);
    var w2 := Next(w1, RequestTaken);
    var w3 := Next(w2, RequestBegun(None, 0));
    var w4 := Next(w3, RequestCompleted);
    var w5 := Next(w4, s4);
    assert After(w5, []) == w5;
    assert After(w4, [s4]) == w5;
    assert [RequestCompleted, s4][1..] == [s4];
    assert [RequestBegun(None, 0), RequestCompleted, s4][1..] == [RequestCompleted, s4];
    assert [RequestTaken, RequestBegun(None, 0), RequestCompleted, s4][1..] == [RequestBegun(None, 0), RequestCompleted, s4];
    assert [s0, RequestTaken, RequestBegun(None, 0), RequestCompleted, s4][1..] == [RequestTaken, RequestBegun(None, 0), RequestCompleted, s4];
  }
}
