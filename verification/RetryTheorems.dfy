/** What each configuration says, and why the retries end. */
module RetryTheorems {
  import opened BridgeTypes
  import opened PixelTransform
  import opened RequestSlots
  import opened OutputRetry
  import opened ResolutionRuns

  predicate SetsSize(e: Entry) {
    e.SetMode? || e.SetCustom?
  }

  /** A configuration names every head once, in order; it sets the size of the requested one alone, and the rest
      stay enabled or disabled as they are. */
  lemma {:induction false} ConfigurationCoversHeads(heads: seq<Head>, a: Active, attempt: Attempt, i: nat)
    requires i < |heads|
    ensures var e, h := Configuration(heads, a, attempt)[i], heads[i];
            && e.head == h.id
            && (SetsSize(e) <==> h.id == a.head)
            && (h.id != a.head ==> (e.Keep? <==> h.enabled))
            && (e.SetCustom? ==> (e.width, e.height) == (a.modeW, a.modeH))
            && (e.SetMode? ==> exists m :: m in h.modes && m.id == e.mode && AtSize(m, a.modeW, a.modeH)
                                 && forall n :: n in h.modes && AtSize(n, a.modeW, a.modeH) ==> NotWorse(m, n))
  {
    hide BestMode;
    if i < |heads| - 1 {
      ConfigurationCoversHeads(heads[..|heads| - 1], a, attempt, i);
    }
  }

  /** The mode asked for, turned as the output is, is the size the client asked for on screen. */
  lemma ModeIsTheSizeOnScreen(c: Config, r: Request, output: OutputInfo, now: Millis)
    ensures var m := Start(c, r, Some(output), now);
            m.ended.None? ==>
              && m.config.active.Some?
              && Size(output.transform, m.config.active.value.modeW, m.config.active.value.modeH) == (r.width as int, r.height as int)
  {
    hide HeadNamed, BestMode;
  }

  // --- the retries end ---

  /** How much a request can still do: each attempt left, each cancellation left to forgive, and an answer awaited. */
  function Weight(c: Config): int {
    if c.active.None? then 0 else
      var a := c.active.value;
      2 * (|a.attempts| + 2 * (MAX_CANCELLED - a.cancelled)) + if a.phase == Applying then 1 else 0
  }

  /** The weight of a request after a move, where it has not ended, is no more than before, and less if anything changed. */
  ghost predicate Lighter(c: Config, m: Move) {
    m.ended.None? ==> Weight(m.config) <= Weight(c) && (m.config.active != c.active ==> Weight(m.config) < Weight(c))
  }

  lemma AdvanceIsProgress(c: Config, past: History, model: Model, now: Millis)
    requires c.active.Some? && Tallied(c, past)
    ensures Lighter(c, Advance(c, model, now))
    ensures now >= c.active.value.deadline && Advance(c, model, now).ended.None? ==> Weight(Advance(c, model, now).config) < Weight(c)
  {
    hide Configuration;
  }

  lemma AnswerIsProgress(c: Config, past: History, config: nat, answer: Answer, model: Model, now: Millis)
    requires c.active.Some? && Tallied(c, past)
    ensures Lighter(c, TakeAnswer(c, config, answer, model, now))
  {
    hide Configuration, Advance;
    if c.active.value.config == Some(config) && answer == CancelledIt && c.active.value.cancelled < MAX_CANCELLED {
      var a := c.active.value;
      var e := a.(config := None, cancelled := a.cancelled + 1, attempts := [a.current.value] + a.attempts, current := None,
                  phase := Cancelled, deadline := now + CANCEL_TIMEOUT);
      AdvanceIsProgress(c.(active := Some(e)), past, model, now);
    }
  }

  /** A pass of the event loop: the model and the time it sees. */
  datatype Pass = Pass(model: Model, now: Millis)

  /** Whether some pass ends the request. */
  predicate Ends(c: Config, passes: seq<Pass>)
    decreases |passes|
  {
    passes != []
    && (Advance(c, passes[0].model, passes[0].now).ended.Some?
        || Ends(Advance(c, passes[0].model, passes[0].now).config, passes[1..]))
  }

  /** Each pass comes after the deadline then in force, and the compositor says nothing in between. */
  predicate Overdue(c: Config, passes: seq<Pass>)
    decreases |passes|
  {
    passes != [] ==>
      && (c.active.Some? ==> passes[0].now >= c.active.value.deadline)
      && Overdue(Advance(c, passes[0].model, passes[0].now).config, passes[1..])
  }

  /** A silent compositor cannot hold a request: two passes past their deadlines end it. */
  lemma SilenceEnds(c: Config, past: History, passes: seq<Pass>)
    requires c.active.Some? && Tallied(c, past) && Overdue(c, passes) && |passes| >= 2
    ensures Ends(c, passes)
  {
    hide Configuration;
  }

  /** What can move an active request: a pass of the event loop, or an answer to a configuration. */
  datatype Mover = Passing(model: Model, now: Millis) | Answering(config: nat, answer: Answer, model: Model, now: Millis)

  function MovedBy(c: Config, m: Mover): Move {
    match m
    case Passing(model, now) => Advance(c, model, now)
    case Answering(config, answer, model, now) => TakeAnswer(c, config, answer, model, now)
  }

  /** Each of these changes the request, and none ends it. */
  predicate AllMove(c: Config, movers: seq<Mover>)
    decreases |movers|
  {
    movers != [] ==>
      var m := MovedBy(c, movers[0]);
      m.ended.None? && m.config.active != c.active && AllMove(m.config, movers[1..])
  }

  /** However the compositor answers, cancels or keeps silent, a request changes no more often than its weight before it ends. */
  lemma {:induction false} RequestsEnd(c: Config, past: History, movers: seq<Mover>)
    requires c.active.Some? && Tallied(c, past) && past.applied <= 6 && AllMove(c, movers)
    ensures |movers| <= Weight(c)
    decreases |movers|
  {
    assert Weight(c) >= 0;
    if movers != [] {
      var m := MovedBy(c, movers[0]);
      match movers[0] {
        case Passing(model, now) =>
          AdvanceHolds(c, past, model, now);
          AdvanceIsProgress(c, past, model, now);
        case Answering(config, answer, model, now) =>
          AnswerHolds(c, config, answer, past, model, now);
          AnswerIsProgress(c, past, config, answer, model, now);
      }
      hide Advance, TakeAnswer, Tallied, Weight;
      var after := past.(applied := past.applied + |m.applied|);
      assert Tallied(m.config, after) && after.applied <= 6 by { TallyBounds(m.config, after); }
      RequestsEnd(m.config, after, movers[1..]);
    }
  }

  lemma TallyBounds(c: Config, past: History)
    requires c.active.Some? && Tallied(c, past)
    ensures past.applied <= 6
  {
  }

  /** A request that has just begun weighs at most 18: at most so many moves change anything before it ends. */
  lemma FreshRequestsAreLight(c: Config, r: Request, output: Option<OutputInfo>, now: Millis)
    requires c.active.None?
    ensures var m := Start(c, r, output, now); m.ended.None? ==> 0 < Weight(m.config) <= 18
  {
    hide HeadNamed, BestMode;
  }
}
