/** Work posted to the Wayland thread, and the conversions that thread carries out. */
module ClipJobs {
  import opened BridgeTypes

  const QUEUE_TIMEOUT: Millis := 30_000
  const MAX_JOBS := 64
  const MAX_PENDING_RECEIVES := 8
  const RECEIVE_IDLE_TIMEOUT: Millis := 5_000
  const RECEIVE_TIMEOUT: Millis := 30_000
  const MAX_SELECTION_BYTES := 0x400_0000

  datatype Job =
    | Publish(k: Sel, data: Option<Bytes>)
    | Receive(k: Sel, mime: string, generation: u64, since: Millis, conversion: ConversionId)
    | Destroy(offers: seq<OfferId>)

  datatype Queue = Queue(jobs: seq<Job>, running: bool)

  predicate IsStale(j: Job, now: Millis) {
    j.Receive? && now - j.since >= QUEUE_TIMEOUT
  }

  /** The jobs that have (or with `stale` false, have not) waited too long, in order. */
  function Waiting(jobs: seq<Job>, now: Millis, stale: bool): seq<Job> {
    if jobs == [] then [] else
      var rest := Waiting(jobs[..|jobs| - 1], now, stale);
      if IsStale(jobs[|jobs| - 1], now) == stale then rest + [jobs[|jobs| - 1]] else rest
  }

  function Post(q: Queue, job: Job, now: Millis): (Queue, bool, seq<Job>) {
    if !q.running then (q, false, [job]) else
      var kept := Waiting(q.jobs, now, false);
      var stale := Waiting(q.jobs, now, true);
      if |kept| >= MAX_JOBS then (Queue(kept, true), false, stale + [job])
      else (Queue(kept + [job], true), true, stale)
  }

  /** The queue shared by the X threads and the Wayland thread. Every method hands back the
      jobs it drops, so that their conversions are refused outside the lock. */
  class Jobs {
    var queue: seq<Job>
    var running: bool

    ghost function Contents(): Queue
      reads this
    {
      Queue(queue, running)
    }

    constructor ()
      ensures Contents() == Queue([], false)
    {
      queue, running := [], false;
    }

    method DrainExpired(now: Millis) returns (expired: seq<Job>)
      modifies this`queue
      ensures queue == Waiting(old(queue), now, false)
      ensures expired == Waiting(old(queue), now, true)
    {
      expired := [];
      var kept := [];
      for i := 0 to |queue|
        invariant queue == old(queue)
        invariant kept == Waiting(queue[..i], now, false)
        invariant expired == Waiting(queue[..i], now, true)
      {
        assert queue[..i + 1][..i] == queue[..i];
        if IsStale(queue[i], now) {
          expired := expired + [queue[i]];
        } else {
          kept := kept + [queue[i]];
        }
      }
      assert queue[..|queue|] == queue;
      queue := kept;
    }

    method PostJob(job: Job, now: Millis) returns (taken: bool, dropped: seq<Job>)
      modifies this
      ensures (Contents(), taken, dropped) == Post(old(Contents()), job, now)
    {
      if !running {
        return false, [job];
      }
      dropped := DrainExpired(now);
      if |queue| >= MAX_JOBS {
        return false, dropped + [job];
      }
      queue := queue + [job];
      taken := true;
    }

    method Sweep(now: Millis) returns (dropped: seq<Job>)
      modifies this`queue
      ensures queue == Waiting(old(queue), now, false)
      ensures dropped == Waiting(old(queue), now, true)
    {
      dropped := DrainExpired(now);
    }

    method Take() returns (jobs: seq<Job>)
      modifies this`queue
      ensures jobs == old(queue) && queue == []
    {
      jobs := queue;
      queue := [];
    }

    method SetRunning(on: bool) returns (dropped: seq<Job>)
      modifies this
      ensures running == on
      ensures queue == (if on then old(queue) else [])
      ensures dropped == (if on then [] else old(queue))
    {
      running := on;
      dropped := [];
      if !on {
        dropped := queue;
        queue := [];
      }
    }
  }

  // --- one transfer out of a Wayland app ---

  /** What one `read` of the pipe came to. */
  datatype Read = Data(chunk: Bytes) | EndOfFile | WouldBlock | Interrupted | Failed

  datatype ReadEnd = Eof | Stalled | TooSlow | TooBig

  datatype Transfer = Transfer(k: Sel, offer: OfferId, buf: Bytes, since: Millis, progressAt: Millis, conversion: ConversionId)

  function Overdue(t: Transfer, now: Millis): Option<ReadEnd> {
    if now - t.since >= RECEIVE_TIMEOUT then Some(TooSlow)
    else if now - t.progressAt >= RECEIVE_IDLE_TIMEOUT then Some(Stalled)
    else None
  }

  /** One pass over the pipe, `input` being what it holds right now. */
  function Pump(t: Transfer, input: seq<Read>, now: Millis): (Transfer, Option<ReadEnd>)
    decreases |input|
  {
    if input == [] then (t, Overdue(t, now))
    else match input[0]
      case EndOfFile => (t, Some(Eof))
      case Failed => (t, Some(Eof))
      case WouldBlock => (t, Overdue(t, now))
      case Interrupted => Pump(t, input[1..], now)
      case Data(chunk) =>
        var got := t.(buf := t.buf + chunk, progressAt := now);
        if |got.buf| > MAX_SELECTION_BYTES then (got, Some(TooBig)) else Pump(got, input[1..], now)
  }

  /** The answer a finished transfer gives; `current` is whether its offer is still announced. */
  function Outcome(t: Transfer, end: ReadEnd, current: bool): Option<Bytes> {
    if end != Eof || (t.buf == [] && !current) then None else Some(t.buf)
  }

  class PendingReceive {
    const k: Sel
    const offer: OfferId
    const since: Millis
    const conversion: ConversionId
    var buf: Bytes
    var progressAt: Millis

    ghost function Contents(): Transfer
      reads this
    {
      Transfer(k, offer, buf, since, progressAt, conversion)
    }

    constructor (k: Sel, offer: OfferId, since: Millis, now: Millis, conversion: ConversionId)
      ensures Contents() == Transfer(k, offer, [], since, now, conversion)
    {
      this.k, this.offer, this.since, this.conversion := k, offer, since, conversion;
      buf, progressAt := [], now;
    }

    method PumpPipe(input: seq<Read>, now: Millis) returns (end: Option<ReadEnd>)
      modifies this
      ensures (Contents(), end) == Pump(old(Contents()), input, now)
    {
      var i := 0;
      while i < |input| && !input[i].WouldBlock?
        invariant 0 <= i <= |input|
        invariant Pump(Contents(), input[i..], now) == Pump(old(Contents()), input, now)
      {
        if input[i].EndOfFile? || input[i].Failed? {
          return Some(Eof);
        }
        if input[i].Data? {
          buf := buf + input[i].chunk;
          progressAt := now;
          if |buf| > MAX_SELECTION_BYTES {
            return Some(TooBig);
          }
        }
        assert input[i..][1..] == input[i + 1..];
        i := i + 1;
      }
      end := if now - since >= RECEIVE_TIMEOUT then Some(TooSlow)
             else if now - progressAt >= RECEIVE_IDLE_TIMEOUT then Some(Stalled)
             else None;
    }
  }

  function Received(input: seq<Read>): Bytes
    decreases |input|
  {
    if input == [] || input[0].EndOfFile? || input[0].Failed? || input[0].WouldBlock? then []
    else if input[0].Interrupted? then Received(input[1..])
    else input[0].chunk + Received(input[1..])
  }

  /** A pump that ends at EOF, or goes on, has added exactly what it read, within the cap; one
      made when the total budget is spent always ends. */
  lemma {:induction false} PumpCollects(t: Transfer, input: seq<Read>, now: Millis)
    requires |t.buf| <= MAX_SELECTION_BYTES
    ensures var (r, end) := Pump(t, input, now);
            && (end == None || end == Some(Eof) ==> r.buf == t.buf + Received(input) && |r.buf| <= MAX_SELECTION_BYTES)
            && r.conversion == t.conversion && r.since == t.since && r.offer == t.offer && r.k == t.k
            && (now - t.since >= RECEIVE_TIMEOUT ==> end.Some?)
    decreases |input|
  {
    if input != [] && input[0].Interrupted? {
      PumpCollects(t, input[1..], now);
    } else if input != [] && input[0].Data? {
      var got := t.(buf := t.buf + input[0].chunk, progressAt := now);
      if |got.buf| <= MAX_SELECTION_BYTES {
        PumpCollects(got, input[1..], now);
      }
    }
  }

  // --- whole runs: X threads posting, the Wayland thread working ---

  /** One answer sent to a requestor; the transfer behind it, if it got that far. */
  datatype Answer = Answer(conversion: ConversionId, value: Option<Bytes>, source: Option<Finished>)

  /** The offer a transfer read, how it ended, and everything read from its pipe. */
  datatype Finished = Finished(offer: OfferId, end: ReadEnd, chunks: seq<Bytes>, current: bool)

  datatype Active = Active(transfer: Transfer, chunks: seq<Bytes>)

  datatype State = State(
    queue: Queue,
    taken: seq<Job>,
    receiving: seq<Active>,
    issued: seq<ConversionId>,
    answers: seq<Answer>)

  const FRESH := State(Queue([], false), [], [], [], [])

  datatype Step =
    | PostStep(job: Job, now: Millis)
    | SweepStep(now: Millis)
    | TakeStep
    | RunStep(offer: Option<OfferId>, piped: bool, now: Millis)
    | PumpStep(at: nat, input: seq<Read>, now: Millis, current: bool)
    | StartStep
    | ExitStep

  predicate Possible(s: State, e: Step) {
    match e
    case TakeStep => s.queue.running && s.taken == []
    case RunStep(_, _, _) => s.taken != []
    case PumpStep(at, _, _, _) => at < |s.receiving|
    case _ => true
  }

  function ConversionsOf(jobs: seq<Job>): seq<ConversionId> {
    if jobs == [] then [] else
      ConversionsOf(jobs[..|jobs| - 1]) + (if jobs[|jobs| - 1].Receive? then [jobs[|jobs| - 1].conversion] else [])
  }

  function Transferring(rs: seq<Active>): seq<ConversionId> {
    seq(|rs|, i requires 0 <= i < |rs| => rs[i].transfer.conversion)
  }

  function Answered(answers: seq<Answer>): seq<ConversionId> {
    seq(|answers|, i requires 0 <= i < |answers| => answers[i].conversion)
  }

  function Refusals(cs: seq<ConversionId>): seq<Answer> {
    seq(|cs|, i requires 0 <= i < |cs| => Answer(cs[i], None, Option.None))
  }

  function RemoveAt<T>(s: seq<T>, i: nat): seq<T>
    requires i < |s|
  {
    s[..i] + s[i + 1..]
  }

  function Refuse(s: State, dropped: seq<Job>): State {
    s.(answers := s.answers + Refusals(ConversionsOf(dropped)))
  }

  function RunJob(s: State, offer: Option<OfferId>, piped: bool, now: Millis): State
    requires s.taken != []
  {
    var job := s.taken[0];
    var rest := s.(taken := s.taken[1..]);
    if !job.Receive? then rest
    else if offer.None? || |s.receiving| >= MAX_PENDING_RECEIVES || !piped then Refuse(rest, [job])
    else rest.(receiving := s.receiving
                 + [Active(Transfer(job.k, offer.value, [], job.since, now, job.conversion), [])])
  }

  function PumpAt(s: State, at: nat, input: seq<Read>, now: Millis, current: bool): State
    requires at < |s.receiving|
  {
    var (t, end) := Pump(s.receiving[at].transfer, input, now);
    var chunks := s.receiving[at].chunks + [Received(input)];
    if end.None? then s.(receiving := s.receiving[at := Active(t, chunks)])
    else s.(receiving := RemoveAt(s.receiving, at),
            answers := s.answers
              + [Answer(t.conversion, Outcome(t, end.value, current), Some(Finished(t.offer, end.value, chunks, current)))])
  }

  function Next(s: State, e: Step): State
    requires Possible(s, e)
  {
    match e
    case PostStep(job, now) =>
      var (q, _, dropped) := Post(s.queue, job, now);
      Refuse(s.(queue := q, issued := s.issued + ConversionsOf([job])), dropped)
    case SweepStep(now) =>
      Refuse(s.(queue := s.queue.(jobs := Waiting(s.queue.jobs, now, false))), Waiting(s.queue.jobs, now, true))
    case TakeStep => s.(taken := s.queue.jobs, queue := s.queue.(jobs := []))
    case RunStep(offer, piped, now) => RunJob(s, offer, piped, now)
    case PumpStep(at, input, now, current) => PumpAt(s, at, input, now, current)
    case StartStep => s.(queue := s.queue.(running := true))
    case ExitStep =>
      // the queue is drained, and what the thread was carrying is dropped with it
      var cut := Refuse(s.(queue := Queue([], false), taken := [], receiving := []), s.queue.jobs + s.taken);
      cut.(answers := cut.answers + Refusals(Transferring(s.receiving)))
  }

  ghost predicate Run(ss: seq<State>, es: seq<Step>) {
    && |ss| == |es| + 1
    && ss[0] == FRESH
    && forall i :: 0 <= i < |es| ==> Possible(ss[i], es[i]) && ss[i + 1] == Next(ss[i], es[i])
  }

  /** Every conversion issued is queued, taken, being read, or has been answered: as many
      times as it was issued, and no more. */
  ghost predicate EachAnsweredOnce(s: State) {
    multiset(s.issued) == Held(s) + multiset(Answered(s.answers))
  }

  ghost function Held(s: State): multiset<ConversionId> {
    multiset(ConversionsOf(s.queue.jobs)) + multiset(ConversionsOf(s.taken)) + multiset(Transferring(s.receiving))
  }

  predicate Bounded(s: State) {
    && |s.queue.jobs| <= MAX_JOBS
    && (!s.queue.running ==> s.queue.jobs == [])
    && |s.receiving| <= MAX_PENDING_RECEIVES
  }

  /** A value is delivered only after EOF: it is everything that was read, within the cap, and
      if that is nothing then the offer asked was still the current one. */
  predicate Honest(a: Answer) {
    a.value.Some? ==>
      && a.source.Some? && a.source.value.end == Eof
      && a.value.value == Concat(a.source.value.chunks)
      && |a.value.value| <= MAX_SELECTION_BYTES
      && (a.value.value == [] ==> a.source.value.current)
  }

  predicate Reading(r: Active) {
    r.transfer.buf == Concat(r.chunks) && |r.transfer.buf| <= MAX_SELECTION_BYTES
  }

  ghost predicate Sound(s: State) {
    && Bounded(s)
    && (forall i :: 0 <= i < |s.answers| ==> Honest(s.answers[i]))
    && (forall i :: 0 <= i < |s.receiving| ==> Reading(s.receiving[i]))
  }

  function ConversionOf(job: Job): seq<ConversionId> {
    if job.Receive? then [job.conversion] else []
  }

  lemma ConversionsSnoc(jobs: seq<Job>, job: Job)
    ensures ConversionsOf(jobs + [job]) == ConversionsOf(jobs) + ConversionOf(job)
  {
    assert (jobs + [job])[..|jobs|] == jobs;
  }

  lemma {:induction false} ConversionsSplit(jobs: seq<Job>, now: Millis)
    ensures multiset(ConversionsOf(jobs))
         == multiset(ConversionsOf(Waiting(jobs, now, true))) + multiset(ConversionsOf(Waiting(jobs, now, false)))
  {
    if jobs != [] {
      var init, job := jobs[..|jobs| - 1], jobs[|jobs| - 1];
      var stale := IsStale(job, now);
      assert jobs == init + [job];
      assert Waiting(jobs, now, stale) == Waiting(init, now, stale) + [job];
      assert Waiting(jobs, now, !stale) == Waiting(init, now, !stale);
      ConversionsSplit(init, now);
      ConversionsSnoc(init, job);
      ConversionsSnoc(Waiting(init, now, stale), job);
      hide ConversionsOf, Waiting, ConversionOf;
    }
  }

  lemma {:induction false} ConversionsConcat(a: seq<Job>, b: seq<Job>)
    ensures ConversionsOf(a + b) == ConversionsOf(a) + ConversionsOf(b)
  {
    if b == [] {
      assert a + b == a;
    } else {
      ConversionsConcat(a, b[..|b| - 1]);
      assert (a + b)[..|a + b| - 1] == a + b[..|b| - 1];
    }
  }

  lemma {:induction false} WaitingShorter(jobs: seq<Job>, now: Millis, stale: bool)
    ensures |Waiting(jobs, now, stale)| <= |jobs|
  {
    if jobs != [] {
      WaitingShorter(jobs[..|jobs| - 1], now, stale);
    }
  }

  /** Conversions move between holders, or are answered; none comes or goes otherwise. */
  lemma AnsweredAfter(s: State, r: State, added: seq<ConversionId>, answered: seq<ConversionId>)
    requires EachAnsweredOnce(s)
    requires r.issued == s.issued + added
    requires Answered(r.answers) == Answered(s.answers) + answered
    requires Held(r) + multiset(answered) == Held(s) + multiset(added)
    ensures EachAnsweredOnce(r)
  {
    hide Held, Answered;
    assert multiset(r.issued) == multiset(s.issued) + multiset(added);
    assert multiset(Answered(r.answers)) == multiset(Answered(s.answers)) + multiset(answered);
    Rebalance(Held(s), multiset(Answered(s.answers)), multiset(added), Held(r), multiset(answered));
  }

  lemma Rebalance<T>(held: multiset<T>, done: multiset<T>, added: multiset<T>, after: multiset<T>, out: multiset<T>)
    requires after + out == held + added
    ensures held + done + added == after + (done + out)
  {
    assert held + done + added == held + added + done;
  }

  lemma RefusedAnswers(s: State, dropped: seq<Job>)
    ensures Answered(Refuse(s, dropped).answers) == Answered(s.answers) + ConversionsOf(dropped)
  {
    var cs := ConversionsOf(dropped);
    assert Answered(Refusals(cs)) == cs;
    assert Answered(s.answers + Refusals(cs)) == Answered(s.answers) + cs;
  }

  lemma PostAnswers(s: State, job: Job, now: Millis)
    requires EachAnsweredOnce(s)
    ensures EachAnsweredOnce(Next(s, PostStep(job, now)))
  {
    hide ConversionsOf, Waiting, Transferring, Answered, EachAnsweredOnce, Refuse;
    var (q, _, dropped) := Post(s.queue, job, now);
    var kept, stale := Waiting(s.queue.jobs, now, false), Waiting(s.queue.jobs, now, true);
    ConversionsSplit(s.queue.jobs, now);
    ConversionsConcat(kept, [job]);
    ConversionsConcat(stale, [job]);
    var mid := s.(queue := q, issued := s.issued + ConversionsOf([job]));
    RefusedAnswers(mid, dropped);
    var r := Next(s, PostStep(job, now));
    assert r == Refuse(mid, dropped);
    RefuseOnlyAnswers(mid, dropped);
    AnsweredAfter(s, r, ConversionsOf([job]), ConversionsOf(dropped));
  }

  lemma RefuseOnlyAnswers(s: State, dropped: seq<Job>)
    ensures var r := Refuse(s, dropped); r == s.(answers := r.answers)
  {
  }

  lemma SweepAnswers(s: State, now: Millis)
    requires EachAnsweredOnce(s)
    ensures EachAnsweredOnce(Next(s, SweepStep(now)))
  {
    hide ConversionsOf, Waiting, Transferring, Answered, EachAnsweredOnce, Refusals;
    var stale := Waiting(s.queue.jobs, now, true);
    ConversionsSplit(s.queue.jobs, now);
    RefusedAnswers(s.(queue := s.queue.(jobs := Waiting(s.queue.jobs, now, false))), stale);
    AnsweredAfter(s, Next(s, SweepStep(now)), [], ConversionsOf(stale));
  }

  lemma HeadTaken(taken: seq<Job>)
    requires taken != []
    ensures multiset(ConversionsOf(taken)) == multiset(ConversionOf(taken[0])) + multiset(ConversionsOf(taken[1..]))
    ensures ConversionsOf([taken[0]]) == ConversionOf(taken[0])
  {
    assert taken == [taken[0]] + taken[1..];
    ConversionsConcat([taken[0]], taken[1..]);
    assert [] + [taken[0]] == [taken[0]];
    ConversionsSnoc([], taken[0]);
  }

  lemma RunAnswers(s: State, offer: Option<OfferId>, piped: bool, now: Millis)
    requires s.taken != [] && EachAnsweredOnce(s)
    ensures EachAnsweredOnce(RunJob(s, offer, piped, now))
  {
    hide Answered, EachAnsweredOnce, Refusals, ConversionsOf;
    var job, rest := s.taken[0], s.(taken := s.taken[1..]);
    var r := RunJob(s, offer, piped, now);
    HeadTaken(s.taken);
    RefusedAnswers(rest, [job]);
    var started := r.receiving != s.receiving;
    if started {
      assert Transferring(r.receiving) == Transferring(s.receiving) + [job.conversion];
    }
    hide Transferring;
    AnsweredAfter(s, r, [], if started then [] else ConversionOf(job));
  }

  lemma PumpOnAnswers(s: State, r: State, at: nat, a: Active)
    requires at < |s.receiving| && EachAnsweredOnce(s) && a.transfer.conversion == s.receiving[at].transfer.conversion
    requires r == s.(receiving := s.receiving[at := a])
    ensures EachAnsweredOnce(r)
  {
    hide EachAnsweredOnce, ConversionsOf, Answered;
    assert Transferring(r.receiving) == Transferring(s.receiving);
    hide Transferring;
    AnsweredAfter(s, r, [], []);
  }

  lemma PumpOffAnswers(s: State, r: State, at: nat, a: Answer)
    requires at < |s.receiving| && EachAnsweredOnce(s) && a.conversion == s.receiving[at].transfer.conversion
    requires r == s.(receiving := RemoveAt(s.receiving, at), answers := s.answers + [a])
    ensures EachAnsweredOnce(r)
  {
    hide EachAnsweredOnce, ConversionsOf;
    var all := Transferring(s.receiving);
    assert Transferring(r.receiving) == RemoveAt(all, at);
    assert all == all[..at] + [a.conversion] + all[at + 1..];
    assert Answered(r.answers) == Answered(s.answers) + [a.conversion];
    hide Transferring, Answered;
    AnsweredAfter(s, r, [], [a.conversion]);
  }

  lemma PumpAnswers(s: State, at: nat, input: seq<Read>, now: Millis, current: bool)
    requires at < |s.receiving| && EachAnsweredOnce(s) && Sound(s)
    ensures EachAnsweredOnce(PumpAt(s, at, input, now, current))
  {
    var t := s.receiving[at].transfer;
    assert Reading(s.receiving[at]);
    PumpCollects(t, input, now);
    hide Pump, Concat, Received, EachAnsweredOnce, RemoveAt;
    var (u, end) := Pump(t, input, now);
    var r := PumpAt(s, at, input, now, current);
    if end.None? {
      PumpOnAnswers(s, r, at, r.receiving[at]);
    } else {
      PumpOffAnswers(s, r, at, r.answers[|s.answers|]);
    }
  }

  lemma RefusalsAnswer(cs: seq<ConversionId>, before: seq<Answer>)
    ensures Answered(before + Refusals(cs)) == Answered(before) + cs
  {
  }

  lemma HeldIs(s: State)
    ensures Held(s) == multiset(ConversionsOf(s.queue.jobs) + ConversionsOf(s.taken) + Transferring(s.receiving))
  {
    hide ConversionsOf, Transferring;
  }

  lemma ExitIs(s: State)
    ensures var all := ConversionsOf(s.queue.jobs) + ConversionsOf(s.taken) + Transferring(s.receiving);
            var r := Next(s, ExitStep);
            && Answered(r.answers) == Answered(s.answers) + all
            && r.issued == s.issued && Held(r) == multiset{}
  {
    var cut := s.(queue := Queue([], false), taken := [], receiving := []);
    var cs := Transferring(s.receiving);
    var mid := Refuse(cut, s.queue.jobs + s.taken);
    assert Held(cut) == multiset{} && Held(Next(s, ExitStep)) == Held(cut);
    assert Next(s, ExitStep).answers == mid.answers + Refusals(cs);
    hide ConversionsOf, Transferring, Answered, Refusals, Held, Next, Refuse;
    ConversionsConcat(s.queue.jobs, s.taken);
    RefusedAnswers(cut, s.queue.jobs + s.taken);
    RefusalsAnswer(cs, mid.answers);
    ThreeParts(Answered(s.answers), ConversionsOf(s.queue.jobs) + ConversionsOf(s.taken), cs);
  }

  lemma ThreeParts(a: seq<ConversionId>, b: seq<ConversionId>, c: seq<ConversionId>)
    ensures a + b + c == a + (b + c)
  {
  }

  lemma ExitAnswers(s: State)
    requires EachAnsweredOnce(s)
    ensures EachAnsweredOnce(Next(s, ExitStep))
  {
    ExitIs(s);
    HeldIs(s);
    var all := ConversionsOf(s.queue.jobs) + ConversionsOf(s.taken) + Transferring(s.receiving);
    hide ConversionsOf, Transferring, Answered, EachAnsweredOnce, Held, Next;
    assert s.issued + [] == s.issued;
    AnsweredAfter(s, Next(s, ExitStep), [], all);
  }

  lemma PumpSound(s: State, at: nat, input: seq<Read>, now: Millis, current: bool)
    requires at < |s.receiving| && Sound(s)
    ensures Sound(PumpAt(s, at, input, now, current))
  {
    assert Reading(s.receiving[at]);
    PumpCollects(s.receiving[at].transfer, input, now);
    ConcatSnoc(s.receiving[at].chunks, Received(input));
    hide Pump, Concat, Received;
  }

  lemma StepAnswers(s: State, e: Step)
    requires EachAnsweredOnce(s) && Sound(s) && Possible(s, e)
    ensures EachAnsweredOnce(Next(s, e))
  {
    hide ConversionsOf, Waiting, Transferring, Answered, Refuse, Post, Pump;
    match e
    case PostStep(job, now) => PostAnswers(s, job, now);
    case SweepStep(now) => SweepAnswers(s, now);
    case RunStep(offer, piped, now) => RunAnswers(s, offer, piped, now);
    case PumpStep(at, input, now, current) => PumpAnswers(s, at, input, now, current);
    case ExitStep => ExitAnswers(s);
    case TakeStep =>
    case StartStep =>
  }

  lemma StepSound(s: State, e: Step)
    requires Sound(s) && Possible(s, e)
    ensures Sound(Next(s, e))
  {
    hide ConversionsOf, Waiting, Concat, Pump;
    match e
    case PostStep(job, now) => WaitingShorter(s.queue.jobs, now, false);
    case SweepStep(now) => WaitingShorter(s.queue.jobs, now, false);
    case PumpStep(at, input, now, current) => PumpSound(s, at, input, now, current);
    case RunStep(offer, piped, now) => assert Concat([]) == [] by { EmptyConcat(); }
    case ExitStep =>
    case TakeStep =>
    case StartStep =>
  }

  lemma EmptyConcat()
    ensures Concat([]) == []
  {
  }

  lemma FreshIsSound()
    ensures EachAnsweredOnce(FRESH) && Sound(FRESH)
  {
  }

  /** In every state of every run: each conversion is answered exactly once or still on its
      way, the queue is bounded and empty while nobody drains it, and values are whole. */
  lemma {:induction false} RunsAnswerOnce(ss: seq<State>, es: seq<Step>)
    requires Run(ss, es)
    ensures forall i :: 0 <= i < |ss| ==> EachAnsweredOnce(ss[i]) && Sound(ss[i])
  {
    hide EachAnsweredOnce, Sound, Next, Possible;
    if es == [] {
      FreshIsSound();
    } else {
      RunsAnswerOnce(ss[..|ss| - 1], es[..|es| - 1]);
      var last := ss[|es| - 1];
      assert last == ss[..|ss| - 1][|es| - 1];
      StepAnswers(last, es[|es| - 1]);
      StepSound(last, es[|es| - 1]);
    }
  }

  /** `a` is what is left of `b` after leaving some of it out. */
  ghost predicate Within<T(!new)>(a: seq<T>, b: seq<T>) {
    a == [] || (b != [] &&
      (Within(a, b[..|b| - 1]) || (a[|a| - 1] == b[|b| - 1] && Within(a[..|a| - 1], b[..|b| - 1]))))
  }

  /** A sweep drops only conversions that are out of time, and the rest keep their order. */
  lemma {:induction false} SweepingKeepsOrder(jobs: seq<Job>, now: Millis)
    ensures Within(Waiting(jobs, now, false), jobs)
    ensures forall i :: 0 <= i < |Waiting(jobs, now, true)| ==> IsStale(Waiting(jobs, now, true)[i], now)
    ensures forall j :: j in jobs && !IsStale(j, now) ==> j in Waiting(jobs, now, false)
  {
    if jobs != [] {
      SweepingKeepsOrder(jobs[..|jobs| - 1], now);
      assert jobs == jobs[..|jobs| - 1] + [jobs[|jobs| - 1]];
    }
  }
}
