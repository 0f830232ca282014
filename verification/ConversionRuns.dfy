/** Conversions end to end: what an X client asks of a Wayland app, from the moment its mimes were read to the answer. */
module ConversionRuns {
  import opened BridgeTypes
  import opened ClipboardState
  import BridgeWorld
  import BridgeRuns
  import OfferGenerations
  import ClipJobs

  /** What a conversion was prepared from: its selection as it was then. */
  datatype Prepared = Prepared(k: Sel, seen: SelState)

  /** The bridge's world and its conversions, which share the job queue; `age` counts the steps. */
  datatype Joint = Joint(world: BridgeWorld.World, conv: ClipJobs.State, prepared: map<ConversionId, Prepared>, age: nat)

  datatype Step =
    | WorldMoves(e: BridgeWorld.Step)
    | Prepares(id: ConversionId, k: Sel)
    | Asks(id: ConversionId, mime: string, now: Millis)
    | Serves(piped: bool, now: Millis)
    | Reads(at: nat, input: seq<ClipJobs.Read>, now: Millis)

  /** The job a prepared conversion is asked for by: it carries the generation its mimes were read at. */
  function JobFor(id: ConversionId, p: Prepared, mime: string, now: Millis): ClipJobs.Job {
    ClipJobs.Receive(p.k, mime, Convertible(p.seen).1, now, id)
  }

  /** Whether `offer` is still the one announced. */
  predicate IsCurrent(s: SelState, offer: OfferId) {
    s.owner.Wayland? && s.owner.offer == offer
  }

  ghost predicate Can(j: Joint, d: Step) {
    match d
    case WorldMoves(e) =>
      && BridgeWorld.Possible(j.world, e)
      && (e.PostOther? ==> !e.job.Receive?) && (e.RunJob? ==> !j.world.taken[0].Receive?)
    case Prepares(id, _) => id !in j.prepared
    case Asks(id, _, _) => id in j.prepared
    case Serves(_, _) => j.world.taken != [] && j.world.taken[0].Receive?
    case Reads(at, _, _) => at < |j.conv.receiving|
  }

  /** What a step of the world is to the conversions. */
  ghost function JobStep(w: BridgeWorld.World, e: BridgeWorld.Step): Option<ClipJobs.Step>
    requires BridgeWorld.Possible(w, e)
  {
    match e
    case PostOther(job, now) => Some(ClipJobs.PostStep(job, now))
    case SweepJobs(now) => Some(ClipJobs.SweepStep(now))
    case TakeJobs => Some(ClipJobs.TakeStep)
    case RunJob => Some(ClipJobs.RunStep(None, false, 0))
    case _ => PostBetween(w.queue, BridgeWorld.Act(w, e).queue)
  }

  /** The publication a transition posted, if it did. */
  ghost function PostBetween(before: ClipJobs.Queue, after: ClipJobs.Queue): Option<ClipJobs.Step> {
    if after != before && exists job, now :: Posted(before, after, job, now) then
      var job, now :| Posted(before, after, job, now);
      Some(ClipJobs.PostStep(job, now))
    else None
  }

  /** The queue took, or was offered, a publication. */
  predicate Posted(before: ClipJobs.Queue, after: ClipJobs.Queue, job: ClipJobs.Job, now: Millis) {
    job.Publish? && ClipJobs.Post(before, job, now).0 == after
  }

  ghost function ConvNext(s: ClipJobs.State, e: Option<ClipJobs.Step>): ClipJobs.State {
    if e.Some? && ClipJobs.Possible(s, e.value) then ClipJobs.Next(s, e.value) else s
  }

  ghost function After(j: Joint, d: Step): Joint
    requires Can(j, d)
  {
    var older := j.(age := j.age + 1);
    match d
    case WorldMoves(e) => older.(world := BridgeWorld.Next(j.world, e), conv := ConvNext(j.conv, JobStep(j.world, e)))
    case Prepares(id, k) => older.(prepared := j.prepared[id := Prepared(k, j.world.board.sels.Get(k))])
    case Asks(id, mime, now) =>
      var job := JobFor(id, j.prepared[id], mime, now);
      older.(world := BridgeWorld.Next(j.world, BridgeWorld.PostOther(job, now)),
             conv := ConvNext(j.conv, Some(ClipJobs.PostStep(job, now))))
    case Serves(piped, now) =>
      var job := j.world.taken[0];
      older.(world := BridgeWorld.Next(j.world, BridgeWorld.RunJob),
             conv := ConvNext(j.conv, Some(ClipJobs.RunStep(OfferAt(j.world.board.sels.Get(job.k), job.generation), piped, now))))
    case Reads(at, input, now) =>
      var t := j.conv.receiving[at].transfer;
      older.(conv := ConvNext(j.conv, Some(ClipJobs.PumpStep(at, input, now, IsCurrent(j.world.board.sels.Get(t.k), t.offer)))))
  }

  function Begin(publishable: Two<bool>): Joint {
    var w := BridgeRuns.Start(publishable, true);
    Joint(w, ClipJobs.FRESH.(queue := ClipJobs.Queue([], true)), map[], 0)
  }

  ghost predicate Run(js: seq<Joint>, ds: seq<Step>) {
    && |js| == |ds| + 1
    && (exists p: Two<bool> :: js[0] == Begin(p))
    && forall i :: 0 <= i < |ds| ==> Can(js[i], ds[i]) && js[i + 1] == After(js[i], ds[i])
  }

  // --- the queue is one ---

  ghost predicate PostsOrNot(before: ClipJobs.Queue, after: ClipJobs.Queue) {
    after == before || exists job, now :: Posted(before, after, job, now)
  }

  lemma PublishPosts(b: Board, q: ClipJobs.Queue, k: Sel, data: Option<Bytes>, now: Millis)
    ensures PostsOrNot(q, ClipboardState.Publish(b, q, k, data, now).1)
    ensures PostsOrNot(q, Withdraw(b, q, k, now).1)
  {
    hide ClipJobs.Post;
    var after := ClipboardState.Publish(b, q, k, data, now).1;
    if after != q {
      assert Posted(q, after, ClipJobs.Publish(k, data), now);
    }
    var withdrawn := Withdraw(b, q, k, now).1;
    if withdrawn != q {
      assert Posted(q, withdrawn, ClipJobs.Publish(k, None), now);
    }
  }

  lemma ReleasePosts(b: Board, q: ClipJobs.Queue, raw: u32, k: Sel, time: u32, now: Millis)
    ensures PostsOrNot(q, XReleased(b, q, raw, k, time, now).queue)
  {
    hide PostsOrNot, Withdraw, ServerClock.ServerTime, ServerClock.TimeCmp;
    var s := b.sels.Get(k);
    PublishPosts(ChangedAt(if s.owner.X? then b.With(k, Enter(s, Nobody)) else b, k, time), q, k, None, now);
    NothingPosted(q);
  }

  lemma NothingPosted(q: ClipJobs.Queue)
    ensures PostsOrNot(q, q)
  {
  }

  lemma ResolvePosts(w: BridgeWorld.World, r: BridgeWorld.FetchTable.Resolution, raw: u32, now: Millis)
    ensures PostsOrNot(w.queue, BridgeWorld.ResolveResult(w, r, raw, now).queue)
  {
    hide PostsOrNot, Withdraw, ClipboardState.Publish, ServerClock.ServerTime;
    var k := r.fetch.kind;
    var s := w.board.sels.Get(k);
    NothingPosted(w.queue);
    PublishPosts(w.board, w.queue, k, None, now);
    if s.owner.X? {
      PublishPosts(w.board.With(k, s.(owner := X(s.owner.x.(data := r.data)))), w.queue, k, r.data, now);
    }
  }

  lemma GonePosts(w: BridgeWorld.World, c: ClientId, k: Sel, window: Option<u32>, subtype: Subtype, raw: u32, now: Millis)
    ensures PostsOrNot(w.queue, BridgeWorld.GoneStep(w, c, k, window, subtype, raw, now).queue)
    ensures BridgeWorld.GoneStep(w, c, k, window, subtype, raw, now).taken == w.taken
  {
    hide PostsOrNot, Withdraw, ServerClock.ServerTime;
    NothingPosted(w.queue);
    PublishPosts(w.board.With(k, Enter(w.board.sels.Get(k), Nobody)), w.queue, k, None, now);
  }

  predicate Jobbing(e: BridgeWorld.Step) {
    e.PostOther? || e.SweepJobs? || e.TakeJobs? || e.RunJob?
  }

  /** A step that is none of the queue's own posts at most one publication. */
  lemma StepsPost(w: BridgeWorld.World, e: BridgeWorld.Step)
    requires BridgeWorld.Possible(w, e) && !Jobbing(e)
    ensures PostsOrNot(w.queue, BridgeWorld.Act(w, e).queue) && BridgeWorld.Act(w, e).taken == w.taken
  {
    hide PostsOrNot, XTook, XReleased, BridgeWorld.ResolveResult, BridgeWorld.GoneStep, Announced, BridgeWorld.Live,
         BridgeWorld.FetchTable.Begin, BridgeWorld.FetchTable.Answer, BridgeWorld.FetchTable.Push,
         BridgeWorld.FetchTable.Unexpired, BridgeWorld.FetchTable.Expired;
    NothingPosted(w.queue);
    match e
    case Release(_, k, time, raw, now) => ReleasePosts(w.board, w.queue, raw, k, time, now);
    case Resolve(c, raw, now) => ResolvePosts(w, w.conns[c].busy.rs[0], raw, now);
    case WindowGone(c, k, window, raw, now) => GonePosts(w, c, k, Some(window), WindowDestroy, raw, now);
    case CloseNext(c, raw, now) => GonePosts(w, c, w.conns[c].busy.left[0], None, ClientClose, raw, now);
    case _ =>
  }

  ghost predicate Shared(j: Joint) {
    j.conv.queue == j.world.queue && j.conv.taken == j.world.taken && j.world.queue.running
  }

  lemma WorldMovesShare(j: Joint, e: BridgeWorld.Step)
    requires Can(j, WorldMoves(e)) && Shared(j)
    ensures Shared(After(j, WorldMoves(e)))
    ensures JobStep(j.world, e).Some? ==> ClipJobs.Possible(j.conv, JobStep(j.world, e).value)
  {
    BridgeRuns.NextIs(j.world, e);
    hide BridgeWorld.MetBy, BridgeWorld.Next, ClipJobs.Waiting;
    if Jobbing(e) {
      JobsShare(j, e);
    } else {
      StepsPost(j.world, e);
      hide BridgeWorld.Act, BridgeWorld.Possible;
      RunningStays(j.world.queue, BridgeWorld.Act(j.world, e).queue);
      hide ClipJobs.Post;
    }
  }

  lemma RunningStays(before: ClipJobs.Queue, after: ClipJobs.Queue)
    requires PostsOrNot(before, after)
    ensures after.running == before.running
  {
    hide ClipJobs.Waiting;
  }

  lemma JobsShare(j: Joint, e: BridgeWorld.Step)
    requires Can(j, WorldMoves(e)) && Shared(j) && Jobbing(e)
    ensures var w, s := BridgeWorld.Act(j.world, e), ConvNext(j.conv, JobStep(j.world, e));
            s.queue == w.queue && s.taken == w.taken && w.queue.running
    ensures JobStep(j.world, e).Some? && ClipJobs.Possible(j.conv, JobStep(j.world, e).value)
  {
    hide ClipJobs.Waiting, ClipJobs.ConversionsOf, ClipJobs.Refusals;
    match e
    case RunJob => assert !j.conv.taken[0].Receive?;
    case _ =>
  }

  // --- what every run keeps ---

  /** A job in the queue asks for what its conversion was prepared from. */
  predicate AskedFor(prepared: map<ConversionId, Prepared>, job: ClipJobs.Job) {
    job.Receive? ==>
      && job.conversion in prepared && job.k == prepared[job.conversion].k
      && job.generation == prepared[job.conversion].seen.generation
  }

  /** A transfer reads the offer that its conversion was prepared from. */
  predicate FromItsOffer(prepared: map<ConversionId, Prepared>, id: ConversionId, offer: OfferId) {
    && id in prepared && prepared[id].seen.owner.Wayland? && prepared[id].seen.owner.offer == offer
  }

  ghost predicate JobsAsked(j: Joint) {
    && (forall job :: job in j.conv.queue.jobs ==> AskedFor(j.prepared, job))
    && (forall job :: job in j.conv.taken ==> AskedFor(j.prepared, job))
  }

  ghost predicate TransfersTrue(j: Joint) {
    forall i :: 0 <= i < |j.conv.receiving| ==>
      FromItsOffer(j.prepared, j.conv.receiving[i].transfer.conversion, j.conv.receiving[i].transfer.offer)
  }

  ghost predicate AnswersTrue(j: Joint) {
    forall i :: 0 <= i < |j.conv.answers| && j.conv.answers[i].source.Some? ==>
      FromItsOffer(j.prepared, j.conv.answers[i].conversion, j.conv.answers[i].source.value.offer)
  }

  /** Each selection has had no more changes of owner since it was read than there have been steps. */
  ghost predicate SeenBefore(j: Joint) {
    forall id :: id in j.prepared ==> Since(j.prepared[id].seen, j.world.board.sels.Get(j.prepared[id].k), j.age)
  }

  ghost predicate Since(seen: SelState, now: SelState, age: nat) {
    exists n: nat :: n <= age && OfferGenerations.Counted(seen, now, n)
  }

  ghost predicate Holds(j: Joint) {
    && Shared(j) && ClipJobs.EachAnsweredOnce(j.conv) && ClipJobs.Sound(j.conv)
    && JobsAsked(j) && TransfersTrue(j) && AnswersTrue(j) && SeenBefore(j)
  }

  // --- the jobs ---

  lemma {:induction false} WaitingAreJobs(jobs: seq<ClipJobs.Job>, now: Millis, stale: bool)
    ensures forall job :: job in ClipJobs.Waiting(jobs, now, stale) ==> job in jobs
  {
    if jobs != [] {
      WaitingAreJobs(jobs[..|jobs| - 1], now, stale);
      assert jobs == jobs[..|jobs| - 1] + [jobs[|jobs| - 1]];
    }
  }

  lemma PostedAreAsked(q: ClipJobs.Queue, job: ClipJobs.Job, now: Millis)
    ensures forall k :: k in ClipJobs.Post(q, job, now).0.jobs ==> k in q.jobs || k == job
  {
    WaitingAreJobs(q.jobs, now, false);
  }

  /** A step of the queue's that asks for nothing not prepared keeps what is asked for, and what is being read. */
  lemma JobStepKeeps(j: Joint, e: ClipJobs.Step, r: ClipJobs.State)
    requires JobsAsked(j) && TransfersTrue(j) && AnswersTrue(j) && ClipJobs.Possible(j.conv, e) && r == ClipJobs.Next(j.conv, e)
    requires match e
             case PostStep(job, _) => AskedFor(j.prepared, job)
             case SweepStep(_) => true
             case TakeStep => true
             case RunStep(offer, _, _) => !j.conv.taken[0].Receive?
             case _ => false
    ensures var k := j.(conv := r); JobsAsked(k) && TransfersTrue(k) && AnswersTrue(k)
  {
    hide ClipJobs.Waiting, ClipJobs.ConversionsOf, AskedFor, FromItsOffer;
    match e
    case PostStep(job, now) => PostedAreAsked(j.conv.queue, job, now); hide ClipJobs.Post;
    case SweepStep(now) => WaitingAreJobs(j.conv.queue.jobs, now, false);
    case TakeStep =>
    case RunStep(_, _, _) =>
  }

  /** The offer found at a generation is the one its selection had when the generation was read. */
  lemma OfferIsTheOneSeen(seen: SelState, now: SelState, age: nat)
    requires Since(seen, now, age) && age < TWO_TO_64 && OfferAt(now, seen.generation).Some?
    ensures seen.owner.Wayland? && seen.owner == now.owner
  {
    var n: nat :| n <= age && OfferGenerations.Counted(seen, now, n);
    assert n == 0;
  }

  lemma ServingKeeps(j: Joint, piped: bool, now: Millis)
    requires Holds(j) && Can(j, Serves(piped, now)) && j.age < TWO_TO_64
    ensures var job := j.world.taken[0];
            var k := j.(conv := ConvNext(j.conv, Some(ClipJobs.RunStep(OfferAt(j.world.board.sels.Get(job.k), job.generation), piped, now))));
            JobsAsked(k) && TransfersTrue(k) && AnswersTrue(k)
  {
    hide ClipJobs.EachAnsweredOnce, ClipJobs.Sound, SeenBefore, Since, OfferAt;
    var job := j.world.taken[0];
    assert AskedFor(j.prepared, job);
    var cur := j.world.board.sels.Get(job.k);
    var offer := OfferAt(cur, job.generation);
    if offer.Some? {
      assert SeenBefore(j);
      SeenAt(j, job.conversion);
      OfferIsTheOneSeen(j.prepared[job.conversion].seen, cur, j.age);
      assert FromItsOffer(j.prepared, job.conversion, offer.value) by { OfferFound(cur, job.generation); }
    }
    hide AskedFor, FromItsOffer, ClipJobs.ConversionsOf;
  }

  lemma SeenAt(j: Joint, id: ConversionId)
    requires SeenBefore(j) && id in j.prepared
    ensures Since(j.prepared[id].seen, j.world.board.sels.Get(j.prepared[id].k), j.age)
  {
  }

  lemma OfferFound(s: SelState, generation: u64)
    requires OfferAt(s, generation).Some?
    ensures s.owner.Wayland? && s.owner.offer == OfferAt(s, generation).value
  {
  }

  lemma {:induction false} PumpKeepsOffer(t: ClipJobs.Transfer, input: seq<ClipJobs.Read>, now: Millis)
    ensures var r := ClipJobs.Pump(t, input, now).0; r.conversion == t.conversion && r.offer == t.offer
    decreases |input|
  {
    if input != [] && input[0].Interrupted? {
      PumpKeepsOffer(t, input[1..], now);
    } else if input != [] && input[0].Data? {
      PumpKeepsOffer(t.(buf := t.buf + input[0].chunk, progressAt := now), input[1..], now);
    }
  }

  lemma ReadingKeeps(j: Joint, at: nat, input: seq<ClipJobs.Read>, now: Millis, current: bool)
    requires JobsAsked(j) && TransfersTrue(j) && AnswersTrue(j) && at < |j.conv.receiving|
    ensures var k := j.(conv := ClipJobs.PumpAt(j.conv, at, input, now, current));
            JobsAsked(k) && TransfersTrue(k) && AnswersTrue(k)
  {
    var a := j.conv.receiving[at];
    PumpKeepsOffer(a.transfer, input, now);
    assert FromItsOffer(j.prepared, a.transfer.conversion, a.transfer.offer);
    hide FromItsOffer, ClipJobs.Pump, ClipJobs.Outcome, ClipJobs.Received, AskedFor;
  }

  lemma WorldMovesSince(j: Joint, e: BridgeWorld.Step)
    requires SeenBefore(j) && BridgeWorld.Possible(j.world, e)
    ensures SeenBefore(j.(world := BridgeWorld.Next(j.world, e), age := j.age + 1))
  {
    forall id | id in j.prepared
      ensures Since(j.prepared[id].seen, BridgeWorld.Next(j.world, e).board.sels.Get(j.prepared[id].k), j.age + 1)
    {
      var p := j.prepared[id];
      OfferGenerations.StepFollows(j.world, e, p.k);
      hide BridgeWorld.Next, BridgeWorld.Possible, OfferGenerations.Counted, OfferGenerations.Follows;
      var n: nat :| n <= j.age && OfferGenerations.Counted(p.seen, j.world.board.sels.Get(p.k), n);
      var m := OfferGenerations.CountOne(p.seen, j.world.board.sels.Get(p.k), BridgeWorld.Next(j.world, e).board.sels.Get(p.k), n);
    }
  }

  lemma OlderSince(j: Joint)
    requires SeenBefore(j)
    ensures SeenBefore(j.(age := j.age + 1))
  {
    forall id | id in j.prepared ensures Since(j.prepared[id].seen, j.world.board.sels.Get(j.prepared[id].k), j.age + 1) {
      SeenAt(j, id);
    }
  }

  lemma JobStepKeepsConversions(j: Joint, e: BridgeWorld.Step)
    requires Holds(j) && Can(j, WorldMoves(e))
    requires JobStep(j.world, e).Some? ==> ClipJobs.Possible(j.conv, JobStep(j.world, e).value)
    ensures var conv := ConvNext(j.conv, JobStep(j.world, e));
            && ClipJobs.EachAnsweredOnce(conv) && ClipJobs.Sound(conv)
            && JobsAsked(j.(conv := conv)) && TransfersTrue(j.(conv := conv)) && AnswersTrue(j.(conv := conv))
  {
    hide ClipJobs.EachAnsweredOnce, ClipJobs.Sound, SeenBefore, JobsAsked, TransfersTrue, AnswersTrue;
    var s := JobStep(j.world, e);
    if s.Some? {
      JobStepAsks(j, e);
      hide JobStep, ClipJobs.Next, ClipJobs.Possible;
      ClipJobs.StepAnswers(j.conv, s.value);
      ClipJobs.StepSound(j.conv, s.value);
      JobStepKeeps(j, s.value, ClipJobs.Next(j.conv, s.value));
    } else {
      assert j.(conv := j.conv) == j;
    }
  }

  lemma WorldMovesKeep(j: Joint, e: BridgeWorld.Step)
    requires Holds(j) && Can(j, WorldMoves(e))
    ensures Holds(After(j, WorldMoves(e)))
  {
    hide ClipJobs.EachAnsweredOnce, ClipJobs.Sound, SeenBefore, JobsAsked, TransfersTrue, AnswersTrue;
    hide JobStep, ConvNext, ClipJobs.Possible, BridgeWorld.Next, BridgeWorld.Possible, Shared;
    WorldMovesShare(j, e);
    WorldMovesSince(j, e);
    JobStepKeepsConversions(j, e);
    var r := After(j, WorldMoves(e));
    FramesKeep(j.(conv := r.conv), r);
    SeenFrames(j.(world := r.world, age := r.age), r);
  }

  lemma SeenFrames(a: Joint, b: Joint)
    requires SeenBefore(a) && a.world == b.world && a.prepared == b.prepared && a.age == b.age
    ensures SeenBefore(b)
  {
  }

  lemma FramesKeep(a: Joint, b: Joint)
    requires a.conv == b.conv && a.prepared == b.prepared
    ensures JobsAsked(a) ==> JobsAsked(b)
    ensures TransfersTrue(a) ==> TransfersTrue(b)
    ensures AnswersTrue(a) ==> AnswersTrue(b)
  {
  }

  lemma JobStepAsks(j: Joint, e: BridgeWorld.Step)
    requires Can(j, WorldMoves(e)) && JobStep(j.world, e).Some? && Shared(j)
    ensures match JobStep(j.world, e).value
            case PostStep(job, _) => AskedFor(j.prepared, job)
            case SweepStep(_) => true
            case TakeStep => true
            case RunStep(offer, _, _) => j.conv.taken != [] && !j.conv.taken[0].Receive?
            case _ => false
  {
    hide ClipJobs.Post, BridgeWorld.Act;
  }

  lemma PreparingKeeps(j: Joint, id: ConversionId, k: Sel)
    requires Holds(j) && id !in j.prepared
    ensures Holds(After(j, Prepares(id, k)))
  {
    hide ClipJobs.EachAnsweredOnce, ClipJobs.Sound, OfferGenerations.Counted;
    var r := After(j, Prepares(id, k));
    OfferGenerations.SelfCounted(j.world.board.sels.Get(k));
    forall i | i in r.prepared ensures Since(r.prepared[i].seen, r.world.board.sels.Get(r.prepared[i].k), r.age) {
      if i != id {
        SeenAt(j, i);
      }
    }
  }

  lemma AskingKeeps(j: Joint, id: ConversionId, mime: string, now: Millis)
    requires Holds(j) && id in j.prepared
    ensures Holds(After(j, Asks(id, mime, now)))
  {
    var job := JobFor(id, j.prepared[id], mime, now);
    var e := BridgeWorld.PostOther(job, now);
    var s := ClipJobs.PostStep(job, now);
    AskShares(j, job, now);
    assert AskedFor(j.prepared, job);
    assert BridgeWorld.Possible(j.world, e);
    hide ClipJobs.EachAnsweredOnce, ClipJobs.Sound, SeenBefore, JobsAsked, TransfersTrue, AnswersTrue, AskedFor, JobFor;
    WorldMovesSince(j, e);
    ClipJobs.StepAnswers(j.conv, s);
    ClipJobs.StepSound(j.conv, s);
    JobStepKeeps(j, s, ClipJobs.Next(j.conv, s));
    hide ClipJobs.Next, BridgeWorld.Next, BridgeWorld.Possible, Shared;
    var r := After(j, Asks(id, mime, now));
    FramesKeep(j.(conv := r.conv), r);
    SeenFrames(j.(world := r.world, age := r.age), r);
  }

  lemma AskShares(j: Joint, job: ClipJobs.Job, now: Millis)
    requires Shared(j) && !job.Publish?
    ensures var w, s := BridgeWorld.Next(j.world, BridgeWorld.PostOther(job, now)), ClipJobs.Next(j.conv, ClipJobs.PostStep(job, now));
            s.queue == w.queue && s.taken == w.taken && w.queue.running
  {
    BridgeRuns.NextIs(j.world, BridgeWorld.PostOther(job, now));
    hide BridgeWorld.Next, BridgeWorld.MetBy, ClipJobs.Waiting, ClipJobs.ConversionsOf, ClipJobs.Refusals;
  }

  lemma ServingHolds(j: Joint, piped: bool, now: Millis)
    requires Holds(j) && Can(j, Serves(piped, now)) && j.age < TWO_TO_64
    ensures Holds(After(j, Serves(piped, now)))
  {
    ServingKeeps(j, piped, now);
    var job := j.world.taken[0];
    var s := ClipJobs.RunStep(OfferAt(j.world.board.sels.Get(job.k), job.generation), piped, now);
    ServeShares(j, s.offer, piped, now);
    assert BridgeWorld.Possible(j.world, BridgeWorld.RunJob);
    hide ClipJobs.EachAnsweredOnce, ClipJobs.Sound, SeenBefore, JobsAsked, TransfersTrue, AnswersTrue;
    WorldMovesSince(j, BridgeWorld.RunJob);
    ClipJobs.StepAnswers(j.conv, s);
    ClipJobs.StepSound(j.conv, s);
    hide ClipJobs.Next, BridgeWorld.Next, BridgeWorld.Possible, Shared, OfferAt;
    var r := After(j, Serves(piped, now));
    FramesKeep(j.(conv := r.conv), r);
    SeenFrames(j.(world := r.world, age := r.age), r);
  }

  lemma ServeShares(j: Joint, offer: Option<OfferId>, piped: bool, now: Millis)
    requires Shared(j) && j.world.taken != [] && j.world.taken[0].Receive?
    ensures var w, s := BridgeWorld.Next(j.world, BridgeWorld.RunJob), ClipJobs.Next(j.conv, ClipJobs.RunStep(offer, piped, now));
            s.queue == w.queue && s.taken == w.taken && w.queue.running
  {
    BridgeRuns.NextIs(j.world, BridgeWorld.RunJob);
    hide BridgeWorld.Next, BridgeWorld.MetBy, ClipJobs.ConversionsOf, ClipJobs.Refusals;
  }

  lemma AfterReads(j: Joint, at: nat, input: seq<ClipJobs.Read>, now: Millis)
    requires at < |j.conv.receiving|
    ensures var t := j.conv.receiving[at].transfer;
            var current := IsCurrent(j.world.board.sels.Get(t.k), t.offer);
            After(j, Reads(at, input, now)) == j.(conv := ClipJobs.PumpAt(j.conv, at, input, now, current), age := j.age + 1)
  {
    hide ClipJobs.PumpAt, IsCurrent;
  }

  lemma PumpStepIs(s: ClipJobs.State, at: nat, input: seq<ClipJobs.Read>, now: Millis, current: bool)
    requires at < |s.receiving| && ClipJobs.EachAnsweredOnce(s) && ClipJobs.Sound(s)
    ensures var r := ClipJobs.PumpAt(s, at, input, now, current); ClipJobs.EachAnsweredOnce(r) && ClipJobs.Sound(r)
  {
    hide ClipJobs.EachAnsweredOnce, ClipJobs.Sound, ClipJobs.PumpAt;
    ClipJobs.StepAnswers(s, ClipJobs.PumpStep(at, input, now, current));
    ClipJobs.StepSound(s, ClipJobs.PumpStep(at, input, now, current));
  }

  lemma ReadingHolds(j: Joint, at: nat, input: seq<ClipJobs.Read>, now: Millis)
    requires Holds(j) && at < |j.conv.receiving|
    ensures Holds(After(j, Reads(at, input, now)))
  {
    hide ClipJobs.EachAnsweredOnce, ClipJobs.Sound, SeenBefore, JobsAsked, TransfersTrue, AnswersTrue, ClipJobs.PumpAt, IsCurrent, After;
    var t := j.conv.receiving[at].transfer;
    var current := IsCurrent(j.world.board.sels.Get(t.k), t.offer);
    ReadingKeeps(j, at, input, now, current);
    OlderSince(j);
    ReadShares(j.conv, at, input, now, current);
    PumpStepIs(j.conv, at, input, now, current);
    AfterReads(j, at, input, now);
    var r := After(j, Reads(at, input, now));
    FramesKeep(j.(conv := r.conv), r);
    SeenFrames(j.(world := r.world, age := r.age), r);
  }

  lemma ReadShares(s: ClipJobs.State, at: nat, input: seq<ClipJobs.Read>, now: Millis, current: bool)
    requires at < |s.receiving|
    ensures var r := ClipJobs.PumpAt(s, at, input, now, current); r.queue == s.queue && r.taken == s.taken
  {
    hide ClipJobs.Pump, ClipJobs.Outcome, ClipJobs.Received;
  }

  lemma StepsHold(j: Joint, d: Step)
    requires Holds(j) && Can(j, d) && j.age < TWO_TO_64
    ensures Holds(After(j, d)) && After(j, d).age == j.age + 1
  {
    hide Holds;
    match d
    case WorldMoves(e) => WorldMovesKeep(j, e);
    case Prepares(id, k) => PreparingKeeps(j, id, k);
    case Asks(id, mime, now) => AskingKeeps(j, id, mime, now);
    case Serves(piped, now) => ServingHolds(j, piped, now);
    case Reads(at, input, now) => ReadingHolds(j, at, input, now);
  }

  lemma BeginHolds(p: Two<bool>)
    ensures Holds(Begin(p)) && Begin(p).age == 0
  {
    ClipJobs.FreshIsSound();
  }

  lemma {:induction false} RunsHold(js: seq<Joint>, ds: seq<Step>)
    requires Run(js, ds) && |ds| <= TWO_TO_64
    ensures Holds(js[|ds|]) && js[|ds|].age == |ds|
  {
    hide Holds, Can, After, Begin;
    if ds == [] {
      var p: Two<bool> :| js[0] == Begin(p);
      BeginHolds(p);
    } else {
      var n := |ds| - 1;
      RunsHold(js[..n + 1], ds[..n]);
      StepsHold(js[n], ds[n]);
    }
  }

  /** What a conversion is prepared from is what its selection was at that step. */
  lemma {:induction false} PreparedWhen(js: seq<Joint>, ds: seq<Step>, id: ConversionId) returns (i: nat)
    requires Run(js, ds) && id in js[|ds|].prepared
    ensures i < |ds| && ds[i] == Prepares(id, js[|ds|].prepared[id].k)
    ensures js[|ds|].prepared[id].seen == js[i].world.board.sels.Get(js[|ds|].prepared[id].k)
  {
    hide JobStep, ConvNext, OfferAt, BridgeWorld.Next, BridgeWorld.Possible, JobFor;
    if ds == [] {
      assert false;
    } else {
      var n := |ds| - 1;
      if id in js[n].prepared {
        i := PreparedWhen(js[..n + 1], ds[..n], id);
        PreparedStays(js[n], ds[n], id);
      } else {
        i := n;
        NewlyPrepared(js[n], ds[n], id);
      }
    }
  }

  lemma PreparedStays(j: Joint, d: Step, id: ConversionId)
    requires Can(j, d) && id in j.prepared
    ensures id in After(j, d).prepared && After(j, d).prepared[id] == j.prepared[id]
  {
    hide JobStep, ConvNext, OfferAt, BridgeWorld.Next, BridgeWorld.Possible, JobFor;
  }

  lemma NewlyPrepared(j: Joint, d: Step, id: ConversionId)
    requires Can(j, d) && id !in j.prepared && id in After(j, d).prepared
    ensures d.Prepares? && d.id == id && After(j, d).prepared[id] == Prepared(d.k, j.world.board.sels.Get(d.k))
  {
    hide JobStep, ConvNext, OfferAt, BridgeWorld.Next, BridgeWorld.Possible, JobFor;
  }

  // --- each asked for is answered once ---

  /** The conversions asked for, in order. */
  function AskedIn(ds: seq<Step>): seq<ConversionId> {
    if ds == [] then [] else
      AskedIn(ds[..|ds| - 1]) + (if ds[|ds| - 1].Asks? then [ds[|ds| - 1].id] else [])
  }

  /** What a step is to the conversions. */
  ghost function ConvStep(j: Joint, d: Step): Option<ClipJobs.Step>
    requires Can(j, d)
  {
    match d
    case WorldMoves(e) => JobStep(j.world, e)
    case Prepares(_, _) => None
    case Asks(id, mime, now) => Some(ClipJobs.PostStep(JobFor(id, j.prepared[id], mime, now), now))
    case Serves(piped, now) =>
      var job := j.world.taken[0];
      Some(ClipJobs.RunStep(OfferAt(j.world.board.sels.Get(job.k), job.generation), piped, now))
    case Reads(at, input, now) =>
      var t := j.conv.receiving[at].transfer;
      Some(ClipJobs.PumpStep(at, input, now, IsCurrent(j.world.board.sels.Get(t.k), t.offer)))
  }

  lemma ConvSteps(j: Joint, d: Step)
    requires Can(j, d)
    ensures After(j, d).conv == ConvNext(j.conv, ConvStep(j, d))
  {
    hide JobStep, BridgeWorld.Next, JobFor, OfferAt, ClipJobs.Next, ClipJobs.Possible;
  }

  lemma PostBetweenPublishes(before: ClipJobs.Queue, after: ClipJobs.Queue)
    ensures PostBetween(before, after).Some? ==> PostBetween(before, after).value.PostStep? && PostBetween(before, after).value.job.Publish?
  {
    hide ClipJobs.Post;
  }

  /** Only asking for a conversion posts one. */
  lemma OnlyAskingPosts(j: Joint, d: Step)
    requires Can(j, d) && ConvStep(j, d).Some? && ConvStep(j, d).value.PostStep?
    ensures var job := ConvStep(j, d).value.job;
            if d.Asks? then job.Receive? && job.conversion == d.id else !job.Receive?
    ensures d.Asks? ==> ConvStep(j, d).Some?
  {
    hide BridgeWorld.Act, BridgeWorld.Possible, PostBetween, OfferAt;
    if d.WorldMoves? {
      PostBetweenPublishes(j.world.queue, BridgeWorld.Act(j.world, d.e).queue);
    }
  }

  lemma OnlyPostsIssue(s: ClipJobs.State, e: Option<ClipJobs.Step>)
    ensures ConvNext(s, e).issued
         == s.issued + if e.Some? && e.value.PostStep? then ClipJobs.ConversionsOf([e.value.job]) else []
  {
    hide ClipJobs.ConversionsOf, ClipJobs.Post, ClipJobs.Waiting, ClipJobs.Transferring, ClipJobs.Pump, ClipJobs.Refusals;
  }

  lemma OneConversion(job: ClipJobs.Job)
    ensures ClipJobs.ConversionsOf([job]) == if job.Receive? then [job.conversion] else []
  {
    assert [job][..0] == [];
  }

  lemma IssuedNext(j: Joint, d: Step)
    requires Can(j, d)
    ensures After(j, d).conv.issued == j.conv.issued + if d.Asks? then [d.id] else []
  {
    ConvSteps(j, d);
    var s := ConvStep(j, d);
    assert d.Asks? ==> s.Some? && s.value.PostStep?;
    hide After, ConvNext, ClipJobs.ConversionsOf, ConvStep;
    OnlyPostsIssue(j.conv, s);
    if s.Some? && s.value.PostStep? {
      OnlyAskingPosts(j, d);
      OneConversion(s.value.job);
    }
  }

  /** In every run: each conversion asked for is queued, taken, being read or answered, as many times as it was asked for
      and no more. */
  lemma {:induction false} EachAskedIsAnsweredOnce(js: seq<Joint>, ds: seq<Step>)
    requires Run(js, ds)
    ensures js[|ds|].conv.issued == AskedIn(ds)
    ensures ClipJobs.Sound(js[|ds|].conv) && ClipJobs.EachAnsweredOnce(js[|ds|].conv)
  {
    hide Can, After, ConvStep, ClipJobs.EachAnsweredOnce, ClipJobs.Sound, ClipJobs.Possible, ClipJobs.Next, Begin;
    if ds == [] {
      var p: Two<bool> :| js[0] == Begin(p);
      BeginAnswers(p);
    } else {
      var n := |ds| - 1;
      EachAskedIsAnsweredOnce(js[..n + 1], ds[..n]);
      IssuedNext(js[n], ds[n]);
      ConvSteps(js[n], ds[n]);
      var s := ConvStep(js[n], ds[n]);
      if s.Some? && ClipJobs.Possible(js[n].conv, s.value) {
        ClipJobs.StepAnswers(js[n].conv, s.value);
        ClipJobs.StepSound(js[n].conv, s.value);
      }
    }
  }

  lemma BeginAnswers(p: Two<bool>)
    ensures var c := Begin(p).conv; c.issued == [] && ClipJobs.Sound(c) && ClipJobs.EachAnsweredOnce(c)
  {
    BeginHolds(p);
  }

  /** End to end, in every run of at most 2^64 steps: a value delivered for a conversion is everything that was read, to
      its end, from the very offer its selection had, under the mimes that were read, when the conversion was prepared. */
  lemma DeliveredValuesAreThoseAskedFor(js: seq<Joint>, ds: seq<Step>, a: nat) returns (i: nat)
    requires Run(js, ds) && |ds| <= TWO_TO_64 && a < |js[|ds|].conv.answers| && js[|ds|].conv.answers[a].value.Some?
    ensures var answer := js[|ds|].conv.answers[a];
            && i < |ds| && ds[i].Prepares? && ds[i].id == answer.conversion
            && var seen := js[i].world.board.sels.Get(ds[i].k);
               && answer.source.Some? && answer.source.value.end == ClipJobs.Eof
               && seen.owner == Wayland(answer.source.value.offer, Convertible(seen).0)
               && answer.value.value == Concat(answer.source.value.chunks)
  {
    RunsHold(js, ds);
    var j := js[|ds|];
    assert ClipJobs.Honest(j.conv.answers[a]) && AnswersTrue(j);
    var id := j.conv.answers[a].conversion;
    hide Run, ClipJobs.EachAnsweredOnce, ClipJobs.Sound, Shared, JobsAsked, TransfersTrue, SeenBefore;
    assert FromItsOffer(j.prepared, id, j.conv.answers[a].source.value.offer);
    i := PreparedWhen(js, ds, id);
  }
}
