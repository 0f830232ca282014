/** One client's outbound queue: a bounded FIFO, stamped with sequence numbers that never go backwards. */
module ClientOutbox {
  import opened BridgeTypes

  const MAX_QUEUED_BYTES := 0x400_0000
  const HALF := 0x8000

  datatype Outbox = Outbox(queue: seq<Bytes>, bytes: nat, lastSeq: u16, closed: bool)

  // --- the queue ---

  /** Queues a buffer, or closes and empties the outbox if the client is too far behind. */
  function Enqueue(o: Outbox, buf: Bytes): Outbox {
    if o.closed then o
    else if o.bytes > 0 && o.bytes + |buf| > MAX_QUEUED_BYTES then Dropped(o)
    else o.(queue := o.queue + [buf], bytes := o.bytes + |buf|)
  }

  function Dropped(o: Outbox): Outbox {
    o.(queue := [], bytes := 0, closed := true)
  }

  function SumLengths(bufs: seq<Bytes>): nat {
    if bufs == [] then 0 else |bufs[0]| + SumLengths(bufs[1..])
  }

  lemma {:induction false} SumSnoc(bufs: seq<Bytes>, buf: Bytes)
    ensures SumLengths(bufs + [buf]) == SumLengths(bufs) + |buf|
  {
    if bufs == [] {
      assert SumLengths([buf]) == |buf| + SumLengths([buf][1..]);
    } else {
      assert (bufs + [buf])[1..] == bufs[1..] + [buf];
      SumSnoc(bufs[1..], buf);
    }
  }

  /** The byte count is right, and only a lone buffer may exceed the cap. */
  ghost predicate Bounded(o: Outbox) {
    && o.bytes == SumLengths(o.queue)
    && (o.bytes > MAX_QUEUED_BYTES ==> exists i :: 0 <= i < |o.queue| && |o.queue[i]| == o.bytes)
  }

  lemma {:induction false} OneOfSum(bufs: seq<Bytes>, i: nat)
    requires i < |bufs|
    ensures |bufs[i]| <= SumLengths(bufs)
    ensures |bufs[i]| == SumLengths(bufs) ==> forall j :: 0 <= j < |bufs| && j != i ==> bufs[j] == []
  {
    if i == 0 {
      SumIsZero(bufs[1..]);
    } else {
      OneOfSum(bufs[1..], i - 1);
      assert bufs[1..][i - 1] == bufs[i];
      if |bufs[i]| == SumLengths(bufs) {
        forall j | 0 <= j < |bufs| && j != i ensures bufs[j] == [] {
          if j > 0 {
            assert bufs[1..][j - 1] == bufs[j];
          }
        }
      }
    }
  }

  lemma {:induction false} SumIsZero(bufs: seq<Bytes>)
    ensures SumLengths(bufs) == 0 ==> forall j :: 0 <= j < |bufs| ==> bufs[j] == []
  {
    if bufs != [] {
      SumIsZero(bufs[1..]);
      forall j | 1 <= j < |bufs| ensures bufs[j] == bufs[1..][j - 1] {
      }
    }
  }

  lemma EnqueueKeepsBounded(o: Outbox, buf: Bytes)
    requires Bounded(o)
    ensures Bounded(Enqueue(o, buf))
  {
    SumSnoc(o.queue, buf);
    var p := Enqueue(o, buf);
    if p.bytes > MAX_QUEUED_BYTES && !o.closed {
      assert |(o.queue + [buf])[|o.queue|]| == p.bytes;
    }
  }

  lemma PopKeepsBounded(o: Outbox)
    requires Bounded(o) && o.queue != []
    ensures o.bytes >= |o.queue[0]| && Bounded(o.(queue := o.queue[1..], bytes := o.bytes - |o.queue[0]|))
  {
    if o.bytes > MAX_QUEUED_BYTES {
      var i :| 0 <= i < |o.queue| && |o.queue[i]| == o.bytes;
      OneOfSum(o.queue, i);
      if i > 0 {
        assert o.queue[1..][i - 1] == o.queue[i];
      }
    }
  }

  /** Over the cap, everything else in the queue is empty. */
  lemma OnlyALoneBufferExceedsTheCap(o: Outbox)
    requires Bounded(o) && o.bytes > MAX_QUEUED_BYTES
    ensures exists i :: && 0 <= i < |o.queue| && |o.queue[i]| == o.bytes
                        && forall j :: 0 <= j < |o.queue| && j != i ==> o.queue[j] == []
  {
    var i :| 0 <= i < |o.queue| && |o.queue[i]| == o.bytes;
    OneOfSum(o.queue, i);
  }

  // --- the stamp ---

  /** A 16-bit sequence, held back to the last one stamped if it is behind it. */
  function Monotonic(last: u16, s: u16): u16 {
    if (s - last) % TWO_TO_16 < HALF then s else last
  }

  /** How libxcb widens a 16-bit sequence: to the next count, at or after the last, with those low bits. */
  function Widen(last: nat, s: u16): nat {
    var w := last - last % TWO_TO_16 + s;
    if w < last then w + TWO_TO_16 else w
  }

  lemma WidenIsNext(last: nat, s: u16)
    ensures last <= Widen(last, s) < last + TWO_TO_16 && Widen(last, s) % TWO_TO_16 == s
  {
  }

  lemma WidenedTo(last: nat, s: u16, n: nat)
    requires last <= n < last + TWO_TO_16 && n % TWO_TO_16 == s
    ensures Widen(last, s) == n
  {
    WidenIsNext(last, s);
  }

  /** One stamp is right exactly if the request is less than half the range ahead of the last one stamped, or, behind
      it, not by a distance that reads as ahead. */
  predicate InReach(last: nat, t: nat) {
    if t >= last then t - last < HALF
    else (t - last) % TWO_TO_16 == 0 || (t - last) % TWO_TO_16 >= HALF
  }

  function Later(a: nat, b: nat): nat {
    if a >= b then a else b
  }

  lemma ModDifference(t: nat, last: nat)
    ensures (t % TWO_TO_16 - last % TWO_TO_16) % TWO_TO_16 == (t - last) % TWO_TO_16
  {
    var a, b := t / TWO_TO_16, last / TWO_TO_16;
    assert t - last == t % TWO_TO_16 - last % TWO_TO_16 + (a - b) * TWO_TO_16;
    ModShift(t % TWO_TO_16 - last % TWO_TO_16, a - b);
  }

  lemma ModShift(x: int, k: int)
    ensures (x + k * TWO_TO_16) % TWO_TO_16 == x % TWO_TO_16
  {
  }

  /** A request count `t`, stamped after `last` and widened by the client, reads as the later of the two exactly
      if it is in reach. */
  lemma StampIsRightIff(last: nat, t: nat)
    ensures Widen(last, Monotonic(last % TWO_TO_16, t % TWO_TO_16)) == Later(last, t) <==> InReach(last, t)
  {
    ModDifference(t, last);
    var s := Monotonic(last % TWO_TO_16, t % TWO_TO_16);
    WidenIsNext(last, s);
    if s == last % TWO_TO_16 {
      WidenedTo(last, s, last);
    } else {
      var d := (t - last) % TWO_TO_16;
      ModShift(last + d, (t - last) / TWO_TO_16);
      assert last + d == t - ((t - last) / TWO_TO_16) * TWO_TO_16;
      assert (last + d) % TWO_TO_16 == t % TWO_TO_16;
      WidenedTo(last, s, last + d);
    }
  }

  // --- whole streams of stamps ---

  /** The last 16-bit sequence stamped, after writes for these request counts. */
  function Stamped(ts: seq<nat>): u16 {
    if ts == [] then 0 else Monotonic(Stamped(ts[..|ts| - 1]), ts[|ts| - 1] % TWO_TO_16)
  }

  /** What the client has widened the stream to. */
  function Widened(ts: seq<nat>): nat {
    if ts == [] then 0 else Widen(Widened(ts[..|ts| - 1]), Stamped(ts))
  }

  function RunningMax(ts: seq<nat>): nat {
    if ts == [] then 0 else Later(RunningMax(ts[..|ts| - 1]), ts[|ts| - 1])
  }

  lemma {:induction false} WidenedLowBits(ts: seq<nat>)
    ensures Widened(ts) % TWO_TO_16 == Stamped(ts)
  {
    if ts != [] {
      WidenIsNext(Widened(ts[..|ts| - 1]), Stamped(ts));
    }
  }

  /** Each write is for a request in reach of the latest one written before it. */
  predicate AllInReach(ts: seq<nat>) {
    forall i :: 0 <= i < |ts| ==> InReach(RunningMax(ts[..i]), ts[i])
  }

  /** Then the client, widening 16 bits at a time, follows the true request counts exactly. */
  lemma {:induction false} StreamIsTheRunningMax(ts: seq<nat>)
    requires AllInReach(ts)
    ensures Widened(ts) == RunningMax(ts)
  {
    if ts != [] {
      var init, t := ts[..|ts| - 1], ts[|ts| - 1];
      assert AllInReach(init) by {
        forall i | 0 <= i < |init| ensures InReach(RunningMax(init[..i]), init[i]) {
          assert init[..i] == ts[..i];
        }
      }
      StreamIsTheRunningMax(init);
      WidenedLowBits(init);
      StampIsRightIff(RunningMax(init), t);
    }
  }

  /** Every write is for a request at most half the range behind what the client has reached. */
  predicate NoneTooStale(ts: seq<nat>) {
    forall i :: 0 <= i < |ts| ==> Widened(ts[..i]) - ts[i] <= HALF
  }

  /** Then, however far ahead a write jumps, the client never counts past a request it has sent. */
  lemma {:induction false} StreamNeverOvertakes(ts: seq<nat>)
    requires NoneTooStale(ts)
    ensures Widened(ts) <= RunningMax(ts)
  {
    if ts != [] {
      var init, t := ts[..|ts| - 1], ts[|ts| - 1];
      assert NoneTooStale(init) by {
        forall i | 0 <= i < |init| ensures Widened(init[..i]) - init[i] <= HALF {
          assert init[..i] == ts[..i];
        }
      }
      assert ts[..|ts| - 1] == init && Widened(init) - t <= HALF;
      StreamNeverOvertakes(init);
      WidenedLowBits(init);
      OneStampNeverOvertakes(Widened(init), t);
    }
  }

  lemma OneStampNeverOvertakes(last: nat, t: nat)
    requires last - t <= HALF
    ensures Widen(last, Monotonic(last % TWO_TO_16, t % TWO_TO_16)) <= Later(last, t)
  {
    ModDifference(t, last);
    var s := Monotonic(last % TWO_TO_16, t % TWO_TO_16);
    if s == last % TWO_TO_16 {
      WidenedTo(last, s, last);
    } else {
      var d := (t - last) % TWO_TO_16;
      ModShift(last + d, (t - last) / TWO_TO_16);
      assert last + d == t - ((t - last) / TWO_TO_16) * TWO_TO_16;
      assert (last + d) % TWO_TO_16 == t % TWO_TO_16;
      WidenedTo(last, s, last + d);
    }
  }

  /** A reply half the range or more after the last write carries the last write's sequence, not its own. */
  lemma LongSilenceMisstamps()
    ensures !InReach(0, 40000) && Stamped([40000]) == 0 && Widened([40000]) == 0 && RunningMax([40000]) == 40000
  {
    assert [40000][..0] == [];
  }

  // --- the client ---

  function Stamp(buf: Bytes, s: u16): Bytes
    requires |buf| >= 4
  {
    buf[2 := s % 0x100][3 := s / 0x100]
  }

  /** Stamps a framed message and queues it, all under the outbox's one lock. */
  function Send(o: Outbox, s: u16, buf: Bytes): Outbox
    requires |buf| >= 4
  {
    var stamped := Monotonic(o.lastSeq, s);
    Enqueue(o.(lastSeq := stamped), Stamp(buf, stamped))
  }

  class Client {
    var queue: seq<Bytes>
    var bytes: nat
    var lastSeq: u16
    var closed: bool
    var current: u16
    var dead: bool

    function View(): Outbox
      reads this
    {
      Outbox(queue, bytes, lastSeq, closed)
    }

    constructor ()
      ensures View() == Outbox([], 0, 0, false) && current == 0 && !dead
    {
      queue, bytes, lastSeq, closed, current, dead := [], 0, 0, false, 0, false;
    }

    /** Takes the next buffer to write. */
    method PopNext() returns (buf: Option<Bytes>)
      requires Bounded(View())
      modifies this`queue, this`bytes
      ensures Bounded(View())
      ensures old(queue) == [] ==> buf == None && View() == old(View())
      ensures old(queue) != [] ==>
                && buf == Some(old(queue)[0])
                && View() == old(View()).(queue := old(queue)[1..], bytes := old(bytes) - |old(queue)[0]|)
    {
      if queue == [] {
        return None;
      }
      PopKeepsBounded(View());
      buf := Some(queue[0]);
      bytes := bytes - |queue[0]|;
      queue := queue[1..];
    }

    method Queue(buf: Bytes)
      requires Bounded(View())
      modifies this`queue, this`bytes, this`closed, this`dead
      ensures Bounded(View()) && View() == Enqueue(old(View()), buf)
      ensures dead == (old(dead) || (closed && !old(closed)))
    {
      EnqueueKeepsBounded(View(), buf);
      if closed {
        return;
      }
      if bytes > 0 && bytes + |buf| > MAX_QUEUED_BYTES {
        dead, closed, queue, bytes := true, true, [], 0;
        return;
      }
      bytes := bytes + |buf|;
      queue := queue + [buf];
    }

    method Drop()
      modifies this`queue, this`bytes, this`closed, this`dead
      ensures View() == Dropped(old(View())) && dead
    {
      dead, closed, queue, bytes := true, true, [], 0;
    }

    method Close()
      modifies this`closed, this`dead
      ensures View() == old(View()).(closed := true) && dead
    {
      dead, closed := true, true;
    }

    /** Queues the connection setup, the one message with no sequence. */
    method WriteSetup(buf: Bytes) returns (ok: bool)
      requires Bounded(View())
      modifies this`queue, this`bytes, this`closed, this`dead
      ensures Bounded(View()) && View() == Enqueue(old(View()), buf) && ok == !closed
    {
      Queue(buf);
      ok := !closed;
    }

    /** Queues a reply or error for request `s`; fails once the client is gone. */
    method SendReply(s: u16, buf: array<u8>) returns (ok: bool)
      requires Bounded(View()) && buf.Length >= 4
      modifies this`queue, this`bytes, this`closed, this`dead, this`lastSeq, buf
      ensures Bounded(View()) && View() == Send(old(View()), s, old(buf[..])) && ok == !closed
      ensures buf[..] == Stamp(old(buf[..]), lastSeq)
    {
      var stamped := Monotonic(lastSeq, s);
      buf[2], buf[3] := stamped % 0x100, stamped / 0x100;
      assert buf[..] == Stamp(old(buf[..]), stamped);
      lastSeq := stamped;
      Queue(buf[..]);
      ok := !closed;
    }

    /** Queues an event, stamped with the client's current request as of this lock. */
    method SendEvent(buf: array<u8>)
      requires Bounded(View()) && buf.Length >= 4
      modifies this`queue, this`bytes, this`closed, this`dead, this`lastSeq, buf
      ensures Bounded(View()) && View() == Send(old(View()), old(current), old(buf[..]))
      ensures buf[..] == Stamp(old(buf[..]), lastSeq)
    {
      var stamped := Monotonic(lastSeq, current);
      buf[2], buf[3] := stamped % 0x100, stamped / 0x100;
      assert buf[..] == Stamp(old(buf[..]), stamped);
      lastSeq := stamped;
      Queue(buf[..]);
    }

    /** Another request is being handled: events are stamped with it from here on. */
    method SetSeq(s: u16)
      modifies this`current
      ensures current == s
    {
      current := s;
    }
  }
}

/** Runs of one client's outbox and its writer thread. */
module OutboxRuns {
  import opened BridgeTypes
  import opened ClientOutbox

  /** The writer's part: idle, part way through a buffer, or gone. */
  datatype Writer = Idle | Writing(left: Bytes) | Exited

  /** `accepted` is every buffer queued, in order; `written` every byte on the wire. */
  datatype World = World(box: Outbox, writer: Writer, accepted: seq<Bytes>, written: Bytes, dropped: bool)

  const START := World(Outbox([], 0, 0, false), Idle, [], [], false)

  datatype Step =
    | SetupQueued(buf: Bytes)
    | MessageSent(stamp: u16, buf: Bytes)
    | BufferPopped
    | BytesWritten(n: nat)
    | WriteFailed
    | WriterExits
    | ClientDropped
    | Closed

  predicate Possible(w: World, s: Step) {
    match s
    case SetupQueued(_) => true
    case MessageSent(_, buf) => |buf| >= 4
    case BufferPopped => w.writer == Idle && w.box.queue != [] && w.box.bytes >= |w.box.queue[0]|
    case BytesWritten(n) => w.writer.Writing? && n <= |w.writer.left|
    case WriteFailed => w.writer.Writing?
    case WriterExits => w.writer == Idle && w.box.queue == [] && w.box.closed
    case _ => true
  }

  /** Queueing a buffer: it is accepted unless the outbox is closed then or by this. */
  function Queued(w: World, o: Outbox, buf: Bytes): World {
    w.(box := o, accepted := if o.closed then w.accepted else w.accepted + [buf], dropped := w.dropped || (o.closed && !w.box.closed))
  }

  function Next(w: World, s: Step): World
    requires Possible(w, s)
  {
    match s
    case SetupQueued(buf) => Queued(w, Enqueue(w.box, buf), buf)
    case MessageSent(n, buf) => Queued(w, Send(w.box, n, buf), Stamp(buf, Monotonic(w.box.lastSeq, n)))
    case BufferPopped =>
      w.(box := w.box.(queue := w.box.queue[1..], bytes := w.box.bytes - |w.box.queue[0]|), writer := Writing(w.box.queue[0]))
    case BytesWritten(n) =>
      w.(written := w.written + w.writer.left[..n], writer := if n == |w.writer.left| then Idle else Writing(w.writer.left[n..]))
    case WriteFailed => w.(box := Dropped(w.box), writer := Exited, dropped := true)
    case WriterExits => w.(writer := Exited)
    case ClientDropped => w.(box := Dropped(w.box), dropped := true)
    case Closed => w.(box := w.box.(closed := true))
  }

  function InHand(w: World): Bytes {
    if w.writer.Writing? then w.writer.left else []
  }

  /** Until the client is dropped, what is written, being written and queued is all that was accepted. */
  ghost predicate Holds(w: World) {
    && Bounded(w.box)
    && (w.dropped ==> w.box.closed && w.box.queue == [])
    && w.written + InHand(w) <= Concat(w.accepted)
    && (!w.dropped ==> w.written + InHand(w) + Concat(w.box.queue) == Concat(w.accepted))
    && (w.writer == Exited ==> w.dropped || (w.box.queue == [] && w.box.closed))
  }

  lemma QueueingHolds(w: World, o: Outbox, buf: Bytes)
    requires Holds(w) && o.queue == w.box.queue && o.bytes == w.box.bytes && o.closed == w.box.closed
    ensures Holds(Queued(w, Enqueue(o, buf), buf))
  {
    EnqueueKeepsBounded(o, buf);
    ConcatSnoc(w.accepted, buf);
    ConcatSnoc(w.box.queue, buf);
    hide Concat, Bounded, SumLengths;
    var t := Queued(w, Enqueue(o, buf), buf);
    if !t.box.closed {
      assert w.written + InHand(w) + (Concat(w.box.queue) + buf) == w.written + InHand(w) + Concat(w.box.queue) + buf;
    }
  }

  lemma PopHolds(w: World)
    requires Holds(w) && Possible(w, BufferPopped)
    ensures Holds(Next(w, BufferPopped))
  {
    PopKeepsBounded(w.box);
    var left, rest := w.box.queue[0], w.box.queue[1..];
    assert Concat(w.box.queue) == left + Concat(rest);
    hide Concat, Bounded, SumLengths;
    assert w.written + [] == w.written;
    assert w.written + (left + Concat(rest)) == w.written + left + Concat(rest);
  }

  lemma WriteHolds(w: World, n: nat)
    requires Holds(w) && Possible(w, BytesWritten(n))
    ensures Holds(Next(w, BytesWritten(n)))
  {
    hide Concat, Bounded, SumLengths;
    var r := Next(w, BytesWritten(n));
    assert w.writer.left == w.writer.left[..n] + w.writer.left[n..];
    assert r.written + InHand(r) == w.written + InHand(w);
  }

  lemma EndingHolds(w: World, s: Step)
    requires Holds(w) && Possible(w, s) && (s.WriteFailed? || s.WriterExits? || s.ClientDropped? || s.Closed?)
    ensures Holds(Next(w, s))
  {
    assert Concat([]) == [] && Bounded(Dropped(w.box)) && (Bounded(w.box) ==> Bounded(w.box.(closed := true)));
    assert w.written + [] == w.written;
    hide Concat, Bounded, SumLengths;
  }

  lemma StepsHold(w: World, s: Step)
    requires Holds(w) && Possible(w, s)
    ensures Holds(Next(w, s))
  {
    match s
    case SetupQueued(buf) => QueueingHolds(w, w.box, buf);
    case MessageSent(n, buf) =>
      var stamped := Monotonic(w.box.lastSeq, n);
      hide Holds, Enqueue, Stamp, Monotonic;
      QueueingHolds(w, w.box.(lastSeq := stamped), Stamp(buf, stamped));
    case BufferPopped => hide Holds, Next; PopHolds(w);
    case BytesWritten(n) => hide Holds, Next; WriteHolds(w, n);
    case _ => hide Holds, Next; EndingHolds(w, s);
  }

  predicate Run(w: World, steps: seq<Step>)
    decreases |steps|
  {
    steps != [] ==> Possible(w, steps[0]) && Run(Next(w, steps[0]), steps[1..])
  }

  function After(w: World, steps: seq<Step>): World
    requires Run(w, steps)
    decreases |steps|
  {
    if steps == [] then w else After(Next(w, steps[0]), steps[1..])
  }

  lemma {:induction false} RunsHold(w: World, steps: seq<Step>)
    requires Holds(w) && Run(w, steps)
    ensures Holds(After(w, steps))
    decreases |steps|
  {
    hide Holds, Next, Possible;
    if steps != [] {
      StepsHold(w, steps[0]);
      RunsHold(Next(w, steps[0]), steps[1..]);
    }
  }

  /** In every run the bytes on the wire are a prefix of the buffers accepted, in order; and once the writer has
      gone, they are all of them, unless the client was dropped. */
  lemma WireIsWhatWasAccepted(steps: seq<Step>)
    requires Run(START, steps)
    ensures var w := After(START, steps);
            && w.written <= Concat(w.accepted)
            && (w.writer == Exited && !w.dropped ==> w.written == Concat(w.accepted))
            && (w.writer == Idle && w.box.queue == [] && !w.dropped ==> w.written == Concat(w.accepted))
  {
    RunsHold(START, steps);
  }

  /** In every run the byte count is the sum of what is queued, and over the cap only with a lone buffer. */
  lemma QueueStaysBounded(steps: seq<Step>)
    requires Run(START, steps)
    ensures var o := After(START, steps).box;
            && o.bytes == SumLengths(o.queue)
            && (o.bytes > MAX_QUEUED_BYTES ==>
                  exists i :: && 0 <= i < |o.queue| && |o.queue[i]| == o.bytes
                              && forall j :: 0 <= j < |o.queue| && j != i ==> o.queue[j] == [])
            && (o.queue != [] ==> |o.queue[0]| <= o.bytes)
  {
    RunsHold(START, steps);
    var o := After(START, steps).box;
    if o.bytes > MAX_QUEUED_BYTES {
      OnlyALoneBufferExceedsTheCap(o);
    }
    if o.queue != [] {
      PopKeepsBounded(o);
    }
  }

  /** Nothing is accepted once the outbox is closed. */
  lemma {:induction false} NothingAfterClose(w: World, steps: seq<Step>)
    requires w.box.closed && Run(w, steps)
    ensures After(w, steps).accepted == w.accepted && After(w, steps).box.closed
    decreases |steps|
  {
    if steps != [] {
      NothingAfterClose(Next(w, steps[0]), steps[1..]);
    }
  }

  lemma {:induction false} AfterBoth(w: World, a: seq<Step>, b: seq<Step>)
    requires Run(w, a + b)
    ensures Run(w, a) && Run(After(w, a), b) && After(w, a + b) == After(After(w, a), b)
    decreases |a|
  {
    if a == [] {
      assert a + b == b;
    } else {
      assert (a + b)[1..] == a[1..] + b;
      AfterBoth(Next(w, a[0]), a[1..], b);
    }
  }

  lemma {:induction false} AcceptedGrows(w: World, steps: seq<Step>)
    requires Run(w, steps)
    ensures w.accepted <= After(w, steps).accepted
    decreases |steps|
  {
    if steps != [] {
      AcceptedGrows(Next(w, steps[0]), steps[1..]);
    }
  }

  lemma {:induction false} ConcatBoth(a: seq<Bytes>, b: seq<Bytes>)
    ensures Concat(a + b) == Concat(a) + Concat(b)
  {
    if a == [] {
      assert a + b == b;
    } else {
      assert (a + b)[1..] == a[1..] + b;
      ConcatBoth(a[1..], b);
    }
  }

  /** What the result of a send means for the wire, whatever follows. A message whose send fails is never written, nor
      anything after it. One whose send succeeds is on the wire, right after all that was accepted before it, once the
      writer has gone, unless the client was dropped. */
  lemma SentIsWritten(before: seq<Step>, s: u16, buf: Bytes, more: seq<Step>)
    requires |buf| >= 4 && Run(START, before + ([MessageSent(s, buf)] + more))
    ensures Run(START, before) && Run(Next(After(START, before), MessageSent(s, buf)), more)
    ensures var w := After(START, before);
            var sent := Next(w, MessageSent(s, buf));
            var end := After(START, before + ([MessageSent(s, buf)] + more));
            var at := |Concat(w.accepted)|;
            && (sent.box.closed ==> |end.written| <= at)
            && (!sent.box.closed && end.writer == Exited && !end.dropped ==>
                  && at + |buf| <= |end.written|
                  && end.written[at..at + |buf|] == Stamp(buf, Monotonic(w.box.lastSeq, s)))
  {
    var all := before + ([MessageSent(s, buf)] + more);
    AfterBoth(START, before, [MessageSent(s, buf)] + more);
    var w := After(START, before);
    var sent := Next(w, MessageSent(s, buf));
    assert ([MessageSent(s, buf)] + more)[1..] == more;
    var end := After(START, all);
    assert end == After(sent, more);
    WireIsWhatWasAccepted(all);
    hide After, Run, Concat;
    if sent.box.closed {
      NothingAfterClose(sent, more);
      assert sent.accepted == w.accepted;
    } else {
      var stamped := Stamp(buf, Monotonic(w.box.lastSeq, s));
      assert sent.accepted == w.accepted + [stamped];
      AcceptedGrows(sent, more);
      var rest := end.accepted[|sent.accepted|..];
      assert end.accepted == sent.accepted + rest;
      ConcatBoth(sent.accepted, rest);
      ConcatSnoc(w.accepted, stamped);
    }
  }
}
