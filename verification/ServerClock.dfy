/** The server's millisecond clock and the wrap-aware comparison of its times. */
module ServerClock {
  import opened BridgeTypes

  const HALF := 0x8000_0000

  /** -1, 0 or 1 as `a` is before, at or after `b`: the sign of their wrapped difference. */
  function TimeCmp(a: u32, b: u32): int {
    var d := (a - b) % TWO_TO_32;
    if d == 0 then 0 else if d < HALF then 1 else -1
  }

  /** What the clock shows `ms` milliseconds after the server started. */
  function RawClock(ms: nat): u32 {
    if ms % TWO_TO_32 == 0 then 1 else ms % TWO_TO_32
  }

  function ServerTime(raw: u32, floor: u32): u32 {
    if TimeCmp(raw, floor) < 0 then floor else raw
  }

  function NotedFloor(floor: u32, ts: u32): u32 {
    if TimeCmp(ts, floor) > 0 then ts else floor
  }

  /** The time a Wayland-side change is stamped with, `now` being the server time. */
  function NextTimestamp(now: u32, last: u32): u32 {
    if TimeCmp(now, last) > 0 then now else (last + 1) % TWO_TO_32
  }

  predicate StaleOwnerTime(time: u32, now: u32, lastChanged: u32) {
    TimeCmp(time, now) > 0 || TimeCmp(time, lastChanged) < 0
  }

  /** The static floor under the server clock. */
  class Clock {
    var floor: u32

    constructor ()
      ensures floor == 0
    {
      floor := 0;
    }

    method ServerTimeMs(raw: u32) returns (t: u32)
      ensures t == ServerTime(raw, floor)
      ensures TimeCmp(t, floor) >= 0 && (TimeCmp(raw, floor) >= 0 ==> t == raw)
    {
      t := raw;
      if TimeCmp(raw, floor) < 0 {
        t := floor;
      }
    }

    method NoteSelectionTime(ts: u32)
      modifies this
      ensures floor == NotedFloor(old(floor), ts)
      ensures TimeCmp(floor, old(floor)) >= 0 && TimeCmp(ts, floor) <= 0
    {
      if TimeCmp(ts, floor) > 0 {
        floor := ts;
      }
    }
  }

  // --- wrapped times against an unbounded clock ---

  function Sign(d: int): int {
    if d == 0 then 0 else if d > 0 then 1 else -1
  }

  /** Two instants less than a full wrap apart compare rightly exactly when they
      are within half the range of each other. */
  lemma TimeCmpExact(a: int, b: int)
    requires -TWO_TO_32 < a - b < TWO_TO_32
    ensures TimeCmp(a % TWO_TO_32, b % TWO_TO_32) == Sign(a - b) <==> -HALF <= a - b < HALF
  {
    assert (a % TWO_TO_32 - b % TWO_TO_32) % TWO_TO_32 == (a - b) % TWO_TO_32;
    if a - b < 0 {
      assert (a - b) % TWO_TO_32 == a - b + TWO_TO_32;
    }
  }

  /** The unbounded instant the raw clock stands for: it skips the multiples of the wrap. */
  function Instant(ms: nat): nat {
    if ms % TWO_TO_32 == 0 then ms + 1 else ms
  }

  lemma RawClockIsMonotonic(ms: nat, later: nat)
    requires ms <= later
    ensures RawClock(ms) == Instant(ms) % TWO_TO_32 != 0
    ensures Instant(ms) <= Instant(later)
  {
  }

  /** Every time the two selections and the clock floor hold. */
  datatype Stamps = Stamps(floor: int, last: int, changed: Two<int>)

  /** A change of owner: the compositor's, or an X client's at a time it chose. */
  datatype Change = FromWayland(k: Sel) | FromClient(k: Sel, time: int)

  function Max(a: int, b: int): int {
    if a < b then b else a
  }

  /** Unbounded time: what the transitions mean to do. */
  function TrueNow(s: Stamps, now: int): int {
    Max(now, s.floor)
  }

  predicate TrueStale(s: Stamps, now: int, k: Sel, time: int) {
    time > TrueNow(s, now) || time < s.changed.Get(k)
  }

  function TrueStep(s: Stamps, now: int, c: Change): Stamps {
    match c
    case FromWayland(k) =>
      var at := Max(TrueNow(s, now), s.last + 1);
      Stamps(Max(s.floor, at), at, s.changed.Set(k, at))
    case FromClient(k, time) =>
      if TrueStale(s, now, k, time) then s
      else s.(last := Max(s.last, time), changed := s.changed.Set(k, time))
  }

  type Stamps32 = s: Stamps | IsU32(s.floor) && IsU32(s.last)
      && IsU32(s.changed.clipboard) && IsU32(s.changed.primary)
    witness Stamps(0, 0, Two(0, 0))

  predicate IsU32(x: int) {
    0 <= x < TWO_TO_32
  }

  /** Wrapped time: what the transitions do. */
  function WrappedStep(s: Stamps32, raw: u32, c: Change): Stamps32
    requires c.FromClient? ==> IsU32(c.time)
  {
    var now := ServerTime(raw, s.floor);
    match c
    case FromWayland(k) =>
      var at := NextTimestamp(now, s.last);
      Stamps(NotedFloor(s.floor, at), at, s.changed.Set(k, at))
    case FromClient(k, time) =>
      if StaleOwnerTime(time, now, s.changed.Get(k)) then s
      else s.(last := if TimeCmp(time, s.last) > 0 then time else s.last, changed := s.changed.Set(k, time))
  }

  function Wrap(x: int): u32 {
    x % TWO_TO_32
  }

  function WrapStamps(s: Stamps): Stamps32 {
    Stamps(Wrap(s.floor), Wrap(s.last), Two(Wrap(s.changed.clipboard), Wrap(s.changed.primary)))
  }

  function WrapChange(c: Change): Change {
    if c.FromClient? then c.(time := Wrap(c.time)) else c
  }

  predicate Near(a: int, b: int) {
    -HALF < a - b < HALF - 1
  }

  /** Every pair of live times the step compares is within half the range. */
  predicate AllNear(s: Stamps, now: int, c: Change) {
    && Near(now, s.floor) && Near(TrueNow(s, now), s.last) && Near(s.last, s.floor)
    && (c.FromClient? ==>
          && Near(c.time, TrueNow(s, now)) && Near(c.time, s.changed.Get(c.k)) && Near(c.time, s.last))
  }

  lemma Compares(a: int, b: int)
    requires -HALF <= a - b < HALF
    ensures TimeCmp(Wrap(a), Wrap(b)) == Sign(a - b)
  {
    if -TWO_TO_32 < a - b < TWO_TO_32 {
      TimeCmpExact(a, b);
    }
  }

  lemma NowRefines(s: Stamps, now: int)
    requires Near(now, s.floor)
    ensures ServerTime(Wrap(now), Wrap(s.floor)) == Wrap(TrueNow(s, now))
  {
    Compares(now, s.floor);
  }

  lemma NextRefines(now: int, last: int)
    requires Near(now, last)
    ensures NextTimestamp(Wrap(now), Wrap(last)) == Wrap(Max(now, last + 1))
  {
    Compares(now, last);
    if now <= last {
      assert (Wrap(last) + 1) % TWO_TO_32 == (last + 1) % TWO_TO_32;
    }
  }

  lemma FloorRefines(floor: int, at: int)
    requires -HALF <= at - floor < HALF
    ensures NotedFloor(Wrap(floor), Wrap(at)) == Wrap(Max(floor, at))
  {
    Compares(at, floor);
  }

  lemma WrapRefines(s: Stamps, now: int, c: Change)
    requires AllNear(s, now, c)
    ensures WrappedStep(WrapStamps(s), Wrap(now), WrapChange(c)) == WrapStamps(TrueStep(s, now, c))
  {
    NowRefines(s, now);
    match c
    case FromWayland(k) =>
      NextRefines(TrueNow(s, now), s.last);
      FloorRefines(s.floor, Max(TrueNow(s, now), s.last + 1));
    case FromClient(k, time) =>
      Compares(time, TrueNow(s, now));
      Compares(time, s.changed.Get(k));
      Compares(time, s.last);
  }

  /** A history of changes, each with the clock's reading at the time. */
  datatype Tick = Tick(now: int, change: Change)

  function TrueRun(s: Stamps, h: seq<Tick>): Stamps {
    if h == [] then s else TrueStep(TrueRun(s, h[..|h| - 1]), h[|h| - 1].now, h[|h| - 1].change)
  }

  function WrappedRun(s: Stamps32, h: seq<Tick>): Stamps32 {
    if h == [] then s else
      var t := h[|h| - 1];
      WrappedStep(WrappedRun(s, h[..|h| - 1]), Wrap(t.now), WrapChange(t.change))
  }

  ghost predicate LiveTimesNear(s: Stamps, h: seq<Tick>) {
    forall i :: 0 <= i < |h| ==> AllNear(TrueRun(s, h[..i]), h[i].now, h[i].change)
  }

  predicate ClockNeverBack(h: seq<Tick>) {
    forall i, j :: 0 <= i < j < |h| ==> h[i].now <= h[j].now
  }

  const START := Stamps(0, 0, Two(0, 0))

  /** The 32-bit times the bridge keeps are the true times, wrapped, for any history of changes. */
  lemma {:induction false} WrappedTimesAreTrueTimes(h: seq<Tick>)
    requires LiveTimesNear(START, h)
    ensures WrappedRun(START, h) == WrapStamps(TrueRun(START, h))
  {
    if h != [] {
      var init := h[..|h| - 1];
      forall i | 0 <= i < |init|
        ensures AllNear(TrueRun(START, init[..i]), init[i].now, init[i].change)
      {
        assert init[..i] == h[..i];
      }
      WrappedTimesAreTrueTimes(init);
      WrapRefines(TrueRun(START, init), h[|h| - 1].now, h[|h| - 1].change);
    }
  }

  /** Everything in `s` has happened by the time the clock reads `now`. */
  predicate Behind(s: Stamps, now: int) {
    && s.last <= TrueNow(s, now)
    && forall k: Sel :: s.changed.Get(k) <= s.last
  }

  /** One change: the selection's time never goes back, a Wayland change is strictly
      after every earlier one on either selection, and the clock stays ahead. */
  lemma StepKeepsOrder(s: Stamps, now: int, c: Change)
    requires Behind(s, now)
    ensures var r := TrueStep(s, now, c);
            && Behind(r, now)
            && r.floor >= s.floor
            && (forall k: Sel :: r.changed.Get(k) >= s.changed.Get(k))
            && (forall k: Sel, j: Sel :: c == FromWayland(k) ==> r.changed.Get(k) > s.changed.Get(j))
  {
  }

  lemma {:induction false} RunsKeepOrder(h: seq<Tick>, now: int)
    requires ClockNeverBack(h)
    requires 0 <= now
    requires forall i :: 0 <= i < |h| ==> 0 <= h[i].now <= now
    ensures Behind(TrueRun(START, h), now)
  {
    if h != [] {
      var t := h[|h| - 1];
      RunsKeepOrder(h[..|h| - 1], t.now);
      StepKeepsOrder(TrueRun(START, h[..|h| - 1]), t.now, t.change);
    }
  }

  /** Over any history: the wrapped server time is never behind a selection's last change,
      and a `SetSelectionOwner` stamped with a server time read since then is not stale. */
  lemma FreshTimesAreNeverStale(h: seq<Tick>, read: int, now: int, k: Sel)
    requires ClockNeverBack(h)
    requires forall i :: 0 <= i < |h| ==> 0 <= h[i].now <= read
    requires 0 <= read <= now
    requires LiveTimesNear(START, h)
    requires var s := TrueRun(START, h);
             AllNear(s, now, FromClient(k, TrueNow(s, read))) && Near(read, s.floor)
    ensures var s := WrappedRun(START, h);
            && TimeCmp(ServerTime(Wrap(read), s.floor), s.changed.Get(k)) >= 0
            && !StaleOwnerTime(ServerTime(Wrap(read), s.floor), ServerTime(Wrap(now), s.floor), s.changed.Get(k))
  {
    var s := TrueRun(START, h);
    WrappedTimesAreTrueTimes(h);
    RunsKeepOrder(h, read);
    TimeCmpExact(read, s.floor);
    TimeCmpExact(now, s.floor);
    TimeCmpExact(TrueNow(s, read), s.changed.Get(k));
    TimeCmpExact(TrueNow(s, read), TrueNow(s, now));
  }

  // --- where the server time leaves the true time ---

  /** The server time is the later of the clock and the floor exactly while the clock is less than half the range
      ahead of the floor, or, behind it, at a distance that does not read as ahead. */
  lemma ServerTimeIsTrueIff(now: int, floor: int)
    ensures ServerTime(Wrap(now), Wrap(floor)) == Wrap(Max(now, floor))
      <==> if now >= floor then (now - floor) % TWO_TO_32 < HALF
           else (now - floor) % TWO_TO_32 == 0 || (now - floor) % TWO_TO_32 >= HALF
  {
    var d := (now - floor) % TWO_TO_32;
    assert (Wrap(now) - Wrap(floor)) % TWO_TO_32 == d;
    assert Wrap(now) == Wrap(floor) <==> d == 0;
  }

  /** How far past its floor the server time reads: the clock's distance in the wrap, or nothing once that is half of it. */
  function Shown(now: int, floor: int): int {
    var d := (now - floor) % TWO_TO_32;
    if d < HALF then d else 0
  }

  lemma ReadsAs(now: int, floor: int)
    ensures ServerTime(Wrap(now), Wrap(floor)) == Wrap(floor + Shown(now, floor))
  {
    var d := (now - floor) % TWO_TO_32;
    assert (Wrap(now) - Wrap(floor)) % TWO_TO_32 == d;
    assert Wrap(now) == Wrap(floor + d);
  }

  /** The server time goes back, though its documentation calls it monotonic, exactly when the clock, read as ahead of the
      floor and less than half the range so, comes to be half the range or more ahead, or ahead again by less than it was.
      So it does in each wrap in which no selection changes. */
  lemma ServerTimeGoesBackIff(floor: int, now: int, later: int)
    ensures var (d, e) := ((now - floor) % TWO_TO_32, (later - floor) % TWO_TO_32);
            TimeCmp(ServerTime(Wrap(later), Wrap(floor)), ServerTime(Wrap(now), Wrap(floor))) < 0
            <==> 0 < d < HALF && (e >= HALF || e < d)
  {
    ReadsAs(now, floor);
    ReadsAs(later, floor);
    hide ServerTime;
    Compares(floor + Shown(later, floor), floor + Shown(now, floor));
  }

  /** The documentation says the server time is never 0. It is 0 exactly while the floor is 0, where it starts, and the
      clock is half the range or more into a wrap. */
  lemma ServerTimeIsZeroIff(ms: nat, floor: u32)
    ensures ServerTime(RawClock(ms), floor) == 0 <==> floor == 0 && ms % TWO_TO_32 >= HALF
  {
  }

  /** So a server on which no selection has changed in its first 2^31 milliseconds shows 2^31 - 1, then 0 for as long
      again, and has gone back. */
  lemma ServerTimeCanBeZero()
    ensures var floor := WrapStamps(START).floor;
            && ServerTime(RawClock(HALF - 1), floor) == HALF - 1
            && (forall ms: nat :: HALF <= ms < TWO_TO_32 ==> ServerTime(RawClock(ms), floor) == 0)
            && TimeCmp(ServerTime(RawClock(HALF), floor), ServerTime(RawClock(HALF - 1), floor)) < 0
  {
    forall ms: nat | HALF <= ms < TWO_TO_32 ensures ServerTime(RawClock(ms), WrapStamps(START).floor) == 0 {
      ServerTimeIsZeroIff(ms, 0);
    }
  }
}
