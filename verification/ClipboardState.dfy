/** Who owns each bridged selection, what the compositor still owes us for it, and the
    transitions that change either. */
module ClipboardState {
  import opened BridgeTypes
  import opened ServerClock
  import ClipJobs

  const OWNER_WINDOW: u32 := 0x16c
  const MAX_ECHOES := 16
  const TEXT_MIMES: seq<string> := ["text/plain;charset=utf-8", "text/plain", "UTF8_STRING", "STRING", "TEXT"]

  datatype XOwner = XOwner(window: u32, client: ClientId, time: u32, data: Option<Bytes>)

  datatype Owner = Nobody | Wayland(offer: OfferId, mimes: seq<string>) | X(x: XOwner) {
    /** The window `GetSelectionOwner` answers with, 0 for none. */
    function Window(): u32 {
      match this
      case Nobody => 0
      case Wayland(_, _) => OWNER_WINDOW
      case X(x) => x.window
    }

    function Offers(): seq<OfferId> {
      if Wayland? then [offer] else []
    }

    predicate IsAcquisition(window: u32, time: u32) {
      X? && x.window == window && x.time == time
    }
  }

  datatype Echo = Source | Withdrawn

  datatype SelState = SelState(
    owner: Owner,
    generation: u64,
    lastChanged: u32,
    echoes: seq<Echo>,
    published: bool,
    publishable: bool)

  datatype Subtype = SetSelectionOwner | WindowDestroy | ClientClose

  datatype Notify = Notify(subtype: Subtype, owner: u32, timestamp: u32, selectionTimestamp: u32)

  /** What a transition leaves its caller to do. */
  datatype Effects = Effects(destroy: seq<OfferId>, cleared: Option<XOwner>, notify: Option<Notify>, at: u32)

  const NO_EFFECTS := Effects([], None, None, 0)

  /** Everything the clipboard lock guards, with the clock floor its transitions push. */
  datatype Board = Board(sels: Two<SelState>, lastTimestamp: u32, floor: u32) {
    function With(k: Sel, s: SelState): Board {
      this.(sels := sels.Set(k, s))
    }
  }

  /** A transition's outcome; `effects` is `None` when the request was ignored. */
  datatype Result = Result(board: Board, queue: ClipJobs.Queue, dropped: seq<ClipJobs.Job>, effects: Option<Effects>)

  // --- the transitions, on values ---

  function Enter(s: SelState, owner: Owner): SelState {
    s.(generation := (s.generation + 1) % TWO_TO_64, owner := owner)
  }

  /** Whether an announcement looks like the one owed us next. */
  predicate MatchesFront(echoes: seq<Echo>, hasOffer: bool, mimes: seq<string>) {
    echoes != [] && (if echoes[0] == Source then hasOffer && mimes == TEXT_MIMES else !hasOffer)
  }

  function TakeEcho(s: SelState, hasOffer: bool, mimes: seq<string>): (SelState, bool) {
    if MatchesFront(s.echoes, hasOffer, mimes)
    then (s.(echoes := s.echoes[1..], published := hasOffer), true)
    else (s, false)
  }

  function OwnerOf(offer: Option<OfferId>, mimes: seq<string>): Owner {
    if offer.Some? then Wayland(offer.value, mimes) else Nobody
  }

  function Listed(offer: Option<OfferId>): seq<OfferId> {
    if offer.Some? then [offer.value] else []
  }

  function ClearedOf(o: Owner): Option<XOwner> {
    if o.X? then Some(o.x) else None
  }

  function Announced(b: Board, raw: u32, k: Sel, offer: Option<OfferId>, mimes: seq<string>): (Board, Effects) {
    var (s, echo) := TakeEcho(b.sels.Get(k), offer.Some?, mimes);
    if echo && s.owner.X? then (b.With(k, s), NO_EFFECTS.(destroy := Listed(offer)))
    else if echo && offer.None? && s.owner.Nobody? then (b.With(k, s), NO_EFFECTS)
    else
      var owner := OwnerOf(offer, mimes);
      var at := NextTimestamp(ServerTime(raw, b.floor), b.lastTimestamp);
      var entered := Enter(s.(lastChanged := at, published := echo && s.published), owner);
      (Board(b.sels.Set(k, entered), at, NotedFloor(b.floor, at)),
       Effects(s.owner.Offers(), ClearedOf(s.owner), Some(Notify(SetSelectionOwner, owner.Window(), at, at)), at))
  }

  function ChangedAt(b: Board, k: Sel, time: u32): Board {
    b.With(k, b.sels.Get(k).(lastChanged := time))
     .(lastTimestamp := if TimeCmp(time, b.lastTimestamp) > 0 then time else b.lastTimestamp)
  }

  function XTook(b: Board, raw: u32, k: Sel, window: u32, client: ClientId, time: u32): (Board, Option<Effects>) {
    var s := b.sels.Get(k);
    if StaleOwnerTime(time, ServerTime(raw, b.floor), s.lastChanged) then (b, None)
    else
      (ChangedAt(b.With(k, Enter(s, X(XOwner(window, client, time, None)))), k, time),
       Some(Effects(s.owner.Offers(),
                    if s.owner.X? && s.owner.x.client != client then Some(s.owner.x) else None,
                    None, time)))
  }

  function Publish(b: Board, q: ClipJobs.Queue, k: Sel, data: Option<Bytes>, now: Millis)
    : (Board, ClipJobs.Queue, seq<ClipJobs.Job>)
  {
    var s := b.sels.Get(k);
    if !s.publishable then (b, q, []) else
      var owed := if |s.echoes| >= MAX_ECHOES then s.echoes[1..] else s.echoes;
      var (posted, accepted, dropped) := ClipJobs.Post(q, ClipJobs.Publish(k, data), now);
      var after := if accepted
                   then s.(echoes := owed + [if data.Some? then Source else Withdrawn], published := data.Some?)
                   else s.(echoes := owed, published := false);
      (b.With(k, after), posted, dropped)
  }

  function Withdraw(b: Board, q: ClipJobs.Queue, k: Sel, now: Millis)
    : (Board, ClipJobs.Queue, seq<ClipJobs.Job>)
  {
    if b.sels.Get(k).published then Publish(b, q, k, None, now) else (b, q, [])
  }

  function XReleased(b: Board, q: ClipJobs.Queue, raw: u32, k: Sel, time: u32, now: Millis): Result {
    var s := b.sels.Get(k);
    var stamp := ServerTime(raw, b.floor);
    if StaleOwnerTime(time, stamp, s.lastChanged) then Result(b, q, [], None)
    else if s.owner.Wayland? then Result(b, q, [], Some(NO_EFFECTS))
    else
      var left := ChangedAt(if s.owner.X? then b.With(k, Enter(s, Nobody)) else b, k, time);
      var (b', q', dropped) := if s.owner.X? then Withdraw(left, q, k, now) else (left, q, []);
      Result(b', q', dropped,
             Some(Effects([], ClearedOf(s.owner), Some(Notify(SetSelectionOwner, 0, stamp, time)), time)))
  }

  function Acquired(window: u32, time: u32, stamp: u32): Effects {
    Effects([], None, Some(Notify(SetSelectionOwner, window, stamp, time)), time)
  }

  function XFetched(b: Board, q: ClipJobs.Queue, raw: u32, k: Sel, window: u32, time: u32, data: Bytes, now: Millis)
    : Result
  {
    var s := b.sels.Get(k);
    if !s.owner.IsAcquisition(window, time) then Result(b, q, [], None) else
      var held := b.With(k, s.(owner := X(s.owner.x.(data := Some(data)))));
      var (b', q', dropped) := Publish(held, q, k, Some(data), now);
      Result(b', q', dropped, Some(Acquired(window, time, ServerTime(raw, b.floor))))
  }

  function XFetchFailed(b: Board, q: ClipJobs.Queue, raw: u32, k: Sel, window: u32, time: u32, now: Millis): Result {
    if !b.sels.Get(k).owner.IsAcquisition(window, time) then Result(b, q, [], None) else
      var (b', q', dropped) := Withdraw(b, q, k, now);
      Result(b', q', dropped, Some(Acquired(window, time, ServerTime(raw, b.floor))))
  }

  function XOwnerGone(b: Board, q: ClipJobs.Queue, raw: u32, k: Sel, client: ClientId, window: Option<u32>,
                      subtype: Subtype, now: Millis): Result
  {
    var s := b.sels.Get(k);
    if !(s.owner.X? && s.owner.x.client == client && (window.None? || window.value == s.owner.x.window))
    then Result(b, q, [], None)
    else
      var (b', q', dropped) := Withdraw(b.With(k, Enter(s, Nobody)), q, k, now);
      Result(b', q', dropped,
             Some(Effects([], None, Some(Notify(subtype, 0, ServerTime(raw, b.floor), s.lastChanged)), s.lastChanged)))
  }

  // --- what X is told when it asks ---

  function Convertible(s: SelState): (seq<string>, u64) {
    (match s.owner
     case Nobody => []
     case Wayland(_, mimes) => mimes
     case X(x) => if x.data.Some? then TEXT_MIMES else [],
     s.generation)
  }

  function OfferAt(s: SelState, generation: u64): Option<OfferId> {
    if s.owner.Wayland? && s.generation == generation then Some(s.owner.offer) else None
  }

  /** The mutable clipboard, with the queue and the clock its transitions touch. */
  class Clipboard {
    var clipboard: SelState
    var primary: SelState
    var lastTimestamp: u32
    const jobs: ClipJobs.Jobs
    const clock: Clock

    ghost function Contents(): Board
      reads this, clock
    {
      Board(Two(clipboard, primary), lastTimestamp, clock.floor)
    }

    constructor (jobs: ClipJobs.Jobs, clock: Clock)
      ensures this.jobs == jobs && this.clock == clock
      ensures var s := SelState(Nobody, 0, 0, [], false, false);
              Contents() == Board(Two(s, s), 0, clock.floor)
    {
      this.jobs, this.clock := jobs, clock;
      clipboard := SelState(Nobody, 0, 0, [], false, false);
      primary := SelState(Nobody, 0, 0, [], false, false);
      lastTimestamp := 0;
    }

    function SelOf(k: Sel): SelState
      reads this
    {
      if k == Sel.Clipboard then clipboard else primary
    }

    method Store(k: Sel, s: SelState)
      modifies this`clipboard, this`primary
      ensures Contents() == old(Contents()).With(k, s)
    {
      if k == Sel.Clipboard {
        clipboard := s;
      } else {
        primary := s;
      }
    }

    method Stamp(raw: u32) returns (at: u32)
      modifies this`lastTimestamp, clock
      ensures at == NextTimestamp(ServerTime(raw, old(clock.floor)), old(lastTimestamp))
      ensures lastTimestamp == at && clock.floor == NotedFloor(old(clock.floor), at)
    {
      at := clock.ServerTimeMs(raw);
      if TimeCmp(at, lastTimestamp) <= 0 {
        at := (lastTimestamp + 1) % TWO_TO_32;
      }
      lastTimestamp := at;
      clock.NoteSelectionTime(at);
    }

    method NoteChange(k: Sel, time: u32)
      modifies this
      ensures Contents() == ChangedAt(old(Contents()), k, time)
    {
      if TimeCmp(time, lastTimestamp) > 0 {
        lastTimestamp := time;
      }
      Store(k, SelOf(k).(lastChanged := time));
    }

    method WaylandAnnounced(raw: u32, k: Sel, offer: Option<OfferId>, mimes: seq<string>) returns (fx: Effects)
      modifies this, clock
      ensures (Contents(), fx) == Announced(old(Contents()), raw, k, offer, mimes)
    {
      fx := NO_EFFECTS;
      var s := SelOf(k);
      var echo := MatchesFront(s.echoes, offer.Some?, mimes);
      if echo {
        s := s.(echoes := s.echoes[1..], published := offer.Some?);
        Store(k, s);
        if s.owner.X? {
          return fx.(destroy := Listed(offer));
        }
        if offer.None? && s.owner.Nobody? {
          return;
        }
      }
      var at := Stamp(raw);
      var prev := s.owner;
      s := s.(lastChanged := at);
      if !echo {
        s := s.(published := false);
      }
      s := s.(generation := (s.generation + 1) % TWO_TO_64, owner := OwnerOf(offer, mimes));
      Store(k, s);
      fx := Effects(prev.Offers(), ClearedOf(prev), Some(Notify(SetSelectionOwner, s.owner.Window(), at, at)), at);
    }

    method Took(raw: u32, k: Sel, window: u32, client: ClientId, time: u32) returns (fx: Option<Effects>)
      modifies this
      ensures (Contents(), fx) == XTook(old(Contents()), raw, k, window, client, time)
    {
      var s := SelOf(k);
      var now := clock.ServerTimeMs(raw);
      if StaleOwnerTime(time, now, s.lastChanged) {
        return None;
      }
      var prev := s.owner;
      Store(k, Enter(s, X(XOwner(window, client, time, None))));
      NoteChange(k, time);
      fx := Some(NO_EFFECTS.(at := time));
      if prev.X? {
        if prev.x.client != client {
          fx := Some(fx.value.(cleared := Some(prev.x)));
        }
      } else {
        fx := Some(fx.value.(destroy := prev.Offers()));
      }
    }

    method PublishValue(k: Sel, data: Option<Bytes>, now: Millis) returns (dropped: seq<ClipJobs.Job>)
      modifies this, jobs
      ensures (Contents(), jobs.Contents(), dropped) == Publish(old(Contents()), old(jobs.Contents()), k, data, now)
    {
      dropped := [];
      var s := SelOf(k);
      if !s.publishable {
        return;
      }
      // recorded first; see PublicationLocks for what may come between
      var echo := if data.Some? then Source else Withdrawn;
      if |s.echoes| >= MAX_ECHOES {
        s := s.(echoes := s.echoes[1..]);
      }
      Store(k, s.(echoes := s.echoes + [echo], published := data.Some?));
      var taken;
      taken, dropped := jobs.PostJob(ClipJobs.Publish(k, data), now);
      if !taken {
        s := SelOf(k);
        if s.echoes != [] && s.echoes[|s.echoes| - 1] == echo {
          s := s.(echoes := s.echoes[..|s.echoes| - 1]);
        }
        Store(k, s.(published := false));
      }
    }

    method WithdrawOurs(k: Sel, now: Millis) returns (dropped: seq<ClipJobs.Job>)
      modifies this, jobs
      ensures (Contents(), jobs.Contents(), dropped) == Withdraw(old(Contents()), old(jobs.Contents()), k, now)
    {
      dropped := [];
      if SelOf(k).published {
        dropped := PublishValue(k, None, now);
      }
    }

    method Released(raw: u32, k: Sel, time: u32, now: Millis) returns (fx: Option<Effects>, dropped: seq<ClipJobs.Job>)
      modifies this, jobs
      ensures Result(Contents(), jobs.Contents(), dropped, fx)
           == XReleased(old(Contents()), old(jobs.Contents()), raw, k, time, now)
    {
      dropped := [];
      var s := SelOf(k);
      var stamp := clock.ServerTimeMs(raw);
      if StaleOwnerTime(time, stamp, s.lastChanged) {
        return None, [];
      }
      if s.owner.Wayland? {
        return Some(NO_EFFECTS), [];
      }
      if s.owner.X? {
        Store(k, Enter(s, Nobody));
      }
      NoteChange(k, time);
      if s.owner.X? {
        dropped := WithdrawOurs(k, now);
      }
      fx := Some(Effects([], ClearedOf(s.owner), Some(Notify(SetSelectionOwner, 0, stamp, time)), time));
    }

    method Fetched(raw: u32, k: Sel, window: u32, time: u32, data: Bytes, now: Millis)
      returns (fx: Option<Effects>, dropped: seq<ClipJobs.Job>)
      modifies this, jobs
      ensures Result(Contents(), jobs.Contents(), dropped, fx)
           == XFetched(old(Contents()), old(jobs.Contents()), raw, k, window, time, data, now)
    {
      var s := SelOf(k);
      if !s.owner.IsAcquisition(window, time) {
        return None, [];
      }
      Store(k, s.(owner := X(s.owner.x.(data := Some(data)))));
      dropped := PublishValue(k, Some(data), now);
      var stamp := clock.ServerTimeMs(raw);
      fx := Some(Acquired(window, time, stamp));
    }

    method FetchFailed(raw: u32, k: Sel, window: u32, time: u32, now: Millis)
      returns (fx: Option<Effects>, dropped: seq<ClipJobs.Job>)
      modifies this, jobs
      ensures Result(Contents(), jobs.Contents(), dropped, fx)
           == XFetchFailed(old(Contents()), old(jobs.Contents()), raw, k, window, time, now)
    {
      if !SelOf(k).owner.IsAcquisition(window, time) {
        return None, [];
      }
      dropped := WithdrawOurs(k, now);
      var stamp := clock.ServerTimeMs(raw);
      fx := Some(Acquired(window, time, stamp));
    }

    method OwnerGone(raw: u32, k: Sel, client: ClientId, window: Option<u32>, subtype: Subtype, now: Millis)
      returns (fx: Option<Effects>, dropped: seq<ClipJobs.Job>)
      modifies this, jobs
      ensures Result(Contents(), jobs.Contents(), dropped, fx)
           == XOwnerGone(old(Contents()), old(jobs.Contents()), raw, k, client, window, subtype, now)
    {
      var s := SelOf(k);
      if !(s.owner.X? && s.owner.x.client == client && (window.None? || window.value == s.owner.x.window)) {
        return None, [];
      }
      Store(k, Enter(s, Nobody));
      dropped := WithdrawOurs(k, now);
      var stamp := clock.ServerTimeMs(raw);
      fx := Some(Effects([], None, Some(Notify(subtype, 0, stamp, s.lastChanged)), s.lastChanged));
    }
  }

  // --- the transitions and the clock ---

  function StampsOf(b: Board): Stamps32 {
    Stamps(b.floor, b.lastTimestamp, Two(b.sels.clipboard.lastChanged, b.sels.primary.lastChanged))
  }

  /** An announcement leaves every time alone or stamps a Wayland change. */
  lemma AnnouncementsFollowTheClock(b: Board, raw: u32, k: Sel, offer: Option<OfferId>, mimes: seq<string>)
    ensures var (r, fx) := Announced(b, raw, k, offer, mimes);
            StampsOf(r) == if fx.notify.Some? then WrappedStep(StampsOf(b), raw, FromWayland(k)) else StampsOf(b)
  {
  }

  lemma PublishingKeepsTimes(b: Board, q: ClipJobs.Queue, k: Sel, data: Option<Bytes>, now: Millis)
    ensures StampsOf(Publish(b, q, k, data, now).0) == StampsOf(b)
    ensures StampsOf(Withdraw(b, q, k, now).0) == StampsOf(b)
  {
    hide ClipJobs.Post;
  }

  /** An X client's request is a clock change at its own time, or is ignored; nothing else
      a client does moves a time. */
  lemma RequestsFollowTheClock(b: Board, q: ClipJobs.Queue, raw: u32, k: Sel, window: u32, client: ClientId,
                               time: u32, data: Bytes, subtype: Subtype, now: Millis)
    ensures StampsOf(XTook(b, raw, k, window, client, time).0) == WrappedStep(StampsOf(b), raw, FromClient(k, time))
    ensures StampsOf(XReleased(b, q, raw, k, time, now).board)
         == if b.sels.Get(k).owner.Wayland? then StampsOf(b) else WrappedStep(StampsOf(b), raw, FromClient(k, time))
    ensures StampsOf(XFetched(b, q, raw, k, window, time, data, now).board) == StampsOf(b)
    ensures StampsOf(XFetchFailed(b, q, raw, k, window, time, now).board) == StampsOf(b)
    ensures forall w: Option<u32> :: StampsOf(XOwnerGone(b, q, raw, k, client, w, subtype, now).board) == StampsOf(b)
  {
    hide Publish, Withdraw, TimeCmp;
    var s := b.sels.Get(k);
    var left := ChangedAt(if s.owner.X? then b.With(k, Enter(s, Nobody)) else b, k, time);
    PublishingKeepsTimes(left, q, k, None, now);
    PublishingKeepsTimes(b, q, k, None, now);
    PublishingKeepsTimes(b.With(k, Enter(s, Nobody)), q, k, None, now);
    if s.owner.X? {
      PublishingKeepsTimes(b.With(k, s.(owner := X(s.owner.x.(data := Some(data))))), q, k, Some(data), now);
    }
  }
}
