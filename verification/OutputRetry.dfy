/** Carrying a resolution request out: one output configuration after another until the model shows the size. */
module OutputRetry {
  import opened BridgeTypes
  import opened PixelTransform
  import opened RequestSlots

  const SERIAL_TIMEOUT := 2000
  const APPLY_TIMEOUT := 5000
  const SETTLE_TIMEOUT := 1500
  const CANCEL_TIMEOUT := 2000
  const MAX_CANCELLED := 3
  const DEFAULT_REFRESH_MHZ := 60000

  /** A way of asking for a size. */
  datatype Attempt = Advertised | Custom(refresh: int)

  datatype Phase = NeedSerial | Applying | Settling | Cancelled

  datatype HeadMode = HeadMode(id: nat, width: int, height: int, refresh: int, preferred: bool)

  datatype Head = Head(id: nat, name: Bytes, enabled: bool, modes: seq<HeadMode>)

  datatype Active = Active(
    req: Request, head: nat, modeW: int, modeH: int,
    attempts: seq<Attempt>, current: Option<Attempt>, phase: Phase, deadline: Millis,
    config: Option<nat>, serialUsed: u32, cancelled: nat)

  /** `nextConfig` names the next configuration object; each is used once. */
  datatype Config = Config(serial: Option<u32>, heads: seq<Head>, active: Option<Active>, zeroFirst: bool, nextConfig: nat)

  /** An output as `wl_output` describes it. */
  datatype OutputInfo = OutputInfo(name: Bytes, transform: Transform, refresh: int)

  /** The sizes the RandR model shows, by output name. */
  type Model = map<nat, (u16, u16)>

  predicate Shows(model: Model, r: Request) {
    r.wlName in model && model[r.wlName] == (r.width, r.height)
  }

  // --- a configuration ---

  datatype Entry = Disable(head: nat) | Keep(head: nat) | SetMode(head: nat, mode: nat) | SetCustom(head: nat, width: int, height: int, refresh: int)

  predicate AtSize(m: HeadMode, w: int, h: int) {
    m.width == w && m.height == h
  }

  /** The order in which advertised modes are liked: preferred first, then faster. */
  predicate NotWorse(m: HeadMode, n: HeadMode) {
    (m.preferred && !n.preferred) || (m.preferred == n.preferred && m.refresh >= n.refresh)
  }

  /** The best mode of a size; the last one, if several are. */
  function BestMode(modes: seq<HeadMode>, w: int, h: int): (r: Option<HeadMode>)
    ensures r.None? <==> forall m :: m in modes ==> !AtSize(m, w, h)
    ensures r.Some? ==> r.value in modes && AtSize(r.value, w, h) && forall m :: m in modes && AtSize(m, w, h) ==> NotWorse(r.value, m)
  {
    if modes == [] then None else
      var rest := BestMode(modes[..|modes| - 1], w, h);
      var last := modes[|modes| - 1];
      assert modes == modes[..|modes| - 1] + [last];
      if AtSize(last, w, h) && (rest.None? || NotWorse(last, rest.value)) then Some(last) else rest
  }

  function EntryFor(h: Head, a: Active, attempt: Attempt): Entry {
    if h.id != a.head then (if h.enabled then Keep(h.id) else Disable(h.id))
    else match attempt
      case Custom(refresh) => SetCustom(h.id, a.modeW, a.modeH, refresh)
      case Advertised =>
        var best := BestMode(h.modes, a.modeW, a.modeH);
        if best.Some? then SetMode(h.id, best.value.id) else SetCustom(h.id, a.modeW, a.modeH, 0)
  }

  // --- the steps ---

  /** What a step leaves: the configuration state, the outcome if the request ended, and what was applied. */
  datatype Move = Move(config: Config, ended: Option<(Request, Outcome)>, applied: seq<seq<Entry>>)

  function Stay(c: Config): Move {
    Move(c, None, [])
  }

  function Plan(head: Head, w: int, h: int, refresh: int, zeroFirst: bool): seq<Attempt> {
    var own := Custom(if refresh > 0 then refresh else DEFAULT_REFRESH_MHZ);
    (if BestMode(head.modes, w, h).Some? then [Advertised] else [])
    + if zeroFirst then [Custom(0), own] else [own, Custom(0)]
  }

  /** The head behind the output of that name; a lone head needs no name to be told apart. */
  function HeadNamed(heads: seq<Head>, name: Bytes): (r: Option<Head>)
    ensures r.Some? ==> r.value in heads && (r.value.name == name || (|heads| == 1 && (name == [] || heads[0].name == [])))
  {
    var found := if name == [] then None else FirstNamed(heads, name);
    if found.Some? then found
    else if |heads| == 1 && (name == [] || heads[0].name == []) then Some(heads[0])
    else None
  }

  function FirstNamed(heads: seq<Head>, name: Bytes): (r: Option<Head>)
    ensures r.Some? ==> r.value in heads && r.value.name == name
  {
    if heads == [] then None else if heads[0].name == name then Some(heads[0]) else FirstNamed(heads[1..], name)
  }

  function Start(c: Config, r: Request, output: Option<OutputInfo>, now: Millis): Move {
    if output.None? then Move(c, Some((r, Refused)), []) else
      var head := HeadNamed(c.heads, output.value.name);
      if head.None? then Move(c, Some((r, Refused)), []) else
        var (w, h) := if SwapsAxes(output.value.transform) then (r.height, r.width) else (r.width, r.height);
        Stay(c.(active := Some(Active(r, head.value.id, w, h, Plan(head.value, w, h, output.value.refresh, c.zeroFirst),
                                      None, NeedSerial, now + SERIAL_TIMEOUT, None, 0, 0))))
  }

  function Fail(c: Config): Move {
    if c.active.None? then Stay(c) else Move(c.(active := None), Some((c.active.value.req, Refused)), [])
  }

  /** Success also remembers which custom refresh this compositor takes. */
  function Succeed(c: Config): Move {
    if c.active.None? then Stay(c) else
      var a := c.active.value;
      var zero := if a.current.Some? && a.current.value.Custom? then a.current.value.refresh == 0 else c.zeroFirst;
      Move(c.(active := None, zeroFirst := zero), Some((a.req, Changed)), [])
  }

  function Configuration(heads: seq<Head>, a: Active, attempt: Attempt): (r: seq<Entry>)
    ensures |r| == |heads|
  {
    if heads == [] then [] else
      Configuration(heads[..|heads| - 1], a, attempt) + [EntryFor(heads[|heads| - 1], a, attempt)]
  }

  /** What comes after an attempt: another, while there are any, and the request's failure after that. */
  function ApplyNext(c: Config, now: Millis): Move {
    if c.active.None? || c.serial.None? then Stay(c)
    else if c.active.value.attempts == [] then Fail(c)
    else
      var a := c.active.value;
      var attempt := a.attempts[0];
      Move(c.(active := Some(a.(attempts := a.attempts[1..], config := Some(c.nextConfig), current := Some(attempt),
                                phase := Applying, deadline := now + APPLY_TIMEOUT, serialUsed := c.serial.value)),
              nextConfig := c.nextConfig + 1),
           None, [Configuration(c.heads, a, attempt)])
  }

  /** Moves the active request along. */
  function Advance(c: Config, model: Model, now: Millis): Move {
    if c.active.None? then Stay(c) else
      var a := c.active.value;
      match a.phase
      case NeedSerial => if c.serial.Some? then ApplyNext(c, now) else if now >= a.deadline then Fail(c) else Stay(c)
      case Applying => if now >= a.deadline then Fail(c) else Stay(c)
      case Settling => if Shows(model, a.req) then Succeed(c) else if now >= a.deadline then ApplyNext(c, now) else Stay(c)
      case Cancelled =>
        if c.serial.Some? && c.serial.value != a.serialUsed then ApplyNext(c, now)
        else if now >= a.deadline then Fail(c)
        else Stay(c)
  }

  datatype Answer = Succeeded | Failed | CancelledIt

  /** The compositor's answer to a configuration; answers to any but the current one are dropped. */
  function TakeAnswer(c: Config, config: nat, answer: Answer, model: Model, now: Millis): Move {
    if c.active.None? || c.active.value.config != Some(config) then Stay(c) else
      var a := c.active.value.(config := None);
      match answer
      case Succeeded =>
        var d := c.(active := Some(a.(phase := Settling, deadline := now + SETTLE_TIMEOUT)));
        if Shows(model, a.req) then Succeed(d) else Stay(d)
      case Failed => ApplyNext(c.(active := Some(a)), now)
      case CancelledIt =>
        var b := a.(cancelled := a.cancelled + 1);
        if b.cancelled > MAX_CANCELLED then Fail(c.(active := Some(b)))
        else
          var e := b.(attempts := (if a.current.Some? then [a.current.value] else []) + a.attempts, current := None,
                      phase := Cancelled, deadline := now + CANCEL_TIMEOUT);
          Advance(c.(active := Some(e)), model, now)
  }

  function SerialSent(c: Config, serial: u32, model: Model, now: Millis): Move {
    Advance(c.(serial := Some(serial)), model, now)
  }

  function OutputShown(c: Config, wlName: nat, model: Model): Move {
    if c.active.Some? && c.active.value.req.wlName == wlName && c.active.value.phase == Settling && Shows(model, c.active.value.req)
    then Succeed(c) else Stay(c)
  }

  function OutputGone(c: Config, wlName: nat): Move {
    if c.active.Some? && c.active.value.req.wlName == wlName then Fail(c) else Stay(c)
  }

  function WithoutHead(heads: seq<Head>, id: nat): seq<Head> {
    if heads == [] then [] else if heads[0].id == id then heads[1..] else [heads[0]] + WithoutHead(heads[1..], id)
  }

  function HeadGone(c: Config, id: nat): Move {
    var d := c.(heads := WithoutHead(c.heads, id));
    if c.active.Some? && c.active.value.head == id then Fail(d) else Stay(d)
  }

  // --- the object itself ---

  class OutputConfig {
    var serial: Option<u32>
    var heads: seq<Head>
    var active: Option<Active>
    var zeroFirst: bool
    var nextConfig: nat

    function View(): Config
      reads this
    {
      Config(serial, heads, active, zeroFirst, nextConfig)
    }

    constructor ()
      ensures View() == Config(None, [], None, true, 0)
    {
      serial, heads, active, zeroFirst, nextConfig := None, [], None, true, 0;
    }

    /** Resolves a request against the outputs and heads of the moment. */
    method Begin(r: Request, output: Option<OutputInfo>, now: Millis) returns (ended: Option<(Request, Outcome)>)
      modifies this
      ensures Move(View(), ended, []) == Start(old(View()), r, output, now)
    {
      if output.None? {
        return Some((r, Refused));
      }
      var head := HeadNamed(heads, output.value.name);
      if head.None? {
        return Some((r, Refused));
      }
      var w: int, h: int := r.width, r.height;
      if SwapsAxes(output.value.transform) {
        w, h := h, w;
      }
      active := Some(Active(r, head.value.id, w, h, Plan(head.value, w, h, output.value.refresh, zeroFirst),
                            None, NeedSerial, now + SERIAL_TIMEOUT, None, 0, 0));
      ended := None;
    }

    method GiveUpOn() returns (ended: Option<(Request, Outcome)>)
      modifies this`active
      ensures Move(View(), ended, []) == Fail(old(View()))
    {
      if active.None? {
        return None;
      }
      ended := Some((active.value.req, Refused));
      active := None;
    }

    method Finish() returns (ended: Option<(Request, Outcome)>)
      modifies this`active, this`zeroFirst
      ensures Move(View(), ended, []) == Succeed(old(View()))
    {
      if active.None? {
        return None;
      }
      var current := active.value.current;
      if current.Some? && current.value.Custom? {
        zeroFirst := current.value.refresh == 0;
      }
      ended := Some((active.value.req, Changed));
      active := None;
    }

    /** Configures every head: the one asked about gets the mode, the rest keep what they have. */
    method Configure(a: Active, attempt: Attempt) returns (entries: seq<Entry>)
      ensures entries == Configuration(heads, a, attempt)
    {
      entries := [];
      for i := 0 to |heads|
        invariant entries == Configuration(heads[..i], a, attempt)
      {
        var h := heads[i];
        assert heads[..i + 1][..i] == heads[..i];
        if !h.enabled && h.id != a.head {
          entries := entries + [Disable(h.id)];
        } else if h.id != a.head {
          entries := entries + [Keep(h.id)];
        } else {
          entries := entries + [EntryFor(h, a, attempt)];
        }
      }
      assert heads[..|heads|] == heads;
    }

    method ApplyNextAttempt(now: Millis) returns (ended: Option<(Request, Outcome)>, applied: seq<seq<Entry>>)
      modifies this
      ensures Move(View(), ended, applied) == ApplyNext(old(View()), now)
    {
      ended, applied := None, [];
      if active.None? || serial.None? {
        return;
      }
      if active.value.attempts == [] {
        ended := GiveUpOn();
        return;
      }
      var attempt := active.value.attempts[0];
      var entries := Configure(active.value, attempt);
      active := Some(active.value.(attempts := active.value.attempts[1..], config := Some(nextConfig), current := Some(attempt),
                                   phase := Applying, deadline := now + APPLY_TIMEOUT, serialUsed := serial.value));
      nextConfig := nextConfig + 1;
      applied := [entries];
    }

    method MoveAlong(model: Model, now: Millis) returns (ended: Option<(Request, Outcome)>, applied: seq<seq<Entry>>)
      modifies this
      ensures Move(View(), ended, applied) == Advance(old(View()), model, now)
    {
      hide ApplyNext;
      ended, applied := None, [];
      if active.None? {
        return;
      }
      var a := active.value;
      match a.phase
      case NeedSerial =>
        if serial.Some? {
          ended, applied := ApplyNextAttempt(now);
        } else if now >= a.deadline {
          ended := GiveUpOn();
        }
      case Applying =>
        if now >= a.deadline {
          ended := GiveUpOn();
        }
      case Settling =>
        if Shows(model, a.req) {
          ended := Finish();
        } else if now >= a.deadline {
          ended, applied := ApplyNextAttempt(now);
        }
      case Cancelled =>
        if serial.Some? && serial.value != a.serialUsed {
          ended, applied := ApplyNextAttempt(now);
        } else if now >= a.deadline {
          ended := GiveUpOn();
        }
    }

    method HandleAnswer(config: nat, answer: Answer, model: Model, now: Millis)
      returns (ended: Option<(Request, Outcome)>, applied: seq<seq<Entry>>)
      modifies this
      ensures Move(View(), ended, applied) == TakeAnswer(old(View()), config, answer, model, now)
    {
      hide ApplyNext, Advance;
      ended, applied := None, [];
      if active.None? || active.value.config != Some(config) {
        return;
      }
      active := Some(active.value.(config := None));
      match answer
      case Succeeded =>
        active := Some(active.value.(phase := Settling, deadline := now + SETTLE_TIMEOUT));
        if Shows(model, active.value.req) {
          ended := Finish();
        }
      case Failed =>
        ended, applied := ApplyNextAttempt(now);
      case CancelledIt =>
        active := Some(active.value.(cancelled := active.value.cancelled + 1));
        if active.value.cancelled > MAX_CANCELLED {
          ended := GiveUpOn();
          return;
        }
        var again := if active.value.current.Some? then [active.value.current.value] else [];
        active := Some(active.value.(attempts := again + active.value.attempts, current := None, phase := Cancelled,
                                     deadline := now + CANCEL_TIMEOUT));
        ended, applied := MoveAlong(model, now);
    }

    method HandleSerial(s: u32, model: Model, now: Millis) returns (ended: Option<(Request, Outcome)>, applied: seq<seq<Entry>>)
      modifies this
      ensures Move(View(), ended, applied) == SerialSent(old(View()), s, model, now)
    {
      serial := Some(s);
      ended, applied := MoveAlong(model, now);
    }

    method HandleOutput(wlName: nat, model: Model) returns (ended: Option<(Request, Outcome)>)
      modifies this
      ensures Move(View(), ended, []) == OutputShown(old(View()), wlName, model)
    {
      ended := None;
      if active.Some? && active.value.req.wlName == wlName && active.value.phase == Settling && Shows(model, active.value.req) {
        ended := Finish();
      }
    }
  }
}
