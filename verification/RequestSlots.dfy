/** The hand-over of a resolution request from an X thread to the Wayland thread, and of its outcome back. */
module RequestSlots {
  import opened BridgeTypes

  datatype Request = Request(id: nat, wlName: nat, width: u16, height: u16)

  datatype Outcome = Changed | Refused

  datatype Slots = Slots(nextId: nat, queued: Option<Request>, inFlight: Option<nat>, done: Option<(nat, Outcome)>)

  const NO_REQUESTS := Slots(0, None, None, None)

  predicate Busy(s: Slots) {
    s.queued.Some? || s.inFlight.Some?
  }

  /** Parks a request; only while none is queued or in flight. */
  function Park(s: Slots, wlName: nat, width: u16, height: u16): Slots {
    Slots(s.nextId + 1, Some(Request(s.nextId + 1, wlName, width, height)), s.inFlight, None)
  }

  predicate Readable(s: Slots, id: nat) {
    s.done.Some? && s.done.value.0 == id
  }

  /** The waiter gives up: what is still queued is withdrawn. */
  function GiveUp(s: Slots, id: nat): Slots {
    if s.queued.Some? && s.queued.value.id == id then s.(queued := None) else s
  }

  function Take(s: Slots): (Slots, Option<Request>) {
    if s.inFlight.Some? || s.queued.None? then (s, None)
    else (s.(queued := None, inFlight := Some(s.queued.value.id)), s.queued)
  }

  function Complete(s: Slots, id: nat, outcome: Outcome): Slots {
    s.(inFlight := if s.inFlight == Some(id) then None else s.inFlight, done := Some((id, outcome)))
  }

  /** What a waiter finds when it looks: its outcome, that it is out of time, or that it must wait. */
  datatype Look = Answered(outcome: Outcome) | OutOfTime | Waiting

  class DynRes {
    var nextId: nat
    var queued: Option<Request>
    var inFlight: Option<nat>
    var done: Option<(nat, Outcome)>

    function View(): Slots
      reads this
    {
      Slots(nextId, queued, inFlight, done)
    }

    constructor ()
      ensures View() == NO_REQUESTS
    {
      nextId, queued, inFlight, done := 0, None, None, None;
    }

    /** One look at the slots by a client that wants to park a request; none while another is in progress. */
    method TryPark(wlName: nat, width: u16, height: u16) returns (id: Option<nat>)
      modifies this
      ensures if Busy(old(View())) then id == None && View() == old(View())
              else id == Some(old(nextId) + 1) && View() == Park(old(View()), wlName, width, height)
    {
      if queued.Some? || inFlight.Some? {
        return None;
      }
      nextId := nextId + 1;
      queued := Some(Request(nextId, wlName, width, height));
      done := None;
      id := Some(nextId);
    }

    /** One look by the waiter of request `id`: its outcome comes before its deadline. */
    method TryCollect(id: nat, expired: bool) returns (look: Look)
      modifies this
      ensures if Readable(old(View()), id) then
                look == Answered(old(done).value.1) && View() == old(View()).(done := None)
              else if expired then look == OutOfTime && View() == GiveUp(old(View()), id)
              else look == Waiting && View() == old(View())
    {
      if done.Some? && done.value.0 == id {
        look := Answered(done.value.1);
        done := None;
        return;
      }
      if !expired {
        return Waiting;
      }
      if queued.Some? && queued.value.id == id {
        queued := None;
      }
      look := OutOfTime;
    }

    method TakeRequest() returns (r: Option<Request>)
      modifies this
      ensures (View(), r) == Take(old(View()))
    {
      if inFlight.Some? || queued.None? {
        return None;
      }
      r := queued;
      queued := None;
      inFlight := Some(r.value.id);
    }

    method CompleteRequest(id: nat, outcome: Outcome)
      modifies this
      ensures View() == Complete(old(View()), id, outcome)
    {
      if inFlight == Some(id) {
        inFlight := None;
      }
      done := Some((id, outcome));
    }
  }
}
