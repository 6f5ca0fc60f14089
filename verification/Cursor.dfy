/** The bounded event buffer of one session: numbered events, of which the latest few are kept. */
module Cursor {
  import opened Wrappers

  datatype CursorEvent = CursorEvent(id: nat, data: string)

  datatype CursorState = CursorState(capacity: nat, ring: seq<CursorEvent>, latest: nat, closed: bool)

  function Empty(capacity: int): CursorState {
    CursorState(if capacity < 1 then 1 else capacity, [], 0, false)
  }

  /** A closed cursor refuses the event. */
  function Pushed(c: CursorState, data: string): CursorState {
    if c.closed then c
    else
      var ring := c.ring + [CursorEvent(c.latest + 1, data)];
      c.(latest := c.latest + 1, ring := if |ring| > c.capacity then ring[1..] else ring)
  }

  function Newer(ring: seq<CursorEvent>, fromCursor: nat): seq<CursorEvent> {
    if ring == [] then []
    else (if ring[0].id > fromCursor then [ring[0]] else []) + Newer(ring[1..], fromCursor)
  }

  function Replayed(c: CursorState, fromCursor: nat): seq<CursorEvent> {
    if fromCursor >= c.latest then [] else Newer(c.ring, fromCursor)
  }

  predicate CanResumeFrom(c: CursorState, fromCursor: nat) {
    fromCursor >= c.latest || c.ring == [] || fromCursor + 1 >= c.ring[0].id
  }

  class SessionCursor {
    var ring: seq<CursorEvent>
    const capacity: nat
    var latest: nat
    var closed: bool

    function State(): CursorState
      reads this
    {
      CursorState(capacity, ring, latest, closed)
    }

    constructor (capacity: int)
      ensures State() == Empty(capacity)
    {
      this.capacity := if capacity < 1 then 1 else capacity;
      ring, latest, closed := [], 0, false;
    }

    /** None stands for the exception thrown on a closed cursor. */
    method Push(data: string) returns (id: Option<nat>)
      modifies this
      ensures State() == Pushed(old(State()), data)
      ensures id == if old(closed) then None else Some(old(latest) + 1)
    {
      if closed {
        return None;
      }
      latest := latest + 1;
      ring := ring + [CursorEvent(latest, data)];
      if |ring| > capacity {
        ring := ring[1..];
      }
      return Some(latest);
    }

    method Close()
      modifies this
      ensures State() == old(State()).(closed := true)
    {
      closed := true;
    }
  }

  // ---- the ring as a suffix of everything ever pushed ----

  /** Every event ever pushed, numbered from 1. */
  function Events(history: seq<string>): (events: seq<CursorEvent>)
    ensures |events| == |history|
  {
    seq(|history|, i requires 0 <= i < |history| => CursorEvent(i + 1, history[i]))
  }

  predicate Holds(c: CursorState, history: seq<string>) {
    && c.capacity >= 1
    && c.latest == |history|
    && c.ring == Events(history)[if |history| <= c.capacity then 0 else |history| - c.capacity..]
  }

  lemma EmptyHolds(capacity: int)
    ensures Holds(Empty(capacity), [])
  {
  }

  lemma EventsAppend(history: seq<string>, data: string)
    ensures Events(history + [data]) == Events(history) + [CursorEvent(|history| + 1, data)]
  {
  }

  /** The ring stays the last `capacity` events of the whole history. */
  lemma PushHolds(c: CursorState, history: seq<string>, data: string)
    requires Holds(c, history) && !c.closed
    ensures Holds(Pushed(c, data), history + [data])
  {
    EventsAppend(history, data);
  }

  lemma {:induction false} NewerSuffix(events: seq<CursorEvent>, first: nat, fromCursor: nat)
    requires forall i | 0 <= i < |events| :: events[i].id == first + i
    ensures Newer(events, fromCursor)
         == events[if fromCursor < first then 0 else if fromCursor - first >= |events| then |events|
                    else fromCursor - first + 1..]
    decreases |events|
  {
    if events != [] {
      NewerSuffix(events[1..], first + 1, fromCursor);
    }
  }

  /** Replaying from a cursor that can be resumed gives the whole history after it. */
  lemma ReplayIsHistory(c: CursorState, history: seq<string>, fromCursor: nat)
    requires Holds(c, history) && CanResumeFrom(c, fromCursor)
    ensures Replayed(c, fromCursor) == Events(history)[if fromCursor < |history| then fromCursor else |history|..]
  {
    hide Newer;
    if fromCursor < |history| {
      var dropped := |history| - |c.ring|;
      assert forall i | 0 <= i < |c.ring| :: c.ring[i] == Events(history)[dropped + i];
      NewerSuffix(c.ring, dropped + 1, fromCursor);
      assert c.ring[fromCursor - dropped..] == Events(history)[fromCursor..];
    }
  }

  /**
   A client that is behind can resume iff every event it misses is still in the ring. In
   particular a fresh client (0) can resume iff no more events were pushed than the ring holds.
   */
  lemma CanResumeIffKept(c: CursorState, history: seq<string>, fromCursor: nat)
    requires Holds(c, history) && fromCursor < |history|
    ensures CanResumeFrom(c, fromCursor) <==> forall i | fromCursor <= i < |history| :: Events(history)[i] in c.ring
    ensures CanResumeFrom(c, fromCursor) <==> |history| - fromCursor <= c.capacity
  {
    var all, dropped := Events(history), |history| - |c.ring|;
    forall i | dropped <= i < |all| ensures all[i] in c.ring {
      assert all[i] == c.ring[i - dropped];
    }
    if fromCursor < dropped {
      assert all[fromCursor] !in c.ring;
    }
  }

  /** A fresh client of a ring of one that has seen two events cannot resume. */
  lemma FreshIsLost()
    ensures !CanResumeFrom(Pushed(Pushed(Empty(1), "a"), "b"), 0)
  {
    var one := Pushed(Empty(1), "a");
    assert one.ring == [CursorEvent(1, "a")];
    assert Pushed(one, "b").ring == [CursorEvent(2, "b")];
  }
}
