/**
 The daemon's registry of sessions: which incarnation of a session id is registered, and the grace
 timers that remove a terminated session some time after its child has exited. `Next` has the
 timers keyed by session id, as the code does (`ById`), or by incarnation, as a repair would
 (`ByIncarnation`); a run is any sequence of events.
 */
module Registry {

  type Id = string

  datatype Status = Alive | Terminated
  datatype Mark = Notification | TerminatedMarker

  /** One SessionState with its child and cursor. */
  datatype Incarnation = Incarnation(id: Id, status: Status, exited: bool, isOpen: bool, marks: seq<Mark>)

  datatype Key = SessionKey(id: Id) | IncarnationKey(i: nat)
  datatype Timer = Timer(key: Key, id: Id, armedBy: nat, pending: bool)

  datatype Manager = Manager(
    incarnations: seq<Incarnation>,
    sessions: map<Id, nat>,
    graceCancels: map<Key, nat>,
    timers: seq<Timer>)

  datatype Policy = ById | ByIncarnation

  datatype Step =
    | Register(id: Id)       // end of createSession, or start of loadSession
    | Notify(i: nat)         // a notification from the child of incarnation i
    | Exit(i: nat)           // an exit event of that child
    | Terminate(id: Id)
    | Cleanup(i: nat)        // a failed loadSession tears its incarnation down
    | Fire(timer: nat)

  function Initial(): Manager { Manager([], map[], map[], []) }

  function KeyOf(policy: Policy, id: Id, i: nat): Key {
    if policy == ById then SessionKey(id) else IncarnationKey(i)
  }

  function PushMark(c: Incarnation, mark: Mark): Incarnation {
    if c.isOpen then c.(marks := c.marks + [mark]) else c
  }

  function Cancel(m: Manager, key: Key): Manager {
    if key in m.graceCancels && m.graceCancels[key] < |m.timers| then
      var t := m.graceCancels[key];
      m.(graceCancels := m.graceCancels - {key}, timers := m.timers[t := m.timers[t].(pending := false)])
    else m.(graceCancels := m.graceCancels - {key})
  }

  function Scheduled(m: Manager, key: Key, id: Id, i: nat): Manager {
    if key in m.graceCancels then m
    else m.(graceCancels := m.graceCancels[key := |m.timers|], timers := m.timers + [Timer(key, id, i, true)])
  }

  function Shut(m: Manager, i: nat): Manager
    requires i < |m.incarnations|
  {
    m.(incarnations := m.incarnations[i := m.incarnations[i].(status := Terminated, isOpen := false)])
  }

  /** The child of incarnation `i` has exited: mark the session and tell its readers. */
  function Ended(m: Manager, i: nat): Manager
    requires i < |m.incarnations|
  {
    m.(incarnations := m.incarnations[i :=
      PushMark(m.incarnations[i].(status := Terminated, exited := true), TerminatedMarker)])
  }

  function Next(policy: Policy, m: Manager, step: Step): Manager {
    match step
    case Register(id) =>
      m.(incarnations := m.incarnations + [Incarnation(id, Alive, false, true, [])],
         sessions := m.sessions[id := |m.incarnations|])
    case Notify(i) =>
      if i >= |m.incarnations| || m.incarnations[i].status != Alive then m
      else m.(incarnations := m.incarnations[i := PushMark(m.incarnations[i], Notification)])
    case Exit(i) =>
      if i >= |m.incarnations| then m
      else
        var id := m.incarnations[i].id;
        Scheduled(Ended(m, i), KeyOf(policy, id, i), id, i)
    case Terminate(id) =>
      if id !in m.sessions || m.sessions[id] >= |m.incarnations| then m
      else
        var i := m.sessions[id];
        Shut(Cancel(m.(sessions := m.sessions - {id}), KeyOf(policy, id, i)), i)
    case Cleanup(i) =>
      if i >= |m.incarnations| then m
      else
        var id := m.incarnations[i].id;
        Shut(Cancel(m.(sessions := m.sessions - {id}), KeyOf(policy, id, i)), i)
    case Fire(t) =>
      if t >= |m.timers| || !m.timers[t].pending then m
      else
        var timer := m.timers[t];
        var fired := m.(timers := m.timers[t := timer.(pending := false)],
                        graceCancels := m.graceCancels - {timer.key});
        if timer.id !in m.sessions || m.sessions[timer.id] >= |m.incarnations| then fired
        else
          var i := m.sessions[timer.id];
          if policy == ByIncarnation && timer.armedBy != i then fired
          else fired.(sessions := m.sessions - {timer.id},
                      incarnations := m.incarnations[i := m.incarnations[i].(isOpen := false)])
  }

  function Run(policy: Policy, steps: seq<Step>): Manager {
    if steps == [] then Initial() else Next(policy, Run(policy, steps[..|steps| - 1]), steps[|steps| - 1])
  }

  // ---- what holds in every reachable state, under either policy ----

  /** After the first exit marker a cursor gets nothing but exit markers. */
  predicate OnlyMarkersAfterExit(marks: seq<Mark>) {
    forall j, k | 0 <= j < k < |marks| && marks[j] == TerminatedMarker :: marks[k] == TerminatedMarker
  }

  predicate Coherent(c: Incarnation) {
    && (c.exited ==> c.status == Terminated)
    && (c.status == Alive ==> TerminatedMarker !in c.marks)
    && OnlyMarkersAfterExit(c.marks)
  }

  /** Timers and cancel handles correspond, and a timer was armed by an exit of its incarnation. */
  ghost predicate TimersMatch(policy: Policy, m: Manager) {
    && (forall key | key in m.graceCancels ::
          var t := m.graceCancels[key]; t < |m.timers| && m.timers[t].pending && m.timers[t].key == key)
    && (forall t | 0 <= t < |m.timers| ::
          var timer := m.timers[t];
          && timer.armedBy < |m.incarnations|
          && m.incarnations[timer.armedBy].id == timer.id
          && m.incarnations[timer.armedBy].exited
          && timer.key == KeyOf(policy, timer.id, timer.armedBy)
          && (timer.pending ==> timer.key in m.graceCancels && m.graceCancels[timer.key] == t))
  }

  ghost predicate Registered(m: Manager, policy: Policy) {
    forall id | id in m.sessions ::
      var i := m.sessions[id];
      && i < |m.incarnations|
      && m.incarnations[i].id == id
      && m.incarnations[i].isOpen
      && (m.incarnations[i].status == Terminated ==> m.incarnations[i].exited && KeyOf(policy, id, i) in m.graceCancels)
  }

  ghost predicate Inv(policy: Policy, m: Manager) {
    && (forall i | 0 <= i < |m.incarnations| :: Coherent(m.incarnations[i]))
    && TimersMatch(policy, m)
    && Registered(m, policy)
  }

  lemma PushMarkCoherent(c: Incarnation, mark: Mark)
    requires Coherent(c) && (mark == Notification ==> c.status == Alive) && (c.status == Alive ==> mark == Notification)
    ensures Coherent(PushMark(c, mark))
  {
  }

  lemma NotifyKeeps(policy: Policy, m: Manager, i: nat)
    requires Inv(policy, m)
    ensures Inv(policy, Next(policy, m, Notify(i)))
  {
    if i < |m.incarnations| && m.incarnations[i].status == Alive {
      PushMarkCoherent(m.incarnations[i], Notification);
    }
  }

  lemma ScheduleKeeps(policy: Policy, m: Manager, i: nat)
    requires TimersMatch(policy, m) && i < |m.incarnations| && m.incarnations[i].exited
    ensures var id := m.incarnations[i].id; var key := KeyOf(policy, id, i);
      var n := Scheduled(m, key, id, i);
      && TimersMatch(policy, n)
      && n.incarnations == m.incarnations && n.sessions == m.sessions
      && n.graceCancels.Keys == m.graceCancels.Keys + {key}
  {
  }

  lemma EndedKeeps(policy: Policy, m: Manager, i: nat)
    requires Inv(policy, m) && i < |m.incarnations|
    ensures var n := Ended(m, i);
      && n.sessions == m.sessions && |n.incarnations| == |m.incarnations|
      && (forall j | 0 <= j < |n.incarnations| :: Coherent(n.incarnations[j]))
      && (forall j | 0 <= j < |n.incarnations| ::
            n.incarnations[j].id == m.incarnations[j].id && n.incarnations[j].isOpen == m.incarnations[j].isOpen)
      && n.incarnations[i].exited
      && (forall j | 0 <= j < |n.incarnations| && j != i :: n.incarnations[j] == m.incarnations[j])
      && TimersMatch(policy, n)
  {
    PushMarkCoherent(m.incarnations[i].(status := Terminated, exited := true), TerminatedMarker);
  }

  lemma ExitKeeps(policy: Policy, m: Manager, i: nat)
    requires Inv(policy, m)
    ensures Inv(policy, Next(policy, m, Exit(i)))
  {
    if i < |m.incarnations| {
      EndedKeeps(policy, m, i);
      ScheduleKeeps(policy, Ended(m, i), i);
      hide Ended, Scheduled, TimersMatch, Coherent, PushMark;
      var n := Scheduled(Ended(m, i), KeyOf(policy, m.incarnations[i].id, i), m.incarnations[i].id, i);
      assert Registered(n, policy);
      assert Inv(policy, n);
    }
  }

  lemma CancelKeeps(policy: Policy, m: Manager, id: Id, key: Key)
    requires TimersMatch(policy, m)
    ensures TimersMatch(policy, Cancel(m.(sessions := m.sessions - {id}), key))
  {
  }

  lemma ShutKeeps(policy: Policy, m: Manager, i: nat)
    requires i < |m.incarnations| && TimersMatch(policy, m)
    requires forall j | 0 <= j < |m.incarnations| :: Coherent(m.incarnations[j])
    ensures TimersMatch(policy, Shut(m, i))
    ensures forall j | 0 <= j < |m.incarnations| :: Coherent(Shut(m, i).incarnations[j])
  {
    hide OnlyMarkersAfterExit;
  }

  lemma OthersRegistered(policy: Policy, m: Manager, c: Manager, i: nat)
    requires Registered(m, policy) && i < |m.incarnations|
    requires var id := m.incarnations[i].id;
      && c.incarnations == m.incarnations && c.sessions == m.sessions - {id}
      && c.graceCancels == m.graceCancels - {KeyOf(policy, id, i)}
    ensures Registered(Shut(c, i), policy)
  {
  }

  /** Terminate and Cleanup: unregister the id, cancel one handle, shut one incarnation. */
  lemma RemoveKeeps(policy: Policy, m: Manager, i: nat)
    requires Inv(policy, m) && i < |m.incarnations|
    ensures var id := m.incarnations[i].id;
      Inv(policy, Shut(Cancel(m.(sessions := m.sessions - {id}), KeyOf(policy, id, i)), i))
  {
    hide Cancel, Coherent, TimersMatch, Registered;
    var id := m.incarnations[i].id;
    CancelKeeps(policy, m, id, KeyOf(policy, id, i));
    var cancelled := Cancel(m.(sessions := m.sessions - {id}), KeyOf(policy, id, i));
    CancelFrame(m.(sessions := m.sessions - {id}), KeyOf(policy, id, i));
    ShutKeeps(policy, cancelled, i);
    OthersRegistered(policy, m, cancelled, i);
  }

  lemma CancelFrame(m: Manager, key: Key)
    ensures var c := Cancel(m, key);
      c.incarnations == m.incarnations && c.sessions == m.sessions && c.graceCancels == m.graceCancels - {key}
  {
  }

  lemma FireKeeps(policy: Policy, m: Manager, t: nat)
    requires Inv(policy, m)
    ensures Inv(policy, Next(policy, m, Fire(t)))
  {
    hide TimersMatch, Registered, OnlyMarkersAfterExit, PushMark, Ended, Scheduled, Cancel, Shut;
    FireTimers(policy, m, t);
    FireRegistered(policy, m, t);
  }

  lemma FireTimers(policy: Policy, m: Manager, t: nat)
    requires TimersMatch(policy, m)
    ensures TimersMatch(policy, Next(policy, m, Fire(t)))
  {
    hide PushMark, Ended, Scheduled, Cancel, Shut;
  }

  lemma FireRegistered(policy: Policy, m: Manager, t: nat)
    requires TimersMatch(policy, m) && Registered(m, policy)
    ensures Registered(Next(policy, m, Fire(t)), policy)
  {
    hide PushMark, Ended, Scheduled, Cancel, Shut;
  }

  lemma NextKeeps(policy: Policy, m: Manager, step: Step)
    requires Inv(policy, m)
    ensures Inv(policy, Next(policy, m, step))
  {
    match step
    case Register(id) =>
    case Notify(i) => NotifyKeeps(policy, m, i);
    case Exit(i) => ExitKeeps(policy, m, i);
    case Terminate(id) =>
      if id in m.sessions {
        RemoveKeeps(policy, m, m.sessions[id]);
      }
    case Cleanup(i) =>
      if i < |m.incarnations| {
        RemoveKeeps(policy, m, i);
      }
    case Fire(t) => FireKeeps(policy, m, t);
  }

  lemma {:induction false} Reachable(policy: Policy, steps: seq<Step>)
    ensures Inv(policy, Run(policy, steps))
  {
    if steps != [] {
      hide Inv; hide Next;
      Reachable(policy, steps[..|steps| - 1]);
      NextKeeps(policy, Run(policy, steps[..|steps| - 1]), steps[|steps| - 1]);
    }
  }

  /**
   Every registered session has an open cursor and its own id; a registered session that has ended
   has an exited child and a grace timer under way; and after the first exit nothing but exit
   markers enters a cursor. This holds in every reachable state, under either policy.
   */
  lemma {:induction false} RegisteredSessions(policy: Policy, steps: seq<Step>)
    ensures var m := Run(policy, steps);
      && (forall id | id in m.sessions ::
            var i := m.sessions[id];
            && i < |m.incarnations|
            && m.incarnations[i].id == id && m.incarnations[i].isOpen
            && (m.incarnations[i].status == Terminated ==>
                  && m.incarnations[i].exited
                  && var key := KeyOf(policy, id, i);
                     key in m.graceCancels && m.graceCancels[key] < |m.timers|
                       && m.timers[m.graceCancels[key]].pending))
      && (forall c | c in m.incarnations :: OnlyMarkersAfterExit(c.marks))
  {
    Reachable(policy, steps);
  }

  // ---- which sessions a grace timer removes ----

  predicate IsAlive(m: Manager, id: Id) {
    id in m.sessions && m.sessions[id] < |m.incarnations| && m.incarnations[m.sessions[id]].status == Alive
  }

  /** Firing timer `t` takes an alive session out of the registry. */
  ghost predicate RemovesAlive(policy: Policy, m: Manager, t: nat) {
    exists id | id in m.sessions :: IsAlive(m, id) && id !in Next(policy, m, Fire(t)).sessions
  }

  lemma RemovesAliveIff(m: Manager, t: nat)
    ensures RemovesAlive(ById, m, t) <==> t < |m.timers| && m.timers[t].pending && IsAlive(m, m.timers[t].id)
  {
    if t < |m.timers| && m.timers[t].pending && IsAlive(m, m.timers[t].id) {
      assert m.timers[t].id !in Next(ById, m, Fire(t)).sessions;
    }
  }

  /** A timer that removes an alive session was armed by an earlier incarnation of that session. */
  lemma {:induction false} OnlyStaleTimersRemoveAlive(steps: seq<Step>, t: nat)
    requires RemovesAlive(ById, Run(ById, steps), t)
    ensures var m := Run(ById, steps);
      && t < |m.timers| && m.timers[t].id in m.sessions
      && m.timers[t].armedBy != m.sessions[m.timers[t].id]
      && m.timers[t].armedBy < |m.incarnations|
      && m.incarnations[m.timers[t].armedBy].id == m.timers[t].id
  {
    Reachable(ById, steps);
    RemovesAliveIff(Run(ById, steps), t);
  }

  /** An id is registered again, or an older incarnation exits, while the other's timer or session is live. */
  predicate Overlaps(m: Manager, step: Step) {
    match step
    case Register(id) => SessionKey(id) in m.graceCancels
    case Exit(i) =>
      i < |m.incarnations| && IsAlive(m, m.incarnations[i].id) && m.sessions[m.incarnations[i].id] != i
    case _ => false
  }

  predicate Orderly(steps: seq<Step>) {
    steps != [] ==>
      && Orderly(steps[..|steps| - 1])
      && !Overlaps(Run(ById, steps[..|steps| - 1]), steps[|steps| - 1])
  }

  ghost predicate NoTimerForAlive(m: Manager) {
    forall id | id in m.sessions && SessionKey(id) in m.graceCancels :: !IsAlive(m, id)
  }

  lemma {:induction false} OrderlyHasNoTimerForAlive(steps: seq<Step>)
    requires Orderly(steps)
    ensures NoTimerForAlive(Run(ById, steps))
  {
    hide Next, Inv, NoTimerForAlive, Overlaps;
    if steps == [] {
      NoTimersYet();
    } else {
      OrderlyHasNoTimerForAlive(steps[..|steps| - 1]);
      Reachable(ById, steps[..|steps| - 1]);
      NoTimerStep(Run(ById, steps[..|steps| - 1]), steps[|steps| - 1]);
    }
  }

  lemma NoTimersYet()
    ensures NoTimerForAlive(Initial())
  {
  }

  lemma NoTimerStep(m: Manager, step: Step)
    requires Inv(ById, m) && NoTimerForAlive(m) && !Overlaps(m, step)
    ensures NoTimerForAlive(Next(ById, m, step))
  {
    hide Coherent, OnlyMarkersAfterExit, Ended, Scheduled, Cancel, Shut;
    match step
    case Register(id) =>
    case Notify(i) =>
    case Exit(i) => NoTimerExit(m, i);
    case Terminate(id) => NoTimerTerminate(m, id);
    case Cleanup(i) => NoTimerCleanup(m, i);
    case Fire(t) =>
  }

  lemma NoTimerTerminate(m: Manager, id: Id)
    requires Inv(ById, m) && NoTimerForAlive(m)
    ensures NoTimerForAlive(Next(ById, m, Terminate(id)))
  {
    hide Coherent, OnlyMarkersAfterExit, Ended, Scheduled;
  }

  lemma NoTimerCleanup(m: Manager, i: nat)
    requires Inv(ById, m) && NoTimerForAlive(m)
    ensures NoTimerForAlive(Next(ById, m, Cleanup(i)))
  {
    hide Coherent, OnlyMarkersAfterExit, Ended, Scheduled;
  }

  lemma NoTimerExit(m: Manager, i: nat)
    requires Inv(ById, m) && NoTimerForAlive(m) && !Overlaps(m, Exit(i))
    ensures NoTimerForAlive(Next(ById, m, Exit(i)))
  {
    hide Coherent, OnlyMarkersAfterExit, Cancel, Shut;
  }

  /**
   Grace timers and alive sessions. A run without overlaps never has a timer that would remove an
   alive session; and a step after such a run makes one possible exactly when it is an overlap.
   */
  lemma GraceIsSafeIffNoOverlap(steps: seq<Step>, step: Step)
    requires Orderly(steps)
    ensures forall t :: !RemovesAlive(ById, Run(ById, steps), t)
    ensures Overlaps(Run(ById, steps), step) <==> exists t :: RemovesAlive(ById, Next(ById, Run(ById, steps), step), t)
  {
    hide Coherent, OnlyMarkersAfterExit, Registered, PushMark, Cancel, Shut;
    var m, n := Run(ById, steps), Next(ById, Run(ById, steps), step);
    Reachable(ById, steps);
    OrderlyHasNoTimerForAlive(steps);
    forall t ensures !RemovesAlive(ById, m, t) {
      RemovesAliveIff(m, t);
    }
    assert (steps + [step])[..|steps|] == steps;
    Reachable(ById, steps + [step]);
    if Overlaps(m, step) {
      var id := if step.Register? then step.id else m.incarnations[step.i].id;
      assert SessionKey(id) in n.graceCancels && IsAlive(n, id);
      RemovesAliveIff(n, n.graceCancels[SessionKey(id)]);
    } else {
      OrderlyHasNoTimerForAlive(steps + [step]);
      forall t ensures !RemovesAlive(ById, n, t) {
        RemovesAliveIff(n, t);
      }
    }
  }

  /** The overlap happens: end a session, let its child exit, load the session again, and the old timer removes it. */
  lemma StaleTimerRemovesAlive(id: Id)
    ensures var m := Run(ById, [Register(id), Terminate(id), Exit(0), Register(id)]);
      && IsAlive(m, id)
      && RemovesAlive(ById, m, 0)
  {
    var steps := [Register(id), Terminate(id), Exit(0), Register(id)];
    assert steps[..3] == [Register(id), Terminate(id), Exit(0)];
    assert steps[..3][..2] == [Register(id), Terminate(id)] && steps[..3][..2][..1] == [Register(id)];
    assert [Register(id)][..0] == [];
    var one := Next(ById, Initial(), Register(id));
    assert Run(ById, [Register(id)]) == one;
    assert Run(ById, steps[..3][..2]) == Next(ById, one, Terminate(id));
    var three := Next(ById, Next(ById, one, Terminate(id)), Exit(0));
    assert Run(ById, steps[..3]) == three;
    assert three.timers == [Timer(SessionKey(id), id, 0, true)];
    assert Run(ById, steps) == Next(ById, three, Register(id));
    RemovesAliveIff(Run(ById, steps), 0);
  }

  /** With timers keyed by incarnation no run at all has a timer that would remove an alive session. */
  lemma {:induction false} RepairedGraceIsSafe(steps: seq<Step>, t: nat)
    ensures !RemovesAlive(ByIncarnation, Run(ByIncarnation, steps), t)
  {
    Reachable(ByIncarnation, steps);
  }

  // ---- what each event does to a session and its readers ----

  /** A registration starts a fresh incarnation, alive and with an empty open cursor, whatever had the id before. */
  lemma RegistrationTakesId(m: Manager, id: Id)
    ensures var (n, i) := (Next(ById, m, Register(id)), |m.incarnations|);
      && n.sessions == m.sessions[id := i] && |n.incarnations| == i + 1 && n.incarnations[..i] == m.incarnations
      && n.incarnations[i] == Incarnation(id, Alive, false, true, [])
  {
  }

  /** A notification of an alive child enters its open cursor, one of an ended child does not. */
  lemma NotificationEnters(m: Manager, i: nat)
    requires i < |m.incarnations|
    ensures var (was, now) := (m.incarnations[i], Next(ById, m, Notify(i)).incarnations[i]);
      now.marks == was.marks + if was.status == Alive && was.isOpen then [Notification] else []
  {
    assert m.incarnations[i].marks + [] == m.incarnations[i].marks;
  }

  /** An exit ends the session, is announced in its cursor if that is open, and leaves a pending timer for its id. */
  lemma ExitIsAnnounced(steps: seq<Step>, i: nat)
    requires i < |Run(ById, steps).incarnations|
    ensures var m := Run(ById, steps);
      var n := Next(ById, m, Exit(i));
      var (was, now) := (m.incarnations[i], n.incarnations[i]);
      && now.status == Terminated && now.exited
      && now.marks == was.marks + (if was.isOpen then [TerminatedMarker] else [])
      && SessionKey(was.id) in n.graceCancels
      && n.graceCancels[SessionKey(was.id)] < |n.timers| && n.timers[n.graceCancels[SessionKey(was.id)]].pending
  {
    hide Run;
    Reachable(ById, steps);
    assert Run(ById, steps).incarnations[i].marks + [] == Run(ById, steps).incarnations[i].marks;
  }

  /** Terminating a registered session unregisters it, ends it, closes its cursor and leaves no timer for its id. */
  lemma TerminateEnds(steps: seq<Step>, id: Id)
    requires id in Run(ById, steps).sessions
    ensures var m := Run(ById, steps);
      var n := Next(ById, m, Terminate(id));
      var i := m.sessions[id];
      && n.sessions == m.sessions - {id} && i < |n.incarnations| && n.incarnations[i].id == id
      && n.incarnations[i].status == Terminated && !n.incarnations[i].isOpen
      && forall t | 0 <= t < |n.timers| && n.timers[t].pending :: n.timers[t].key != SessionKey(id)
  {
    hide Run;
    Reachable(ById, steps);
  }

  /** Cleaning up after a failed load does the same to its incarnation, and to whatever has its id by then. */
  lemma CleanupEnds(steps: seq<Step>, i: nat)
    requires i < |Run(ById, steps).incarnations|
    ensures var m := Run(ById, steps);
      var (n, id) := (Next(ById, m, Cleanup(i)), m.incarnations[i].id);
      && n.sessions == m.sessions - {id} && |n.incarnations| == |m.incarnations|
      && n.incarnations[i].status == Terminated && !n.incarnations[i].isOpen
      && forall t | 0 <= t < |n.timers| && n.timers[t].pending :: n.timers[t].key != SessionKey(id)
  {
    hide Run;
    Reachable(ById, steps);
  }

  /** A timer that fires unregisters its session, if there still is one, and closes that one's cursor. */
  lemma TimerRemoves(steps: seq<Step>, t: nat)
    requires t < |Run(ById, steps).timers| && Run(ById, steps).timers[t].pending
    ensures var m := Run(ById, steps);
      var (n, id) := (Next(ById, m, Fire(t)), m.timers[t].id);
      && n.sessions == m.sessions - {id} && !n.timers[t].pending
      && (id in m.sessions ==> m.sessions[id] < |n.incarnations| && !n.incarnations[m.sessions[id]].isOpen)
      && (forall i | 0 <= i < |m.incarnations| :: n.incarnations[i].marks == m.incarnations[i].marks)
  {
    hide Run;
    Reachable(ById, steps);
  }

  // ---- the registry as the object the daemon holds ----

  class SessionManager {
    var incarnations: seq<Incarnation>
    var sessions: map<Id, nat>
    var graceCancels: map<Key, nat>
    var timers: seq<Timer>

    function State(): Manager
      reads this
    {
      Manager(incarnations, sessions, graceCancels, timers)
    }

    constructor ()
      ensures State() == Initial()
    {
      incarnations, sessions, graceCancels, timers := [], map[], map[], [];
    }

    method RegisterSession(id: Id)
      modifies this
      ensures State() == Next(ById, old(State()), Register(id))
    {
      sessions := sessions[id := |incarnations|];
      incarnations := incarnations + [Incarnation(id, Alive, false, true, [])];
    }

    method OnNotification(i: nat)
      requires i < |incarnations|
      modifies this
      ensures State() == Next(ById, old(State()), Notify(i))
    {
      if incarnations[i].status != Alive {
        return;
      }
      incarnations := incarnations[i := PushMark(incarnations[i], Notification)];
    }

    method OnExit(i: nat)
      requires i < |incarnations|
      modifies this
      ensures State() == Next(ById, old(State()), Exit(i))
    {
      var state := incarnations[i].(status := Terminated, exited := true);
      incarnations := incarnations[i := PushMark(state, TerminatedMarker)];
      ScheduleGrace(state.id, i);
    }

    method ScheduleGrace(id: Id, i: nat)
      modifies `graceCancels, `timers
      ensures State() == Scheduled(old(State()), SessionKey(id), id, i)
    {
      if SessionKey(id) in graceCancels {
        return;
      }
      graceCancels := graceCancels[SessionKey(id) := |timers|];
      timers := timers + [Timer(SessionKey(id), id, i, true)];
    }

    method CancelGrace(id: Id)
      modifies `graceCancels, `timers
      ensures State() == Cancel(old(State()), SessionKey(id))
    {
      if SessionKey(id) in graceCancels && graceCancels[SessionKey(id)] < |timers| {
        var t := graceCancels[SessionKey(id)];
        timers := timers[t := timers[t].(pending := false)];
      }
      graceCancels := graceCancels - {SessionKey(id)};
    }

    method Terminate(id: Id)
      modifies this
      ensures State() == Next(ById, old(State()), Step.Terminate(id))
    {
      if id !in sessions || sessions[id] >= |incarnations| {
        return;
      }
      var i := sessions[id];
      sessions := sessions - {id};
      CancelGrace(id);
      incarnations := incarnations[i := incarnations[i].(status := Terminated, isOpen := false)];
    }

    method OnTimer(t: nat)
      requires t < |timers| && timers[t].pending
      modifies this
      ensures State() == Next(ById, old(State()), Fire(t))
    {
      var id := timers[t].id;
      graceCancels := graceCancels - {timers[t].key};
      timers := timers[t := timers[t].(pending := false)];
      if id !in sessions || sessions[id] >= |incarnations| {
        return;
      }
      var i := sessions[id];
      sessions := sessions - {id};
      incarnations := incarnations[i := incarnations[i].(isOpen := false)];
    }
  }
}
