/**
 * Long-poll waiters of a session and the coalesced notifications that wake them
 * (agent_collab/daemon.py): one condition variable with its lock, one flag for a scheduled
 * notification, and setters that notify at once. An action is what runs between two
 * suspension points; the lock may be kept across one only by a waiter.
 */
module Wakeup {
  import opened Events

  datatype Wanted = EventsAfter(cursor: nat) | SettledResult

  /** Entering and Woken both wait for the lock; a Woken waiter comes from a wait, which it may have left by timing out. */
  datatype Place = Entering | Woken(timedOut: bool) | Checking | Parked | Returned

  datatype Waiter = Waiter(wants: Wanted, place: Place)

  /** What the waiters' predicates read. */
  datatype Facts = Facts(events: nat, status: Status, accepting: bool, unfinished: nat)

  /**
   * `pending` is the session's flag; `scheduled` counts notification tasks that have not
   * begun, `inFlight` those that have cleared the flag and want the lock, `owed` the setters
   * that changed a fact and have yet to notify.
   */
  datatype Bell = Bell(pending: bool, scheduled: nat, inFlight: nat, owed: nat)

  datatype State = State(facts: Facts, bell: Bell, waiters: seq<Waiter>)

  predicate Wants(f: Facts, w: Wanted) {
    match w
    case EventsAfter(cursor) => f.events > cursor || !Live(f.status)
    case SettledResult => Terminal(f.status) || (f.status.AwaitingInput? && f.accepting && f.unfinished == 0)
  }

  function ScheduleNotify(b: Bell): Bell {
    if b.pending then b else b.(pending := true, scheduled := b.scheduled + 1)
  }

  function Wake(w: Waiter): Waiter { if w.place.Parked? then w.(place := Woken(false)) else w }

  function WakeAll(ws: seq<Waiter>): (r: seq<Waiter>)
    ensures |r| == |ws| && forall i :: 0 <= i < |r| ==> r[i] == Wake(ws[i])
  {
    seq(|ws|, i requires 0 <= i < |ws| => Wake(ws[i]))
  }

  predicate LockFree(s: State) { forall w :: w in s.waiters ==> !w.place.Checking? }

  datatype Action =
    | Record                      // an event is appended
    | TaskDone                    // the input queue's hook
    | Put                         // a post is queued; nobody is told
    | SetAccepting(on: bool)
    | SetStatus(to: Status)       // up to the wait for the lock
    | OtherSetter                 // turn activity or appender: no predicate reads them
    | SetterNotifies
    | SetterCancelled
    | NotifyBegins                // a notification task clears the flag
    | NotifyDelivers
    | Arrive(wants: Wanted, mayBlock: bool)
    | TakeLock(i: nat)
    | Check(i: nat)
    | TimeOut(i: nat)

  predicate Enabled(s: State, a: Action) {
    match a
    case Record => true
    case TaskDone => true
    case Put => true
    case SetAccepting(_) => true
    case SetStatus(_) => Live(s.facts.status)
    case OtherSetter => true
    case SetterNotifies => s.bell.owed > 0 && LockFree(s)
    case SetterCancelled => s.bell.owed > 0
    case NotifyBegins => s.bell.scheduled > 0
    case NotifyDelivers => s.bell.inFlight > 0 && LockFree(s)
    case Arrive(_, _) => true
    case TakeLock(i) => i < |s.waiters| && (s.waiters[i].place.Entering? || s.waiters[i].place.Woken?) && LockFree(s)
    case Check(i) => i < |s.waiters| && s.waiters[i].place.Checking?
    case TimeOut(i) => i < |s.waiters| && (s.waiters[i].place.Parked? || s.waiters[i].place.Woken?)
  }

  /** The cursor of a request is cut to the events there are. */
  function Clamp(f: Facts, w: Wanted): Wanted {
    if w.EventsAfter? && w.cursor > f.events then EventsAfter(f.events) else w
  }

  function Move(s: State, i: nat, p: Place): State
    requires i < |s.waiters|
  {
    s.(waiters := s.waiters[i := s.waiters[i].(place := p)])
  }

  function Apply(s: State, a: Action): State
    requires Enabled(s, a)
  {
    match a
    case Record => s.(facts := s.facts.(events := s.facts.events + 1), bell := ScheduleNotify(s.bell))
    case TaskDone =>
      s.(facts := s.facts.(unfinished := if s.facts.unfinished > 0 then s.facts.unfinished - 1 else 0),
         bell := ScheduleNotify(s.bell))
    case Put => s.(facts := s.facts.(unfinished := s.facts.unfinished + 1))
    case SetAccepting(to) => s.(facts := s.facts.(accepting := to), bell := ScheduleNotify(s.bell))
    case SetStatus(to) => s.(facts := s.facts.(status := to), bell := s.bell.(owed := s.bell.owed + 1))
    case OtherSetter => s.(bell := s.bell.(owed := s.bell.owed + 1))
    case SetterNotifies => s.(bell := s.bell.(owed := s.bell.owed - 1), waiters := WakeAll(s.waiters))
    case SetterCancelled => s.(bell := s.bell.(owed := s.bell.owed - 1))
    case NotifyBegins =>
      s.(bell := s.bell.(pending := false, scheduled := s.bell.scheduled - 1, inFlight := s.bell.inFlight + 1))
    case NotifyDelivers =>
      s.(bell := s.bell.(inFlight := s.bell.inFlight - 1), waiters := WakeAll(s.waiters))
    case Arrive(wants, mayBlock) =>
      var w := Clamp(s.facts, wants);
      s.(waiters := s.waiters + [Waiter(w, if mayBlock && !Wants(s.facts, w) then Entering else Returned)])
    case TakeLock(i) =>
      Move(s, i, if s.waiters[i].place == Woken(true) then Returned else Checking)
    case Check(i) => Move(s, i, if Wants(s.facts, s.waiters[i].wants) then Returned else Parked)
    case TimeOut(i) => Move(s, i, Woken(true))
  }

  predicate Legal(s: State, run: seq<Action>)
    decreases run
  {
    run == [] || (Enabled(s, run[0]) && Legal(Apply(s, run[0]), run[1..]))
  }

  function After(s: State, run: seq<Action>): State
    requires Legal(s, run)
    decreases run
  {
    if run == [] then s else After(Apply(s, run[0]), run[1..])
  }

  function Start(): State {
    State(Facts(0, Running, false, 0), Bell(false, 0, 0, 0), [])
  }

  /** A parked waiter that could return. */
  predicate Missed(s: State, i: nat) {
    i < |s.waiters| && s.waiters[i].place.Parked? && Wants(s.facts, s.waiters[i].wants)
  }

  predicate Coming(b: Bell) { b.pending || b.inFlight > 0 || b.owed > 0 }

  /** The lock has one holder. */
  predicate OneHolder(ws: seq<Waiter>) {
    forall i, j :: 0 <= i < j < |ws| ==> !(ws[i].place.Checking? && ws[j].place.Checking?)
  }

  predicate Inv(s: State) {
    && s.bell.scheduled == (if s.bell.pending then 1 else 0)
    && OneHolder(s.waiters)
  }

  lemma StepKept(s: State, a: Action)
    requires Inv(s) && Enabled(s, a)
    ensures Inv(Apply(s, a))
  {}

  /** A waiter could return, and nothing is coming that would tell it. */
  ghost predicate Unserved(s: State) { !Coming(s.bell) && exists i :: Missed(s, i) }

  /** The step that loses a wakeup: the cancelled setter's notification was the last one coming, and somebody waits for it. */
  ghost predicate Loses(s: State, a: Action) {
    && a.SetterCancelled? && s.bell.owed == 1 && !s.bell.pending && s.bell.inFlight == 0
    && exists i :: Missed(s, i)
  }

  /** Exactly such a step leaves a waiter unserved. */
  lemma LosesExactlyWhen(s: State, a: Action)
    requires Enabled(s, a) && !Unserved(s)
    ensures Unserved(Apply(s, a)) <==> Loses(s, a)
  {
    var t := Apply(s, a);
    if i :| Missed(s, i) {
      if a.SetterCancelled? {
        assert Missed(t, i);
      }
    }
    if i :| Missed(t, i) && !Coming(t.bell) {
      assert Missed(s, i);
    }
  }

  /** Somewhere along the run a waiter is left unserved. */
  ghost predicate EverUnserved(s: State, run: seq<Action>)
    requires Legal(s, run)
    decreases run
  {
    Unserved(s) || (run != [] && EverUnserved(Apply(s, run[0]), run[1..]))
  }

  /** Some step of the run loses a wakeup. */
  ghost predicate EverLoses(s: State, run: seq<Action>)
    requires Legal(s, run)
    decreases run
  {
    run != [] && (Loses(s, run[0]) || EverLoses(Apply(s, run[0]), run[1..]))
  }

  lemma {:induction false} RunKept(s: State, run: seq<Action>)
    requires Inv(s) && Legal(s, run)
    ensures Inv(After(s, run))
    decreases run
  {
    if run != [] {
      StepKept(s, run[0]);
      RunKept(Apply(s, run[0]), run[1..]);
    }
  }

  lemma {:induction false} UnservedExactlyWhen(s: State, run: seq<Action>)
    requires Legal(s, run) && !Unserved(s)
    ensures EverUnserved(s, run) <==> EverLoses(s, run)
    ensures !EverLoses(s, run) ==> !Unserved(After(s, run))
    decreases run
  {
    if run != [] {
      LosesExactlyWhen(s, run[0]);
      if !Loses(s, run[0]) {
        UnservedExactlyWhen(Apply(s, run[0]), run[1..]);
      }
    }
  }

  /**
   * When a wakeup is lost, over every run: some waiter that could return is left with
   * nothing scheduled, in flight or owed, if and only if some setter was cancelled as the
   * last one that would have notified it. At most one notification is ever scheduled,
   * however long the burst.
   */
  lemma NoLostWakeup(run: seq<Action>)
    requires Legal(Start(), run)
    ensures EverUnserved(Start(), run) <==> EverLoses(Start(), run)
    ensures var s := After(Start(), run); s.bell.scheduled <= 1 && (s.bell.pending <==> s.bell.scheduled == 1)
  {
    RunKept(Start(), run);
    assert !Unserved(Start());
    UnservedExactlyWhen(Start(), run);
  }

  /** Some run from here ends with a waiter unserved. */
  ghost predicate CanMiss(s: State) {
    exists run :: Legal(s, run) && Unserved(After(s, run))
  }

  lemma CanMissBefore(s: State, a: Action)
    requires Enabled(s, a) && CanMiss(Apply(s, a))
    ensures CanMiss(s)
  {
    var rest :| Legal(Apply(s, a), rest) && Unserved(After(Apply(s, a), rest));
    var run := [a] + rest;
    assert run[1..] == rest;
    assert Legal(s, run) && After(s, run) == After(Apply(s, a), rest);
  }

  function One(first: Place): State {
    State(Facts(0, Running, false, 0), Bell(false, 0, 0, 0), [Waiter(EventsAfter(0), first)])
  }

  function Two(first: Place, second: Place, status: Status, owed: nat): State {
    State(Facts(0, status, false, 0), Bell(false, 0, 0, owed),
          [Waiter(EventsAfter(0), first), Waiter(SettledResult, second)])
  }

  lemma LastWaiterReturns()
    ensures CanMiss(Two(Parked, Checking, Stopped, 0))
  {
    var end := Two(Parked, Returned, Stopped, 0);
    var before := Two(Parked, Checking, Stopped, 0);
    assert Apply(before, Check(1)).waiters == end.waiters;
    assert Legal(end, []) && Missed(After(end, []), 0) && Unserved(After(end, []));
    CanMissBefore(before, Check(1));
  }

  lemma CancelledWhileLocked()
    ensures CanMiss(Two(Parked, Checking, Running, 0))
  {
    LastWaiterReturns();
    CanMissBefore(Two(Parked, Checking, Stopped, 1), SetterCancelled);
    CanMissBefore(Two(Parked, Checking, Running, 0), SetStatus(Stopped));
  }

  lemma SecondWaiterArrives()
    ensures CanMiss(One(Parked))
  {
    CancelledWhileLocked();
    var entered := Two(Parked, Entering, Running, 0);
    assert Apply(entered, TakeLock(1)).waiters == Two(Parked, Checking, Running, 0).waiters;
    CanMissBefore(entered, TakeLock(1));
    assert Apply(One(Parked), Arrive(SettledResult, true)).waiters == entered.waiters;
    CanMissBefore(One(Parked), Arrive(SettledResult, true));
  }

  /**
   * The cancellation matters: a status setter cancelled while another waiter holds the lock
   * leaves a waiter parked on a terminal session with nothing coming.
   */
  lemma CancelledSetterLosesWakeup()
    ensures CanMiss(Start())
  {
    SecondWaiterArrives();
    assert Apply(One(Checking), Check(0)).waiters == One(Parked).waiters;
    CanMissBefore(One(Checking), Check(0));
    assert Apply(One(Entering), TakeLock(0)).waiters == One(Checking).waiters;
    CanMissBefore(One(Entering), TakeLock(0));
    assert Apply(Start(), Arrive(EventsAfter(0), true)).waiters == One(Entering).waiters;
    CanMissBefore(Start(), Arrive(EventsAfter(0), true));
  }

  // ----- the scheduler alone serves every waiter

  /** Steps the event loop takes by itself: no new fact, no arrival, no timeout. */
  predicate Internal(a: Action) {
    a.SetterNotifies? || a.NotifyBegins? || a.NotifyDelivers? || a.TakeLock? || a.Check?
  }

  function Pending(b: Bell): nat { 2 * b.scheduled + b.inFlight + b.owed }

  function Distance(ws: seq<Waiter>): nat {
    if ws == [] then 0
    else
      Distance(ws[..|ws| - 1]) +
      (match ws[|ws| - 1].place case Entering => 2 case Woken(_) => 2 case Checking => 1 case Parked => 0 case Returned => 0)
  }

  lemma {:induction false} DistanceMove(ws: seq<Waiter>, i: nat, w: Waiter)
    requires i < |ws|
    ensures Distance(ws[i := w]) - Distance(ws) == Distance([w]) - Distance([ws[i]])
  {
    var n := |ws| - 1;
    assert [w][..0] == [] && [ws[i]][..0] == [];
    if i < n {
      DistanceMove(ws[..n], i, w);
      assert ws[i := w][..n] == ws[..n][i := w];
    } else {
      assert ws[i := w][..n] == ws[..n];
    }
  }

  /** Every such step comes closer to rest: fewer notifications, or as many and a waiter further on. */
  lemma InternalStepsDecrease(s: State, a: Action)
    requires Enabled(s, a) && Internal(a)
    ensures var t := Apply(s, a);
            && t.facts == s.facts
            && (|| Pending(t.bell) < Pending(s.bell)
                || (Pending(t.bell) == Pending(s.bell) && Distance(t.waiters) < Distance(s.waiters)))
  {
    if a.TakeLock? || a.Check? {
      var t := Apply(s, a);
      DistanceMove(s.waiters, a.i, t.waiters[a.i]);
      assert [t.waiters[a.i]][..0] == [] && [s.waiters[a.i]][..0] == [];
    }
  }

  /** Returned, or parked with every reason to wait. */
  predicate Served(s: State, i: nat)
    requires i < |s.waiters|
  {
    s.waiters[i].place.Returned? || (s.waiters[i].place.Parked? && !Wants(s.facts, s.waiters[i].wants))
  }

  /** At rest, all waiters are served if and only if none is unserved now: so always if no step lost a wakeup, or something came after it. */
  lemma RestServesEveryWaiter(run: seq<Action>)
    requires Legal(Start(), run) && forall a :: Internal(a) ==> !Enabled(After(Start(), run), a)
    ensures var s := After(Start(), run);
            && ((forall i :: 0 <= i < |s.waiters| ==> Served(s, i)) <==> !Unserved(s))
            && (!EverLoses(Start(), run) ==> !Unserved(s))
  {
    var s := After(Start(), run);
    RunKept(Start(), run);
    assert !Unserved(Start());
    UnservedExactlyWhen(Start(), run);
    assert LockFree(s) by {
      if !LockFree(s) {
        var w :| w in s.waiters && w.place.Checking?;
        var j :| 0 <= j < |s.waiters| && s.waiters[j] == w;
        assert Enabled(s, Check(j));
      }
    }
    AtRest(s);
    assert forall i :: 0 <= i < |s.waiters| ==> (Served(s, i) <==> !Missed(s, i));
  }

  lemma AtRest(s: State)
    requires Inv(s) && LockFree(s) && forall a :: Internal(a) ==> !Enabled(s, a)
    ensures !Coming(s.bell)
    ensures forall i :: 0 <= i < |s.waiters| ==> s.waiters[i].place.Returned? || s.waiters[i].place.Parked?
  {
    assert !Enabled(s, NotifyBegins) && !Enabled(s, NotifyDelivers) && !Enabled(s, SetterNotifies);
    forall i | 0 <= i < |s.waiters| ensures s.waiters[i].place.Returned? || s.waiters[i].place.Parked? {
      assert !Enabled(s, TakeLock(i)) && !Enabled(s, Check(i));
    }
  }
}
