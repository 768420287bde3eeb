/** The queue from the worker to the main thread (src/main_thread_queue.cpp). */
module MainThreadQueue {
  import opened Events

  datatype QueueState = QueueState(events: seq<Event>, hasEvents: bool, enabled: bool)

  function PostTo(q: QueueState, e: Event): QueueState {
    if q.enabled then q.(events := q.events + [e], hasEvents := true) else q
  }

  function PostAll(q: QueueState, posts: seq<Event>): QueueState {
    if q.enabled && posts != [] then q.(events := q.events + posts, hasEvents := true) else q
  }

  lemma PostAllConcat(q: QueueState, a: seq<Event>, b: seq<Event>)
    ensures PostAll(PostAll(q, a), b) == PostAll(q, a + b)
  {
    assert q.events + a + b == q.events + (a + b);
    assert a == [] ==> a + b == b;
    assert b == [] ==> a + b == a;
  }

  class Queue {
    var events: seq<Event>
    var hasEvents: bool
    var enabled: bool

    ghost function View(): QueueState
      reads this
    {
      QueueState(events, hasEvents, enabled)
    }

    /** The flag the main thread reads without the lock. */
    ghost predicate Valid()
      reads this
    {
      hasEvents <==> events != []
    }

    constructor ()
      ensures Valid() && View() == QueueState([], false, true)
    {
      events, hasEvents, enabled := [], false, true;
    }

    method Post(e: Event)
      modifies this
      ensures View() == PostTo(old(View()), e) == PostAll(old(View()), [e])
      ensures old(Valid()) ==> Valid()
    {
      if !enabled {
        return;
      }
      events := events + [e];
      hasEvents := true;
    }

    method Drain() returns (batch: seq<Event>)
      modifies this
      ensures batch == old(events) && View() == QueueState([], false, old(enabled)) && Valid()
    {
      batch := events;
      events := [];
      hasEvents := false;
    }

    method SetEnabled(on: bool)
      modifies `enabled
      ensures enabled == on
    {
      enabled := on;
    }
  }

  // ---------------------------------------------------------------- under interleaving

  /** Where the posting worker is: between posts, past the unlocked check of m_enabled, or inside
      the lock before the push, before the flag is set, before the unlock. */
  datatype WorkerAt = Between | Checked(e: Event) | HoldsLock(e: Event) | HasPushed | HasFlagged

  /** Where the main thread is in Drain; `batch` is the local vector. */
  datatype MainAt = Outside | InLock | HasSwapped(batch: seq<Event>) | HasCleared(batch: seq<Event>)

  /** `accepted` and `drained` record every event pushed and every event drained. */
  datatype Shared = Shared(
    q: QueueState,
    worker: WorkerAt,
    main: MainAt,
    accepted: seq<Event>,
    drained: seq<Event>)

  const QUIET := Shared(QueueState([], false, true), Between, Outside, [], [])

  predicate WorkerHoldsLock(s: Shared) {
    s.worker.HoldsLock? || s.worker.HasPushed? || s.worker.HasFlagged?
  }

  predicate LockFree(s: Shared) {
    !WorkerHoldsLock(s) && s.main.Outside?
  }

  datatype Turn = CheckEnabled(e: Event) | WorkerGoes | MainGoes | Switch(on: bool)

  predicate MayTurn(s: Shared, t: Turn) {
    match t
    case CheckEnabled(_) => s.worker.Between?
    case WorkerGoes => !s.worker.Between? && (s.worker.Checked? ==> LockFree(s))
    case MainGoes => s.main.Outside? ==> LockFree(s)
    case Switch(_) => s.main.Outside?
  }

  /** One machine step of either thread. */
  function TakeTurn(s: Shared, t: Turn): Shared
    requires MayTurn(s, t)
  {
    match t
    case CheckEnabled(e) => if s.q.enabled then s.(worker := Checked(e)) else s
    case WorkerGoes =>
      (match s.worker
       case Between => s
       case Checked(e) => s.(worker := HoldsLock(e))
       case HoldsLock(e) =>
         s.(worker := HasPushed, q := s.q.(events := s.q.events + [e]), accepted := s.accepted + [e])
       case HasPushed => s.(worker := HasFlagged, q := s.q.(hasEvents := true))
       case HasFlagged => s.(worker := Between))
    case MainGoes =>
      (match s.main
       case Outside => s.(main := InLock)
       case InLock => s.(main := HasSwapped(s.q.events), q := s.q.(events := []))
       case HasSwapped(batch) => s.(main := HasCleared(batch), q := s.q.(hasEvents := false))
       case HasCleared(batch) => s.(main := Outside, drained := s.drained + batch))
    case Switch(on) => s.(q := s.q.(enabled := on))
  }

  function InDrain(s: Shared): seq<Event> {
    if s.main.HasSwapped? || s.main.HasCleared? then s.main.batch else []
  }

  ghost predicate QueueInv(s: Shared) {
    && !(WorkerHoldsLock(s) && !s.main.Outside?)
    && (s.worker.HasPushed? ==> s.q.events != [])
    && (s.main.HasSwapped? ==> s.q.events == [])
    && (!s.worker.HasPushed? && !s.main.HasSwapped? ==> (s.q.hasEvents <==> s.q.events != []))
    && (s.main.HasCleared? ==> s.q.events == [])
    && s.accepted == s.drained + InDrain(s) + s.q.events
  }

  ghost predicate QueueRun(states: seq<Shared>, turns: seq<Turn>) {
    && |states| == |turns| + 1 && states[0] == QUIET
    && forall i :: 0 <= i < |turns| ==> MayTurn(states[i], turns[i]) && states[i + 1] == TakeTurn(states[i], turns[i])
  }

  /** However the two threads interleave, drained batches and what is still queued are the accepted
      posts in order, and the unlocked flag is right whenever the lock is free. */
  lemma {:induction false} QueueIsFifo(states: seq<Shared>, turns: seq<Turn>, i: nat)
    requires QueueRun(states, turns) && i <= |turns|
    ensures QueueInv(states[i])
    ensures states[i].accepted == states[i].drained + InDrain(states[i]) + states[i].q.events
    ensures LockFree(states[i]) ==> (states[i].q.hasEvents <==> states[i].q.events != [])
  {
    if i > 0 {
      QueueIsFifo(states, turns, i - 1);
      TurnKeeps(states[i - 1], turns[i - 1]);
    }
  }

  lemma TurnKeeps(s: Shared, t: Turn)
    requires QueueInv(s) && MayTurn(s, t)
    ensures QueueInv(TakeTurn(s, t))
  {
    assert s.drained + [] == s.drained;
    if t == WorkerGoes && s.worker.HoldsLock? {
      assert s.drained + InDrain(s) + s.q.events + [s.worker.e] == s.drained + InDrain(s) + (s.q.events + [s.worker.e]);
    }
    if t == MainGoes && s.main.InLock? {
      assert s.drained + s.q.events + [] == s.drained + [] + s.q.events;
    }
  }

  /** A frame that skips draining because the flag is down strands nothing: either the queue is empty,
      or the worker holds the lock and is about to raise the flag. */
  lemma SkippedFrameStrandsNothing(states: seq<Shared>, turns: seq<Turn>, i: nat)
    requires QueueRun(states, turns) && i <= |turns|
    requires states[i].main.Outside? && !states[i].q.hasEvents
    ensures states[i].q.events == []
         || (states[i].worker == HasPushed && TakeTurn(states[i], WorkerGoes).q.hasEvents)
  {
    QueueIsFifo(states, turns, i);
  }

  function Drained(s: Shared): Shared
    requires s.main.Outside? && !WorkerHoldsLock(s)
  {
    TakeTurn(TakeTurn(TakeTurn(TakeTurn(s, MainGoes), MainGoes), MainGoes), MainGoes)
  }

  /** Unload: once the worker has stopped, one Drain leaves the queue empty and everything accepted has
      been drained, even if a post had passed the check before the queue was disabled. */
  lemma FinalDrainEmpties(states: seq<Shared>, turns: seq<Turn>, i: nat)
    requires QueueRun(states, turns) && i <= |turns|
    requires states[i].worker.Between? && states[i].main.Outside? && !states[i].q.enabled
    ensures Drained(states[i]).q == QueueState([], false, false)
    ensures Drained(states[i]).drained == states[i].accepted
    ensures forall e :: TakeTurn(Drained(states[i]), CheckEnabled(e)) == Drained(states[i])
  {
    QueueIsFifo(states, turns, i);
    var s := states[i];
    assert s.drained + [] + s.q.events == s.drained + s.q.events;
  }
}
