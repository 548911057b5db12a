/**
  The queue with a wake-up flag used by the groups (src/server/Group.cpp:32-68, 240-245) and by the
  client (src/client/client.cpp:60-92, 293-313): producers push under a semaphore and then unlock a
  mutex they never locked; one consumer locks that mutex and drains the queue. The mutex is a binary
  flag. Any number of producers; each event is one critical section or one mutex operation.
  */
module WakeUpQueue {

  datatype Consumer<T> =
    | Locking            // in pthread_mutex_lock
    | Checking           // about to look at the queue
    | Handling(item: T)  // has popped an item

  /** `unlocking` producers have pushed and are about to unlock; `enqueued` is everything ever pushed. */
  datatype State<T> = State(queue: seq<T>, unlocked: bool, consumer: Consumer<T>, unlocking: nat,
                            enqueued: seq<T>, consumed: seq<T>)

  datatype Event<T> = Push(item: T) | Unlock | TakeLock | Pop | FindEmpty | Finish

  predicate Enabled<T>(s: State<T>, e: Event<T>) {
    match e
    case Push(_) => true
    case Unlock => s.unlocking > 0
    case TakeLock => s.consumer.Locking? && s.unlocked
    case Pop => s.consumer.Checking? && |s.queue| > 0
    case FindEmpty => s.consumer.Checking? && |s.queue| == 0
    case Finish => s.consumer.Handling?
  }

  function Apply<T>(s: State<T>, e: Event<T>): State<T>
    requires Enabled(s, e)
  {
    match e
    case Push(x) => s.(queue := s.queue + [x], unlocking := s.unlocking + 1, enqueued := s.enqueued + [x])
    case Unlock => s.(unlocked := true, unlocking := s.unlocking - 1)
    case TakeLock => s.(unlocked := false, consumer := Checking)
    case Pop => s.(queue := s.queue[1..], consumer := Handling(s.queue[0]))
    case FindEmpty => s.(consumer := Locking)
    case Finish => s.(consumer := Checking, consumed := s.consumed + [s.consumer.item])
  }

  /** The mutex starts locked and the queue empty. */
  function Initial<T>(): State<T> { State([], false, Locking, 0, [], []) }

  function InHand<T>(c: Consumer<T>): seq<T> {
    if c.Handling? then [c.item] else []
  }

  /** No wake-up is lost: items in the queue are being drained, or a wake-up is there or on its way. */
  ghost predicate Awake<T>(s: State<T>) {
    s.queue != [] ==> !s.consumer.Locking? || s.unlocked || s.unlocking > 0
  }

  ghost predicate Inv<T>(s: State<T>) {
    Awake(s) && s.consumed + InHand(s.consumer) + s.queue == s.enqueued
  }

  lemma EventKeeps<T>(s: State<T>, e: Event<T>)
    requires Inv(s) && Enabled(s, e)
    ensures Inv(Apply(s, e))
  {
    var s' := Apply(s, e);
    match e
    case Push(x) => assert s'.consumed + InHand(s'.consumer) + s'.queue == s.enqueued + [x];
    case Pop => assert s.queue == [s.queue[0]] + s'.queue;
    case _ =>
  }

  predicate Valid<T>(s: State<T>, events: seq<Event<T>>)
    decreases |events|
  {
    |events| == 0 || (Enabled(s, events[0]) && Valid(Apply(s, events[0]), events[1..]))
  }

  function After<T>(s: State<T>, events: seq<Event<T>>): State<T>
    requires Valid(s, events)
    decreases |events|
  {
    if |events| == 0 then s else After(Apply(s, events[0]), events[1..])
  }

  lemma {:induction false} InvAfter<T>(s: State<T>, events: seq<Event<T>>)
    requires Inv(s) && Valid(s, events)
    ensures Inv(After(s, events))
    decreases |events|
  {
    if events != [] {
      EventKeeps(s, events[0]);
      InvAfter(Apply(s, events[0]), events[1..]);
    }
  }

  /** First in, first out, and no lost wake-up, in every reachable state. */
  lemma FifoAndAwake<T>(events: seq<Event<T>>)
    requires Valid(Initial(), events)
    ensures var s := After(Initial(), events);
            Awake(s) && s.consumed + InHand(s.consumer) + s.queue == s.enqueued
  {
    InvAfter(Initial<T>(), events);
  }

  // ----- Everything pushed is consumed -----

  function Work<T>(s: State<T>): nat {
    4 * |s.queue| + 3 * s.unlocking + (if s.unlocked then 2 else 0) +
    match s.consumer case Locking => 0 case Checking => 1 case Handling(_) => 2
  }

  lemma {:induction false} WorkShrinks<T>(s: State<T>, events: seq<Event<T>>)
    requires Valid(s, events) && forall i :: 0 <= i < |events| ==> !events[i].Push?
    ensures |events| + Work(After(s, events)) <= Work(s)
    ensures After(s, events).enqueued == s.enqueued
    decreases |events|
  {
    if events != [] {
      WorkShrinks(Apply(s, events[0]), events[1..]);
    }
  }

  /**
    Once nothing more is pushed, at most Work(s) events remain, and when none of them is enabled any
    longer the consumer has handled everything that was ever pushed.
    */
  lemma DrainsCompletely<T(!new)>(pushed: seq<Event<T>>, rest: seq<Event<T>>)
    requires Valid(Initial(), pushed) && Valid(After(Initial(), pushed), rest)
    requires forall i :: 0 <= i < |rest| ==> !rest[i].Push?
    ensures var s := After(Initial(), pushed);
            var s' := After(s, rest);
            && |rest| <= Work(s)
            && ((forall e: Event<T> :: !e.Push? ==> !Enabled(s', e)) ==> s'.consumed == s.enqueued)
  {
    var s := After(Initial(), pushed);
    var s' := After(s, rest);
    InvAfter(Initial(), pushed);
    InvAfter(s, rest);
    WorkShrinks(s, rest);
    if forall e: Event<T> :: !e.Push? ==> !Enabled(s', e) {
      assert !Enabled(s', Unlock) && !Enabled(s', TakeLock) && !Enabled(s', Pop) && !Enabled(s', FindEmpty);
      assert !Enabled(s', Finish);
      assert s'.queue == [] && InHand(s'.consumer) == [];
    }
  }
}
