/**
  src/util/Semaphore.cpp: a counting semaphore made of a counter, a mutex and a condition variable
  that is waited on with `if`, not `while`. Threads are numbers; each event is one critical section of
  the mutex, or the return of a notified thread from the condition variable.
  */
module Semaphores {

  /**
    `blocked`: in m_waitcond.wait. `notified`: picked by notify_one, not yet running again.
    `inside`: past wait(), not yet posted.
    */
  datatype State = State(value: int, blocked: set<nat>, notified: set<nat>, inside: set<nat>)

  datatype Event = Wait(t: nat) | Resume(t: nat) | Post(t: nat, wakes: nat)

  /** `--m_value < 0` blocks the caller. */
  predicate MustBlock(s: State) { s.value - 1 < 0 }

  /** `++m_value <= 0` notifies one blocked thread, if there is one; which one is not determined. */
  predicate Notifies(s: State) { s.value + 1 <= 0 && s.blocked != {} }

  predicate Enabled(s: State, e: Event) {
    match e
    case Wait(t) => t !in s.blocked + s.notified + s.inside
    case Resume(t) => t in s.notified
    case Post(t, wakes) => t in s.inside && (Notifies(s) ==> wakes in s.blocked)
  }

  function Apply(s: State, e: Event): State
    requires Enabled(s, e)
  {
    match e
    case Wait(t) =>
      if MustBlock(s) then s.(value := s.value - 1, blocked := s.blocked + {t})
      else s.(value := s.value - 1, inside := s.inside + {t})
    case Resume(t) => s.(notified := s.notified - {t}, inside := s.inside + {t})
    case Post(t, wakes) =>
      var s1 := s.(value := s.value + 1, inside := s.inside - {t});
      if Notifies(s) then s1.(blocked := s.blocked - {wakes}, notified := s.notified + {wakes}) else s1
  }

  function Initial(init: nat): State { State(init, {}, {}, {}) }

  function Max0(x: int): nat { if x > 0 then x else 0 }

  /**
    A slot is taken by a thread inside and by one notified, from the moment of the notification; `extra`
    threads have passed wait() without a slot of their own.
    */
  ghost predicate InvWith(s: State, init: nat, extra: nat) {
    && s.blocked !! s.notified !! s.inside
    && |s.blocked| + extra == Max0(-s.value)
    && |s.notified| + |s.inside| + Max0(s.value) == init + extra
  }

  ghost predicate Inv(s: State, init: nat) { InvWith(s, init, 0) }

  lemma AddOne(s: set<nat>, t: nat)
    requires t !in s
    ensures |s + {t}| == |s| + 1
  {
  }

  lemma TakeOne(s: set<nat>, t: nat)
    requires t in s
    ensures |s - {t}| == |s| - 1
  {
    assert s == (s - {t}) + {t};
  }

  /** The counter says that somebody waits, but nobody does. */
  predicate FindsNobody(s: State) { s.value + 1 <= 0 && s.blocked == {} }

  lemma WaitKeeps(s: State, init: nat, extra: nat, t: nat)
    requires InvWith(s, init, extra) && Enabled(s, Wait(t))
    ensures InvWith(Apply(s, Wait(t)), init, extra)
  {
    if MustBlock(s) {
      AddOne(s.blocked, t);
    } else {
      AddOne(s.inside, t);
    }
  }

  lemma ResumeKeeps(s: State, init: nat, extra: nat, t: nat)
    requires InvWith(s, init, extra) && Enabled(s, Resume(t))
    ensures InvWith(Apply(s, Resume(t)), init, extra)
  {
    TakeOne(s.notified, t);
    AddOne(s.inside, t);
  }

  lemma PostKeeps(s: State, init: nat, extra: nat, t: nat, wakes: nat)
    requires InvWith(s, init, extra) && Enabled(s, Post(t, wakes)) && !FindsNobody(s)
    ensures InvWith(Apply(s, Post(t, wakes)), init, extra)
  {
    TakeOne(s.inside, t);
    if Notifies(s) {
      TakeOne(s.blocked, wakes);
      AddOne(s.notified, wakes);
    }
  }

  lemma EventKeeps(s: State, init: nat, e: Event)
    requires Inv(s, init) && Enabled(s, e)
    ensures Inv(Apply(s, e), init)
  {
    match e
    case Wait(t) => WaitKeeps(s, init, 0, t);
    case Resume(t) => ResumeKeeps(s, init, 0, t);
    case Post(t, wakes) => PostKeeps(s, init, 0, t, wakes);
  }

  predicate Valid(s: State, events: seq<Event>)
    decreases |events|
  {
    events == [] || (Enabled(s, events[0]) && Valid(Apply(s, events[0]), events[1..]))
  }

  function After(s: State, events: seq<Event>): State
    requires Valid(s, events)
    decreases |events|
  {
    if events == [] then s else After(Apply(s, events[0]), events[1..])
  }

  lemma {:induction false} InvAfter(s: State, init: nat, events: seq<Event>)
    requires Inv(s, init) && Valid(s, events)
    ensures Inv(After(s, events), init)
    decreases |events|
  {
    if events != [] {
      EventKeeps(s, init, events[0]);
      InvAfter(Apply(s, events[0]), init, events[1..]);
    }
  }

  /**
    For any number of threads: the waiters number max(0, -m_value), the threads past wait() and not
    yet posted never exceed the initial value, and nobody waits while a slot is free.
    */
  lemma NeverTooMany(init: nat, events: seq<Event>)
    requires Valid(Initial(init), events)
    ensures var s := After(Initial(init), events);
            && |s.blocked| == Max0(-s.value)
            && |s.inside| + |s.notified| <= init
            && (s.blocked != {} ==> |s.inside| + |s.notified| == init)
  {
    InvAfter(Initial(init), init, events);
  }

  /**
    No barging: a newcomer passes wait() exactly if a slot is free that has been handed to nobody,
    so it never takes the slot of a thread notified before it came.
    */
  lemma NewcomerTakesOnlyFreeSlot(init: nat, events: seq<Event>, t: nat)
    requires Valid(Initial(init), events) && Enabled(After(Initial(init), events), Wait(t))
    ensures var s := After(Initial(init), events);
            var s' := Apply(s, Wait(t));
            && (t in s'.inside <==> |s.inside| + |s.notified| < init)
            && s'.notified == s.notified
            && (t in s'.inside ==> s.blocked == {})
  {
    InvAfter(Initial(init), init, events);
  }

  /** A binary semaphore excludes. */
  lemma BinaryExcludes(events: seq<Event>, t: nat, u: nat)
    requires Valid(Initial(1), events)
    requires t in After(Initial(1), events).inside && u in After(Initial(1), events).inside
    ensures t == u
  {
    InvAfter(Initial(1), 1, events);
    var s := After(Initial(1), events).inside;
    TakeOne(s, t);
    assert u in s - {t} || u == t;
  }

  // ----- With spurious wake-ups -----

  /** A step of the semaphore, or a blocked thread that wakes up by itself and takes wait() for granted. */
  datatype Step = Regular(e: Event) | Spurious(t: nat)

  /** post() notifies, but nobody waits any longer: a spurious wake-up has taken the slot already. */
  predicate IsLost(s: State, w: Step) {
    w.Regular? && w.e.Post? && FindsNobody(s)
  }

  predicate Possible(s: State, w: Step) {
    match w
    case Spurious(t) => t in s.blocked
    case Regular(e) => Enabled(s, e)
  }

  function Next(s: State, w: Step): State
    requires Possible(s, w)
  {
    match w
    case Spurious(t) => s.(blocked := s.blocked - {t}, inside := s.inside + {t})
    case Regular(e) => Apply(s, e)
  }

  predicate PossibleAll(s: State, steps: seq<Step>)
    decreases |steps|
  {
    steps == [] || (Possible(s, steps[0]) && PossibleAll(Next(s, steps[0]), steps[1..]))
  }

  function Final(s: State, steps: seq<Step>): State
    requires PossibleAll(s, steps)
    decreases |steps|
  {
    if steps == [] then s else Final(Next(s, steps[0]), steps[1..])
  }

  function SpuriousIn(steps: seq<Step>): nat {
    if steps == [] then 0 else (if steps[0].Spurious? then 1 else 0) + SpuriousIn(steps[1..])
  }

  function LostIn(s: State, steps: seq<Step>): nat
    requires PossibleAll(s, steps)
    decreases |steps|
  {
    if steps == [] then 0 else (if IsLost(s, steps[0]) then 1 else 0) + LostIn(Next(s, steps[0]), steps[1..])
  }

  lemma SpuriousKeeps(s: State, init: nat, extra: nat, t: nat)
    requires InvWith(s, init, extra) && t in s.blocked
    ensures InvWith(Next(s, Spurious(t)), init, extra + 1)
  {
    TakeOne(s.blocked, t);
    AddOne(s.inside, t);
  }

  lemma LostKeeps(s: State, init: nat, extra: nat, t: nat, wakes: nat)
    requires InvWith(s, init, extra) && Enabled(s, Post(t, wakes)) && FindsNobody(s)
    ensures extra > 0 && InvWith(Apply(s, Post(t, wakes)), init, extra - 1)
  {
    TakeOne(s.inside, t);
  }

  lemma StepKeeps(s: State, init: nat, extra: nat, w: Step) returns (extra': nat)
    requires InvWith(s, init, extra) && Possible(s, w)
    ensures InvWith(Next(s, w), init, extra')
    ensures extra' == extra + (if w.Spurious? then 1 else 0) - (if IsLost(s, w) then 1 else 0)
  {
    extra' := extra;
    match w {
      case Spurious(t) =>
        SpuriousKeeps(s, init, extra, t);
        extra' := extra + 1;
      case Regular(Wait(t)) => WaitKeeps(s, init, extra, t);
      case Regular(Resume(t)) => ResumeKeeps(s, init, extra, t);
      case Regular(Post(t, wakes)) =>
        if IsLost(s, w) {
          LostKeeps(s, init, extra, t, wakes);
          extra' := extra - 1;
        } else {
          PostKeeps(s, init, extra, t, wakes);
        }
    }
  }

  lemma {:induction false} StepsKeep(s: State, init: nat, extra: nat, steps: seq<Step>) returns (extra': nat)
    requires InvWith(s, init, extra) && PossibleAll(s, steps)
    ensures InvWith(Final(s, steps), init, extra')
    ensures extra' == extra + SpuriousIn(steps) - LostIn(s, steps)
    decreases |steps|
  {
    if steps == [] {
      extra' := extra;
    } else {
      var e := StepKeeps(s, init, extra, steps[0]);
      extra' := StepsKeep(Next(s, steps[0]), init, e, steps[1..]);
    }
  }

  /**
    What the `if` in wait(), instead of a loop, costs when the condition variable wakes up spuriously:
    in every run the threads past wait() exceed the initial value by no more than the spurious wake-ups,
    and they exceed it exactly while more of these have happened than notifications have found nobody.
    */
  lemma SpuriousExcess(init: nat, steps: seq<Step>)
    requires PossibleAll(Initial(init), steps)
    ensures var s := Final(Initial(init), steps);
            var past := |s.inside| + |s.notified|;
            && past <= init + SpuriousIn(steps)
            && LostIn(Initial(init), steps) <= SpuriousIn(steps)
            && (past > init <==> SpuriousIn(steps) > LostIn(Initial(init), steps))
  {
    var extra := StepsKeep(Initial(init), init, 0, steps);
  }

  lemma {:induction false} OneMore(s: State, steps: seq<Step>, w: Step)
    requires PossibleAll(s, steps) && Possible(Final(s, steps), w)
    ensures PossibleAll(s, steps + [w]) && Final(s, steps + [w]) == Next(Final(s, steps), w)
    ensures SpuriousIn(steps + [w]) == SpuriousIn(steps) + if w.Spurious? then 1 else 0
    decreases |steps|
  {
    if steps == [] {
      assert [] + [w] == [w] && [w][1..] == [];
    } else {
      OneMore(Next(s, steps[0]), steps[1..], w);
      assert (steps + [w])[0] == steps[0] && (steps + [w])[1..] == steps[1..] + [w];
    }
  }

  /** `n` threads, numbered from 0, are past wait(), and nobody waits. */
  ghost predicate AllPast(s: State, n: nat) {
    s.blocked == {} && s.notified == {} && |s.inside| == n && forall t :: t in s.inside ==> t < n
  }

  lemma {:induction false} Filled(init: nat, n: nat) returns (steps: seq<Step>)
    requires n <= init
    ensures PossibleAll(Initial(init), steps) && SpuriousIn(steps) == 0
    ensures AllPast(Final(Initial(init), steps), n) && n + Final(Initial(init), steps).value == init
  {
    if n == 0 {
      steps := [];
    } else {
      var before := Filled(init, n - 1);
      OneMore(Initial(init), before, Regular(Wait(n - 1)));
      AddOne(Final(Initial(init), before).inside, n - 1);
      steps := before + [Regular(Wait(n - 1))];
    }
  }

  /** A thread that has to wait wakes up spuriously. */
  lemma PassesSpuriously(s: State, n: nat)
    requires AllPast(s, n) && MustBlock(s)
    ensures Possible(s, Regular(Wait(n))) && Possible(Next(s, Regular(Wait(n))), Spurious(n))
    ensures var s' := Next(Next(s, Regular(Wait(n))), Spurious(n));
            AllPast(s', n + 1) && s'.value == s.value - 1
  {
    AddOne(s.inside, n);
    assert {n} - {n} == {};
  }

  /** The bound of SpuriousExcess is reached: for every k, k spurious wake-ups can let k threads too many through. */
  lemma {:induction false} ExcessIsReached(init: nat, k: nat) returns (steps: seq<Step>)
    ensures PossibleAll(Initial(init), steps) && SpuriousIn(steps) == k
    ensures AllPast(Final(Initial(init), steps), init + k) && Final(Initial(init), steps).value + k == 0
  {
    if k == 0 {
      steps := Filled(init, init);
    } else {
      var before := ExcessIsReached(init, k - 1);
      var t := init + k - 1;
      PassesSpuriously(Final(Initial(init), before), t);
      hide Next, Possible, AllPast;
      OneMore(Initial(init), before, Regular(Wait(t)));
      OneMore(Initial(init), before + [Regular(Wait(t))], Spurious(t));
      steps := before + [Regular(Wait(t))] + [Spurious(t)];
    }
  }

  class Semaphore {
    var mValue: int
    var waiting: set<nat> // the threads in m_waitcond
    var woken: set<nat> // notified, about to return from wait()
    ghost var entered: set<nat>

    ghost function View(): State
      reads this
    {
      State(mValue, waiting, woken, entered)
    }

    constructor (init: nat)
      ensures View() == Initial(init)
    {
      mValue, waiting, woken, entered := init, {}, {}, {};
    }

    /** The part of wait() up to its return, or up to blocking. */
    method Wait(t: nat) returns (blocks: bool)
      requires Enabled(View(), Event.Wait(t))
      modifies this
      ensures View() == Apply(old(View()), Event.Wait(t)) && blocks == (t in waiting)
    {
      mValue := mValue - 1;
      blocks := mValue < 0;
      if blocks {
        waiting := waiting + {t};
      } else {
        entered := entered + {t};
      }
    }

    /** notify_one picks any of the waiting threads. */
    method Post(t: nat) returns (ghost wakes: nat)
      requires t in entered
      modifies this
      ensures old(Enabled(View(), Event.Post(t, wakes))) && View() == Apply(old(View()), Event.Post(t, wakes))
    {
      wakes := t;
      mValue := mValue + 1;
      entered := entered - {t};
      if mValue <= 0 && waiting != {} {
        var u :| u in waiting;
        waiting, woken := waiting - {u}, woken + {u};
        wakes := u;
      }
    }
  }
}
