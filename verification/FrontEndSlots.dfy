/**
  The hand-off inside a front end (src/proxy_fe/ProxyFE.cpp:29-42, 524-568): client threads put their
  message into the single slot processing_message, guarded by a semaphore which the one consumer
  thread posts after it has written the message to the server, retrying while the server is away.

  Every message gets a ticket, its arrival number, under which it waits at the semaphore.
  */
module FrontEndSlots {
  import opened Common
  import Sem = Semaphores

  /** What the client thread of a ticket inside the semaphore has done so far. */
  datatype Stage = Entered | Written | Unlocked

  /** mutex_consumer_message is the flag `unlocked`. */
  datatype Consumer<M> = Locking | Sending(m: M) | Posting

  datatype State<M> = State(messages: seq<M>, sem: Sem.State, stage: map<nat, Stage>, slot: Option<M>,
                            unlocked: bool, consumer: Consumer<M>, accepted: seq<M>, sent: seq<M>)

  datatype Event<M> =
    | Arrive(m: M)
    | Resume(k: nat)
    | Write(k: nat)
    | Unlock(k: nat)
    | Take
    | SendFails
    | SendSucceeds
    | Post(k: nat, wakes: nat)

  predicate Enabled<M>(s: State<M>, e: Event<M>) {
    match e
    case Arrive(_) => Sem.Enabled(s.sem, Sem.Wait(|s.messages|))
    case Resume(k) => Sem.Enabled(s.sem, Sem.Resume(k))
    case Write(k) => k < |s.messages| && k in s.stage && s.stage[k].Entered?
    case Unlock(k) => k in s.stage && s.stage[k].Written?
    case Take => s.consumer.Locking? && s.unlocked && s.slot.Some?
    case SendFails => s.consumer.Sending?
    case SendSucceeds => s.consumer.Sending?
    case Post(k, wakes) => s.consumer.Posting? && Sem.Enabled(s.sem, Sem.Post(k, wakes))
  }

  function Apply<M>(s: State<M>, e: Event<M>): State<M>
    requires Enabled(s, e)
  {
    match e
    case Arrive(m) =>
      var k := |s.messages|;
      var sem := Sem.Apply(s.sem, Sem.Wait(k));
      s.(messages := s.messages + [m], sem := sem, stage := if k in sem.inside then s.stage[k := Entered] else s.stage)
    case Resume(k) => s.(sem := Sem.Apply(s.sem, Sem.Resume(k)), stage := s.stage[k := Entered])
    case Write(k) =>
      s.(slot := Some(s.messages[k]), stage := s.stage[k := Written], accepted := s.accepted + [s.messages[k]])
    case Unlock(k) => s.(unlocked := true, stage := s.stage[k := Unlocked])
    case Take => s.(unlocked := false, consumer := Sending(s.slot.value))
    case SendFails => s
    case SendSucceeds => s.(consumer := Posting, sent := s.sent + [s.consumer.m])
    case Post(k, wakes) => s.(sem := Sem.Apply(s.sem, Sem.Post(k, wakes)), stage := s.stage - {k}, consumer := Locking)
  }

  function Initial<M>(): State<M> {
    State([], Sem.Initial(1), map[], None, false, Locking, [], [])
  }

  /** The ticket inside the semaphore, if any, with the slot and the consumer as its stage says. */
  ghost predicate Consistent<M>(s: State<M>) {
    if s.stage == map[] then
      !s.unlocked && s.consumer.Locking? && s.sent == s.accepted
    else
      exists k {:trigger k in s.stage} ::
        && k in s.stage && s.stage.Keys == {k} && k < |s.messages|
        && match s.stage[k]
           case Entered => !s.unlocked && s.consumer.Locking? && s.sent == s.accepted
           case Written =>
             !s.unlocked && s.consumer.Locking? && s.slot == Some(s.messages[k]) &&
             s.sent + [s.messages[k]] == s.accepted
           case Unlocked =>
             && s.slot == Some(s.messages[k])
             && s.unlocked == s.consumer.Locking?
             && (s.consumer.Sending? ==> s.consumer.m == s.messages[k])
             && (if s.consumer.Posting? then s.sent else s.sent + [s.messages[k]]) == s.accepted
  }

  ghost predicate Inv<M>(s: State<M>) {
    && Sem.Inv(s.sem, 1)
    && s.stage.Keys == s.sem.inside
    && (forall k :: k in Known(s.sem) ==> k < |s.messages|)
    && Consistent(s)
  }

  lemma Alone<T>(s: set<T>, t: T)
    requires |s| <= 1 && t in s
    ensures s == {t}
  {
    assert s == (s - {t}) + {t};
  }

  lemma AddedAlone(s: set<nat>, k: nat)
    requires k !in s && |s + {k}| <= 1
    ensures s == {} && s + {k} == {k}
  {
    Alone(s + {k}, k);
    assert s <= s + {k};
  }

  function Known(sem: Sem.State): set<nat> { sem.blocked + sem.notified + sem.inside }

  lemma WaitIsKnown(sem: Sem.State, k: nat)
    requires Sem.Enabled(sem, Sem.Wait(k))
    ensures Known(Sem.Apply(sem, Sem.Wait(k))) == Known(sem) + {k}
  {
    if Sem.MustBlock(sem) {
      assert sem.blocked + {k} + sem.notified + sem.inside == Known(sem) + {k};
    } else {
      assert sem.blocked + sem.notified + (sem.inside + {k}) == Known(sem) + {k};
    }
  }

  lemma SemWait(sem: Sem.State, k: nat)
    requires Sem.Inv(sem, 1) && Sem.Enabled(sem, Sem.Wait(k))
    ensures var sem' := Sem.Apply(sem, Sem.Wait(k));
            && Sem.Inv(sem', 1) && Known(sem') == Known(sem) + {k}
            && if k in sem'.inside then sem.inside == {} && sem'.inside == {k} else sem'.inside == sem.inside
  {
    WaitIsKnown(sem, k);
    Sem.EventKeeps(sem, 1, Sem.Wait(k));
    if !Sem.MustBlock(sem) {
      AddedAlone(sem.inside, k);
    }
  }

  lemma SemResume(sem: Sem.State, k: nat)
    requires Sem.Inv(sem, 1) && Sem.Enabled(sem, Sem.Resume(k))
    ensures var sem' := Sem.Apply(sem, Sem.Resume(k));
            Sem.Inv(sem', 1) && Known(sem') == Known(sem) && sem.inside == {} && sem'.inside == {k}
  {
    Sem.EventKeeps(sem, 1, Sem.Resume(k));
    Alone(sem.notified, k);
  }

  lemma SemPost(sem: Sem.State, k: nat, wakes: nat)
    requires Sem.Inv(sem, 1) && Sem.Enabled(sem, Sem.Post(k, wakes))
    ensures var sem' := Sem.Apply(sem, Sem.Post(k, wakes));
            Sem.Inv(sem', 1) && Known(sem') <= Known(sem) && sem.inside == {k} && sem'.inside == {}
  {
    Sem.EventKeeps(sem, 1, Sem.Post(k, wakes));
    Alone(sem.inside, k);
  }

  lemma MoreMessages<M>(s: State<M>, m: M, sem: Sem.State)
    requires Consistent(s)
    ensures Consistent(s.(messages := s.messages + [m], sem := sem))
  {
    var s' := s.(messages := s.messages + [m], sem := sem);
    if s.stage != map[] {
      var j :| j in s.stage && s.stage.Keys == {j} && j < |s.messages|;
      assert j in s'.stage && s'.messages[j] == s.messages[j];
    }
  }

  lemma ArriveKeeps<M>(s: State<M>, m: M)
    requires Inv(s) && Enabled(s, Arrive(m))
    ensures Inv(Apply(s, Arrive(m)))
  {
    var k, s' := |s.messages|, Apply(s, Arrive(m));
    SemWait(s.sem, k);
    assert s'.stage.Keys == s'.sem.inside;
    if k in s'.sem.inside {
      assert s.stage == map[];
      assert k in s'.stage && s'.stage[k].Entered?;
      assert Consistent(s');
    } else {
      MoreMessages(s, m, s'.sem);
    }
    forall j | j in Known(s'.sem) ensures j < |s'.messages| {
      assert j in Known(s.sem) || j == k;
    }
  }

  lemma ResumeKeeps<M>(s: State<M>, k: nat)
    requires Inv(s) && Enabled(s, Event<M>.Resume(k))
    ensures Inv(Apply(s, Event<M>.Resume(k)))
  {
    var s' := Apply(s, Event<M>.Resume(k));
    SemResume(s.sem, k);
    assert s.stage == map[];
    assert k in Known(s.sem);
    assert s'.stage.Keys == {k} && s'.stage[k].Entered?;
    assert Consistent(s');
  }

  /** The events of the thread or of the consumer that leave the semaphore alone. */
  lemma HandOffKeeps<M>(s: State<M>, e: Event<M>)
    requires Inv(s) && Enabled(s, e)
    requires e.Write? || e.Unlock? || e.Take? || e.SendFails? || e.SendSucceeds?
    ensures Inv(Apply(s, e))
    ensures e.Write? ==> s.sent == s.accepted
  {
    var s' := Apply(s, e);
    var j :| j in s.stage && s.stage.Keys == {j};
    if e.Write? || e.Unlock? {
      assert e.k in s.stage.Keys;
    }
    assert s'.stage.Keys == s.stage.Keys;
    assert j in s'.stage;
  }

  lemma PostKeeps<M>(s: State<M>, k: nat, wakes: nat)
    requires Inv(s) && Enabled(s, Event<M>.Post(k, wakes))
    ensures Inv(Apply(s, Event<M>.Post(k, wakes)))
  {
    var s' := Apply(s, Event<M>.Post(k, wakes));
    SemPost(s.sem, k, wakes);
    var j :| j in s.stage && s.stage.Keys == {j};
    assert s'.stage.Keys == {};
    assert s'.stage == map[];
    assert Consistent(s');
  }

  lemma EventKeeps<M>(s: State<M>, e: Event<M>)
    requires Inv(s) && Enabled(s, e)
    ensures Inv(Apply(s, e))
  {
    match e
    case Arrive(m) => ArriveKeeps(s, m);
    case Resume(k) => ResumeKeeps(s, k);
    case Post(k, wakes) => PostKeeps(s, k, wakes);
    case _ => HandOffKeeps(s, e);
  }

  predicate Valid<M>(s: State<M>, events: seq<Event<M>>)
    decreases |events|
  {
    |events| == 0 || (Enabled(s, events[0]) && Valid(Apply(s, events[0]), events[1..]))
  }

  function After<M>(s: State<M>, events: seq<Event<M>>): State<M>
    requires Valid(s, events)
    decreases |events|
  {
    if |events| == 0 then s else After(Apply(s, events[0]), events[1..])
  }

  lemma {:induction false} InvAfter<M>(s: State<M>, events: seq<Event<M>>)
    requires Inv(s) && Valid(s, events)
    ensures Inv(After(s, events))
    decreases |events|
  {
    if events != [] {
      EventKeeps(s, events[0]);
      InvAfter(Apply(s, events[0]), events[1..]);
    }
  }

  /**
    In every reachable state, for any number of client threads and any pattern of failed sends: the
    messages written to the server are the accepted ones, in order and once each, except that the
    last accepted one may still be in the slot.
    */
  lemma SentExactlyOnce<M>(events: seq<Event<M>>)
    requires Valid(Initial(), events)
    ensures var s := After(Initial(), events);
            s.sent == s.accepted || (s.slot.Some? && s.sent + [s.slot.value] == s.accepted)
  {
    InvAfter(Initial<M>(), events);
    var s := After(Initial<M>(), events);
    if s.stage != map[] {
      var k :| k in s.stage && s.stage.Keys == {k};
    }
  }

  /** The slot is written only when everything accepted before has been sent. */
  lemma SlotNeverOverwritten<M>(events: seq<Event<M>>, k: nat)
    requires Valid(Initial(), events) && Enabled(After(Initial(), events), Event<M>.Write(k))
    ensures After(Initial(), events).sent == After(Initial(), events).accepted
  {
    InvAfter(Initial<M>(), events);
    HandOffKeeps(After(Initial<M>(), events), Event<M>.Write(k));
  }

  lemma ArrivalIsEnabled<M>(s: State<M>, m: M)
    requires Inv(s)
    ensures Enabled(s, Arrive(m))
  {
    assert |s.messages| !in Known(s.sem);
  }

  /** A client thread can always bring its next message to the semaphore. */
  lemma ArrivalIsAlwaysPossible<M>(events: seq<Event<M>>, m: M)
    requires Valid(Initial(), events)
    ensures Enabled(After(Initial(), events), Arrive(m))
  {
    InvAfter(Initial<M>(), events);
    ArrivalIsEnabled(After(Initial<M>(), events), m);
  }

  lemma SomethingCanHappen<M>(s: State<M>) returns (e: Event<M>)
    requires Inv(s) && Known(s.sem) != {}
    ensures !e.Arrive? && !e.SendFails? && Enabled(s, e)
  {
    if s.stage == map[] {
      assert s.sem.inside == {} && s.sem.notified != {};
      var k :| k in s.sem.notified;
      e := Event<M>.Resume(k);
    } else {
      var k :| k in s.stage && s.stage.Keys == {k};
      match s.stage[k]
      case Entered => e := Event<M>.Write(k);
      case Written => e := Event<M>.Unlock(k);
      case Unlocked =>
        if s.consumer.Locking? {
          e := Event<M>.Take;
        } else if s.consumer.Sending? {
          e := Event<M>.SendSucceeds;
        } else if s.sem.blocked == {} {
          e := Event<M>.Post(k, 0);
        } else {
          var wakes :| wakes in s.sem.blocked;
          e := Event<M>.Post(k, wakes);
        }
    }
  }

  /** The hand-off never gets stuck: as long as a message is on its way, some step can be taken. */
  lemma NeverStuck<M>(events: seq<Event<M>>) returns (e: Event<M>)
    requires Valid(Initial(), events) && Known(After(Initial(), events).sem) != {}
    ensures !e.Arrive? && !e.SendFails? && Enabled(After(Initial(), events), e)
  {
    InvAfter(Initial<M>(), events);
    e := SomethingCanHappen(After(Initial<M>(), events));
  }

  // ----- The retry loop -----

  class ProxyFE<M> {
    var written: seq<M> // what has reached the server

    constructor ()
      ensures written == []
    {
      written := [];
    }

    /** sendPacket: fails while no server is connected. */
    method SendPacket(packet: M, connected: bool) returns (success: bool)
      modifies this
      ensures success == connected
      ensures written == if success then old(written) + [packet] else old(written)
    {
      success := connected;
      if success {
        written := written + [packet];
      }
    }

    /**
      Tries once a second until the packet has been written; `connected` says of every second whether a
      server is connected then. It is written once, at the first second a server is there.
      */
    method SendToServer(packet: M, connected: seq<bool>) returns (attempts: nat)
      requires true in connected
      modifies this
      ensures 1 <= attempts <= |connected| && connected[attempts - 1] && true !in connected[..attempts - 1]
      ensures written == old(written) + [packet]
    {
      attempts := 1;
      var success := SendPacket(packet, connected[0]);
      while !success
        invariant 1 <= attempts <= |connected|
        invariant success == connected[attempts - 1] && true !in connected[..attempts - 1]
        invariant written == if success then old(written) + [packet] else old(written)
        decreases |connected| - attempts, !success
      {
        assert true in connected[..attempts - 1] + [connected[attempts - 1]] + connected[attempts..];
        success := SendPacket(packet, connected[attempts]);
        attempts := attempts + 1;
      }
    }
  }
}
