/**
  Every message arrives: once the clients stop typing, the full system of module Pipeline takes a bounded
  number of steps, not counting sends that fail because no server is there, and when it can take no
  other step everything typed is in the histories.

  The bound weighs every message by the steps it still has before it.
  */
module Delivery {
  import opened Pipeline
  import E = EndToEnd
  import S = FrontEndSlots
  import Sem = Semaphores
  import W = WakeUpQueue

  // What a message weighs at each place; each step of its way makes it lighter.
  const AT_SERVER_ACKED := 8
  const AT_SERVER_GOT := AT_SERVER_ACKED + 3
  const ON_CHANNEL := AT_SERVER_GOT + 1
  const IN_SLOT := ON_CHANNEL + 6
  const AT_SEMAPHORE := IN_SLOT + 2
  const AT_THREAD := AT_SEMAPHORE + 1
  const ON_WIRE := AT_THREAD + 1
  const UNSENT := ON_WIRE + 1

  function ClientWork(cl: Client): nat {
    W.Work(cl.queue) + UNSENT * (|cl.queue.queue| + E.Bit(cl.queue.consumer.Handling? && !cl.awaiting)) +
    ON_WIRE * |cl.wire| + 2 * cl.acks + E.Bit(cl.acked) + AT_THREAD * E.Bit(cl.feThread.Has?)
  }

  /** What the message inside the semaphore has before it. */
  function InsideWork<M>(slot: S.State<M>): nat {
    match slot.consumer
    case Sending(_) => ON_CHANNEL + 3
    case Posting => 1
    case Locking =>
      if slot.unlocked then ON_CHANNEL + 4
      else if S.Written in slot.stage.Values then ON_CHANNEL + 5
      else if S.Entered in slot.stage.Values then IN_SLOT
      else 0
  }

  function SlotWork<M>(slot: S.State<M>): nat {
    AT_SEMAPHORE * |slot.sem.blocked| + (AT_SEMAPHORE - 1) * |slot.sem.notified| + InsideWork(slot)
  }

  function HandWork(h: E.Hand): nat {
    match h case Free => 0 case Got(_) => AT_SERVER_GOT case Acked(_) => AT_SERVER_ACKED
  }

  function FeWork(fe: FrontEnd): nat { SlotWork(fe.slot) + ON_CHANNEL * |fe.channel| + HandWork(fe.server) }

  function GroupWork(q: W.State<Item>): nat { W.Work(q) }

  function Sum<T>(xs: seq<T>, weight: T -> nat): nat {
    if xs == [] then 0 else Sum(xs[..|xs| - 1], weight) + weight(xs[|xs| - 1])
  }

  function Work(s: State): nat {
    Sum(s.clients, ClientWork) + Sum(s.fes, FeWork) + Sum(s.groups, GroupWork)
  }

  lemma {:induction false} SumUpdate<T>(xs: seq<T>, weight: T -> nat, i: nat, x: T)
    requires i < |xs|
    ensures Sum(xs[i := x], weight) + weight(xs[i]) == Sum(xs, weight) + weight(x)
  {
    var n := |xs| - 1;
    assert xs[i := x][n] == if i == n then x else xs[n];
    if i == n {
      assert xs[i := x][..n] == xs[..n];
    } else {
      assert xs[i := x][..n] == xs[..n][i := x];
      SumUpdate(xs[..n], weight, i, x);
    }
  }

  // ----- Each step makes something lighter -----

  lemma QueueWorkFalls<T>(q: W.State<T>, e: W.Event<T>)
    requires W.Enabled(q, e)
    ensures W.Work(W.Apply(q, e)) < W.Work(q) + if e.Push? then 8 else 0
  {
  }

  lemma OwnWorkFalls(cl: Client, own: ClientStep)
    requires CanStep(cl, own) && Sound(cl) && !own.Type?
    ensures ClientWork(ClientAfter(cl, own)) < ClientWork(cl)
  {
    match own
    case Queue(inner) => QueueWorkFalls(cl.queue, inner);
    case GoOn => QueueWorkFalls(cl.queue, W.Event<string>.Finish);
    case _ =>
  }

  lemma SemaphoreWork(sem: Sem.State, e: Sem.Event)
    requires Sem.Inv(sem, 1) && Sem.Enabled(sem, e)
    ensures var sem' := Sem.Apply(sem, e);
            match e
            case Wait(t) =>
              |sem'.notified| == |sem.notified| && |sem'.blocked| == |sem.blocked| + E.Bit(t !in sem'.inside)
            case Resume(_) => |sem'.notified| == |sem.notified| - 1 && sem'.blocked == sem.blocked
            case Post(_, _) =>
              |sem'.blocked| + |sem'.notified| == |sem.blocked| + |sem.notified| && |sem'.blocked| <= |sem.blocked|
  {
    if e.Post? && Sem.Notifies(sem) {
      assert e.wakes in sem.blocked && e.wakes !in sem.notified;
    }
  }

  /** Nobody is inside when somebody enters. */
  lemma NothingInside<M>(slot: S.State<M>)
    requires S.Inv(slot) && slot.sem.inside == {}
    ensures InsideWork(slot) == 0
  {
    assert slot.stage.Keys == {};
    assert slot.stage == map[];
  }

  lemma ArriveInside<M>(slot: S.State<M>, m: M)
    requires S.Inv(slot) && S.Enabled(slot, S.Arrive(m))
    ensures var slot' := S.Apply(slot, S.Arrive(m));
            && Sem.Inv(slot.sem, 1) && Sem.Enabled(slot.sem, Sem.Wait(|slot.messages|))
            && slot'.sem == Sem.Apply(slot.sem, Sem.Wait(|slot.messages|))
            && InsideWork(slot') == if |slot.messages| in slot'.sem.inside then IN_SLOT else InsideWork(slot)
  {
    var k, slot' := |slot.messages|, S.Apply(slot, S.Arrive(m));
    S.SemWait(slot.sem, k);
    if k in slot'.sem.inside {
      assert slot.stage.Keys == {};
      assert slot.stage == map[];
      assert slot'.stage == map[k := S.Entered];
      assert S.Entered in slot'.stage.Values && S.Written !in slot'.stage.Values;
    }
  }

  lemma ArriveWork<M>(slot: S.State<M>, m: M)
    requires S.Inv(slot) && S.Enabled(slot, S.Arrive(m))
    ensures SlotWork(S.Apply(slot, S.Arrive(m))) <= SlotWork(slot) + AT_SEMAPHORE
  {
    hide InsideWork, S.Inv, S.Apply, Sem.Apply, Sem.Inv;
    ArriveInside(slot, m);
    SemaphoreWork(slot.sem, Sem.Wait(|slot.messages|));
  }

  lemma ResumeInside<M>(slot: S.State<M>, k: nat)
    requires S.Inv(slot) && S.Enabled(slot, S.Event<M>.Resume(k))
    ensures Sem.Inv(slot.sem, 1) && Sem.Enabled(slot.sem, Sem.Resume(k))
    ensures S.Apply(slot, S.Event<M>.Resume(k)).sem == Sem.Apply(slot.sem, Sem.Resume(k))
    ensures InsideWork(slot) == 0 && InsideWork(S.Apply(slot, S.Event<M>.Resume(k))) == IN_SLOT
  {
    S.SemResume(slot.sem, k);
    NothingInside(slot);
    assert slot.stage.Keys == {};
    assert S.Apply(slot, S.Event<M>.Resume(k)).stage == map[k := S.Entered];
  }

  lemma ResumeWork<M>(slot: S.State<M>, k: nat)
    requires S.Inv(slot) && S.Enabled(slot, S.Event<M>.Resume(k))
    ensures SlotWork(S.Apply(slot, S.Event<M>.Resume(k))) < SlotWork(slot)
  {
    hide InsideWork, S.Inv, S.Apply, Sem.Apply, Sem.Inv;
    ResumeInside(slot, k);
    SemaphoreWork(slot.sem, Sem.Resume(k));
  }

  lemma HandOffWork<M>(slot: S.State<M>, e: S.Event<M>)
    requires S.Inv(slot) && S.Enabled(slot, e) && (e.Write? || e.Unlock? || e.Take? || e.SendSucceeds?)
    ensures SlotWork(S.Apply(slot, e)) + (if e.SendSucceeds? then ON_CHANNEL else 0) < SlotWork(slot)
  {
    var slot' := S.Apply(slot, e);
    var k :| k in slot.stage && slot.stage.Keys == {k};
    if e.Write? || e.Unlock? {
      assert e.k in slot.stage.Keys;
      assert slot.stage[k] in slot.stage.Values && slot'.stage[k] in slot'.stage.Values;
      assert forall v :: v in slot.stage.Values ==> v == slot.stage[k];
      assert forall v :: v in slot'.stage.Values ==> v == slot'.stage[k];
    }
  }

  lemma PostInside<M>(slot: S.State<M>, k: nat, wakes: nat)
    requires S.Inv(slot) && S.Enabled(slot, S.Event<M>.Post(k, wakes))
    ensures InsideWork(S.Apply(slot, S.Event<M>.Post(k, wakes))) == 0 && InsideWork(slot) == 1
  {
    S.SemPost(slot.sem, k, wakes);
    S.EventKeeps(slot, S.Event<M>.Post(k, wakes));
    NothingInside(S.Apply(slot, S.Event<M>.Post(k, wakes)));
  }

  lemma PostWork<M>(slot: S.State<M>, k: nat, wakes: nat)
    requires S.Inv(slot) && S.Enabled(slot, S.Event<M>.Post(k, wakes))
    ensures SlotWork(S.Apply(slot, S.Event<M>.Post(k, wakes))) < SlotWork(slot)
  {
    hide InsideWork;
    PostInside(slot, k, wakes);
    SemaphoreWork(slot.sem, Sem.Post(k, wakes));
  }

  lemma SlotWorkFalls<M>(slot: S.State<M>, e: S.Event<M>)
    requires S.Inv(slot) && S.Enabled(slot, e) && !e.SendFails?
    ensures SlotWork(S.Apply(slot, e)) + (if e.SendSucceeds? then ON_CHANNEL else 0)
            < SlotWork(slot) + if e.Arrive? then AT_SEMAPHORE + 1 else 0
  {
    match e
    case Arrive(m) => ArriveWork(slot, m);
    case Resume(k) => ResumeWork(slot, k);
    case Post(k, wakes) => PostWork(slot, k, wakes);
    case _ => HandOffWork(slot, e);
  }

  /** The thread gets rid of the text it holds, or leaves its work as it is. */
  lemma ThreadWorkFalls(s: State, c: nat, thread: ThreadStep)
    requires Enabled(s, Thread(c, thread)) && S.Inv(Slot(s, c))
    ensures var cl := s.clients[c];
            var step, th' := SlotStep(c, cl.feThread, thread), ThreadAfter(Slot(s, c), cl.feThread, thread);
            SlotWork(S.Apply(Slot(s, c), step)) + ClientWork(cl.(feThread := th'))
            < SlotWork(Slot(s, c)) + ClientWork(cl)
  {
    hide S.Inv, S.Apply, SlotWork;
    SlotWorkFalls(Slot(s, c), SlotStep(c, s.clients[c].feThread, thread));
  }

  lemma ClientWorkOf(s: State, c: nat, cl: Client)
    requires c < |s.clients|
    ensures Work(SetClient(s, c, cl)) + ClientWork(s.clients[c]) == Work(s) + ClientWork(cl)
  {
    SumUpdate(s.clients, ClientWork, c, cl);
  }

  lemma FeWorkOf(s: State, f: nat, fe: FrontEnd)
    requires f < |s.fes|
    ensures Work(SetFe(s, f, fe)) + FeWork(s.fes[f]) == Work(s) + FeWork(fe)
  {
    SumUpdate(s.fes, FeWork, f, fe);
  }

  lemma GroupWorkOf(s: State, g: nat, q: W.State<Item>)
    requires g < |s.groups|
    ensures Work(s.(groups := s.groups[g := q])) + GroupWork(s.groups[g]) == Work(s) + GroupWork(q)
  {
    SumUpdate(s.groups, GroupWork, g, q);
  }

  lemma ServerWorkFalls(s: State, f: nat, e: Event)
    requires Enabled(s, e) && (e == ServerRead(f) || e == ServerAck(f) || e == ServerPush(f))
    ensures Work(Apply(s, e)) < Work(s)
  {
    var fe := s.fes[f];
    if e.ServerRead? {
      FeWorkOf(s, f, fe.(server := E.Got(fe.channel[0]), channel := fe.channel[1..]));
    } else if e.ServerAck? {
      var i := fe.server.item;
      var cl := s.clients[i.client].(acks := s.clients[i.client].acks + 1);
      ClientWorkOf(s, i.client, cl);
      FeWorkOf(SetClient(s, i.client, cl), f, fe.(server := E.Acked(i)));
    } else {
      var i := fe.server.item;
      var g := s.clients[i.client].group;
      FeWorkOf(s, f, fe.(server := E.Free));
      QueueWorkFalls(s.groups[g], W.Push(i));
      GroupWorkOf(SetFe(s, f, fe.(server := E.Free)), g, W.Apply(s.groups[g], W.Push(i)));
    }
  }

  lemma FailedSendChangesNothing(s: State, f: nat, step: S.Event<Item>)
    requires Enabled(s, Consumer(f, step)) && step.SendFails?
    ensures Apply(s, Consumer(f, step)) == s
  {
    assert s.fes[f := s.fes[f]] == s.fes;
  }

  lemma ConsumerWorkFalls(s: State, f: nat, step: S.Event<Item>)
    requires Enabled(s, Consumer(f, step)) && S.Inv(s.fes[f].slot) && !step.SendFails?
    ensures Work(Apply(s, Consumer(f, step))) < Work(s)
  {
    var fe := s.fes[f];
    SlotWorkFalls(fe.slot, step);
    FeWorkOf(s, f, fe.(slot := S.Apply(fe.slot, step), channel := ChannelAfter(fe, step)));
  }

  lemma ClientWorkFalls(s: State, e: Event)
    requires Inv(s) && Enabled(s, e) && (e.Own? || e.Thread?) && Proper(e)
    ensures Work(Apply(s, e)) < Work(s)
  {
    var cl, f := s.clients[e.c], s.clients[e.c].fe;
    assert ClientFits(s, e.c);
    match e
    case Own(c, own) =>
      OwnWorkFalls(cl, own);
      ClientWorkOf(s, c, ClientAfter(cl, own));
    case Thread(c, thread) =>
      assert SlotFits(s.clients, s.fes[f].slot, f);
      ThreadWorkFalls(s, c, thread);
      var cl' := cl.(feThread := ThreadAfter(s.fes[f].slot, cl.feThread, thread));
      ClientWorkOf(s, c, cl');
      FeWorkOf(SetClient(s, c, cl'), f,
               s.fes[f].(slot := S.Apply(s.fes[f].slot, SlotStep(c, cl.feThread, thread))));
  }

  /** Every step but typing makes the work less, or is a failed send and changes nothing. */
  lemma WorkFalls(s: State, e: Event)
    requires Inv(s) && Enabled(s, e) && !(e.Own? && e.own.Type?)
    ensures if Proper(e) then Work(Apply(s, e)) < Work(s) else Apply(s, e) == s
  {
    match e
    case Own(_, _) => ClientWorkFalls(s, e);
    case Thread(_, _) => ClientWorkFalls(s, e);
    case Consumer(f, step) =>
      assert SlotFits(s.clients, s.fes[f].slot, f);
      if step.SendFails? {
        FailedSendChangesNothing(s, f, step);
      } else {
        ConsumerWorkFalls(s, f, step);
      }
    case ServerRead(f) => ServerWorkFalls(s, f, e);
    case ServerAck(f) => ServerWorkFalls(s, f, e);
    case ServerPush(f) => ServerWorkFalls(s, f, e);
    case GroupQueue(g, turn) =>
      QueueWorkFalls(s.groups[g], turn);
      GroupWorkOf(s, g, W.Apply(s.groups[g], turn));
  }

  // ----- Every run -----

  predicate NoInput(events: seq<Event>) { forall e <- events :: !(e.Own? && e.own.Type?) }

  /** The steps that are not failed sends. */
  function ProperSteps(events: seq<Event>): nat {
    if events == [] then 0 else E.Bit(Proper(events[0])) + ProperSteps(events[1..])
  }

  lemma {:induction false} WorkBoundsSteps(s: State, events: seq<Event>)
    requires Inv(s) && Valid(s, events) && NoInput(events)
    ensures ProperSteps(events) + Work(After(s, events)) <= Work(s)
    decreases |events|
  {
    if events != [] {
      WorkFalls(s, events[0]);
      EventKeeps(s, events[0]);
      WorkBoundsSteps(Apply(s, events[0]), events[1..]);
    }
  }

  lemma {:induction false} RunsOn(s: State, first: seq<Event>, rest: seq<Event>)
    requires Valid(s, first) && Valid(After(s, first), rest)
    ensures Valid(s, first + rest) && After(s, first + rest) == After(After(s, first), rest)
    decreases |first|
  {
    if first == [] {
      assert first + rest == rest;
    } else {
      hide Apply, Enabled;
      assert (first + rest)[0] == first[0] && (first + rest)[1..] == first[1..] + rest;
      RunsOn(Apply(s, first[0]), first[1..], rest);
    }
  }

  lemma {:induction false} TypedStays(s: State, events: seq<Event>, c: nat)
    requires Inv(s) && Valid(s, events) && NoInput(events) && c < |s.clients|
    ensures c < |After(s, events).clients|
    ensures After(s, events).clients[c].typed == s.clients[c].typed
    ensures After(s, events).clients[c].group == s.clients[c].group
    decreases |events|
  {
    if events != [] {
      EventKeeps(s, events[0]);
      TypedStays(Apply(s, events[0]), events[1..], c);
    }
  }

  /**
    Whatever was typed in a run of the full system, and however its threads are scheduled from then on: they
    take at most Work steps, failed sends apart, and when none of them can take another one, the history of
    each client's group holds what it typed, after the length cut.
    */
  lemma EverythingIsDelivered(s: State, typing: seq<Event>, rest: seq<Event>, c: nat)
    requires Initial(s) && Valid(s, typing) && c < |s.clients|
    requires Valid(After(s, typing), rest) && NoInput(rest)
    ensures ProperSteps(rest) <= Work(After(s, typing))
    ensures c < |After(s, typing).clients| && c < |After(After(s, typing), rest).clients|
    ensures var s', cl := After(After(s, typing), rest), After(s, typing).clients[c];
            && cl.group < |s'.groups|
            && ((forall e: Event :: Proper(e) ==> !Enabled(s', e)) ==>
                  E.Of(s'.groups[cl.group].consumed, c) == E.CutAll(cl.typed))
  {
    InitialFits(s);
    var images := Refines(s, typing);
    WorkBoundsSteps(After(s, typing), rest);
    TypedStays(After(s, typing), rest, c);
    RunsOn(s, typing, rest);
    HistoryIsPrefixOfTyped(s, typing + rest, c);
    if forall e: Event :: Proper(e) ==> !Enabled(After(After(s, typing), rest), e) {
      EverythingArrives(s, typing + rest, c);
    }
  }
}
