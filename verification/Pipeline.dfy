/**
  The way of a message with all its semaphores, mutexes and flags: every client holds a WakeUpQueue and
  its mutex_ack (src/client/client.cpp:60-92, 262-313), every front end a FrontEndSlots hand-off with a
  thread for each client (src/proxy_fe/ProxyFE.cpp:518-568), every group a WakeUpQueue
  (src/server/Group.cpp:32-68, 240-245). Each step of this system is one step of the simpler system of
  module EndToEnd, or changes nothing there, and it comes to rest only where that one does. So the theorems
  of EndToEnd hold of it: no wake-up and no hand-off can lose, repeat or reorder a message.
  */
module Pipeline {
  import opened Common
  import C = Clients
  import E = EndToEnd
  import PacketText
  import S = FrontEndSlots
  import Sem = Semaphores
  import W = WakeUpQueue

  type Item = E.Item

  /** The front end's thread for a client: it reads a text, waits at the semaphore, writes the slot, unlocks. */
  datatype FeThread = Reading | Has(text: string) | Waiting(k: nat, text: string) | Wrote(k: nat)

  /** `awaiting`: the text in hand has been sent, the consumer is at mutex_ack, which `acked` stands for. */
  datatype Client = Client(fe: nat, group: nat, typed: seq<string>, queue: W.State<string>, awaiting: bool,
                           acked: bool, wire: seq<string>, acks: nat, feThread: FeThread)

  datatype FrontEnd = FrontEnd(slot: S.State<Item>, channel: seq<Item>, server: E.Hand)

  datatype State = State(clients: seq<Client>, fes: seq<FrontEnd>, groups: seq<W.State<Item>>)

  /** The steps of a client, and of its front end's thread until that has a text in hand: they concern nobody else. */
  datatype ClientStep = Type(input: string) | Queue(inner: W.Event<string>) | SendOut | ReceiveAck | GoOn | FeRead

  /** The steps of the front end's thread at the slot. */
  datatype ThreadStep = Arrive | Resume | Write | Unlock

  datatype Event =
    | Own(c: nat, own: ClientStep)
    | Thread(c: nat, thread: ThreadStep)
    | Consumer(f: nat, step: S.Event<Item>)
    | ServerRead(f: nat)
    | ServerAck(f: nat)
    | ServerPush(f: nat)
    | GroupQueue(g: nat, turn: W.Event<Item>)

  /** What the client's consumer thread and its input thread do besides pushing and sending. */
  predicate OfQueue<T>(e: W.Event<T>) { e.Unlock? || e.TakeLock? || e.Pop? || e.FindEmpty? }

  /** What the front end's consumer thread does. */
  predicate OfConsumer(e: S.Event<Item>) { e.Take? || e.SendFails? || e.SendSucceeds? || e.Post? }

  function Slot(s: State, c: nat): S.State<Item>
    requires c < |s.clients| && s.clients[c].fe < |s.fes|
  {
    s.fes[s.clients[c].fe].slot
  }

  predicate CanStep(cl: Client, own: ClientStep) {
    match own
    case Type(_) => true
    case Queue(inner) => OfQueue(inner) && W.Enabled(cl.queue, inner)
    case SendOut => cl.queue.consumer.Handling? && !cl.awaiting
    case ReceiveAck => cl.acks > 0
    case GoOn => cl.queue.consumer.Handling? && cl.awaiting && cl.acked
    case FeRead => cl.feThread.Reading? && cl.wire != []
  }

  function ClientAfter(cl: Client, own: ClientStep): Client
    requires CanStep(cl, own)
  {
    match own
    case Type(input) => cl.(typed := cl.typed + [input], queue := W.Apply(cl.queue, W.Push(PacketText.Cut(input))))
    case Queue(inner) => cl.(queue := W.Apply(cl.queue, inner))
    case SendOut => cl.(wire := cl.wire + [cl.queue.consumer.item], awaiting := true)
    case ReceiveAck => cl.(acks := cl.acks - 1, acked := true)
    case GoOn => cl.(awaiting := false, acked := false, queue := W.Apply(cl.queue, W.Event<string>.Finish))
    case FeRead => cl.(feThread := Has(cl.wire[0]), wire := cl.wire[1..])
  }

  predicate CanMove(th: FeThread, thread: ThreadStep) {
    match thread
    case Arrive => th.Has?
    case Resume => th.Waiting?
    case Write => th.Waiting?
    case Unlock => th.Wrote?
  }

  /** The step of the slot that the thread for client number `c` takes. */
  function SlotStep(c: nat, th: FeThread, thread: ThreadStep): S.Event<Item>
    requires CanMove(th, thread)
  {
    match thread
    case Arrive => S.Arrive(E.Item(c, th.text))
    case Resume => S.Event<Item>.Resume(th.k)
    case Write => S.Event<Item>.Write(th.k)
    case Unlock => S.Event<Item>.Unlock(th.k)
  }

  function ThreadAfter(slot: S.State<Item>, th: FeThread, thread: ThreadStep): FeThread
    requires CanMove(th, thread)
  {
    match thread
    case Arrive => Waiting(|slot.messages|, th.text)
    case Resume => th
    case Write => Wrote(th.k)
    case Unlock => Reading
  }

  predicate Enabled(s: State, e: Event) {
    match e
    case Own(c, own) => c < |s.clients| && CanStep(s.clients[c], own)
    case Thread(c, thread) =>
      c < |s.clients| && s.clients[c].fe < |s.fes| && CanMove(s.clients[c].feThread, thread) &&
      S.Enabled(Slot(s, c), SlotStep(c, s.clients[c].feThread, thread))
    case Consumer(f, step) => f < |s.fes| && OfConsumer(step) && S.Enabled(s.fes[f].slot, step)
    case ServerRead(f) => f < |s.fes| && s.fes[f].server.Free? && s.fes[f].channel != []
    case ServerAck(f) => f < |s.fes| && s.fes[f].server.Got? && s.fes[f].server.item.client < |s.clients|
    case ServerPush(f) =>
      f < |s.fes| && s.fes[f].server.Acked? && s.fes[f].server.item.client < |s.clients| &&
      s.clients[s.fes[f].server.item.client].group < |s.groups|
    case GroupQueue(g, turn) => g < |s.groups| && !turn.Push? && W.Enabled(s.groups[g], turn)
  }

  /** The client at `c` becomes `cl`. */
  function SetClient(s: State, c: nat, cl: Client): State
    requires c < |s.clients|
  {
    s.(clients := s.clients[c := cl])
  }

  function SetFe(s: State, f: nat, fe: FrontEnd): State
    requires f < |s.fes|
  {
    s.(fes := s.fes[f := fe])
  }

  /** Only a front end's successful send puts something on its connection to the server. */
  function ChannelAfter(fe: FrontEnd, step: S.Event<Item>): seq<Item>
    requires S.Enabled(fe.slot, step)
  {
    if step.SendSucceeds? then fe.channel + [fe.slot.consumer.m] else fe.channel
  }

  function Apply(s: State, e: Event): State
    requires Enabled(s, e)
  {
    match e
    case Own(c, own) => SetClient(s, c, ClientAfter(s.clients[c], own))
    case Thread(c, thread) =>
      var cl, f := s.clients[c], s.clients[c].fe;
      SetFe(SetClient(s, c, cl.(feThread := ThreadAfter(s.fes[f].slot, cl.feThread, thread))), f,
            s.fes[f].(slot := S.Apply(s.fes[f].slot, SlotStep(c, cl.feThread, thread))))
    case Consumer(f, step) =>
      var fe := s.fes[f];
      SetFe(s, f, fe.(slot := S.Apply(fe.slot, step), channel := ChannelAfter(fe, step)))
    case ServerRead(f) =>
      var fe := s.fes[f];
      SetFe(s, f, fe.(server := E.Got(fe.channel[0]), channel := fe.channel[1..]))
    case ServerAck(f) =>
      var i := s.fes[f].server.item;
      var cl := s.clients[i.client];
      SetFe(SetClient(s, i.client, cl.(acks := cl.acks + 1)), f, s.fes[f].(server := E.Acked(i)))
    case ServerPush(f) =>
      var i := s.fes[f].server.item;
      var g := s.clients[i.client].group;
      SetFe(s, f, s.fes[f].(server := E.Free)).(groups := s.groups[g := W.Apply(s.groups[g], W.Push(i))])
    case GroupQueue(g, turn) => s.(groups := s.groups[g := W.Apply(s.groups[g], turn)])
  }

  predicate Initial(s: State) {
    && (forall c :: 0 <= c < |s.clients| ==>
          && s.clients[c] == Client(s.clients[c].fe, s.clients[c].group, [], W.Initial(), false, false, [], 0, Reading)
          && s.clients[c].fe < |s.fes| && s.clients[c].group < |s.groups|)
    && (forall f :: 0 <= f < |s.fes| ==> s.fes[f] == FrontEnd(S.Initial(), [], E.Free))
    && (forall g :: 0 <= g < |s.groups| ==> s.groups[g] == W.Initial())
  }

  // ----- The same state with all of this left out -----

  function AbsSender(cl: Client): C.Sender {
    C.Sender(cl.queue.queue,
             if cl.queue.consumer.Handling? && !cl.awaiting then Some(cl.queue.consumer.item) else None,
             cl.awaiting, cl.acked)
  }

  function AbsThread(th: FeThread): Option<string> {
    match th
    case Reading => None
    case Has(t) => Some(t)
    case Waiting(_, t) => Some(t)
    case Wrote(_) => None
  }

  function AbsClient(cl: Client): E.ClientState {
    E.ClientState(cl.fe, cl.group, cl.typed, AbsSender(cl), cl.wire, cl.acks, AbsThread(cl.feThread))
  }

  /** The slot is full from the moment a message is accepted until it is sent. */
  function AbsSlot<M>(slot: S.State<M>): Option<M> {
    if |slot.accepted| <= |slot.sent| then None else Some(slot.accepted[|slot.accepted| - 1])
  }

  function AbsFe(fe: FrontEnd): E.FrontEnd {
    E.FrontEnd(AbsSlot(fe.slot), fe.channel, fe.server)
  }

  function AbsGroup(q: W.State<Item>): E.GroupQueue {
    E.GroupQueue(q.queue, if q.consumer.Handling? then Some(q.consumer.item) else None, q.consumed)
  }

  function Abs(s: State): (a: E.State)
    ensures |a.clients| == |s.clients| && forall c :: 0 <= c < |s.clients| ==> a.clients[c] == AbsClient(s.clients[c])
    ensures |a.fes| == |s.fes| && forall f :: 0 <= f < |s.fes| ==> a.fes[f] == AbsFe(s.fes[f])
    ensures |a.groups| == |s.groups| && forall g :: 0 <= g < |s.groups| ==> a.groups[g] == AbsGroup(s.groups[g])
  {
    E.State(seq(|s.clients|, c requires 0 <= c < |s.clients| => AbsClient(s.clients[c])),
            seq(|s.fes|, f requires 0 <= f < |s.fes| => AbsFe(s.fes[f])),
            seq(|s.groups|, g requires 0 <= g < |s.groups| => AbsGroup(s.groups[g])))
  }

  /** The step of the simpler system, if it is one there. */
  function Image(e: Event): Option<E.Event> {
    match e
    case Own(c, Type(input)) => Some(E.Type(c, input))
    case Own(c, Queue(inner)) => if inner.Pop? then Some(E.Pop(c)) else None
    case Own(c, SendOut) => Some(E.SendOut(c))
    case Own(c, ReceiveAck) => Some(E.ReceiveAck(c))
    case Own(c, GoOn) => Some(E.GoOn(c))
    case Own(c, FeRead) => Some(E.FeRead(c))
    case Thread(c, thread) => if thread.Write? then Some(E.FePut(c)) else None
    case Consumer(f, step) => if step.SendSucceeds? then Some(E.FeSend(f)) else None
    case ServerRead(f) => Some(E.ServerRead(f))
    case ServerAck(f) => Some(E.ServerAck(f))
    case ServerPush(f) => Some(E.ServerEnqueue(f))
    case GroupQueue(g, turn) =>
      if turn.Pop? then Some(E.Consume(g)) else if turn.Finish? then Some(E.Record(g)) else None
  }

  // ----- The invariant -----

  predicate Sound(cl: Client) { cl.awaiting ==> cl.queue.consumer.Handling? }

  ghost predicate ClientFits(s: State, c: nat)
    requires c < |s.clients|
  {
    var cl := s.clients[c];
    && cl.fe < |s.fes| && cl.group < |s.groups|
    && W.Inv(cl.queue)
    && Sound(cl)
    && ThreadFits(s.fes[cl.fe].slot, c, cl.feThread)
  }

  /** A thread at the semaphore has the ticket of its text, and the slot knows how far it has got. */
  ghost predicate ThreadFits(slot: S.State<Item>, c: nat, th: FeThread) {
    match th
    case Waiting(k, t) =>
      && k in S.Known(slot.sem) && k < |slot.messages| && slot.messages[k] == E.Item(c, t)
      && (k in slot.stage ==> slot.stage[k].Entered?)
    case Wrote(k) =>
      k < |slot.messages| && slot.messages[k].client == c && k in slot.stage && slot.stage[k].Written?
    case _ => true
  }

  /** Conversely, every ticket whose thread has not unlocked yet is the ticket of its client's thread. */
  ghost predicate TicketFits(clients: seq<Client>, slot: S.State<Item>, f: nat, k: nat) {
    && k < |slot.messages|
    && ((k in slot.stage && slot.stage[k].Unlocked?) ||
        (var d := slot.messages[k].client;
         && d < |clients| && clients[d].fe == f
         && clients[d].feThread ==
              if k in slot.stage && slot.stage[k].Written? then Wrote(k) else Waiting(k, slot.messages[k].text)))
  }

  ghost predicate SlotFits(clients: seq<Client>, slot: S.State<Item>, f: nat) {
    S.Inv(slot) && forall k: nat :: k in S.Known(slot.sem) ==> TicketFits(clients, slot, f, k)
  }

  ghost predicate Inv(s: State) {
    && (forall c :: 0 <= c < |s.clients| ==> ClientFits(s, c))
    && (forall f :: 0 <= f < |s.fes| ==> SlotFits(s.clients, s.fes[f].slot, f))
    && (forall g :: 0 <= g < |s.groups| ==> W.Inv(s.groups[g]))
  }

  lemma InitialFits(s: State)
    requires Initial(s)
    ensures Inv(s) && E.Initial(Abs(s))
  {
  }

  lemma TicketsStay(clients: seq<Client>, c: nat, cl: Client, slot: S.State<Item>, f: nat)
    requires SlotFits(clients, slot, f) && c < |clients| && cl.fe == clients[c].fe
    requires cl.feThread == clients[c].feThread || (!clients[c].feThread.Waiting? && !clients[c].feThread.Wrote?
                                                    && !cl.feThread.Waiting? && !cl.feThread.Wrote?)
    ensures SlotFits(clients[c := cl], slot, f)
  {
    hide S.Inv;
    forall k: nat | k in S.Known(slot.sem) ensures TicketFits(clients[c := cl], slot, f, k) {
      assert TicketFits(clients, slot, f, k);
    }
  }

  /** Nothing at the semaphores moves: the invariant depends on the client's own queue only. */
  lemma ClientMoves(s: State, c: nat, cl: Client)
    requires Inv(s) && c < |s.clients|
    requires cl.fe == s.clients[c].fe && cl.group == s.clients[c].group
    requires W.Inv(cl.queue) && Sound(cl)
    requires cl.feThread == s.clients[c].feThread || (!s.clients[c].feThread.Waiting? && !s.clients[c].feThread.Wrote?
                                                      && !cl.feThread.Waiting? && !cl.feThread.Wrote?)
    ensures Inv(SetClient(s, c, cl))
  {
    var s' := SetClient(s, c, cl);
    assert ClientFits(s, c);
    forall d | 0 <= d < |s'.clients| ensures ClientFits(s', d) {
      assert ClientFits(s, d);
    }
    forall f | 0 <= f < |s'.fes| ensures SlotFits(s'.clients, s'.fes[f].slot, f) {
      TicketsStay(s.clients, c, cl, s.fes[f].slot, f);
    }
  }

  lemma OutsideKeeps(s: State, f: nat, fe: FrontEnd)
    requires Inv(s) && f < |s.fes| && fe.slot == s.fes[f].slot
    ensures Inv(SetFe(s, f, fe))
  {
    var s' := SetFe(s, f, fe);
    forall d | 0 <= d < |s'.clients| ensures ClientFits(s', d) {
      assert ClientFits(s, d);
      SameThreads(s, f, fe, d);
    }
  }

  lemma SameThreads(s: State, f: nat, fe: FrontEnd, d: nat)
    requires f < |s.fes| && d < |s.clients| && ClientFits(s, d) && fe.slot == s.fes[f].slot
    ensures ClientFits(SetFe(s, f, fe), d)
  {
  }

  lemma GroupKeeps(s: State, g: nat, q: W.State<Item>)
    requires Inv(s) && g < |s.groups| && W.Inv(q)
    ensures Inv(s.(groups := s.groups[g := q]))
  {
    var s' := s.(groups := s.groups[g := q]);
    forall d | 0 <= d < |s'.clients| ensures ClientFits(s', d) {
      assert ClientFits(s, d);
    }
  }

  /** The ticket a step of the slot is about, if any. */
  function TicketOf<M>(slot: S.State<M>, e: S.Event<M>): Option<nat> {
    match e
    case Arrive(_) => Some(|slot.messages|)
    case Resume(k) => Some(k)
    case Write(k) => Some(k)
    case Unlock(k) => Some(k)
    case Post(k, _) => Some(k)
    case _ => None
  }

  ghost predicate SameTicket<M>(slot: S.State<M>, slot': S.State<M>, j: nat) {
    && (j in S.Known(slot'.sem) <==> j in S.Known(slot.sem))
    && (j in slot'.stage <==> j in slot.stage)
    && (j in slot.stage ==> slot'.stage[j] == slot.stage[j])
    && (j < |slot.messages| ==> j < |slot'.messages| && slot'.messages[j] == slot.messages[j])
  }

  /** A step of the semaphore leaves every thread there that it does not bring in or let out. */
  lemma OthersStayKnown(sem: Sem.State, e: Sem.Event, j: nat)
    requires Sem.Enabled(sem, e) && (e.Wait? || e.Post? ==> e.t != j)
    ensures j in S.Known(Sem.Apply(sem, e)) <==> j in S.Known(sem)
  {
  }

  /** A step of the slot leaves all other tickets where they are. */
  lemma OtherTicketsStay<M>(slot: S.State<M>, e: S.Event<M>, j: nat)
    requires S.Inv(slot) && S.Enabled(slot, e) && TicketOf(slot, e) != Some(j)
    ensures SameTicket(slot, S.Apply(slot, e), j)
  {
    match e
    case Arrive(_) => OthersStayKnown(slot.sem, Sem.Wait(|slot.messages|), j);
    case Resume(k) => OthersStayKnown(slot.sem, Sem.Resume(k), j);
    case Post(k, wakes) => OthersStayKnown(slot.sem, Sem.Post(k, wakes), j);
    case _ =>
  }

  /** What a step does to the ticket it is about. */
  lemma TicketMoves<M>(slot: S.State<M>, e: S.Event<M>)
    requires S.Inv(slot) && S.Enabled(slot, e) && TicketOf(slot, e).Some?
    ensures var slot', k := S.Apply(slot, e), TicketOf(slot, e).value;
            && k < |slot'.messages|
            && (e.Arrive? ==> k in S.Known(slot'.sem) && slot'.messages[k] == e.m
                              && (k in slot'.stage ==> slot'.stage[k].Entered?))
            && (e.Resume? ==> k in S.Known(slot'.sem) && k in slot'.stage && slot'.stage[k].Entered?)
            && (e.Write? ==> k in slot'.stage && slot'.stage[k].Written?)
            && (e.Unlock? ==> k in slot'.stage && slot'.stage[k].Unlocked?)
            && (e.Post? ==> k !in S.Known(slot'.sem))
            && (!e.Arrive? ==> slot'.messages == slot.messages)
  {
    S.EventKeeps(slot, e);
    match e
    case Arrive(_) => S.SemWait(slot.sem, |slot.messages|);
    case Resume(k) => S.SemResume(slot.sem, k);
    case Post(k, wakes) => Leaves(slot.sem, k, wakes);
    case _ => assert TicketOf(slot, e).value in slot.stage.Keys;
  }

  lemma Leaves(sem: Sem.State, k: nat, wakes: nat)
    requires Sem.Inv(sem, 1) && Sem.Enabled(sem, Sem.Post(k, wakes))
    ensures k !in S.Known(Sem.Apply(sem, Sem.Post(k, wakes)))
  {
    S.SemPost(sem, k, wakes);
  }

  predicate At(th: FeThread, k: nat) { (th.Waiting? || th.Wrote?) && th.k == k }

  lemma ThreadFitsSame(slot: S.State<Item>, slot': S.State<Item>, d: nat, th: FeThread)
    requires ThreadFits(slot, d, th) && (th.Waiting? || th.Wrote? ==> SameTicket(slot, slot', th.k))
    ensures ThreadFits(slot', d, th)
  {
  }

  lemma TicketFitsSame(clients: seq<Client>, c: nat, cl: Client, slot: S.State<Item>, slot': S.State<Item>,
                       f: nat, j: nat)
    requires TicketFits(clients, slot, f, j) && SameTicket(slot, slot', j)
    requires c < |clients| && cl.fe == clients[c].fe && (cl.fe == f ==> !At(clients[c].feThread, j))
    ensures TicketFits(clients[c := cl], slot', f, j)
  {
    if !(j in slot.stage && slot.stage[j].Unlocked?) {
      assert slot.messages[j].client != c;
    }
  }

  /** The thread for client `c` goes from `th` to `th'` by a step of the slot. */
  predicate Takes(slot: S.State<Item>, c: nat, th: FeThread, step: S.Event<Item>, th': FeThread) {
    match th
    case Reading => false
    case Has(t) => step == S.Arrive(E.Item(c, t)) && th' == Waiting(|slot.messages|, t)
    case Waiting(k, _) =>
      (step == S.Event<Item>.Resume(k) && th' == th) || (step == S.Event<Item>.Write(k) && th' == Wrote(k))
    case Wrote(k) => step == S.Event<Item>.Unlock(k) && th' == Reading
  }

  lemma StepIsTaken(slot: S.State<Item>, c: nat, th: FeThread, thread: ThreadStep)
    requires CanMove(th, thread)
    ensures Takes(slot, c, th, SlotStep(c, th, thread), ThreadAfter(slot, th, thread))
  {
  }

  /** The thread that takes the step fits afterwards. */
  lemma OwnThreadFits(slot: S.State<Item>, c: nat, th: FeThread, step: S.Event<Item>, th': FeThread)
    requires S.Inv(slot) && S.Enabled(slot, step) && ThreadFits(slot, c, th) && Takes(slot, c, th, step, th')
    ensures ThreadFits(S.Apply(slot, step), c, th')
  {
    TicketMoves(slot, step);
  }

  /** Everybody else at the front end does. */
  lemma OthersFit(slot: S.State<Item>, c: nat, th: FeThread, step: S.Event<Item>, th': FeThread,
                  d: nat, other: FeThread)
    requires S.Inv(slot) && S.Enabled(slot, step) && ThreadFits(slot, c, th) && Takes(slot, c, th, step, th')
    requires d != c && ThreadFits(slot, d, other)
    ensures ThreadFits(S.Apply(slot, step), d, other)
  {
    if other.Waiting? || other.Wrote? {
      OtherTicketsStay(slot, step, other.k);
    }
    ThreadFitsSame(slot, S.Apply(slot, step), d, other);
  }

  /** The ticket of the thread that takes the step fits afterwards. */
  lemma OwnTicketFits(clients: seq<Client>, c: nat, slot: S.State<Item>, step: S.Event<Item>, th': FeThread)
    requires S.Inv(slot) && S.Enabled(slot, step) && c < |clients|
    requires ThreadFits(slot, c, clients[c].feThread) && Takes(slot, c, clients[c].feThread, step, th')
    ensures TicketOf(slot, step).Some?
    ensures TicketFits(clients[c := clients[c].(feThread := th')], S.Apply(slot, step), clients[c].fe,
                       TicketOf(slot, step).value)
  {
    TicketMoves(slot, step);
  }

  /** The tickets of the front end after a step of the thread for client `c`. */
  lemma TicketsFit(clients: seq<Client>, c: nat, slot: S.State<Item>, step: S.Event<Item>, th': FeThread)
    requires c < |clients| && SlotFits(clients, slot, clients[c].fe) && S.Enabled(slot, step)
    requires ThreadFits(slot, c, clients[c].feThread) && Takes(slot, c, clients[c].feThread, step, th')
    ensures SlotFits(clients[c := clients[c].(feThread := th')], S.Apply(slot, step), clients[c].fe)
  {
    var f, cl, slot' := clients[c].fe, clients[c].(feThread := th'), S.Apply(slot, step);
    S.EventKeeps(slot, step);
    OwnTicketFits(clients, c, slot, step, th');
    forall j: nat | j in S.Known(slot'.sem) && j != TicketOf(slot, step).value
      ensures TicketFits(clients[c := cl], slot', f, j)
    {
      OneTicketFits(clients, c, slot, step, th', j);
    }
  }

  lemma OneTicketFits(clients: seq<Client>, c: nat, slot: S.State<Item>, step: S.Event<Item>, th': FeThread, j: nat)
    requires c < |clients| && SlotFits(clients, slot, clients[c].fe) && S.Enabled(slot, step)
    requires ThreadFits(slot, c, clients[c].feThread) && Takes(slot, c, clients[c].feThread, step, th')
    requires j in S.Known(S.Apply(slot, step).sem) && TicketOf(slot, step) != Some(j)
    ensures TicketFits(clients[c := clients[c].(feThread := th')], S.Apply(slot, step), clients[c].fe, j)
  {
    OtherTicketsStay(slot, step, j);
    assert TicketFits(clients, slot, clients[c].fe, j);
    TicketFitsSame(clients, c, clients[c].(feThread := th'), slot, S.Apply(slot, step), clients[c].fe, j);
  }

  lemma OtherFeFits(clients: seq<Client>, c: nat, cl: Client, slot: S.State<Item>, g: nat)
    requires SlotFits(clients, slot, g) && c < |clients| && cl.fe == clients[c].fe && cl.fe != g
    ensures SlotFits(clients[c := cl], slot, g)
  {
    forall j: nat | j in S.Known(slot.sem) ensures TicketFits(clients[c := cl], slot, g, j) {
      TicketFitsSame(clients, c, cl, slot, slot, g, j);
    }
  }

  /** A step of the front end's thread for client `c`. */
  lemma ThreadGoes(s: State, c: nat, f: nat, step: S.Event<Item>, th': FeThread)
    requires Inv(s) && c < |s.clients| && f < |s.fes| && s.clients[c].fe == f
    requires S.Enabled(s.fes[f].slot, step) && Takes(s.fes[f].slot, c, s.clients[c].feThread, step, th')
    ensures Inv(SetFe(SetClient(s, c, s.clients[c].(feThread := th')), f,
                      s.fes[f].(slot := S.Apply(s.fes[f].slot, step))))
  {
    var slot, th := s.fes[f].slot, s.clients[c].feThread;
    assert ClientFits(s, c) && SlotFits(s.clients, slot, f);
    OwnThreadFits(slot, c, th, step, th');
    TicketsFit(s.clients, c, slot, step, th');
    forall d | 0 <= d < |s.clients| && d != c && s.clients[d].fe == f
      ensures ThreadFits(S.Apply(slot, step), d, s.clients[d].feThread)
    {
      assert ClientFits(s, d);
      OthersFit(slot, c, th, step, th', d, s.clients[d].feThread);
    }
    ReplacedFits(s, c, s.clients[c].(feThread := th'), f, s.fes[f].(slot := S.Apply(slot, step)));
  }

  lemma ReplacedFits(s: State, c: nat, cl: Client, f: nat, fe: FrontEnd)
    requires Inv(s) && c < |s.clients| && f < |s.fes| && s.clients[c].fe == f
    requires cl == s.clients[c].(feThread := cl.feThread)
    requires ThreadFits(fe.slot, c, cl.feThread) && SlotFits(s.clients[c := cl], fe.slot, f)
    requires forall d :: 0 <= d < |s.clients| && d != c && s.clients[d].fe == f ==>
               ThreadFits(fe.slot, d, s.clients[d].feThread)
    ensures Inv(SetFe(SetClient(s, c, cl), f, fe))
  {
    var s' := SetFe(SetClient(s, c, cl), f, fe);
    forall d | 0 <= d < |s'.clients| ensures ClientFits(s', d) {
      assert ClientFits(s, d);
    }
    forall g | 0 <= g < |s'.fes| ensures SlotFits(s'.clients, s'.fes[g].slot, g) {
      if g != f {
        OtherFeFits(s.clients, c, cl, s.fes[g].slot, g);
      }
    }
  }

  /** A step of the front end's consumer leaves the tickets, and the threads at them, as they are. */
  lemma ConsumerTicketsFit(clients: seq<Client>, slot: S.State<Item>, f: nat, step: S.Event<Item>)
    requires SlotFits(clients, slot, f) && S.Enabled(slot, step) && OfConsumer(step)
    ensures SlotFits(clients, S.Apply(slot, step), f)
  {
    S.EventKeeps(slot, step);
    forall j: nat | j in S.Known(S.Apply(slot, step).sem) ensures TicketFits(clients, S.Apply(slot, step), f, j) {
      ConsumerTicketFits(clients, slot, f, step, j);
    }
  }

  lemma ConsumerTicketFits(clients: seq<Client>, slot: S.State<Item>, f: nat, step: S.Event<Item>, j: nat)
    requires SlotFits(clients, slot, f) && S.Enabled(slot, step) && OfConsumer(step)
    requires j in S.Known(S.Apply(slot, step).sem)
    ensures TicketFits(clients, S.Apply(slot, step), f, j)
  {
    if step.Post? {
      TicketMoves(slot, step);
    }
    OtherTicketsStay(slot, step, j);
    assert TicketFits(clients, slot, f, j);
    TicketFitsKept(clients, slot, S.Apply(slot, step), f, j);
  }

  lemma TicketFitsKept(clients: seq<Client>, slot: S.State<Item>, slot': S.State<Item>, f: nat, j: nat)
    requires TicketFits(clients, slot, f, j) && SameTicket(slot, slot', j)
    ensures TicketFits(clients, slot', f, j)
  {
  }

  lemma ConsumerLeavesThread(slot: S.State<Item>, step: S.Event<Item>, d: nat, th: FeThread)
    requires S.Inv(slot) && S.Enabled(slot, step) && OfConsumer(step) && ThreadFits(slot, d, th)
    ensures ThreadFits(S.Apply(slot, step), d, th)
  {
    if th.Waiting? || th.Wrote? {
      if step.Post? {
        PostedIsUnlocked(slot, step);
      }
      OtherTicketsStay(slot, step, th.k);
    }
    ThreadFitsSame(slot, S.Apply(slot, step), d, th);
  }

  /** The consumer posts for a thread that has unlocked. */
  lemma PostedIsUnlocked<M>(slot: S.State<M>, e: S.Event<M>)
    requires S.Inv(slot) && S.Enabled(slot, e) && e.Post?
    ensures e.k in S.Known(slot.sem) && e.k in slot.stage && slot.stage[e.k].Unlocked?
  {
    assert e.k in slot.stage.Keys;
  }

  lemma ConsumerKeeps(s: State, f: nat, step: S.Event<Item>, fe': FrontEnd)
    requires Inv(s) && f < |s.fes| && S.Enabled(s.fes[f].slot, step) && OfConsumer(step)
    requires fe'.slot == S.Apply(s.fes[f].slot, step)
    ensures Inv(SetFe(s, f, fe'))
  {
    var slot := s.fes[f].slot;
    assert SlotFits(s.clients, slot, f);
    ConsumerTicketsFit(s.clients, slot, f, step);
    forall d | 0 <= d < |s.clients| ensures ClientFits(SetFe(s, f, fe'), d) {
      assert ClientFits(s, d);
      if s.clients[d].fe == f {
        ConsumerLeavesThread(slot, step, d, s.clients[d].feThread);
      }
    }
  }

  lemma OwnStepKeeps(cl: Client, own: ClientStep)
    requires CanStep(cl, own) && W.Inv(cl.queue) && Sound(cl)
    ensures W.Inv(ClientAfter(cl, own).queue) && Sound(ClientAfter(cl, own))
  {
    match own
    case Type(input) => W.EventKeeps(cl.queue, W.Push(PacketText.Cut(input)));
    case Queue(inner) => W.EventKeeps(cl.queue, inner);
    case GoOn => W.EventKeeps(cl.queue, W.Event<string>.Finish);
    case _ =>
  }

  lemma AckMoves(s: State, c: nat, f: nat, fe: FrontEnd)
    requires Inv(s) && c < |s.clients| && f < |s.fes| && fe.slot == s.fes[f].slot
    ensures Inv(SetFe(SetClient(s, c, s.clients[c].(acks := s.clients[c].acks + 1)), f, fe))
  {
    var cl := s.clients[c].(acks := s.clients[c].acks + 1);
    assert ClientFits(s, c);
    ClientMoves(s, c, cl);
    OutsideKeeps(SetClient(s, c, cl), f, fe);
  }

  lemma PushMoves(s: State, f: nat, fe: FrontEnd, g: nat, i: Item)
    requires Inv(s) && f < |s.fes| && fe.slot == s.fes[f].slot && g < |s.groups|
    ensures Inv(SetFe(s, f, fe).(groups := s.groups[g := W.Apply(s.groups[g], W.Push(i))]))
  {
    W.EventKeeps(s.groups[g], W.Push(i));
    OutsideKeeps(s, f, fe);
    GroupKeeps(SetFe(s, f, fe), g, W.Apply(s.groups[g], W.Push(i)));
  }

  lemma ClientEventKeeps(s: State, e: Event)
    requires Inv(s) && Enabled(s, e) && (e.Own? || e.Thread?)
    ensures Inv(Apply(s, e))
  {
    assert ClientFits(s, e.c);
    var slot, cl := Slot(s, e.c), s.clients[e.c];
    match e
    case Own(c, own) =>
      OwnStepKeeps(cl, own);
      ClientMoves(s, c, ClientAfter(cl, own));
    case Thread(c, thread) =>
      StepIsTaken(slot, c, cl.feThread, thread);
      ThreadGoes(s, c, cl.fe, SlotStep(c, cl.feThread, thread), ThreadAfter(slot, cl.feThread, thread));
  }

  lemma ServerEventKeeps(s: State, f: nat, e: Event)
    requires Inv(s) && Enabled(s, e) && (e == ServerRead(f) || e == ServerAck(f) || e == ServerPush(f))
    ensures Inv(Apply(s, e))
  {
    hide Inv;
    var fe := s.fes[f];
    if e.ServerRead? {
      OutsideKeeps(s, f, fe.(server := E.Got(fe.channel[0]), channel := fe.channel[1..]));
    } else if e.ServerAck? {
      AckMoves(s, fe.server.item.client, f, fe.(server := E.Acked(fe.server.item)));
    } else {
      PushMoves(s, f, fe.(server := E.Free), s.clients[fe.server.item.client].group, fe.server.item);
    }
  }

  lemma EventKeeps(s: State, e: Event)
    requires Inv(s) && Enabled(s, e)
    ensures Inv(Apply(s, e))
  {
    match e
    case Own(_, _) => ClientEventKeeps(s, e);
    case Thread(_, _) => ClientEventKeeps(s, e);
    case Consumer(f, step) =>
      var fe := s.fes[f];
      ConsumerKeeps(s, f, step, fe.(slot := S.Apply(fe.slot, step), channel := ChannelAfter(fe, step)));
    case ServerRead(f) => ServerEventKeeps(s, f, e);
    case ServerAck(f) => ServerEventKeeps(s, f, e);
    case ServerPush(f) => ServerEventKeeps(s, f, e);
    case GroupQueue(g, turn) =>
      W.EventKeeps(s.groups[g], turn);
      GroupKeeps(s, g, W.Apply(s.groups[g], turn));
  }

  // ----- Each step is a step of the simpler system, or none -----

  ghost predicate Matches(s: State, e: Event)
    requires Enabled(s, e)
  {
    match Image(e)
    case None => Abs(Apply(s, e)) == Abs(s)
    case Some(a) => E.Enabled(Abs(s), a) && Abs(Apply(s, e)) == E.Apply(Abs(s), a)
  }

  lemma AbsSetClient(s: State, c: nat, cl: Client)
    requires c < |s.clients|
    ensures Abs(SetClient(s, c, cl)) == Abs(s).(clients := Abs(s).clients[c := AbsClient(cl)])
  {
    var s' := SetClient(s, c, cl);
    assert Abs(s').clients == Abs(s).clients[c := AbsClient(cl)];
    assert Abs(s').fes == Abs(s).fes && Abs(s').groups == Abs(s).groups;
  }

  lemma AbsSetFe(s: State, f: nat, fe: FrontEnd)
    requires f < |s.fes|
    ensures Abs(SetFe(s, f, fe)) == Abs(s).(fes := Abs(s).fes[f := AbsFe(fe)])
  {
    var s' := SetFe(s, f, fe);
    assert Abs(s').fes == Abs(s).fes[f := AbsFe(fe)];
    assert Abs(s').clients == Abs(s).clients && Abs(s').groups == Abs(s).groups;
  }

  lemma AbsSetGroup(s: State, g: nat, q: W.State<Item>)
    requires g < |s.groups|
    ensures Abs(s.(groups := s.groups[g := q])) == Abs(s).(groups := Abs(s).groups[g := AbsGroup(q)])
  {
    var s' := s.(groups := s.groups[g := q]);
    assert Abs(s').groups == Abs(s).groups[g := AbsGroup(q)];
    assert Abs(s').clients == Abs(s).clients && Abs(s').fes == Abs(s).fes;
  }

  lemma SameClient(s: State, c: nat)
    requires c < |s.clients|
    ensures Abs(s).(clients := Abs(s).clients[c := AbsClient(s.clients[c])]) == Abs(s)
  {
    assert Abs(s).clients[c := AbsClient(s.clients[c])] == Abs(s).clients;
  }

  lemma SameFe(s: State, f: nat)
    requires f < |s.fes|
    ensures Abs(s).(fes := Abs(s).fes[f := AbsFe(s.fes[f])]) == Abs(s)
  {
    assert Abs(s).fes[f := AbsFe(s.fes[f])] == Abs(s).fes;
  }

  lemma SameGroup(s: State, g: nat)
    requires g < |s.groups|
    ensures Abs(s).(groups := Abs(s).groups[g := AbsGroup(s.groups[g])]) == Abs(s)
  {
    assert Abs(s).groups[g := AbsGroup(s.groups[g])] == Abs(s).groups;
  }

  /** How a client's own step looks from outside. */
  lemma OwnStepSeen(cl: Client, own: ClientStep)
    requires CanStep(cl, own) && Sound(cl)
    ensures var a, a' := AbsClient(cl), AbsClient(ClientAfter(cl, own));
            match own
            case Type(input) => a' == a.(typed := a.typed + [input], sender := C.Typed(a.sender, input))
            case Queue(inner) =>
              if inner.Pop? then C.CanPop(a.sender) && a' == a.(sender := C.Popped(a.sender)) else a' == a
            case SendOut =>
              a.sender.hand.Some? && a' == a.(wire := a.wire + [a.sender.hand.value], sender := C.SentOut(a.sender))
            case ReceiveAck => a.acks > 0 && a' == a.(acks := a.acks - 1, sender := C.AckReceived(a.sender))
            case GoOn => C.CanGoOn(a.sender) && a' == a.(sender := C.GoneOn(a.sender))
            case FeRead => a.feHand.None? && a.wire != [] && a' == a.(feHand := Some(a.wire[0]), wire := a.wire[1..])
  {
  }

  lemma ClientStepMatches(s: State, c: nat, own: ClientStep)
    requires Enabled(s, Own(c, own)) && Sound(s.clients[c])
    ensures Matches(s, Own(c, own))
  {
    OwnStepSeen(s.clients[c], own);
    SameClient(s, c);
    AbsSetClient(s, c, ClientAfter(s.clients[c], own));
  }

  /** What the slot accepts, and when it is sent, as the simpler system sees it. */
  lemma AbsSlotMoves<M>(slot: S.State<M>, e: S.Event<M>)
    requires S.Inv(slot) && S.Enabled(slot, e)
    ensures var slot' := S.Apply(slot, e);
            && (e.Write? ==> AbsSlot(slot).None? && AbsSlot(slot') == Some(slot.messages[e.k]))
            && (e.SendSucceeds? ==> AbsSlot(slot) == Some(slot.consumer.m) && AbsSlot(slot').None?)
            && (!e.Write? && !e.SendSucceeds? ==> AbsSlot(slot') == AbsSlot(slot))
  {
    hide Sem.Inv, Sem.Apply;
    S.EventKeeps(slot, e);
    if e.Write? {
      S.HandOffKeeps(slot, e);
    }
  }

  /** A step of the thread looks like no step, but for the one that writes the slot. */
  lemma ThreadStepSeen(slot: S.State<Item>, c: nat, th: FeThread, step: S.Event<Item>, th': FeThread)
    requires S.Inv(slot) && S.Enabled(slot, step) && ThreadFits(slot, c, th) && Takes(slot, c, th, step, th')
    ensures var slot' := S.Apply(slot, step);
            if step.Write? then
              && AbsThread(th).Some? && AbsThread(th') == None
              && AbsSlot(slot) == None && AbsSlot(slot') == Some(E.Item(c, AbsThread(th).value))
            else AbsThread(th') == AbsThread(th) && AbsSlot(slot') == AbsSlot(slot)
  {
    AbsSlotMoves(slot, step);
  }

  lemma ThreadStepMatches(s: State, c: nat, thread: ThreadStep)
    requires Enabled(s, Thread(c, thread)) && ClientFits(s, c) && S.Inv(Slot(s, c))
    ensures Matches(s, Thread(c, thread))
  {
    var f, cl, slot := s.clients[c].fe, s.clients[c], Slot(s, c);
    var step, th' := SlotStep(c, cl.feThread, thread), ThreadAfter(slot, cl.feThread, thread);
    StepIsTaken(slot, c, cl.feThread, thread);
    ThreadStepSeen(slot, c, cl.feThread, step, th');
    AbsSetBoth(s, c, cl.(feThread := th'), f, s.fes[f].(slot := S.Apply(slot, step)));
    if !thread.Write? {
      SameBoth(s, c, cl.(feThread := th'), f, s.fes[f].(slot := S.Apply(slot, step)));
    }
  }

  lemma AbsSetBoth(s: State, c: nat, cl: Client, f: nat, fe: FrontEnd)
    requires c < |s.clients| && f < |s.fes|
    ensures Abs(SetFe(SetClient(s, c, cl), f, fe)) ==
            Abs(s).(clients := Abs(s).clients[c := AbsClient(cl)], fes := Abs(s).fes[f := AbsFe(fe)])
  {
    AbsSetClient(s, c, cl);
    AbsSetFe(SetClient(s, c, cl), f, fe);
  }

  lemma SameBoth(s: State, c: nat, cl: Client, f: nat, fe: FrontEnd)
    requires c < |s.clients| && f < |s.fes|
    requires AbsClient(cl) == AbsClient(s.clients[c]) && AbsFe(fe) == AbsFe(s.fes[f])
    ensures Abs(SetFe(SetClient(s, c, cl), f, fe)) == Abs(s)
  {
    AbsSetBoth(s, c, cl, f, fe);
    SameClient(s, c);
    SameFe(s, f);
  }

  lemma ConsumerStepMatches(s: State, f: nat, step: S.Event<Item>)
    requires Enabled(s, Consumer(f, step)) && S.Inv(s.fes[f].slot)
    ensures Matches(s, Consumer(f, step))
  {
    hide S.Inv;
    var fe := s.fes[f];
    AbsSlotMoves(fe.slot, step);
    AbsSetFe(s, f, fe.(slot := S.Apply(fe.slot, step), channel := ChannelAfter(fe, step)));
    SameFe(s, f);
  }

  lemma ServerReadMatches(s: State, f: nat)
    requires Enabled(s, ServerRead(f))
    ensures Matches(s, ServerRead(f))
  {
    AbsSetFe(s, f, s.fes[f].(server := E.Got(s.fes[f].channel[0]), channel := s.fes[f].channel[1..]));
  }

  lemma ServerAckMatches(s: State, f: nat)
    requires Enabled(s, ServerAck(f))
    ensures Matches(s, ServerAck(f))
  {
    var i := s.fes[f].server.item;
    var cl := s.clients[i.client];
    AbsSetBoth(s, i.client, cl.(acks := cl.acks + 1), f, s.fes[f].(server := E.Acked(i)));
  }

  lemma ServerPushMatches(s: State, f: nat)
    requires Enabled(s, ServerPush(f))
    ensures Matches(s, ServerPush(f))
  {
    var i := s.fes[f].server.item;
    var g, fe := s.clients[i.client].group, s.fes[f].(server := E.Free);
    AbsSetFe(s, f, fe);
    AbsSetGroup(SetFe(s, f, fe), g, W.Apply(s.groups[g], W.Push(i)));
  }

  lemma GroupStepMatches(s: State, g: nat, turn: W.Event<Item>)
    requires Enabled(s, GroupQueue(g, turn))
    ensures Matches(s, GroupQueue(g, turn))
  {
    AbsSetGroup(s, g, W.Apply(s.groups[g], turn));
    SameGroup(s, g);
  }

  /** Every step of the full system is one step of the simpler one, or leaves it as it is. */
  lemma StepMatches(s: State, e: Event)
    requires Inv(s) && Enabled(s, e)
    ensures Matches(s, e)
  {
    match e
    case Own(c, own) =>
      assert ClientFits(s, c);
      ClientStepMatches(s, c, own);
    case Thread(c, thread) =>
      assert ClientFits(s, c) && SlotFits(s.clients, Slot(s, c), s.clients[c].fe);
      ThreadStepMatches(s, c, thread);
    case Consumer(f, step) =>
      assert SlotFits(s.clients, s.fes[f].slot, f);
      ConsumerStepMatches(s, f, step);
    case ServerRead(f) => ServerReadMatches(s, f);
    case ServerAck(f) => ServerAckMatches(s, f);
    case ServerPush(f) => ServerPushMatches(s, f);
    case GroupQueue(g, turn) => GroupStepMatches(s, g, turn);
  }

  // ----- It rests only where the simpler system does -----

  /** Something other than input, and than a send that fails. */
  predicate Proper(e: Event) { !(e.Own? && e.own.Type?) && !(e.Consumer? && e.step.SendFails?) }

  /** A queue with something in it, or in hand, has an enabled step of its consumer or a wake-up. */
  lemma QueueGoesOn<T>(q: W.State<T>) returns (e: W.Event<T>)
    requires W.Inv(q) && q.queue != [] && !q.consumer.Handling?
    ensures OfQueue(e) && W.Enabled(q, e)
  {
    if q.consumer.Checking? {
      e := W.Event<T>.Pop;
    } else if q.unlocked {
      e := W.Event<T>.TakeLock;
    } else {
      e := W.Event<T>.Unlock;
    }
  }

  /** The ticket of a thread's step has a thread that has not unlocked yet. */
  lemma StepHasTicket<M>(slot: S.State<M>, e: S.Event<M>)
    requires S.Inv(slot) && S.Enabled(slot, e) && (e.Resume? || e.Write? || e.Unlock?)
    ensures e.k in S.Known(slot.sem)
    ensures if e.Unlock? then e.k in slot.stage && slot.stage[e.k].Written?
            else e.k in slot.stage ==> slot.stage[e.k].Entered?
  {
    if !e.Resume? {
      assert e.k in slot.stage.Keys;
    } else {
      S.SemResume(slot.sem, e.k);
      assert e.k !in slot.stage.Keys;
    }
  }

  /** A front end with somebody at its semaphore can go on. */
  lemma SlotGoesOn(s: State, f: nat) returns (e: Event)
    requires Inv(s) && f < |s.fes| && S.Known(s.fes[f].slot.sem) != {}
    ensures Enabled(s, e) && Proper(e)
  {
    assert SlotFits(s.clients, s.fes[f].slot, f);
    var step := S.SomethingCanHappen(s.fes[f].slot);
    e := EventOf(s, f, step);
  }

  lemma EventOf(s: State, f: nat, step: S.Event<Item>) returns (e: Event)
    requires f < |s.fes| && SlotFits(s.clients, s.fes[f].slot, f) && S.Enabled(s.fes[f].slot, step)
    requires !step.Arrive? && !step.SendFails?
    ensures Enabled(s, e) && Proper(e)
  {
    hide S.Inv;
    if OfConsumer(step) {
      e := Consumer(f, step);
    } else {
      var slot := s.fes[f].slot;
      StepHasTicket(slot, step);
      assert TicketFits(s.clients, slot, f, step.k);
      var c := slot.messages[step.k].client;
      match step
      case Resume(_) => e := Thread(c, ThreadStep.Resume);
      case Write(_) => e := Thread(c, ThreadStep.Write);
      case Unlock(_) => e := Thread(c, ThreadStep.Unlock);
    }
  }

  /** A thread at the slot has a ticket there. */
  lemma ThreadIsKnown(s: State, c: nat)
    requires Inv(s) && c < |s.clients|
    ensures s.clients[c].fe < |s.fes| && S.Inv(Slot(s, c))
    ensures s.clients[c].feThread.Waiting? || s.clients[c].feThread.Wrote? ==> S.Known(Slot(s, c).sem) != {}
  {
    assert ClientFits(s, c) && SlotFits(s.clients, Slot(s, c), s.clients[c].fe);
    var th := s.clients[c].feThread;
    if th.Waiting? || th.Wrote? {
      assert th.Wrote? ==> th.k in Slot(s, c).stage.Keys;
      assert th.k in S.Known(Slot(s, c).sem);
    }
  }

  /** A thread of a front end that holds a text can go on, or somebody before it can. */
  lemma ThreadGoesOn(s: State, c: nat) returns (e: Event)
    requires Inv(s) && c < |s.clients| && !s.clients[c].feThread.Reading?
    ensures Enabled(s, e) && Proper(e)
  {
    hide Inv, S.Inv;
    ThreadIsKnown(s, c);
    var th := s.clients[c].feThread;
    if th.Has? {
      S.ArrivalIsEnabled(Slot(s, c), E.Item(c, th.text));
      e := Thread(c, ThreadStep.Arrive);
    } else {
      e := SlotGoesOn(s, s.clients[c].fe);
    }
  }

  lemma ClientGoesOn(s: State, a: E.Event) returns (e: Event)
    requires Inv(s) && E.Enabled(Abs(s), a)
    requires a.Pop? || a.SendOut? || a.ReceiveAck? || a.GoOn? || a.FeRead? || a.FePut?
    ensures Enabled(s, e) && Proper(e)
  {
    var c := a.c;
    assert ClientFits(s, c);
    match a
    case Pop(_) =>
      var inner := QueueGoesOn(s.clients[c].queue);
      e := Own(c, Queue(inner));
    case SendOut(_) => e := Own(c, ClientStep.SendOut);
    case ReceiveAck(_) => e := Own(c, ClientStep.ReceiveAck);
    case GoOn(_) => e := Own(c, ClientStep.GoOn);
    case FeRead(_) =>
      if s.clients[c].feThread.Reading? {
        e := Own(c, ClientStep.FeRead);
      } else {
        e := ThreadGoesOn(s, c);
      }
    case FePut(_) => e := ThreadGoesOn(s, c);
  }

  lemma ServerGoesOn(s: State, a: E.Event) returns (e: Event)
    requires Inv(s) && E.Enabled(Abs(s), a)
    requires a.FeSend? || a.ServerRead? || a.ServerAck? || a.ServerEnqueue? || a.Consume? || a.Record?
    ensures Enabled(s, e) && Proper(e)
  {
    match a
    case FeSend(f) =>
      assert SlotFits(s.clients, s.fes[f].slot, f);
      assert s.fes[f].slot.stage != map[];
      e := SlotGoesOn(s, f);
    case ServerRead(f) => e := ServerRead(f);
    case ServerAck(f) => e := ServerAck(f);
    case ServerEnqueue(f) => e := ServerPush(f);
    case Consume(g) =>
      var step := QueueGoesOn(s.groups[g]);
      e := GroupQueue(g, step);
    case Record(g) => e := GroupQueue(g, W.Event<Item>.Finish);
  }

  /** Where the simpler system can go on, the full one can: it waits for no wake-up that does not come. */
  lemma GoesOn(s: State, a: E.Event) returns (e: Event)
    requires Inv(s) && E.Enabled(Abs(s), a) && !a.Type?
    ensures Enabled(s, e) && Proper(e)
  {
    if a.Pop? || a.SendOut? || a.ReceiveAck? || a.GoOn? || a.FeRead? || a.FePut? {
      e := ClientGoesOn(s, a);
    } else {
      e := ServerGoesOn(s, a);
    }
  }

  // ----- Every run -----

  predicate Valid(s: State, events: seq<Event>)
    decreases |events|
  {
    events == [] || (Enabled(s, events[0]) && Valid(Apply(s, events[0]), events[1..]))
  }

  function After(s: State, events: seq<Event>): State
    requires Valid(s, events)
    decreases |events|
  {
    if events == [] then s else After(Apply(s, events[0]), events[1..])
  }

  /** Every run of the full system is a run of the simpler one. */
  lemma {:induction false} Refines(s: State, events: seq<Event>) returns (images: seq<E.Event>)
    requires Inv(s) && Valid(s, events)
    ensures E.Valid(Abs(s), images) && E.After(Abs(s), images) == Abs(After(s, events))
    ensures Inv(After(s, events)) && |After(s, events).clients| == |s.clients|
    decreases |events|
  {
    if events == [] {
      images := [];
    } else {
      var e := events[0];
      EventKeeps(s, e);
      StepMatches(s, e);
      var rest := Refines(Apply(s, e), events[1..]);
      match Image(e)
      case None => images := rest;
      case Some(a) =>
        images := [a] + rest;
        assert images[1..] == rest;
    }
  }

  /**
    What a client's group has recorded of it is a beginning of what it typed, after the length cut, in
    every reachable state of the full system.
    */
  lemma HistoryIsPrefixOfTyped(s: State, events: seq<Event>, c: nat)
    requires Initial(s) && Valid(s, events) && c < |s.clients|
    ensures c < |After(s, events).clients|
    ensures var s' := After(s, events);
            && s'.clients[c].group < |s'.groups|
            && E.Of(s'.groups[s'.clients[c].group].consumed, c) <= E.CutAll(s'.clients[c].typed)
  {
    InitialFits(s);
    var images := Refines(s, events);
    E.HistoryIsPrefixOfTyped(Abs(s), images, c);
  }

  /**
    When the full system can do nothing more, whatever the order in which its threads ran and were woken,
    the history holds everything the client typed.
    */
  lemma EverythingArrives(s: State, events: seq<Event>, c: nat)
    requires Initial(s) && Valid(s, events) && c < |s.clients|
    requires forall e: Event :: Proper(e) ==> !Enabled(After(s, events), e)
    ensures c < |After(s, events).clients|
    ensures var s' := After(s, events);
            && s'.clients[c].group < |s'.groups|
            && E.Of(s'.groups[s'.clients[c].group].consumed, c) == E.CutAll(s'.clients[c].typed)
  {
    InitialFits(s);
    var images := Refines(s, events);
    var s' := After(s, events);
    forall a: E.Event | !a.Type? ensures !E.Enabled(Abs(s'), a) {
      if E.Enabled(Abs(s'), a) {
        var e := GoesOn(s', a);
        assert false;
      }
    }
    E.EverythingArrives(Abs(s), images, c);
  }
}
