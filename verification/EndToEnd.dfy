/**
  From the keyboard to the history: a failure-free run of any number of clients, front ends and
  groups (src/client/client.cpp:60-92, 262-313; src/proxy_fe/ProxyFE.cpp:193-210, 518-568;
  src/server/server.cpp:204-251; src/server/Group.cpp:32-68, 240-245). Every place where a message
  can be is modelled; each event moves one message, or one acknowledgement, by one place. Module
  Pipeline shows that the system with its semaphores, mutexes and flags does nothing else.
  */
module EndToEnd {
  import opened Common
  import opened Clients
  import PacketText

  datatype Item = Item(client: nat, text: string)

  /** `wire` leads from the client to its front end, `acks` back; `feHand` is the front end's thread for it. */
  datatype ClientState = ClientState(fe: nat, group: nat, typed: seq<string>, sender: Sender,
                                     wire: seq<string>, acks: nat, feHand: Option<string>)

  /** What the server thread of a front end is doing. */
  datatype Hand = Free | Got(item: Item) | Acked(item: Item)

  datatype FrontEnd = FrontEnd(slot: Option<Item>, channel: seq<Item>, server: Hand)

  datatype GroupQueue = GroupQueue(queue: seq<Item>, hand: Option<Item>, history: seq<Item>)

  datatype State = State(clients: seq<ClientState>, fes: seq<FrontEnd>, groups: seq<GroupQueue>)

  datatype Event =
    | Type(c: nat, input: string)
    | Pop(c: nat)
    | SendOut(c: nat)
    | ReceiveAck(c: nat)
    | GoOn(c: nat)
    | FeRead(c: nat)
    | FePut(c: nat)
    | FeSend(f: nat)
    | ServerRead(f: nat)
    | ServerAck(f: nat)
    | ServerEnqueue(f: nat)
    | Consume(g: nat)
    | Record(g: nat)

  predicate Enabled(s: State, e: Event) {
    match e
    case Type(c, _) => c < |s.clients|
    case Pop(c) => c < |s.clients| && CanPop(s.clients[c].sender)
    case SendOut(c) => c < |s.clients| && s.clients[c].sender.hand.Some?
    case ReceiveAck(c) => c < |s.clients| && s.clients[c].acks > 0
    case GoOn(c) => c < |s.clients| && CanGoOn(s.clients[c].sender)
    case FeRead(c) => c < |s.clients| && s.clients[c].feHand.None? && s.clients[c].wire != []
    case FePut(c) =>
      c < |s.clients| && s.clients[c].feHand.Some? && s.clients[c].fe < |s.fes| && s.fes[s.clients[c].fe].slot.None?
    case FeSend(f) => f < |s.fes| && s.fes[f].slot.Some?
    case ServerRead(f) => f < |s.fes| && s.fes[f].server.Free? && s.fes[f].channel != []
    case ServerAck(f) => f < |s.fes| && s.fes[f].server.Got? && s.fes[f].server.item.client < |s.clients|
    case ServerEnqueue(f) =>
      f < |s.fes| && s.fes[f].server.Acked? && s.fes[f].server.item.client < |s.clients| &&
      s.clients[s.fes[f].server.item.client].group < |s.groups|
    case Consume(g) => g < |s.groups| && s.groups[g].hand.None? && s.groups[g].queue != []
    case Record(g) => g < |s.groups| && s.groups[g].hand.Some?
  }

  function Apply(s: State, e: Event): State
    requires Enabled(s, e)
  {
    match e
    case Type(c, input) =>
      var cl := s.clients[c];
      s.(clients := s.clients[c := cl.(typed := cl.typed + [input], sender := Typed(cl.sender, input))])
    case Pop(c) =>
      var cl := s.clients[c];
      s.(clients := s.clients[c := cl.(sender := Popped(cl.sender))])
    case SendOut(c) =>
      var cl := s.clients[c];
      s.(clients := s.clients[c := cl.(wire := cl.wire + [cl.sender.hand.value], sender := SentOut(cl.sender))])
    case ReceiveAck(c) =>
      var cl := s.clients[c];
      s.(clients := s.clients[c := cl.(acks := cl.acks - 1, sender := AckReceived(cl.sender))])
    case GoOn(c) =>
      var cl := s.clients[c];
      s.(clients := s.clients[c := cl.(sender := GoneOn(cl.sender))])
    case FeRead(c) =>
      var cl := s.clients[c];
      s.(clients := s.clients[c := cl.(feHand := Some(cl.wire[0]), wire := cl.wire[1..])])
    case FePut(c) =>
      var cl := s.clients[c];
      s.(clients := s.clients[c := cl.(feHand := None)],
         fes := s.fes[cl.fe := s.fes[cl.fe].(slot := Some(Item(c, cl.feHand.value)))])
    case FeSend(f) =>
      var fe := s.fes[f];
      s.(fes := s.fes[f := fe.(slot := None, channel := fe.channel + [fe.slot.value])])
    case ServerRead(f) =>
      var fe := s.fes[f];
      s.(fes := s.fes[f := fe.(server := Got(fe.channel[0]), channel := fe.channel[1..])])
    case ServerAck(f) =>
      var i := s.fes[f].server.item;
      var cl := s.clients[i.client];
      s.(clients := s.clients[i.client := cl.(acks := cl.acks + 1)],
         fes := s.fes[f := s.fes[f].(server := Acked(i))])
    case ServerEnqueue(f) =>
      var i := s.fes[f].server.item;
      var g := s.clients[i.client].group;
      s.(fes := s.fes[f := s.fes[f].(server := Free)],
         groups := s.groups[g := s.groups[g].(queue := s.groups[g].queue + [i])])
    case Consume(g) =>
      var q := s.groups[g];
      s.(groups := s.groups[g := q.(hand := Some(q.queue[0]), queue := q.queue[1..])])
    case Record(g) =>
      var q := s.groups[g];
      s.(groups := s.groups[g := q.(hand := None, history := q.history + [q.hand.value])])
  }

  predicate Initial(s: State) {
    && (forall c :: 0 <= c < |s.clients| ==>
          && s.clients[c] == ClientState(s.clients[c].fe, s.clients[c].group, [], NEW_SENDER, [], 0, None)
          && s.clients[c].fe < |s.fes| && s.clients[c].group < |s.groups|)
    && (forall f :: 0 <= f < |s.fes| ==> s.fes[f] == FrontEnd(None, [], Free))
    && (forall g :: 0 <= g < |s.groups| ==> s.groups[g] == GroupQueue([], None, []))
  }

  // ----- Where a client's texts are -----

  /** The texts of client `c` among the items. */
  function Of(items: seq<Item>, c: nat): seq<string> {
    if items == [] then []
    else Of(items[..|items| - 1], c) + if items[|items| - 1].client == c then [items[|items| - 1].text] else []
  }

  function Opt<T>(o: Option<T>): seq<T> {
    match o case None => [] case Some(x) => [x]
  }

  function InServer(h: Hand): seq<Item> {
    match h case Free => [] case Got(i) => [i] case Acked(i) => [i]
  }

  /** The items at a group, at a front end and its server thread, and the texts at the client, oldest first. */
  function AtGroup(q: GroupQueue): seq<Item> { q.history + Opt(q.hand) + q.queue }
  function AtFe(f: FrontEnd): seq<Item> { InServer(f.server) + f.channel + Opt(f.slot) }
  function AtClient(c: ClientState): seq<string> { Opt(c.feHand) + c.wire + Opt(c.sender.hand) + c.sender.queue }

  /** All texts of client number `c`, whose front end is `f` and whose group is `q`, oldest first. */
  function TraceOf(cl: ClientState, f: FrontEnd, q: GroupQueue, c: nat): seq<string> {
    Of(AtGroup(q), c) + Of(AtFe(f), c) + AtClient(cl)
  }

  function CutAll(typed: seq<string>): (r: seq<string>)
    ensures |r| == |typed| && forall i :: 0 <= i < |typed| ==> r[i] == PacketText.Cut(typed[i])
  {
    seq(|typed|, i requires 0 <= i < |typed| => PacketText.Cut(typed[i]))
  }

  lemma {:induction false} OfAppend(a: seq<Item>, b: seq<Item>, c: nat)
    ensures Of(a + b, c) == Of(a, c) + Of(b, c)
  {
    if b == [] {
      assert a + b == a;
    } else {
      OfAppend(a, b[..|b| - 1], c);
      assert (a + b)[..|a + b| - 1] == a + b[..|b| - 1];
    }
  }

  lemma OfOne(i: Item, c: nat)
    ensures Of([i], c) == if i.client == c then [i.text] else []
  {
    assert [i][..0] == [];
  }

  // ----- The invariant -----

  /** The items at a front end that are still to be acknowledged. */
  function Unacked(f: FrontEnd): seq<Item> {
    (if f.server.Got? then [f.server.item] else []) + f.channel + Opt(f.slot)
  }

  function Bit(b: bool): nat { if b then 1 else 0 }

  /** The messages and acknowledgements of client number `c` that are under way. */
  function Outstanding(cl: ClientState, f: FrontEnd, c: nat): nat {
    |Opt(cl.feHand)| + |cl.wire| + |Of(Unacked(f), c)| + cl.acks + Bit(cl.sender.acked)
  }

  ghost predicate Fits(cl: ClientState, f: FrontEnd, q: GroupQueue, c: nat) {
    && TraceOf(cl, f, q, c) == CutAll(cl.typed)
    && Outstanding(cl, f, c) == Bit(cl.sender.awaiting)
    && (cl.sender.awaiting ==> cl.sender.hand.None?)
  }

  /** Items of clients of front end number `f` only. */
  ghost predicate Owned(clients: seq<ClientState>, items: seq<Item>, f: nat) {
    forall k :: 0 <= k < |items| ==> items[k].client < |clients| && clients[items[k].client].fe == f
  }

  ghost predicate ClientFits(s: State, c: nat)
    requires c < |s.clients|
  {
    var cl := s.clients[c];
    cl.fe < |s.fes| && cl.group < |s.groups| && Fits(cl, s.fes[cl.fe], s.groups[cl.group], c)
  }

  ghost predicate FeFits(s: State, f: nat)
    requires f < |s.fes|
  {
    Owned(s.clients, AtFe(s.fes[f]), f)
  }

  ghost predicate Inv(s: State) {
    && (forall c :: 0 <= c < |s.clients| ==> ClientFits(s, c))
    && (forall f :: 0 <= f < |s.fes| ==> FeFits(s, f))
  }

  // ----- Each event moves one thing by one place -----

  lemma TypeFits(cl: ClientState, f: FrontEnd, q: GroupQueue, c: nat, input: string)
    requires Fits(cl, f, q, c)
    ensures Fits(cl.(typed := cl.typed + [input], sender := Typed(cl.sender, input)), f, q, c)
  {
    hide Of, AtFe, AtGroup, Unacked, CutAll;
    var cl' := cl.(typed := cl.typed + [input], sender := Typed(cl.sender, input));
    var t := PacketText.Cut(input);
    assert AtClient(cl') == AtClient(cl) + [t];
    assert TraceOf(cl', f, q, c) == TraceOf(cl, f, q, c) + [t];
    assert CutAll(cl'.typed) == CutAll(cl.typed) + [t];
  }

  lemma PopFits(cl: ClientState, f: FrontEnd, q: GroupQueue, c: nat)
    requires Fits(cl, f, q, c) && CanPop(cl.sender)
    ensures Fits(cl.(sender := Popped(cl.sender)), f, q, c)
  {
    hide Of, AtFe, AtGroup, Unacked, CutAll;
    var cl' := cl.(sender := Popped(cl.sender));
    assert cl.sender.queue == [cl.sender.queue[0]] + cl'.sender.queue;
    assert AtClient(cl') == AtClient(cl);
  }

  lemma SendOutFits(cl: ClientState, f: FrontEnd, q: GroupQueue, c: nat)
    requires Fits(cl, f, q, c) && cl.sender.hand.Some?
    ensures Fits(cl.(wire := cl.wire + [cl.sender.hand.value], sender := SentOut(cl.sender)), f, q, c)
  {
    hide Of, AtFe, AtGroup, Unacked, CutAll;
    assert AtClient(cl.(wire := cl.wire + [cl.sender.hand.value], sender := SentOut(cl.sender))) == AtClient(cl);
  }

  lemma FeReadFits(cl: ClientState, f: FrontEnd, q: GroupQueue, c: nat)
    requires Fits(cl, f, q, c) && cl.feHand.None? && cl.wire != []
    ensures Fits(cl.(feHand := Some(cl.wire[0]), wire := cl.wire[1..]), f, q, c)
  {
    hide Of, AtFe, AtGroup, Unacked, CutAll;
    assert cl.wire == [cl.wire[0]] + cl.wire[1..];
    assert AtClient(cl.(feHand := Some(cl.wire[0]), wire := cl.wire[1..])) == AtClient(cl);
  }

  /** What the front end holds, and what it still has to acknowledge, gains the item put into the slot. */
  lemma SlotGains(f: FrontEnd, i: Item, c: nat)
    requires f.slot.None?
    ensures
      var f', gain := f.(slot := Some(i)), if i.client == c then [i.text] else [];
      Of(AtFe(f'), c) == Of(AtFe(f), c) + gain && Of(Unacked(f'), c) == Of(Unacked(f), c) + gain
    ensures
      var f' := f.(slot := Some(i));
      i.client != c ==> Of(AtFe(f'), c) == Of(AtFe(f), c) && Of(Unacked(f'), c) == Of(Unacked(f), c)
  {
    var f' := f.(slot := Some(i));
    assert AtFe(f') == AtFe(f) + [i] && Unacked(f') == Unacked(f) + [i];
    OfAppend(AtFe(f), [i], c);
    OfAppend(Unacked(f), [i], c);
    OfOne(i, c);
    assert Of(AtFe(f), c) + [] == Of(AtFe(f), c) && Of(Unacked(f), c) + [] == Of(Unacked(f), c);
  }

  lemma HandLeaves(cl: ClientState)
    requires cl.feHand.Some?
    ensures AtClient(cl) == [cl.feHand.value] + AtClient(cl.(feHand := None))
  {
  }

  lemma FePutFits(cl: ClientState, f: FrontEnd, q: GroupQueue, c: nat)
    requires Fits(cl, f, q, c) && cl.feHand.Some? && f.slot.None?
    ensures Fits(cl.(feHand := None), f.(slot := Some(Item(c, cl.feHand.value))), q, c)
  {
    hide Of, AtFe, AtGroup, AtClient, Unacked, CutAll;
    var i := Item(c, cl.feHand.value);
    SlotGains(f, i, c);
    HandLeaves(cl);
    Regroup(Of(AtGroup(q), c), Of(AtFe(f), c), i.text, AtClient(cl.(feHand := None)));
  }

  lemma Regroup<T>(a: seq<T>, b: seq<T>, x: T, rest: seq<T>)
    ensures a + (b + [x]) + rest == a + b + ([x] + rest)
  {
  }

  /** Another client's item in the slot. */
  lemma OtherPutFits(cl: ClientState, f: FrontEnd, q: GroupQueue, c: nat, i: Item)
    requires Fits(cl, f, q, c) && f.slot.None? && i.client != c
    ensures Fits(cl, f.(slot := Some(i)), q, c)
  {
    hide Of, AtFe, AtGroup, AtClient, Unacked, CutAll;
    SlotGains(f, i, c);
  }

  /** Moving on inside a front end and its server thread, short of acknowledging. */
  lemma FeMoves(f: FrontEnd)
    ensures f.slot.Some? ==>
              var f' := f.(slot := None, channel := f.channel + [f.slot.value]);
              AtFe(f') == AtFe(f) && Unacked(f') == Unacked(f)
    ensures f.server.Free? && f.channel != [] ==>
              var f' := f.(server := Got(f.channel[0]), channel := f.channel[1..]);
              AtFe(f') == AtFe(f) && Unacked(f') == Unacked(f)
  {
    if f.channel != [] {
      assert f.channel == [f.channel[0]] + f.channel[1..];
    }
  }

  /** The acknowledgement takes the item off those to be acknowledged, and moves nothing. */
  lemma AckCounts(f: FrontEnd, c: nat)
    requires f.server.Got?
    ensures var f' := f.(server := Acked(f.server.item));
            && AtFe(f') == AtFe(f)
            && |Of(Unacked(f), c)| == |Of(Unacked(f'), c)| + Bit(f.server.item.client == c)
  {
    var i, rest := f.server.item, f.channel + Opt(f.slot);
    assert Unacked(f) == [i] + rest && Unacked(f.(server := Acked(i))) == rest;
    OfAppend([i], rest, c);
    OfOne(i, c);
  }

  lemma AckFits(cl: ClientState, f: FrontEnd, q: GroupQueue, c: nat)
    requires Fits(cl, f, q, c) && f.server.Got?
    ensures var i := f.server.item;
            Fits(if i.client == c then cl.(acks := cl.acks + 1) else cl, f.(server := Acked(i)), q, c)
  {
    hide Of, AtFe, AtGroup, Unacked, CutAll;
    AckCounts(f, c);
  }

  /** An item leaves the server thread for its group. */
  lemma EnqueueMoves(f: FrontEnd, c: nat)
    requires f.server.Acked?
    ensures var f' := f.(server := Free);
            && AtFe(f) == [f.server.item] + AtFe(f')
            && Unacked(f') == Unacked(f)
            && Of(AtFe(f), c) == (if f.server.item.client == c then [f.server.item.text] else []) + Of(AtFe(f'), c)
  {
    var f' := f.(server := Free);
    assert AtFe(f) == [f.server.item] + AtFe(f');
    OfAppend([f.server.item], AtFe(f'), c);
    OfOne(f.server.item, c);
  }

  lemma GroupGets(q: GroupQueue, i: Item, c: nat)
    ensures Of(AtGroup(q.(queue := q.queue + [i])), c) == Of(AtGroup(q), c) + if i.client == c then [i.text] else []
  {
    assert AtGroup(q.(queue := q.queue + [i])) == AtGroup(q) + [i];
    OfAppend(AtGroup(q), [i], c);
    OfOne(i, c);
  }

  lemma EnqueueFits(cl: ClientState, f: FrontEnd, q: GroupQueue, c: nat)
    requires Fits(cl, f, q, c) && f.server.Acked? && f.server.item.client == c
    ensures Fits(cl, f.(server := Free), q.(queue := q.queue + [f.server.item]), c)
  {
    hide Of, AtFe, AtGroup, AtClient, Unacked, CutAll;
    EnqueueMoves(f, c);
    GroupGets(q, f.server.item, c);
    var a, b, t := Of(AtGroup(q), c), Of(AtFe(f.(server := Free)), c), f.server.item.text;
    assert (a + [t]) + b + AtClient(cl) == a + ([t] + b) + AtClient(cl);
  }

  lemma OtherEnqueueFits(cl: ClientState, f: FrontEnd, f': FrontEnd, q: GroupQueue, q': GroupQueue, c: nat, i: Item)
    requires Fits(cl, f, q, c) && i.client != c
    requires f' == f || (f.server == Acked(i) && f' == f.(server := Free))
    requires q' == q || q' == q.(queue := q.queue + [i])
    ensures Fits(cl, f', q', c)
  {
    hide Of, AtFe, AtGroup, AtClient, Unacked, CutAll;
    if f' != f {
      EnqueueMoves(f, c);
      assert [] + Of(AtFe(f'), c) == Of(AtFe(f'), c);
    }
    GroupGets(q, i, c);
    assert Of(AtGroup(q), c) + [] == Of(AtGroup(q), c);
  }

  lemma GroupMoves(q: GroupQueue)
    ensures q.hand.None? && q.queue != [] ==>
              AtGroup(q.(hand := Some(q.queue[0]), queue := q.queue[1..])) == AtGroup(q)
    ensures q.hand.Some? ==> AtGroup(q.(hand := None, history := q.history + [q.hand.value])) == AtGroup(q)
  {
    if q.queue != [] {
      assert q.queue == [q.queue[0]] + q.queue[1..];
    }
  }

  // ----- From the places to the whole state -----

  /** The one client that moves fits, the front ends and groups stay. */
  lemma OneClientMoves(s: State, c: nat, cl': ClientState)
    requires Inv(s) && c < |s.clients|
    requires cl'.fe == s.clients[c].fe && cl'.group == s.clients[c].group
    requires ClientFits(s, c) ==> Fits(cl', s.fes[cl'.fe], s.groups[cl'.group], c)
    ensures Inv(s.(clients := s.clients[c := cl']))
  {
    var s' := s.(clients := s.clients[c := cl']);
    assert ClientFits(s, c);
    forall d | 0 <= d < |s'.clients| ensures ClientFits(s', d) {
      assert ClientFits(s, d);
    }
    forall g | 0 <= g < |s'.fes| ensures FeFits(s', g) {
      assert FeFits(s, g);
    }
  }

  lemma AckWaitFits(cl: ClientState, f: FrontEnd, q: GroupQueue, c: nat)
    requires Fits(cl, f, q, c)
    ensures cl.acks > 0 ==> Fits(cl.(acks := cl.acks - 1, sender := AckReceived(cl.sender)), f, q, c)
    ensures CanGoOn(cl.sender) ==> Fits(cl.(sender := GoneOn(cl.sender)), f, q, c)
  {
    hide Of, AtFe, AtGroup, Unacked, CutAll;
  }

  lemma TypeKeeps(s: State, c: nat, input: string)
    requires Inv(s) && Enabled(s, Type(c, input))
    ensures Inv(Apply(s, Type(c, input)))
  {
    var cl := s.clients[c];
    assert ClientFits(s, c);
    TypeFits(cl, s.fes[cl.fe], s.groups[cl.group], c, input);
    OneClientMoves(s, c, Apply(s, Type(c, input)).clients[c]);
  }

  lemma PopKeeps(s: State, c: nat)
    requires Inv(s) && Enabled(s, Pop(c))
    ensures Inv(Apply(s, Pop(c)))
  {
    var cl := s.clients[c];
    assert ClientFits(s, c);
    PopFits(cl, s.fes[cl.fe], s.groups[cl.group], c);
    OneClientMoves(s, c, Apply(s, Pop(c)).clients[c]);
  }

  lemma SendOutKeeps(s: State, c: nat)
    requires Inv(s) && Enabled(s, SendOut(c))
    ensures Inv(Apply(s, SendOut(c)))
  {
    var cl := s.clients[c];
    assert ClientFits(s, c);
    SendOutFits(cl, s.fes[cl.fe], s.groups[cl.group], c);
    OneClientMoves(s, c, Apply(s, SendOut(c)).clients[c]);
  }

  lemma FeReadKeeps(s: State, c: nat)
    requires Inv(s) && Enabled(s, FeRead(c))
    ensures Inv(Apply(s, FeRead(c)))
  {
    var cl := s.clients[c];
    assert ClientFits(s, c);
    FeReadFits(cl, s.fes[cl.fe], s.groups[cl.group], c);
    OneClientMoves(s, c, Apply(s, FeRead(c)).clients[c]);
  }

  lemma AckWaitKeeps(s: State, e: Event)
    requires Inv(s) && Enabled(s, e) && (e.ReceiveAck? || e.GoOn?)
    ensures Inv(Apply(s, e))
  {
    var cl := s.clients[e.c];
    assert ClientFits(s, e.c);
    AckWaitFits(cl, s.fes[cl.fe], s.groups[cl.group], e.c);
    OneClientMoves(s, e.c, Apply(s, e).clients[e.c]);
  }

  lemma FePutKeepsClient(s: State, c: nat, d: nat)
    requires Inv(s) && Enabled(s, FePut(c)) && d < |s.clients|
    ensures ClientFits(Apply(s, FePut(c)), d)
  {
    var cl, other := s.clients[c], s.clients[d];
    assert ClientFits(s, d);
    var q := s.groups[other.group];
    if d == c {
      FePutFits(cl, s.fes[cl.fe], q, c);
    } else if other.fe == cl.fe {
      OtherPutFits(other, s.fes[cl.fe], q, d, Item(c, cl.feHand.value));
    }
  }

  lemma FePutKeepsFe(s: State, c: nat, g: nat)
    requires Inv(s) && Enabled(s, FePut(c)) && g < |s.fes|
    ensures FeFits(Apply(s, FePut(c)), g)
  {
    var cl, s' := s.clients[c], Apply(s, FePut(c));
    assert FeFits(s, g);
    if g == cl.fe {
      assert AtFe(s'.fes[g]) == AtFe(s.fes[g]) + [Item(c, cl.feHand.value)];
    }
  }

  lemma FePutKeeps(s: State, c: nat)
    requires Inv(s) && Enabled(s, FePut(c))
    ensures Inv(Apply(s, FePut(c)))
  {
    forall d | 0 <= d < |s.clients| ensures ClientFits(Apply(s, FePut(c)), d) {
      FePutKeepsClient(s, c, d);
    }
    forall g | 0 <= g < |s.fes| ensures FeFits(Apply(s, FePut(c)), g) {
      FePutKeepsFe(s, c, g);
    }
  }

  lemma OneFeMoves(s: State, f: nat, fe': FrontEnd)
    requires Inv(s) && f < |s.fes| && AtFe(fe') == AtFe(s.fes[f]) && Unacked(fe') == Unacked(s.fes[f])
    ensures Inv(s.(fes := s.fes[f := fe']))
  {
    var s' := s.(fes := s.fes[f := fe']);
    forall d | 0 <= d < |s'.clients| ensures ClientFits(s', d) {
      assert ClientFits(s, d);
    }
    forall g | 0 <= g < |s'.fes| ensures FeFits(s', g) {
      assert FeFits(s, g);
    }
  }

  lemma FeStepKeeps(s: State, e: Event)
    requires Inv(s) && Enabled(s, e)
    requires e.FeSend? || e.ServerRead?
    ensures Inv(Apply(s, e))
  {
    FeMoves(s.fes[e.f]);
    OneFeMoves(s, e.f, Apply(s, e).fes[e.f]);
  }

  lemma ItemOwner(s: State, f: nat)
    requires Inv(s) && f < |s.fes| && !s.fes[f].server.Free?
    ensures var i := s.fes[f].server.item;
            i.client < |s.clients| && s.clients[i.client].fe == f && s.clients[i.client].group < |s.groups|
  {
    assert FeFits(s, f);
    assert AtFe(s.fes[f])[0] == s.fes[f].server.item;
    assert ClientFits(s, s.fes[f].server.item.client);
  }

  lemma ServerAckKeepsClient(s: State, f: nat, d: nat)
    requires Inv(s) && Enabled(s, ServerAck(f)) && d < |s.clients|
    ensures ClientFits(Apply(s, ServerAck(f)), d)
  {
    hide Fits;
    ItemOwner(s, f);
    assert ClientFits(s, d);
    if s.clients[d].fe == f {
      AckFits(s.clients[d], s.fes[f], s.groups[s.clients[d].group], d);
    }
  }

  lemma ServerAckKeepsFe(s: State, f: nat, g: nat)
    requires Inv(s) && Enabled(s, ServerAck(f)) && g < |s.fes|
    ensures FeFits(Apply(s, ServerAck(f)), g)
  {
    assert FeFits(s, g);
    AckCounts(s.fes[f], 0);
  }

  lemma ServerAckKeeps(s: State, f: nat)
    requires Inv(s) && Enabled(s, ServerAck(f))
    ensures Inv(Apply(s, ServerAck(f)))
  {
    forall d | 0 <= d < |s.clients| ensures ClientFits(Apply(s, ServerAck(f)), d) {
      ServerAckKeepsClient(s, f, d);
    }
    forall g | 0 <= g < |s.fes| ensures FeFits(Apply(s, ServerAck(f)), g) {
      ServerAckKeepsFe(s, f, g);
    }
  }

  lemma EnqueueKeepsClient(s: State, f: nat, d: nat)
    requires Inv(s) && Enabled(s, ServerEnqueue(f)) && d < |s.clients|
    ensures ClientFits(Apply(s, ServerEnqueue(f)), d)
  {
    var s', i, cl := Apply(s, ServerEnqueue(f)), s.fes[f].server.item, s.clients[d];
    ItemOwner(s, f);
    assert ClientFits(s, d);
    if d == i.client {
      EnqueueFits(cl, s.fes[f], s.groups[cl.group], d);
    } else {
      OtherEnqueueFits(cl, s.fes[cl.fe], s'.fes[cl.fe], s.groups[cl.group], s'.groups[cl.group], d, i);
    }
  }

  lemma EnqueueKeepsFe(s: State, f: nat, g: nat)
    requires Inv(s) && Enabled(s, ServerEnqueue(f)) && g < |s.fes|
    ensures FeFits(Apply(s, ServerEnqueue(f)), g)
  {
    var s' := Apply(s, ServerEnqueue(f));
    assert FeFits(s, g);
    if g == f {
      forall k | 0 <= k < |AtFe(s'.fes[f])| ensures AtFe(s'.fes[f])[k] == AtFe(s.fes[f])[k + 1] {
      }
    }
  }

  lemma ServerEnqueueKeeps(s: State, f: nat)
    requires Inv(s) && Enabled(s, ServerEnqueue(f))
    ensures Inv(Apply(s, ServerEnqueue(f)))
  {
    forall d | 0 <= d < |s.clients| ensures ClientFits(Apply(s, ServerEnqueue(f)), d) {
      EnqueueKeepsClient(s, f, d);
    }
    forall g | 0 <= g < |s.fes| ensures FeFits(Apply(s, ServerEnqueue(f)), g) {
      EnqueueKeepsFe(s, f, g);
    }
  }

  lemma GroupStepKeepsClient(s: State, e: Event, d: nat)
    requires Inv(s) && Enabled(s, e) && (e.Consume? || e.Record?) && d < |s.clients|
    ensures ClientFits(Apply(s, e), d)
  {
    hide AtGroup, AtFe, AtClient, Of, CutAll;
    assert ClientFits(s, d);
    GroupMoves(s.groups[e.g]);
  }

  lemma GroupStepKeeps(s: State, e: Event)
    requires Inv(s) && Enabled(s, e)
    requires e.Consume? || e.Record?
    ensures Inv(Apply(s, e))
  {
    forall d | 0 <= d < |s.clients| ensures ClientFits(Apply(s, e), d) {
      GroupStepKeepsClient(s, e, d);
    }
    forall g | 0 <= g < |s.fes| ensures FeFits(Apply(s, e), g) {
      assert FeFits(s, g);
    }
  }

  lemma EventKeeps(s: State, e: Event)
    requires Inv(s) && Enabled(s, e)
    ensures Inv(Apply(s, e))
  {
    match e
    case Type(c, input) => TypeKeeps(s, c, input);
    case Pop(c) => PopKeeps(s, c);
    case SendOut(c) => SendOutKeeps(s, c);
    case ReceiveAck(_) => AckWaitKeeps(s, e);
    case GoOn(_) => AckWaitKeeps(s, e);
    case FeRead(c) => FeReadKeeps(s, c);
    case FePut(c) => FePutKeeps(s, c);
    case FeSend(_) => FeStepKeeps(s, e);
    case ServerRead(_) => FeStepKeeps(s, e);
    case ServerAck(f) => ServerAckKeeps(s, f);
    case ServerEnqueue(f) => ServerEnqueueKeeps(s, f);
    case Consume(_) => GroupStepKeeps(s, e);
    case Record(_) => GroupStepKeeps(s, e);
  }

  // ----- Every run -----

  predicate Valid(s: State, events: seq<Event>)
    decreases |events|
  {
    events == [] || (Enabled(s, events[0]) && Valid(Apply(s, events[0]), events[1..]))
  }

  function After(s: State, events: seq<Event>): State
    requires Valid(s, events)
    decreases |events|
  {
    if events == [] then s else After(Apply(s, events[0]), events[1..])
  }

  lemma {:induction false} InvAfter(s: State, events: seq<Event>)
    requires Inv(s) && Valid(s, events)
    ensures Inv(After(s, events)) && |After(s, events).clients| == |s.clients|
    decreases |events|
  {
    if events != [] {
      EventKeeps(s, events[0]);
      InvAfter(Apply(s, events[0]), events[1..]);
    }
  }

  lemma InitialFits(s: State)
    requires Initial(s)
    ensures Inv(s)
  {
    forall c | 0 <= c < |s.clients| ensures ClientFits(s, c) {
      assert CutAll([]) == [];
    }
  }

  /**
    What a client's group has recorded of it is a beginning of what it typed, after the length cut:
    nothing is lost, repeated or reordered on the way, whoever else is writing.
    */
  lemma HistoryIsPrefixOfTyped(s: State, events: seq<Event>, c: nat)
    requires Initial(s) && Valid(s, events) && c < |s.clients|
    ensures c < |After(s, events).clients|
    ensures var s' := After(s, events);
            && s'.clients[c].group < |s'.groups|
            && Of(s'.groups[s'.clients[c].group].history, c) <= CutAll(s'.clients[c].typed)
  {
    InitialFits(s);
    InvAfter(s, events);
    var s' := After(s, events);
    assert ClientFits(s', c);
    var q := s'.groups[s'.clients[c].group];
    OfAppend(q.history, Opt(q.hand), c);
    OfAppend(q.history + Opt(q.hand), q.queue, c);
  }

  /** When no message is under way any more, the history holds everything the client typed. */
  lemma EverythingArrives(s: State, events: seq<Event>, c: nat)
    requires Initial(s) && Valid(s, events) && c < |s.clients|
    requires forall e: Event :: !e.Type? ==> !Enabled(After(s, events), e)
    ensures c < |After(s, events).clients|
    ensures var s' := After(s, events);
            && s'.clients[c].group < |s'.groups|
            && Of(s'.groups[s'.clients[c].group].history, c) == CutAll(s'.clients[c].typed)
  {
    InitialFits(s);
    InvAfter(s, events);
    var s' := After(s, events);
    assert ClientFits(s', c);
    var cl := s'.clients[c];
    GroupIsEmpty(s', cl.group);
    FeIsEmpty(s', cl.fe);
    ClientIsEmpty(s', c);
  }

  lemma GroupIsEmpty(s: State, g: nat)
    requires g < |s.groups| && !Enabled(s, Consume(g)) && !Enabled(s, Record(g))
    ensures AtGroup(s.groups[g]) == s.groups[g].history
  {
  }

  lemma FeIsEmpty(s: State, f: nat)
    requires Inv(s) && f < |s.fes|
    requires !Enabled(s, FeSend(f)) && !Enabled(s, ServerRead(f))
    requires !Enabled(s, ServerAck(f)) && !Enabled(s, ServerEnqueue(f))
    ensures AtFe(s.fes[f]) == [] && Unacked(s.fes[f]) == [] && s.fes[f].slot.None?
  {
    if !s.fes[f].server.Free? {
      ItemOwner(s, f);
    }
    assert s.fes[f] == FrontEnd(None, [], Free);
  }

  lemma ClientIsEmpty(s: State, c: nat)
    requires c < |s.clients| && ClientFits(s, c)
    requires Unacked(s.fes[s.clients[c].fe]) == [] && s.fes[s.clients[c].fe].slot.None?
    requires !Enabled(s, Pop(c)) && !Enabled(s, SendOut(c)) && !Enabled(s, ReceiveAck(c)) && !Enabled(s, GoOn(c))
    requires !Enabled(s, FeRead(c)) && !Enabled(s, FePut(c))
    ensures AtClient(s.clients[c]) == []
  {
    assert Of([], c) == [];
  }

  /** Stop and wait: between sending a message and going on, exactly one message or ACK of the client is under way. */
  lemma OneOutstanding(s: State, events: seq<Event>, c: nat)
    requires Initial(s) && Valid(s, events) && c < |s.clients|
    ensures c < |After(s, events).clients| && After(s, events).clients[c].fe < |After(s, events).fes|
    ensures var s' := After(s, events);
            var cl := s'.clients[c];
            Outstanding(cl, s'.fes[cl.fe], c) == Bit(cl.sender.awaiting)
  {
    InitialFits(s);
    InvAfter(s, events);
    assert ClientFits(After(s, events), c);
  }
}
