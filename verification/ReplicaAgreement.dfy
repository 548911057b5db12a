/**
  Passive replication keeps the servers equal (src/server/server.cpp:244-263, 505-519): the primary
  and a backup handle the same packets, one at a time, each with its own clock and with its group
  consumers (src/server/Group.cpp:32-68) running at their own pace, and only the primary announces
  joins and departures.
  */
module ReplicaAgreement {
  import opened Users
  import opened Groups
  import opened Servers

  /** A packet as replicated: the front end it came through travels with it. */
  datatype Packet =
    | JoinPacket(client: string, user: string, group: string, fe: string)
    | MessagePacket(user: string, group: string, text: string)
    | DisconnectPacket(client: string, fe: string)

  datatype ServerState = ServerState(groups: seq<GroupState>, counts: Counts)

  const FRESH := ServerState([], map[])

  /** What listenFrontEndCommunication, on the primary, or handleRMCommunication, on a backup, does. */
  function Handle(s: ServerState, p: Packet, isPrimary: bool, now: int): ServerState {
    match p
    case JoinPacket(client, user, group, fe) =>
      var (counts, granted) := Increment(s.counts, user);
      if granted
      then ServerState(RegisterUserToGroup(s.groups, Conn(client, fe), user, group, isPrimary, now).0, counts)
      else ServerState(s.groups, counts)
    case MessagePacket(user, group, text) => s.(groups := Enqueue(s.groups, user, group, text, now))
    case DisconnectPacket(client, fe) =>
      var (groups, counts) := Propagate(s.groups, s.counts, client, fe, isPrimary, now, |s.groups|);
      ServerState(groups, counts)
  }

  /** One message consumed: notifications are broadcast but not recorded. */
  function Consume(g: GroupState): GroupState {
    if g.queue == [] then g
    else g.(queue := g.queue[1..], history := g.history + if g.queue[0].isNotification then [] else [g.queue[0]])
  }

  /** A server's run: packets handled, and steps of the consumer of the group at some index. */
  datatype Event = Packet(p: Packet, now: int) | Consumer(g: nat)

  function Apply(s: ServerState, e: Event, isPrimary: bool): ServerState {
    match e
    case Packet(p, now) => Handle(s, p, isPrimary, now)
    case Consumer(g) => if g < |s.groups| then s.(groups := s.groups[g := Consume(s.groups[g])]) else s
  }

  function Run(events: seq<Event>, isPrimary: bool): ServerState {
    if events == [] then FRESH
    else Apply(Run(events[..|events| - 1], isPrimary), events[|events| - 1], isPrimary)
  }

  function Packets(events: seq<Event>): seq<Packet> {
    if events == [] then []
    else Packets(events[..|events| - 1]) + match events[|events| - 1] case Packet(p, _) => [p] case Consumer(_) => []
  }

  // ----- What the replicas have in common -----

  datatype Line = Line(user: string, text: string)

  /** The lines recorded and to be recorded, without their times. */
  function Lines(messages: seq<Message>): seq<Line> {
    if messages == [] then []
    else
      var m := messages[|messages| - 1];
      Lines(messages[..|messages| - 1]) + if m.isNotification then [] else [Line(m.user, m.text)]
  }

  datatype GroupImage = GroupImage(name: string, users: seq<Member>, lines: seq<Line>)
  datatype Image = Image(groups: seq<GroupImage>, counts: Counts)

  function ImageOf(g: GroupState): GroupImage {
    GroupImage(g.name, g.users, Lines(g.history + g.queue))
  }

  function Images(groups: seq<GroupState>): (r: seq<GroupImage>)
    ensures |r| == |groups| && forall i :: 0 <= i < |groups| ==> r[i] == ImageOf(groups[i])
  {
    seq(|groups|, i requires 0 <= i < |groups| => ImageOf(groups[i]))
  }

  function Abstract(s: ServerState): Image {
    Image(Images(s.groups), s.counts)
  }

  // ----- The effect of a packet on the image does not depend on role, clock or queues -----

  lemma {:induction false} LinesAppend(a: seq<Message>, b: seq<Message>)
    ensures Lines(a + b) == Lines(a) + Lines(b)
  {
    if b == [] {
      assert a + b == a;
    } else {
      hide Lines;
      LinesAppend(a, b[..|b| - 1]);
      LinesLast(b);
      LinesLast(a + b);
      assert (a + b)[..|a + b| - 1] == a + b[..|b| - 1] && (a + b)[|a + b| - 1] == b[|b| - 1];
    }
  }

  lemma LinesLast(messages: seq<Message>)
    requires messages != []
    ensures var m := messages[|messages| - 1];
            Lines(messages)
            == Lines(messages[..|messages| - 1]) + if m.isNotification then [] else [Line(m.user, m.text)]
  {
  }

  lemma {:induction false} NotificationsLeaveNoLine(messages: seq<Message>)
    requires forall i :: 0 <= i < |messages| ==> messages[i].isNotification
    ensures Lines(messages) == []
  {
    if messages != [] {
      NotificationsLeaveNoLine(messages[..|messages| - 1]);
    }
  }

  /** Queueing notifications leaves the image as it is. */
  lemma NoticesAreInvisible(g: GroupState, users: seq<Member>, notices: seq<Message>)
    requires forall i :: 0 <= i < |notices| ==> notices[i].isNotification
    ensures ImageOf(g.(users := users, queue := g.queue + notices)) == ImageOf(g).(users := users)
  {
    NotificationsLeaveNoLine(notices);
    LinesAppend(g.history + g.queue, notices);
    assert g.history + (g.queue + notices) == (g.history + g.queue) + notices;
  }

  lemma OneLine(m: Message)
    ensures Lines([m]) == if m.isNotification then [] else [Line(m.user, m.text)]
  {
    assert [m][..0] == [];
  }

  lemma MovingIsInvisible(history: seq<Message>, m: Message, rest: seq<Message>)
    ensures Lines((if m.isNotification then history else history + [m]) + rest) == Lines(history + ([m] + rest))
  {
    hide Lines;
    LinesAppend(history, [m] + rest);
    LinesAppend([m], rest);
    OneLine(m);
    if m.isNotification {
      LinesAppend(history, rest);
    } else {
      assert history + [m] + rest == history + ([m] + rest);
    }
  }

  /** Consuming a message moves it from the queue to the history. */
  lemma ConsumingIsInvisible(g: GroupState)
    ensures ImageOf(Consume(g)) == ImageOf(g)
  {
    if g.queue != [] {
      MovingIsInvisible(g.history, g.queue[0], g.queue[1..]);
      assert g.queue == [g.queue[0]] + g.queue[1..];
      assert g.history + [] == g.history;
    }
  }

  lemma ImagesUpdate(groups: seq<GroupState>, i: nat, g: GroupState)
    requires i < |groups|
    ensures Images(groups[i := g]) == Images(groups)[i := ImageOf(g)]
  {
  }

  lemma ImagesAppend(groups: seq<GroupState>, name: string)
    ensures Images(groups + [GroupState(name, [], [], [])]) == Images(groups) + [GroupImage(name, [], [])]
  {
  }

  function FindImage(groups: seq<GroupImage>, name: string): (i: nat)
    ensures i <= |groups|
  {
    if groups == [] || groups[0].name == name then 0 else 1 + FindImage(groups[1..], name)
  }

  lemma {:induction false} FindAgrees(groups: seq<GroupState>, name: string)
    ensures FindImage(Images(groups), name) == FindGroup(groups, name)
  {
    if groups != [] {
      FindAgrees(groups[1..], name);
      assert Images(groups)[1..] == Images(groups[1..]);
    }
  }

  // The image of a packet, defined on images alone.

  function JoinImage(groups: seq<GroupImage>, c: Conn, user: string, group: string): seq<GroupImage> {
    var i := FindImage(groups, group);
    var gs := if i == |groups| then groups + [GroupImage(group, [], [])] else groups;
    gs[i := gs[i].(users := Join(gs[i].users, user, c).0)]
  }

  function MessageImage(groups: seq<GroupImage>, user: string, group: string, text: string): seq<GroupImage> {
    var i := FindImage(groups, group);
    if i == |groups| then groups else groups[i := groups[i].(lines := groups[i].lines + [Line(user, text)])]
  }

  function DisconnectImage(groups: seq<GroupImage>, counts: Counts, client: string, fe: string, k: nat)
    : (r: (seq<GroupImage>, Counts))
    requires k <= |groups|
    ensures |r.0| == |groups| && forall j :: k <= j < |groups| ==> r.0[j] == groups[j]
  {
    if k == 0 then (groups, counts)
    else
      var (gs, cs) := DisconnectImage(groups, counts, client, fe, k - 1);
      var o := HandleDisconnect(gs[k - 1].users, cs, client, fe);
      (gs[k - 1 := gs[k - 1].(users := o.users)], o.counts)
  }

  function HandleImage(s: Image, p: Packet): Image {
    match p
    case JoinPacket(client, user, group, fe) =>
      var (counts, granted) := Increment(s.counts, user);
      if granted then Image(JoinImage(s.groups, Conn(client, fe), user, group), counts) else Image(s.groups, counts)
    case MessagePacket(user, group, text) => s.(groups := MessageImage(s.groups, user, group, text))
    case DisconnectPacket(client, fe) =>
      var (groups, counts) := DisconnectImage(s.groups, s.counts, client, fe, |s.groups|);
      Image(groups, counts)
  }

  lemma JoinSimulates(groups: seq<GroupState>, c: Conn, user: string, group: string, isPrimary: bool, now: int)
    ensures Images(RegisterUserToGroup(groups, c, user, group, isPrimary, now).0)
         == JoinImage(Images(groups), c, user, group)
  {
    FindAgrees(groups, group);
    var i := FindGroup(groups, group);
    var gs := if i == |groups| then groups + [GroupState(group, [], [], [])] else groups;
    ImagesAppend(groups, group);
    var (us, _, isNew) := Join(gs[i].users, user, c);
    NoticesAreInvisible(gs[i], us, if isNew && isPrimary then Notices([user], JOINED_MESSAGE, gs[i].name, now) else []);
    var (g, _) := RegisterIn(gs[i], c, user, isPrimary, now);
    ImagesUpdate(gs, i, g);
  }

  lemma MessageSimulates(groups: seq<GroupState>, user: string, group: string, text: string, now: int)
    ensures Images(Enqueue(groups, user, group, text, now)) == MessageImage(Images(groups), user, group, text)
  {
    FindAgrees(groups, group);
    var i := FindGroup(groups, group);
    if i < |groups| {
      var g, m := groups[i], Message(text, user, group, now, false);
      LinesAppend(g.history + g.queue, [m]);
      assert g.history + (g.queue + [m]) == (g.history + g.queue) + [m];
      OneLine(m);
      ImagesUpdate(groups, i, g.(queue := g.queue + [m]));
    }
  }

  lemma DisconnectInSimulates(g: GroupState, counts: Counts, client: string, fe: string, isPrimary: bool, now: int)
    ensures var o := HandleDisconnect(g.users, counts, client, fe);
            var (g', cs) := DisconnectIn(g, counts, client, fe, isPrimary, now);
            ImageOf(g') == ImageOf(g).(users := o.users) && cs == o.counts
  {
    var o := HandleDisconnect(g.users, counts, client, fe);
    NoticesAreInvisible(g, o.users, if isPrimary then Notices(o.left, LEFT_GROUP_MESSAGE, g.name, now) else []);
  }

  lemma PropagateStep(groups: seq<GroupState>, counts: Counts, client: string, fe: string, isPrimary: bool, now: int,
                      k: nat)
    requires k < |groups|
    ensures
      var (gs, cs) := Propagate(groups, counts, client, fe, isPrimary, now, k);
      var (gs', cs') := Propagate(groups, counts, client, fe, isPrimary, now, k + 1);
      var o := HandleDisconnect(gs[k].users, cs, client, fe);
      Images(gs') == Images(gs)[k := ImageOf(gs[k]).(users := o.users)] && cs' == o.counts
  {
    var (gs, cs) := Propagate(groups, counts, client, fe, isPrimary, now, k);
    DisconnectInSimulates(gs[k], cs, client, fe, isPrimary, now);
    ImagesUpdate(gs, k, DisconnectIn(gs[k], cs, client, fe, isPrimary, now).0);
  }

  lemma ImageStep(groups: seq<GroupImage>, counts: Counts, client: string, fe: string, k: nat)
    requires k < |groups|
    ensures
      var (gs, cs) := DisconnectImage(groups, counts, client, fe, k);
      var (gs', cs') := DisconnectImage(groups, counts, client, fe, k + 1);
      var o := HandleDisconnect(gs[k].users, cs, client, fe);
      gs' == gs[k := gs[k].(users := o.users)] && cs' == o.counts
  {
  }

  lemma NothingVisited(groups: seq<GroupState>, counts: Counts, client: string, fe: string, isPrimary: bool, now: int)
    ensures Propagate(groups, counts, client, fe, isPrimary, now, 0) == (groups, counts)
    ensures DisconnectImage(Images(groups), counts, client, fe, 0) == (Images(groups), counts)
  {
  }

  lemma {:induction false} DisconnectSimulates(groups: seq<GroupState>, counts: Counts, client: string, fe: string,
                                               isPrimary: bool, now: int, k: nat)
    requires k <= |groups|
    ensures var (gs, cs) := Propagate(groups, counts, client, fe, isPrimary, now, k);
            var image := DisconnectImage(Images(groups), counts, client, fe, k);
            Images(gs) == image.0 && cs == image.1
  {
    hide HandleDisconnect, Propagate, DisconnectImage;
    if k == 0 {
      NothingVisited(groups, counts, client, fe, isPrimary, now);
    } else {
      DisconnectSimulates(groups, counts, client, fe, isPrimary, now, k - 1);
      ImageStep(Images(groups), counts, client, fe, k - 1);
      PropagateStep(groups, counts, client, fe, isPrimary, now, k - 1);
    }
  }

  /** Handling a packet and taking the image commute, whatever the role and the clock. */
  lemma HandleSimulates(s: ServerState, p: Packet, isPrimary: bool, now: int)
    ensures Abstract(Handle(s, p, isPrimary, now)) == HandleImage(Abstract(s), p)
  {
    match p
    case JoinPacket(client, user, group, fe) =>
      JoinSimulates(s.groups, Conn(client, fe), user, group, isPrimary, now);
    case MessagePacket(user, group, text) => MessageSimulates(s.groups, user, group, text, now);
    case DisconnectPacket(client, fe) =>
      DisconnectSimulates(s.groups, s.counts, client, fe, isPrimary, now, |s.groups|);
  }

  function Replay(packets: seq<Packet>): Image {
    if packets == [] then Image([], map[])
    else HandleImage(Replay(packets[..|packets| - 1]), packets[|packets| - 1])
  }

  /** The image after a run is determined by the packets alone. */
  lemma {:induction false} ImageOfRun(events: seq<Event>, isPrimary: bool)
    ensures Abstract(Run(events, isPrimary)) == Replay(Packets(events))
  {
    if events != [] {
      var before, e := events[..|events| - 1], events[|events| - 1];
      ImageOfRun(before, isPrimary);
      var s := Run(before, isPrimary);
      match e
      case Packet(p, now) =>
        HandleSimulates(s, p, isPrimary, now);
        assert Packets(events)[..|Packets(events)| - 1] == Packets(before);
      case Consumer(g) =>
        assert Packets(events) == Packets(before);
        if g < |s.groups| {
          ConsumingIsInvisible(s.groups[g]);
          ImagesUpdate(s.groups, g, Consume(s.groups[g]));
        }
    }
  }

  // ----- The theorem -----

  /**
    After the same packets, a backup has the primary's counters, groups, users and sessions, and the
    lines it has recorded or is about to record are the primary's.
    */
  lemma ReplicasAgree(primary: seq<Event>, backup: seq<Event>, g: nat)
    requires Packets(primary) == Packets(backup)
    requires g < |Run(primary, true).groups|
    ensures var p, b := Run(primary, true), Run(backup, false);
            && b.counts == p.counts
            && |b.groups| == |p.groups|
            && b.groups[g].name == p.groups[g].name
            && b.groups[g].users == p.groups[g].users
            && Lines(b.groups[g].history + b.groups[g].queue) == Lines(p.groups[g].history + p.groups[g].queue)
  {
    ImageOfRun(primary, true);
    ImageOfRun(backup, false);
    var p, b := Run(primary, true), Run(backup, false);
    assert Abstract(p) == Abstract(b);
    assert |Images(p.groups)| == |Images(b.groups)|;
    assert Images(p.groups)[g] == ImageOf(p.groups[g]) && Images(b.groups)[g] == ImageOf(b.groups[g]);
  }
}
