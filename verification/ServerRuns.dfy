/**
  What a server's tables and queues hold after joins, disconnections and messages (src/server/server.cpp:83-107,
  326-351; src/server/server_group_manager.cpp:18-59; src/server/Group.cpp:43-62, 101-178, 189-217), said
  without the functions that compute it: who is announced where and by which server, what a join answers, which
  counters drop, and which messages, whole, a group queues and records in any run.
  */
module ServerRuns {
  import opened Users
  import opened Groups
  import opened FeDisconnect
  import opened Servers
  import opened ReplicaAgreement
  import A = SessionAccounting

  // ----- Disconnections -----

  lemma DropOneCount(us: seq<Member>, counts: Counts, c: Conn)
    ensures |DropOne(us, counts, c).left| + |DropOne(us, counts, c).users| == |us|
  {
    DropOneCases(us, counts, c);
  }

  lemma {:induction false} FeLoopCount(us: seq<Member>, counts: Counts, snapshot: seq<Conn>, k: nat, fe: string)
    requires k <= |snapshot|
    ensures |FeLoop(us, counts, snapshot, k, fe).left| + |FeLoop(us, counts, snapshot, k, fe).users| == |us|
  {
    if k > 0 {
      FeLoopCount(us, counts, snapshot, k - 1, fe);
      var o := FeLoop(us, counts, snapshot, k - 1, fe);
      DropOneCount(o.users, o.counts, snapshot[k - 1]);
    }
  }

  lemma LeftCount(us: seq<Member>, counts: Counts, client: string, fe: string)
    ensures var o := HandleDisconnect(us, counts, client, fe);
            |o.left| + |o.users| == |us|
  {
    if client == FE_DISCONNECT {
      FeLoopCount(us, counts, AllConns(us), |AllConns(us)|, fe);
    } else {
      DropOneCount(us, counts, Conn(client, fe));
    }
  }

  /** What has been put at the end of a queue. */
  function Added(before: seq<Message>, after: seq<Message>): seq<Message>
    requires |before| <= |after|
  {
    after[|before|..]
  }

  ghost predicate Notice(m: Message, text: string, group: string, now: int) {
    m.text == text && m.group == group && m.time == now && m.isNotification
  }

  /**
    The group goes on as it was, but for its users and for the notices queued: none on a backup; on the primary
    one for each user who is listed no longer.
    */
  ghost predicate LeavesAnnounced(g: GroupState, g': GroupState, isPrimary: bool, now: int) {
    && g'.name == g.name && g'.history == g.history
    && |g.queue| <= |g'.queue| && g'.queue[..|g.queue|] == g.queue
    && var added := Added(g.queue, g'.queue);
       if !isPrimary then added == []
       else
         && |added| + |g'.users| == |g.users|
         && (forall i :: 0 <= i < |added| ==> Notice(added[i], "<Left the group>", g.name, now))
         && (forall name: string :: (exists i :: 0 <= i < |added| && added[i].user == name)
                                    <==> name in NamesOf(g.users) && name !in NamesOf(g'.users))
  }

  lemma NamesInNotices(names: seq<string>, text: string, group: string, now: int, name: string)
    ensures (exists i :: 0 <= i < |names| && Notices(names, text, group, now)[i].user == name) <==> name in names
  {
    if name in names {
      var i :| 0 <= i < |names| && names[i] == name;
      assert Notices(names, text, group, now)[i].user == name;
    }
  }

  lemma DisconnectAnnounces(g: GroupState, counts: Counts, client: string, fe: string, isPrimary: bool, now: int)
    requires Tidy(g.users)
    ensures LeavesAnnounced(g, DisconnectIn(g, counts, client, fe, isPrimary, now).0, isPrimary, now)
  {
    var o := HandleDisconnect(g.users, counts, client, fe);
    var g' := DisconnectIn(g, counts, client, fe, isPrimary, now).0;
    LeftCount(g.users, counts, client, fe);
    assert Added(g.queue, g'.queue) == if isPrimary then Notices(o.left, LEFT_GROUP_MESSAGE, g.name, now) else [];
    forall name: string ensures name in o.left <==> name in NamesOf(g.users) && name !in NamesOf(g'.users) {
      DisconnectIsExact(g.users, counts, client, fe, Conn("", ""), name);
    }
    var notices := Notices(o.left, LEFT_GROUP_MESSAGE, g.name, now);
    forall name: string ensures (exists i :: 0 <= i < |o.left| && notices[i].user == name) <==> name in o.left {
      NamesInNotices(o.left, LEFT_GROUP_MESSAGE, g.name, now, name);
    }
  }

  /** The sessions meant by a disconnection are gone from the group, and no others. */
  ghost predicate SessionsDropped(g: GroupState, g': GroupState, client: string, fe: string) {
    forall c: Conn :: c in AllConns(g'.users) <==>
      c in AllConns(g.users) && !(if client == "FE_DISCONNECT" then c.fe == fe else c == Conn(client, fe))
  }

  lemma DisconnectDrops(g: GroupState, counts: Counts, client: string, fe: string, isPrimary: bool, now: int)
    requires Tidy(g.users)
    ensures SessionsDropped(g, DisconnectIn(g, counts, client, fe, isPrimary, now).0, client, fe)
  {
    forall c: Conn
      ensures c in AllConns(DisconnectIn(g, counts, client, fe, isPrimary, now).0.users) <==>
              c in AllConns(g.users) && !(if client == "FE_DISCONNECT" then c.fe == fe else c == Conn(client, fe))
    {
      DisconnectIsExact(g.users, counts, client, fe, c, "");
    }
  }

  lemma {:induction false} PropagateReaches(groups: seq<GroupState>, counts: Counts, client: string, fe: string,
                                            isPrimary: bool, now: int, k: nat, j: nat)
    requires j < k <= |groups|
    ensures exists cs: Counts ::
              Propagate(groups, counts, client, fe, isPrimary, now, k).0[j]
              == DisconnectIn(groups[j], cs, client, fe, isPrimary, now).0
  {
    if j < k - 1 {
      PropagateReaches(groups, counts, client, fe, isPrimary, now, k - 1, j);
    } else {
      var cs := Propagate(groups, counts, client, fe, isPrimary, now, k - 1).1;
      assert Propagate(groups, counts, client, fe, isPrimary, now, k).0[j]
          == DisconnectIn(groups[j], cs, client, fe, isPrimary, now).0;
    }
  }

  lemma DisconnectCounts(g: GroupState, counts: Counts, client: string, fe: string, isPrimary: bool, now: int,
                         name: string)
    requires Tidy(g.users)
    ensures var (g', cs) := DisconnectIn(g, counts, client, fe, isPrimary, now);
            && Get(cs, name) - Get(counts, name) == SessionsOf(g'.users, name) - SessionsOf(g.users, name)
            && SessionsOf(g'.users, name) <= SessionsOf(g.users, name)
  {
    DisconnectIsExact(g.users, counts, client, fe, Conn("", ""), name);
  }

  lemma {:induction false} PropagateCounts(groups: seq<GroupState>, counts: Counts, client: string, fe: string,
                                           isPrimary: bool, now: int, k: nat, name: string)
    requires k <= |groups| && forall g <- groups :: Tidy(g.users)
    ensures var (gs, cs) := Propagate(groups, counts, client, fe, isPrimary, now, k);
            Get(cs, name) - Get(counts, name) == A.Total(gs, name) - A.Total(groups, name)
  {
    hide DisconnectIn, Tidy;
    if k > 0 {
      PropagateCounts(groups, counts, client, fe, isPrimary, now, k - 1, name);
      var (gs, cs) := Propagate(groups, counts, client, fe, isPrimary, now, k - 1);
      assert gs[k - 1] == groups[k - 1] && groups[k - 1] in groups;
      DisconnectCounts(gs[k - 1], cs, client, fe, isPrimary, now, name);
      A.TotalUpdate(gs, k - 1, DisconnectIn(gs[k - 1], cs, client, fe, isPrimary, now).0, name);
    }
  }

  /**
    A disconnection in a server's tables (closeClientConnection): in every group exactly the sessions meant are gone,
    the users who thereby leave are announced by the primary and by no backup, and each user's counter drops by
    the number of sessions closed.
    */
  lemma CloseIsExact(groups: seq<GroupState>, counts: Counts, client: string, fe: string, isPrimary: bool, now: int,
                     name: string)
    requires forall g <- groups :: Tidy(g.users)
    ensures var (gs, cs) := Propagate(groups, counts, client, fe, isPrimary, now, |groups|);
            && |gs| == |groups|
            && (forall j :: 0 <= j < |gs| ==> LeavesAnnounced(groups[j], gs[j], isPrimary, now))
            && (forall j :: 0 <= j < |gs| ==> SessionsDropped(groups[j], gs[j], client, fe))
            && Get(counts, name) - Get(cs, name) == A.Total(groups, name) - A.Total(gs, name)
  {
    var gs := Propagate(groups, counts, client, fe, isPrimary, now, |groups|).0;
    forall j | 0 <= j < |gs|
      ensures LeavesAnnounced(groups[j], gs[j], isPrimary, now) && SessionsDropped(groups[j], gs[j], client, fe)
    {
      PropagateReaches(groups, counts, client, fe, isPrimary, now, |groups|, j);
      var cs: Counts :| gs[j] == DisconnectIn(groups[j], cs, client, fe, isPrimary, now).0;
      assert groups[j] in groups;
      DisconnectAnnounces(groups[j], cs, client, fe, isPrimary, now);
      DisconnectDrops(groups[j], cs, client, fe, isPrimary, now);
    }
    PropagateCounts(groups, counts, client, fe, isPrimary, now, |groups|, name);
  }

  // ----- Joins -----

  /** The group has the session, unless the user has two there already; a new user is announced by the primary. */
  ghost predicate JoinDone(g: GroupState, g': GroupState, c: Conn, user: string, isPrimary: bool, now: int,
                           result: int) {
    && g'.name == g.name && g'.history == g.history
    && (result == 0 || result == -1) && (result == 0 <==> SessionsOf(g.users, user) < 2)
    && (forall d: Conn :: d in AllConns(g'.users) <==> d in AllConns(g.users) || (result == 0 && d == c))
    && SessionsOf(g'.users, user) == SessionsOf(g.users, user) + (if result == 0 then 1 else 0)
    && NamesOf(g'.users) == NamesOf(g.users) + {user}
    && g'.queue == g.queue + if isPrimary && user !in NamesOf(g.users)
                             then [Message("<Joined the group>", user, g.name, now, true)] else []
  }

  lemma RegisterIsDone(g: GroupState, c: Conn, user: string, isPrimary: bool, now: int)
    requires Tidy(g.users) && c.client !in ClientsOf(g.users) && c.client != c.fe
    ensures var (g', result) := RegisterIn(g, c, user, isPrimary, now);
            JoinDone(g, g', c, user, isPrimary, now, result)
  {
    var (g', result) := RegisterIn(g, c, user, isPrimary, now);
    JoinIsExact(g.users, user, c, user);
    forall d: Conn ensures d in AllConns(g'.users) <==> d in AllConns(g.users) || (result == 0 && d == c) {
      JoinConns(g.users, user, c, d);
    }
    JoinConns(g.users, user, c, c);
    assert Notices([user], JOINED_MESSAGE, g.name, now) == [Message("<Joined the group>", user, g.name, now, true)];
  }

  /**
    A join in a server's tables (registerUserToGroup): the first group of that name has it, or a new one at the end;
    every other group stays as it is.
    */
  lemma JoinIsDone(groups: seq<GroupState>, c: Conn, user: string, group: string, isPrimary: bool, now: int)
    returns (i: nat)
    requires c.client != c.fe && forall g <- groups :: Tidy(g.users) && c.client !in ClientsOf(g.users)
    ensures var (gs, result) := RegisterUserToGroup(groups, c, user, group, isPrimary, now);
            var was := if i < |groups| then groups[i] else GroupState(group, [], [], []);
            && i <= |groups| && was.name == group && (forall j :: 0 <= j < i ==> groups[j].name != group)
            && |gs| == (if i < |groups| then |groups| else |groups| + 1)
            && (forall j :: 0 <= j < |groups| && j != i ==> gs[j] == groups[j])
            && JoinDone(was, gs[i], c, user, isPrimary, now, result)
  {
    i := FindGroup(groups, group);
    if i < |groups| {
      assert groups[i] in groups;
      RegisterIsDone(groups[i], c, user, isPrimary, now);
    } else {
      RegisterIsDone(GroupState(group, [], [], []), c, user, isPrimary, now);
    }
  }

  // ----- Messages, in every run -----

  /** The messages to be recorded. */
  function Recordable(messages: seq<Message>): seq<Message> {
    if messages == [] then []
    else
      Recordable(messages[..|messages| - 1]) +
      if messages[|messages| - 1].isNotification then [] else [messages[|messages| - 1]]
  }

  lemma {:induction false} RecordableAppend(a: seq<Message>, b: seq<Message>)
    ensures Recordable(a + b) == Recordable(a) + Recordable(b)
  {
    if b == [] {
      assert a + b == a && Recordable(a) + [] == Recordable(a);
    } else {
      hide Recordable;
      var front, m := b[..|b| - 1], b[|b| - 1];
      RecordableAppend(a, front);
      RecordableLast(b);
      assert (a + b)[..|a + b| - 1] == a + front && (a + b)[|a + b| - 1] == m;
      RecordableLast(a + b);
    }
  }

  lemma RecordableLast(messages: seq<Message>)
    requires messages != []
    ensures var m := messages[|messages| - 1];
            Recordable(messages) == Recordable(messages[..|messages| - 1]) + if m.isNotification then [] else [m]
  {
  }

  lemma RecordableOne(m: Message)
    ensures Recordable([m]) == if m.isNotification then [] else [m]
  {
    assert [m][..0] == [];
  }

  lemma {:induction false} NoticesAreNotRecordable(messages: seq<Message>)
    requires forall i :: 0 <= i < |messages| ==> messages[i].isNotification
    ensures Recordable(messages) == []
  {
    if messages != [] {
      NoticesAreNotRecordable(messages[..|messages| - 1]);
    }
  }

  /** The lines of ReplicaAgreement are these messages, without group and time. */
  lemma {:induction false} LinesAreRecordable(messages: seq<Message>)
    ensures |Lines(messages)| == |Recordable(messages)|
    ensures forall i :: 0 <= i < |Lines(messages)| ==>
              Lines(messages)[i] == Line(Recordable(messages)[i].user, Recordable(messages)[i].text)
  {
    if messages != [] {
      LinesAreRecordable(messages[..|messages| - 1]);
    }
  }

  predicate HasGroup(groups: seq<GroupState>, name: string) {
    exists i :: 0 <= i < |groups| && groups[i].name == name
  }

  /** The messages sent to a group since it exists, in order, with sender and the server's clock. */
  function Accepted(events: seq<Event>, isPrimary: bool, group: string): seq<Message> {
    if events == [] then []
    else
      var front := events[..|events| - 1];
      Accepted(front, isPrimary, group) +
      match events[|events| - 1]
      case Packet(MessagePacket(user, g, text), now) =>
        if g == group && HasGroup(Run(front, isPrimary).groups, group)
        then [Message(text, user, group, now, false)] else []
      case _ => []
  }

  ghost predicate NamesDistinct(groups: seq<GroupState>) {
    forall i, j :: 0 <= i < j < |groups| ==> groups[i].name != groups[j].name
  }

  /** The messages of a group, recorded and to be recorded. */
  function Kept(g: GroupState): seq<Message> { Recordable(g.history + g.queue) }

  /** Group by group: the same names, and what is kept has grown by what `more` says, new groups being empty. */
  ghost predicate Grown(groups: seq<GroupState>, gs: seq<GroupState>, more: string -> seq<Message>) {
    && |groups| <= |gs|
    && (forall i :: 0 <= i < |groups| ==> gs[i].name == groups[i].name
                                          && Kept(gs[i]) == Kept(groups[i]) + more(groups[i].name))
    && (forall i :: |groups| <= i < |gs| ==> Kept(gs[i]) == [] && !HasGroup(groups, gs[i].name))
    && (NamesDistinct(groups) ==> NamesDistinct(gs))
  }

  lemma NoticesKeep(g: GroupState, users: seq<Member>, notices: seq<Message>)
    requires forall i :: 0 <= i < |notices| ==> notices[i].isNotification
    ensures Kept(g.(users := users, queue := g.queue + notices)) == Kept(g)
  {
    NoticesAreNotRecordable(notices);
    RecordableAppend(g.history + g.queue, notices);
    assert g.history + (g.queue + notices) == (g.history + g.queue) + notices;
  }

  lemma RegisterKeeps(g: GroupState, c: Conn, user: string, isPrimary: bool, now: int)
    ensures var g' := RegisterIn(g, c, user, isPrimary, now).0;
            g'.name == g.name && Kept(g') == Kept(g)
  {
    var (us, _, isNew) := Join(g.users, user, c);
    NoticesKeep(g, us, if isNew && isPrimary then Notices([user], JOINED_MESSAGE, g.name, now) else []);
  }

  lemma DisconnectKeeps(g: GroupState, counts: Counts, client: string, fe: string, isPrimary: bool, now: int)
    ensures var g' := DisconnectIn(g, counts, client, fe, isPrimary, now).0;
            g'.name == g.name && Kept(g') == Kept(g)
  {
    var o := HandleDisconnect(g.users, counts, client, fe);
    NoticesKeep(g, o.users, if isPrimary then Notices(o.left, LEFT_GROUP_MESSAGE, g.name, now) else []);
  }

  /** What the packet adds to the messages of a group. */
  function AddedBy(groups: seq<GroupState>, p: Packet, now: int): string -> seq<Message> {
    (group: string) =>
      if p.MessagePacket? && p.group == group && HasGroup(groups, group)
      then [Message(p.text, p.user, group, now, false)] else []
  }

  lemma JoinGrows(s: ServerState, client: string, user: string, group: string, fe: string, isPrimary: bool, now: int)
    ensures var p := JoinPacket(client, user, group, fe);
            Grown(s.groups, Handle(s, p, isPrimary, now).groups, AddedBy(s.groups, p, now))
  {
    hide Kept, RegisterIn, Increment;
    var i := FindGroup(s.groups, group);
    if i < |s.groups| {
      RegisterKeeps(s.groups[i], Conn(client, fe), user, isPrimary, now);
    } else {
      RegisterKeeps(GroupState(group, [], [], []), Conn(client, fe), user, isPrimary, now);
      NothingKept(group);
    }
    forall j | 0 <= j < |s.groups| ensures Kept(s.groups[j]) + [] == Kept(s.groups[j]) {
    }
  }

  lemma NothingKept(group: string)
    ensures Kept(GroupState(group, [], [], [])) == []
  {
  }

  lemma EnqueueKeeps(g: GroupState, m: Message)
    requires !m.isNotification
    ensures Kept(g.(queue := g.queue + [m])) == Kept(g) + [m]
  {
    hide Recordable;
    RecordableAppend(g.history + g.queue, [m]);
    RecordableOne(m);
    assert g.history + (g.queue + [m]) == (g.history + g.queue) + [m];
  }

  lemma MessageGrows(s: ServerState, user: string, group: string, text: string, isPrimary: bool, now: int)
    requires NamesDistinct(s.groups)
    ensures var p := MessagePacket(user, group, text);
            Grown(s.groups, Handle(s, p, isPrimary, now).groups, AddedBy(s.groups, p, now))
  {
    hide Kept;
    var i, m := FindGroup(s.groups, group), Message(text, user, group, now, false);
    if i < |s.groups| {
      EnqueueKeeps(s.groups[i], m);
      assert HasGroup(s.groups, group);
    }
    forall j | 0 <= j < |s.groups| ensures Kept(s.groups[j]) + [] == Kept(s.groups[j]) {
    }
  }

  lemma DisconnectGrows(s: ServerState, client: string, fe: string, isPrimary: bool, now: int)
    ensures var p := DisconnectPacket(client, fe);
            Grown(s.groups, Handle(s, p, isPrimary, now).groups, AddedBy(s.groups, p, now))
  {
    var gs := Propagate(s.groups, s.counts, client, fe, isPrimary, now, |s.groups|).0;
    forall j | 0 <= j < |gs| ensures gs[j].name == s.groups[j].name && Kept(gs[j]) == Kept(s.groups[j]) + [] {
      PropagateReaches(s.groups, s.counts, client, fe, isPrimary, now, |s.groups|, j);
      var cs: Counts :| gs[j] == DisconnectIn(s.groups[j], cs, client, fe, isPrimary, now).0;
      DisconnectKeeps(s.groups[j], cs, client, fe, isPrimary, now);
    }
  }

  lemma HandleGrows(s: ServerState, p: Packet, isPrimary: bool, now: int)
    requires NamesDistinct(s.groups)
    ensures Grown(s.groups, Handle(s, p, isPrimary, now).groups, AddedBy(s.groups, p, now))
  {
    match p
    case JoinPacket(client, user, group, fe) => JoinGrows(s, client, user, group, fe, isPrimary, now);
    case MessagePacket(user, group, text) => MessageGrows(s, user, group, text, isPrimary, now);
    case DisconnectPacket(client, fe) => DisconnectGrows(s, client, fe, isPrimary, now);
  }

  lemma MovingKeeps(history: seq<Message>, m: Message, rest: seq<Message>)
    ensures Recordable((if m.isNotification then history else history + [m]) + rest)
         == Recordable(history + ([m] + rest))
  {
    hide Recordable;
    RecordableAppend(history, [m] + rest);
    RecordableAppend([m], rest);
    RecordableOne(m);
    if m.isNotification {
      RecordableAppend(history, rest);
    } else {
      assert history + [m] + rest == history + ([m] + rest);
    }
  }

  lemma ConsumeKeeps(g: GroupState)
    ensures Consume(g).name == g.name && Kept(Consume(g)) == Kept(g)
  {
    hide Recordable;
    if g.queue != [] {
      MovingKeeps(g.history, g.queue[0], g.queue[1..]);
      assert g.queue == [g.queue[0]] + g.queue[1..];
      assert g.history + [] == g.history;
    }
  }

  lemma GroupsRemain(s: ServerState, e: Event, isPrimary: bool, group: string)
    requires NamesDistinct(s.groups) && HasGroup(s.groups, group)
    ensures HasGroup(Apply(s, e, isPrimary).groups, group)
  {
    var i :| 0 <= i < |s.groups| && s.groups[i].name == group;
    match e {
      case Packet(p, now) => HandleGrows(s, p, isPrimary, now);
      case Consumer(g) => if g < |s.groups| { ConsumeKeeps(s.groups[g]); }
    }
    assert Apply(s, e, isPrimary).groups[i].name == group;
  }

  lemma {:induction false} OnlyAccepted(events: seq<Event>, isPrimary: bool, group: string)
    requires !HasGroup(Run(events, isPrimary).groups, group) && NamesFit(events, isPrimary)
    ensures Accepted(events, isPrimary, group) == []
  {
    if events != [] {
      var front, e := events[..|events| - 1], events[|events| - 1];
      assert HasGroup(Run(front, isPrimary).groups, group) ==> HasGroup(Run(events, isPrimary).groups, group) by {
        if HasGroup(Run(front, isPrimary).groups, group) {
          GroupsRemain(Run(front, isPrimary), e, isPrimary, group);
        }
      }
      OnlyAccepted(front, isPrimary, group);
    }
  }

  /** At every moment of the run the groups have different names. */
  ghost predicate NamesFit(events: seq<Event>, isPrimary: bool) {
    NamesDistinct(Run(events, isPrimary).groups) && (events == [] || NamesFit(events[..|events| - 1], isPrimary))
  }

  lemma {:induction false} NamesAlwaysFit(events: seq<Event>, isPrimary: bool)
    ensures NamesFit(events, isPrimary)
  {
    if events != [] {
      var front, e := events[..|events| - 1], events[|events| - 1];
      NamesAlwaysFit(front, isPrimary);
      var s := Run(front, isPrimary);
      match e
      case Packet(p, now) => HandleGrows(s, p, isPrimary, now);
      case Consumer(g) => if g < |s.groups| { ConsumeKeeps(s.groups[g]); }
    }
  }

  lemma PacketAccepted(front: seq<Event>, p: Packet, now: int, isPrimary: bool, i: nat)
    requires NamesFit(front, isPrimary)
    requires forall j :: 0 <= j < |Run(front, isPrimary).groups| ==>
               Kept(Run(front, isPrimary).groups[j]) == Accepted(front, isPrimary, Run(front, isPrimary).groups[j].name)
    requires i < |Handle(Run(front, isPrimary), p, isPrimary, now).groups|
    ensures var g := Handle(Run(front, isPrimary), p, isPrimary, now).groups[i];
            Kept(g) == Accepted(front, isPrimary, g.name) + AddedBy(Run(front, isPrimary).groups, p, now)(g.name)
  {
    hide Kept, Handle, Accepted;
    var s := Run(front, isPrimary);
    var g := Handle(s, p, isPrimary, now).groups[i];
    HandleGrows(s, p, isPrimary, now);
    if i >= |s.groups| {
      OnlyAccepted(front, isPrimary, g.name);
    }
  }

  /**
    What a group of a server has queued or recorded, in every run and on every server: exactly the messages that were
    sent to it since it exists, in order, each once, whole and under its own name.
    */
  lemma {:induction false} GroupsKeepTheirMessages(events: seq<Event>, isPrimary: bool, i: nat)
    requires i < |Run(events, isPrimary).groups|
    ensures var g := Run(events, isPrimary).groups[i];
            Recordable(g.history + g.queue) == Accepted(events, isPrimary, g.name)
  {
    if events != [] {
      hide Handle, Consume, Recordable;
      var front, e := events[..|events| - 1], events[|events| - 1];
      var s := Run(front, isPrimary);
      NamesAlwaysFit(front, isPrimary);
      forall j | 0 <= j < |s.groups| ensures Kept(s.groups[j]) == Accepted(front, isPrimary, s.groups[j].name) {
        GroupsKeepTheirMessages(front, isPrimary, j);
      }
      match e
      case Packet(p, now) => PacketAccepted(front, p, now, isPrimary, i);
      case Consumer(g) =>
        if g < |s.groups| {
          ConsumeKeeps(s.groups[g]);
        }
        assert Accepted(front, isPrimary, s.groups[i].name) + [] == Accepted(front, isPrimary, s.groups[i].name);
    }
  }

  // ----- The consumer -----

  function ConsumeTimes(g: GroupState, k: nat): GroupState
    decreases k
  {
    if k == 0 then g else ConsumeTimes(Consume(g), k - 1)
  }

  lemma ConsumeRecords(g: GroupState)
    requires g.queue != []
    ensures Consume(g).queue == g.queue[1..] && Consume(g).users == g.users
    ensures Consume(g).history == g.history + Recordable([g.queue[0]])
    ensures Recordable(g.queue) == Recordable([g.queue[0]]) + Recordable(g.queue[1..])
  {
    RecordableOne(g.queue[0]);
    assert g.queue == [g.queue[0]] + g.queue[1..];
    RecordableAppend([g.queue[0]], g.queue[1..]);
  }

  /** The consumer records the queue: after as many steps as there are messages it is empty, and all is recorded. */
  lemma {:induction false} ConsumerRecordsAll(g: GroupState, k: nat)
    requires k >= |g.queue|
    ensures ConsumeTimes(g, k).queue == [] && ConsumeTimes(g, k).users == g.users
    ensures ConsumeTimes(g, k).history == g.history + Recordable(g.queue)
    decreases k
  {
    if g.queue != [] {
      ConsumeRecords(g);
      hide Recordable, Consume;
      ConsumerRecordsAll(Consume(g), k - 1);
    } else if k > 0 {
      ConsumerRecordsAll(g, k - 1);
    } else {
      assert g.history + [] == g.history;
    }
  }

  // ----- Counters and refusals, in every run -----

  /** The client ids of the joins. */
  function Clients(events: seq<Event>): set<string> {
    if events == [] then {}
    else
      Clients(events[..|events| - 1]) +
      match events[|events| - 1] case Packet(JoinPacket(client, _, _, _), _) => {client} case _ => {}
  }

  /** Every join brings a client id of its own, which is no front end's address. */
  predicate FreshJoins(events: seq<Event>) {
    events == [] ||
    (FreshJoins(events[..|events| - 1]) &&
     match events[|events| - 1]
     case Packet(JoinPacket(client, _, _, fe), _) => client != fe && client !in Clients(events[..|events| - 1])
     case _ => true)
  }

  ghost predicate GroupsFit(groups: seq<GroupState>, used: set<string>) {
    forall g <- groups :: Tidy(g.users) && ClientsOf(g.users) <= used
  }

  /** Each counter is the user's sessions in all groups. */
  ghost predicate CountsFit(s: ServerState) {
    forall user: string :: Get(s.counts, user) == A.Total(s.groups, user) <= 2
  }

  lemma {:induction false} InGroupAtMostTotal(groups: seq<GroupState>, i: nat, user: string)
    requires i < |groups|
    ensures SessionsOf(groups[i].users, user) <= A.Total(groups, user)
  {
    if i > 0 {
      InGroupAtMostTotal(groups[1..], i - 1, user);
    }
  }

  lemma IncrementCounts(counts: Counts, user: string)
    ensures var (cs, granted) := Increment(counts, user);
            && (granted <==> Get(counts, user) < 2)
            && (!granted ==> cs == counts)
            && (granted ==> forall name: string ::
                              Get(cs, name) == Get(counts, name) + if name == user then 1 else 0)
  {
  }

  /** The group's part of an admitted join. */
  lemma AdmittedIn(groups: seq<GroupState>, c: Conn, user: string, group: string, isPrimary: bool, now: int,
                   used: set<string>, name: string)
    requires GroupsFit(groups, used) && c.client !in used && c.client != c.fe && A.Total(groups, user) < 2
    ensures var (gs, result) := RegisterUserToGroup(groups, c, user, group, isPrimary, now);
            && result == 0 && GroupsFit(gs, used + {c.client})
            && A.Total(gs, name) == A.Total(groups, name) + if name == user then 1 else 0
  {
    var i := FindGroup(groups, group);
    var gs := if i == |groups| then groups + [GroupState(group, [], [], [])] else groups;
    if i == |groups| {
      A.TotalAppend(groups, GroupState(group, [], [], []), name);
      A.TotalAppend(groups, GroupState(group, [], [], []), user);
    }
    assert forall g <- gs :: g in groups || g == GroupState(group, [], [], []);
    assert gs[i] in gs;
    InGroupAtMostTotal(gs, i, user);
    JoinIsExact(gs[i].users, user, c, name);
    JoinIsExact(gs[i].users, user, c, user);
    var g' := RegisterIn(gs[i], c, user, isPrimary, now).0;
    A.TotalUpdate(gs, i, g', name);
    forall g | g in gs[i := g'] ensures Tidy(g.users) && ClientsOf(g.users) <= used + {c.client} {
      assert g == g' || g in gs;
    }
  }

  /**
    A join handled by a server whose counters fit: a user who has two sessions, in whichever groups, is refused and
    nothing changes; anybody else gets the session, in the counter and in the group.
    */
  lemma JoinIsHandled(s: ServerState, client: string, user: string, group: string, fe: string, isPrimary: bool,
                      now: int, used: set<string>)
    requires GroupsFit(s.groups, used) && CountsFit(s) && client !in used && client != fe
    ensures var s' := Handle(s, JoinPacket(client, user, group, fe), isPrimary, now);
            && GroupsFit(s'.groups, used + {client}) && CountsFit(s')
            && (A.Total(s.groups, user) == 2 ==> s' == s)
            && (A.Total(s.groups, user) < 2 ==>
                  A.Total(s'.groups, user) == A.Total(s.groups, user) + 1
                  && (s'.groups, 0) == RegisterUserToGroup(s.groups, Conn(client, fe), user, group, isPrimary, now))
  {
    var s' := Handle(s, JoinPacket(client, user, group, fe), isPrimary, now);
    hide RegisterUserToGroup;
    IncrementCounts(s.counts, user);
    if A.Total(s.groups, user) < 2 {
      forall name: string ensures Get(s'.counts, name) == A.Total(s'.groups, name) <= 2 {
        AdmittedIn(s.groups, Conn(client, fe), user, group, isPrimary, now, used, name);
      }
      AdmittedIn(s.groups, Conn(client, fe), user, group, isPrimary, now, used, user);
    }
  }

  lemma SameUsersFit(groups: seq<GroupState>, i: nat, g: GroupState, used: set<string>, user: string)
    requires GroupsFit(groups, used) && i < |groups| && g.users == groups[i].users
    ensures GroupsFit(groups[i := g], used) && A.Total(groups[i := g], user) == A.Total(groups, user)
  {
    A.TotalUpdate(groups, i, g, user);
    assert groups[i] in groups;
    assert forall h <- groups[i := g] :: h == g || h in groups;
  }

  lemma {:induction false} PropagateFits(groups: seq<GroupState>, counts: Counts, client: string, fe: string,
                                         isPrimary: bool, now: int, used: set<string>)
    requires GroupsFit(groups, used)
    ensures GroupsFit(Propagate(groups, counts, client, fe, isPrimary, now, |groups|).0, used)
  {
    var gs := Propagate(groups, counts, client, fe, isPrimary, now, |groups|).0;
    forall g | g in gs ensures Tidy(g.users) && ClientsOf(g.users) <= used {
      var j :| 0 <= j < |gs| && gs[j] == g;
      PropagateReaches(groups, counts, client, fe, isPrimary, now, |groups|, j);
      var cs: Counts :| gs[j] == DisconnectIn(groups[j], cs, client, fe, isPrimary, now).0;
      assert groups[j] in groups;
      DisconnectIsPurge(groups[j].users, cs, client, fe);
      DisconnectIsExact(groups[j].users, cs, client, fe, Conn("", ""), "");
    }
  }

  lemma OtherPacketFits(s: ServerState, p: Packet, isPrimary: bool, now: int, used: set<string>)
    requires GroupsFit(s.groups, used) && CountsFit(s) && !p.JoinPacket?
    ensures GroupsFit(Handle(s, p, isPrimary, now).groups, used) && CountsFit(Handle(s, p, isPrimary, now))
  {
    var s' := Handle(s, p, isPrimary, now);
    match p
    case MessagePacket(user, group, text) =>
      var i := FindGroup(s.groups, group);
      if i < |s.groups| {
        forall name: string ensures A.Total(s'.groups, name) == A.Total(s.groups, name) {
          SameUsersFit(s.groups, i, s'.groups[i], used, name);
        }
        SameUsersFit(s.groups, i, s'.groups[i], used, "");
      }
    case DisconnectPacket(client, fe) =>
      PropagateFits(s.groups, s.counts, client, fe, isPrimary, now, used);
      hide DisconnectIn;
      forall name: string ensures Get(s'.counts, name) == A.Total(s'.groups, name) <= 2 {
        PropagateCounts(s.groups, s.counts, client, fe, isPrimary, now, |s.groups|, name);
        PropagateLowers(s.groups, s.counts, client, fe, isPrimary, now, |s.groups|, name);
      }
  }

  lemma {:induction false} PropagateLowers(groups: seq<GroupState>, counts: Counts, client: string, fe: string,
                                           isPrimary: bool, now: int, k: nat, name: string)
    requires k <= |groups| && forall g <- groups :: Tidy(g.users)
    ensures A.Total(Propagate(groups, counts, client, fe, isPrimary, now, k).0, name) <= A.Total(groups, name)
  {
    hide DisconnectIn, Tidy;
    if k > 0 {
      PropagateLowers(groups, counts, client, fe, isPrimary, now, k - 1, name);
      var (gs, cs) := Propagate(groups, counts, client, fe, isPrimary, now, k - 1);
      assert gs[k - 1] == groups[k - 1] && groups[k - 1] in groups;
      DisconnectCounts(gs[k - 1], cs, client, fe, isPrimary, now, name);
      A.TotalUpdate(gs, k - 1, DisconnectIn(gs[k - 1], cs, client, fe, isPrimary, now).0, name);
    }
  }

  /**
    In every run of a server that handles one packet at a time, in either role: its groups are tidy, and each counter
    is the number of sessions the user has in them, at most two.
    */
  lemma {:induction false} RunIsAccounted(events: seq<Event>, isPrimary: bool)
    requires FreshJoins(events)
    ensures GroupsFit(Run(events, isPrimary).groups, Clients(events)) && CountsFit(Run(events, isPrimary))
  {
    if events != [] {
      var front, e := events[..|events| - 1], events[|events| - 1];
      RunIsAccounted(front, isPrimary);
      var s, used := Run(front, isPrimary), Clients(front);
      assert used <= Clients(events);
      match e
      case Packet(p, now) =>
        if p.JoinPacket? {
          JoinIsHandled(s, p.client, p.user, p.group, p.fe, isPrimary, now, used);
        } else {
          OtherPacketFits(s, p, isPrimary, now, used);
        }
      case Consumer(i) =>
        if i < |s.groups| {
          forall name: string ensures A.Total(Run(events, isPrimary).groups, name) == A.Total(s.groups, name) {
            SameUsersFit(s.groups, i, Consume(s.groups[i]), used, name);
          }
          SameUsersFit(s.groups, i, Consume(s.groups[i]), used, "");
        }
    }
  }
}
