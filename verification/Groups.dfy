/** src/server/Group.cpp: the users of one group, as values and as the list the server keeps. */
module Groups {
  import opened Users

  const FE_DISCONNECT := "FE_DISCONNECT"
  const JOINED_MESSAGE := "<Joined the group>"
  const LEFT_GROUP_MESSAGE := "<Left the group>"

  datatype Message = Message(text: string, user: string, group: string, time: int, isNotification: bool)

  datatype Member = Member(name: string, sessions: seq<Conn>)

  /** connectionsCount; a missing entry reads as 0, as `map[key] -= 1` would find it. */
  type Counts = map<string, int>

  function Get(counts: Counts, name: string): int {
    if name in counts then counts[name] else 0
  }

  // ----- Joining -----

  function FindUser(us: seq<Member>, name: string): (i: nat)
    ensures i <= |us| && (i < |us| ==> us[i].name == name) && forall j :: 0 <= j < i ==> us[j].name != name
  {
    if us == [] || us[0].name == name then 0 else 1 + FindUser(us[1..], name)
  }

  /** registerNewSession: the new list, the result, and whether the user is new to the group. */
  function Join(us: seq<Member>, name: string, c: Conn): (seq<Member>, int, bool) {
    var i := FindUser(us, name);
    var us1 := if i == |us| then us + [Member(name, [])] else us;
    var (sessions, result) := Registered(us1[i].sessions, c);
    (us1[i := Member(name, sessions)], result, i == |us|)
  }

  // ----- Leaving -----

  /** What a disconnection leaves: users, counters and the names of those who left the group. */
  datatype Outcome = Outcome(users: seq<Member>, counts: Counts, left: seq<string>)

  function OwnerOf(us: seq<Member>, c: Conn): (i: nat)
    ensures i <= |us| && (i < |us| ==> c in us[i].sessions) && forall j :: 0 <= j < i ==> c !in us[j].sessions
  {
    if us == [] || c in us[0].sessions then 0 else 1 + OwnerOf(us[1..], c)
  }

  /** disconnectSession. */
  function DropOne(us: seq<Member>, counts: Counts, c: Conn): Outcome {
    var i := OwnerOf(us, c);
    if i == |us| then Outcome(us, counts, [])
    else
      var name, keep := us[i].name, Released(us[i].sessions, c.client, c.fe);
      var counts' := counts[name := Get(counts, name) - 1];
      if keep == [] then Outcome(us[..i] + us[i + 1..], counts', [name])
      else Outcome(us[i := Member(name, keep)], counts', [])
  }

  lemma DropOneCases(us: seq<Member>, counts: Counts, c: Conn)
    ensures var i, o := OwnerOf(us, c), DropOne(us, counts, c);
            if i == |us| then o == Outcome(us, counts, [])
            else
              var name, keep := us[i].name, Released(us[i].sessions, c.client, c.fe);
              && o.counts == counts[name := Get(counts, name) - 1]
              && o.users == (if keep == [] then us[..i] + us[i + 1..] else us[i := Member(name, keep)])
              && o.left == (if keep == [] then [name] else [])
  {
  }

  function DropIfOn(us: seq<Member>, counts: Counts, c: Conn, fe: string): Outcome {
    if c.fe == fe then DropOne(us, counts, c) else Outcome(us, counts, [])
  }

  /** The first `k` rounds of the loop of handleDisconnectEvent over a snapshot of the sessions. */
  function FeLoop(us: seq<Member>, counts: Counts, snapshot: seq<Conn>, k: nat, fe: string): Outcome
    requires k <= |snapshot|
  {
    if k == 0 then Outcome(us, counts, [])
    else
      var o := FeLoop(us, counts, snapshot, k - 1, fe);
      var p := DropIfOn(o.users, o.counts, snapshot[k - 1], fe);
      p.(left := o.left + p.left)
  }

  /** getAllActiveConnectionIds. */
  function AllConns(us: seq<Member>): seq<Conn> {
    if us == [] then [] else us[0].sessions + AllConns(us[1..])
  }

  /** handleDisconnectEvent: one client, or everybody who came through the front end. */
  function HandleDisconnect(us: seq<Member>, counts: Counts, client: string, fe: string): Outcome {
    if client == FE_DISCONNECT then FeLoop(us, counts, AllConns(us), |AllConns(us)|, fe)
    else DropOne(us, counts, Conn(client, fe))
  }

  function Notices(names: seq<string>, text: string, group: string, time: int): (r: seq<Message>)
    ensures |r| == |names|
    ensures forall i :: 0 <= i < |names| ==> r[i] == Message(text, names[i], group, time, true)
  {
    seq(|names|, i requires 0 <= i < |names| => Message(text, names[i], group, time, true))
  }

  lemma NoticesAppend(a: seq<string>, b: seq<string>, text: string, group: string, time: int)
    ensures Notices(a + b, text, group, time) == Notices(a, text, group, time) + Notices(b, text, group, time)
  {
  }

  // ----- The same in place -----

  /** connectionsCount, which the server passes by reference. */
  class ConnectionsCount {
    var count: Counts

    constructor ()
      ensures count == map[]
    {
      count := map[];
    }

    method Decrement(name: string)
      modifies this
      ensures count == old(count)[name := Get(old(count), name) - 1]
    {
      count := count[name := (if name in count then count[name] else 0) - 1];
    }
  }

  ghost function Members(us: seq<User>): (r: seq<Member>)
    reads us
    ensures |r| == |us| && forall i :: 0 <= i < |us| ==> r[i] == Member(us[i].username, us[i].clientIdentifiers)
  {
    seq(|us|, i requires 0 <= i < |us| reads us => Member(us[i].username, us[i].clientIdentifiers))
  }

  class Group {
    const groupName: string
    var users: seq<User>
    var messagesQueue: seq<Message>
    ghost var Repr: set<User> // the users ever listed

    ghost predicate Valid()
      reads this
    {
      && (forall i, j :: 0 <= i < j < |users| ==> users[i] != users[j])
      && (forall i :: 0 <= i < |users| ==> users[i] in Repr)
    }

    ghost function Table(): seq<Member>
      reads this, users
    {
      Members(users)
    }

    constructor (name: string)
      ensures Valid() && groupName == name && users == [] && messagesQueue == [] && Repr == {}
    {
      groupName := name;
      users, messagesQueue, Repr := [], [], {};
    }

    method AddMessageToMessageQueue(message: Message)
      modifies this`messagesQueue
      ensures messagesQueue == old(messagesQueue) + [message]
    {
      messagesQueue := messagesQueue + [message];
    }

    method SendActivityMessage(userName: string, text: string, now: int)
      modifies this`messagesQueue
      ensures messagesQueue == old(messagesQueue) + Notices([userName], text, groupName, now)
    {
      AddMessageToMessageQueue(Message(text, userName, groupName, now, true));
      assert Notices([userName], text, groupName, now) == [Message(text, userName, groupName, now, true)];
    }

    method RegisterNewSession(clientID: string, feAddress: string, userName: string, isPrimary: bool, now: int)
      returns (result: int)
      requires Valid()
      modifies this, Repr
      ensures Valid() && fresh(Repr - old(Repr))
      ensures var (us, r, isNew) := Join(old(Table()), userName, Conn(clientID, feAddress));
              Table() == us && result == r &&
              messagesQueue == old(messagesQueue) +
                if isNew && isPrimary then Notices([userName], JOINED_MESSAGE, groupName, now) else []
    {
      ghost var table := Table();
      ghost var at := FindUser(table, userName);
      var i := 0;
      while i < |users| && users[i].username != userName
        invariant 0 <= i <= at
      {
        i := i + 1;
      }
      assert i == at;
      if i == |users| {
        var user := new User(userName);
        users := users + [user];
        Repr := Repr + {user};
        if isPrimary {
          SendActivityMessage(userName, JOINED_MESSAGE, now);
        }
      }
      assert Table() == if at == |table| then table + [Member(userName, [])] else table;
      result := users[i].RegisterSession(clientID, feAddress);
    }

    method GetUserFromConnectionId(clientID: string, feAddress: string) returns (i: nat)
      ensures i == OwnerOf(Table(), Conn(clientID, feAddress))
    {
      ghost var owner := OwnerOf(Table(), Conn(clientID, feAddress));
      i := 0;
      while i < |users| && Conn(clientID, feAddress) !in users[i].clientIdentifiers
        invariant 0 <= i <= owner
      {
        i := i + 1;
      }
    }

    method RemoveUser(i: nat)
      requires Valid() && i < |users|
      modifies this`users
      ensures Valid() && Repr == old(Repr)
      ensures Table() == old(Table())[..i] + old(Table())[i + 1..]
    {
      users := users[..i] + users[i + 1..];
    }

    method ReleaseUserSession(i: nat, clientID: string, feAddress: string)
      requires Valid() && i < |users|
      modifies users[i]
      ensures Valid()
      ensures var m := old(Table())[i];
              Table() == old(Table())[i := Member(m.name, Released(m.sessions, clientID, feAddress))]
    {
      users[i].ReleaseSession(clientID, feAddress);
    }

    method DisconnectSession(clientID: string, feAddress: string, numberOfConnectionsByUser: ConnectionsCount,
                             isPrimary: bool, now: int)
      requires Valid()
      modifies this, Repr, numberOfConnectionsByUser
      ensures Valid() && Repr == old(Repr)
      ensures var o := DropOne(old(Table()), old(numberOfConnectionsByUser.count), Conn(clientID, feAddress));
              Table() == o.users && numberOfConnectionsByUser.count == o.counts &&
              messagesQueue == old(messagesQueue) +
                if isPrimary then Notices(o.left, LEFT_GROUP_MESSAGE, groupName, now) else []
    {
      ghost var table, counts, c := Table(), numberOfConnectionsByUser.count, Conn(clientID, feAddress);
      var i := GetUserFromConnectionId(clientID, feAddress);
      DropOneCases(table, counts, c);
      if i == |users| {
        return;
      }
      DisconnectOwner(i, clientID, feAddress, numberOfConnectionsByUser, isPrimary, now);
    }

    /** The session belongs to the user at index `i`. */
    method DisconnectOwner(i: nat, clientID: string, feAddress: string, numberOfConnectionsByUser: ConnectionsCount,
                           isPrimary: bool, now: int)
      requires Valid() && i < |users|
      modifies this, Repr, numberOfConnectionsByUser
      ensures Valid() && Repr == old(Repr)
      ensures var table := old(Table());
              var name, keep := table[i].name, Released(table[i].sessions, clientID, feAddress);
              && numberOfConnectionsByUser.count == old(numberOfConnectionsByUser.count)
                   [name := Get(old(numberOfConnectionsByUser.count), name) - 1]
              && Table() == (if keep == [] then table[..i] + table[i + 1..] else table[i := Member(name, keep)])
              && messagesQueue == old(messagesQueue) +
                   if keep == [] && isPrimary then Notices([name], LEFT_GROUP_MESSAGE, groupName, now) else []
    {
      ghost var table := Table();
      var name := users[i].username;
      numberOfConnectionsByUser.Decrement(name);
      ReleaseUserSession(i, clientID, feAddress);
      assert users[i].clientIdentifiers == Table()[i].sessions;
      if |users[i].clientIdentifiers| < 1 {
        if isPrimary {
          SendActivityMessage(name, LEFT_GROUP_MESSAGE, now);
        }
        RemoveUser(i);
      }
    }

    method GetAllActiveConnectionIds() returns (ids: seq<Conn>)
      ensures ids == AllConns(Table())
    {
      ids := [];
      ghost var table := Table();
      var i := 0;
      while i < |users|
        invariant 0 <= i <= |users|
        invariant ids + AllConns(table[i..]) == AllConns(table)
      {
        ids := ids + users[i].clientIdentifiers;
        assert table[i..][1..] == table[i + 1..];
        i := i + 1;
      }
    }

    method HandleDisconnectEvent(clientID: string, feAddress: string, numberOfConnectionsByUser: ConnectionsCount,
                                 isPrimary: bool, now: int)
      requires Valid()
      modifies this, Repr, numberOfConnectionsByUser
      ensures Valid() && Repr == old(Repr)
      ensures var o := HandleDisconnect(old(Table()), old(numberOfConnectionsByUser.count), clientID, feAddress);
              Table() == o.users && numberOfConnectionsByUser.count == o.counts &&
              messagesQueue == old(messagesQueue) +
                if isPrimary then Notices(o.left, LEFT_GROUP_MESSAGE, groupName, now) else []
    {
      if clientID == FE_DISCONNECT {
        var allActiveSockets := GetAllActiveConnectionIds();
        DisconnectFrontEnd(allActiveSockets, feAddress, numberOfConnectionsByUser, isPrimary, now);
      } else {
        DisconnectSession(clientID, feAddress, numberOfConnectionsByUser, isPrimary, now);
      }
    }

    method DisconnectMatching(c: Conn, feAddress: string, numberOfConnectionsByUser: ConnectionsCount,
                              isPrimary: bool, now: int)
      requires Valid()
      modifies this, Repr, numberOfConnectionsByUser
      ensures Valid() && Repr == old(Repr)
      ensures var o := DropIfOn(old(Table()), old(numberOfConnectionsByUser.count), c, feAddress);
              Table() == o.users && numberOfConnectionsByUser.count == o.counts &&
              messagesQueue == old(messagesQueue) +
                if isPrimary then Notices(o.left, LEFT_GROUP_MESSAGE, groupName, now) else []
    {
      if c.fe == feAddress {
        DisconnectSession(c.client, feAddress, numberOfConnectionsByUser, isPrimary, now);
      }
    }

    /** The loop of handleDisconnectEvent over a snapshot of the sessions. */
    method DisconnectFrontEnd(snapshot: seq<Conn>, feAddress: string, numberOfConnectionsByUser: ConnectionsCount,
                              isPrimary: bool, now: int)
      requires Valid()
      modifies this, Repr, numberOfConnectionsByUser
      ensures Valid() && Repr == old(Repr)
      ensures var o := FeLoop(old(Table()), old(numberOfConnectionsByUser.count), snapshot, |snapshot|, feAddress);
              Table() == o.users && numberOfConnectionsByUser.count == o.counts &&
              messagesQueue == old(messagesQueue) +
                if isPrimary then Notices(o.left, LEFT_GROUP_MESSAGE, groupName, now) else []
    {
      hide DropIfOn, Notices;
      ghost var table, counts, queue := Table(), numberOfConnectionsByUser.count, messagesQueue;
      ghost var o := Outcome(table, counts, []);
      var k := 0;
      while k < |snapshot|
        invariant 0 <= k <= |snapshot|
        invariant Valid() && Repr == old(Repr)
        invariant o == FeLoop(table, counts, snapshot, k, feAddress)
        invariant Table() == o.users && numberOfConnectionsByUser.count == o.counts
        invariant messagesQueue == queue +
                    if isPrimary then Notices(o.left, LEFT_GROUP_MESSAGE, groupName, now) else []
      {
        ghost var p := DropIfOn(o.users, o.counts, snapshot[k], feAddress);
        NoticesAppend(o.left, p.left, LEFT_GROUP_MESSAGE, groupName, now);
        DisconnectMatching(snapshot[k], feAddress, numberOfConnectionsByUser, isPrimary, now);
        k := k + 1;
        o := p.(left := o.left + p.left);
      }
    }
  }
}
