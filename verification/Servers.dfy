/**
  src/server/server.cpp and src/server/server_group_manager.cpp: the tables of a server and what one
  packet does to them. `isPrimary` is Server::isPrimaryServer and `now` the clock read.
  */
module Servers {
  import opened Users
  import opened Groups

  /** A group, with the queue of its consumer thread and the messages it has recorded. */
  datatype GroupState = GroupState(name: string, users: seq<Member>, queue: seq<Message>, history: seq<Message>)

  function FindGroup(groups: seq<GroupState>, name: string): (i: nat)
    ensures i <= |groups| && (i < |groups| ==> groups[i].name == name)
    ensures forall j :: 0 <= j < i ==> groups[j].name != name
  {
    if groups == [] || groups[0].name == name then 0 else 1 + FindGroup(groups[1..], name)
  }

  /** incrementNumberOfConnectionsFromUser: the new counters, and whether a session was granted. */
  function Increment(counts: Counts, user: string): (Counts, bool) {
    if user in counts then
      if counts[user] >= MAX_NUMBER_OF_SIMULTANEOUS_CONNECTIONS then (counts, false)
      else (counts[user := counts[user] + 1], true)
    else (counts[user := 1], true)
  }

  /** Group::registerNewSession on a group of the table. */
  function RegisterIn(g: GroupState, c: Conn, user: string, isPrimary: bool, now: int): (GroupState, int) {
    var (us, result, isNew) := Join(g.users, user, c);
    (g.(users := us,
        queue := g.queue + if isNew && isPrimary then Notices([user], JOINED_MESSAGE, g.name, now) else []),
     result)
  }

  /** registerUserToGroup: the group is created if need be. */
  function RegisterUserToGroup(groups: seq<GroupState>, c: Conn, user: string, group: string, isPrimary: bool, now: int)
    : (seq<GroupState>, int)
  {
    var i := FindGroup(groups, group);
    var gs := if i == |groups| then groups + [GroupState(group, [], [], [])] else groups;
    var (g, result) := RegisterIn(gs[i], c, user, isPrimary, now);
    (gs[i := g], result)
  }

  /** Group::handleDisconnectEvent on a group of the table. */
  function DisconnectIn(g: GroupState, counts: Counts, client: string, fe: string, isPrimary: bool, now: int)
    : (GroupState, Counts)
  {
    var o := HandleDisconnect(g.users, counts, client, fe);
    (g.(users := o.users,
        queue := g.queue + if isPrimary then Notices(o.left, LEFT_GROUP_MESSAGE, g.name, now) else []),
     o.counts)
  }

  /** propagateSocketDisconnectionEvent, the first `k` groups done. */
  function Propagate(groups: seq<GroupState>, counts: Counts, client: string, fe: string,
                     isPrimary: bool, now: int, k: nat): (r: (seq<GroupState>, Counts))
    requires k <= |groups|
    ensures |r.0| == |groups| && forall j :: k <= j < |groups| ==> r.0[j] == groups[j]
  {
    if k == 0 then (groups, counts)
    else
      var (gs, cs) := Propagate(groups, counts, client, fe, isPrimary, now, k - 1);
      var (g, cs') := DisconnectIn(gs[k - 1], cs, client, fe, isPrimary, now);
      (gs[k - 1 := g], cs')
  }

  /** processReceivedPacket: a message for a group that does not exist is dropped. */
  function Enqueue(groups: seq<GroupState>, user: string, group: string, text: string, now: int): seq<GroupState> {
    var i := FindGroup(groups, group);
    if i == |groups| then groups
    else groups[i := groups[i].(queue := groups[i].queue + [Message(text, user, group, now, false)])]
  }

  class Server {
    var connectionsCount: Counts
    var groups: seq<GroupState>

    constructor ()
      ensures connectionsCount == map[] && groups == []
    {
      connectionsCount, groups := map[], [];
    }

    method IncrementNumberOfConnectionsFromUser(user: string) returns (granted: bool)
      modifies this`connectionsCount
      ensures (connectionsCount, granted) == Increment(old(connectionsCount), user)
    {
      if user in connectionsCount {
        if connectionsCount[user] >= MAX_NUMBER_OF_SIMULTANEOUS_CONNECTIONS {
          return false;
        }
        connectionsCount := connectionsCount[user := connectionsCount[user] + 1];
        return true;
      } else {
        connectionsCount := connectionsCount[user := 1];
        return true;
      }
    }

    method GroupIndex(group: string) returns (i: nat)
      ensures i == FindGroup(groups, group)
    {
      i := 0;
      while i < |groups| && groups[i].name != group
        invariant 0 <= i <= FindGroup(groups, group)
      {
        i := i + 1;
      }
    }

    /** -1 if the user has too many sessions, otherwise the group's answer. */
    method RegisterUserToServer(user: string, group: string, clientID: string, feAddress: string,
                                isPrimary: bool, now: int)
      returns (result: int)
      modifies this
      ensures var (counts, granted) := Increment(old(connectionsCount), user);
              connectionsCount == counts &&
              if granted
              then (groups, result) ==
                   RegisterUserToGroup(old(groups), Conn(clientID, feAddress), user, group, isPrimary, now)
              else groups == old(groups) && result == -1
    {
      var granted := IncrementNumberOfConnectionsFromUser(user);
      if !granted {
        return -1;
      }
      var i := GroupIndex(group);
      if i == |groups| {
        groups := groups + [GroupState(group, [], [], [])];
      }
      var (g, r) := RegisterIn(groups[i], Conn(clientID, feAddress), user, isPrimary, now);
      groups := groups[i := g];
      result := r;
    }

    method CloseClientConnection(clientID: string, feAddress: string, isPrimary: bool, now: int)
      modifies this
      ensures (groups, connectionsCount) ==
              Propagate(old(groups), old(connectionsCount), clientID, feAddress, isPrimary, now, |old(groups)|)
    {
      var it := 0;
      while it < |groups|
        invariant 0 <= it <= |groups| == |old(groups)|
        invariant (groups, connectionsCount) ==
                  Propagate(old(groups), old(connectionsCount), clientID, feAddress, isPrimary, now, it)
      {
        var (g, counts) := DisconnectIn(groups[it], connectionsCount, clientID, feAddress, isPrimary, now);
        groups, connectionsCount := groups[it := g], counts;
        it := it + 1;
      }
    }

    method ProcessReceivedPacket(user: string, group: string, text: string, now: int)
      modifies this`groups
      ensures groups == Enqueue(old(groups), user, group, text, now)
    {
      var i := GroupIndex(group);
      if i < |groups| {
        groups := groups[i := groups[i].(queue := groups[i].queue + [Message(text, user, group, now, false)])];
      }
    }
  }
}
