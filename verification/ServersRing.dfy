/**
  src/server/ServersRing.cpp: one server of the ring. `Node` is what the server remembers; the
  functions say how each of its threads changes it, and class ServersRing does the same in place.
  A connection attempt succeeds when a server is running on the port, that is, when it is in `live`.
  */
module ServersRings {
  import opened Common
  import opened PortRing
  import opened Elections

  /**
    `cursor` counts the lines of config.txt read so far, `clientPort` is the last one read for the
    connection to the next server. `isPrimary` also stands for Server::isPrimaryServer, which is
    assigned together with it.
    */
  datatype Node = Node(id: Port, cursor: nat, clientPort: Port, primary: Port, isPrimary: bool,
                       participating: bool, disconnected: bool)

  ghost predicate WellFormed(ports: seq<Port>, n: Node) {
    && Distinct(ports)
    && n.id in ports
    && 1 <= n.cursor <= |ports|
    && n.clientPort == ports[n.cursor - 1]
  }

  /** The next line of the file; after the last one the file is opened again. */
  function ReadPort(ports: seq<Port>, n: Node): (n': Node)
    requires WellFormed(ports, n)
    ensures WellFormed(ports, n')
  {
    var c := if n.cursor < |ports| then n.cursor else 0;
    n.(clientPort := ports[c], cursor := c + 1)
  }

  lemma ReadPortMovesOn(ports: seq<Port>, n: Node)
    requires WellFormed(ports, n)
    ensures Dist(ports, n.clientPort, ReadPort(ports, n).clientPort) == 1
    ensures n.clientPort != n.id ==>
              Dist(ports, n.id, ReadPort(ports, n).clientPort) == Dist(ports, n.id, n.clientPort) + 1
  {
    var c := if n.cursor < |ports| then n.cursor else 0;
    DistToLine(ports, n.cursor - 1, c);
    DistToLine(ports, IndexOf(ports, n.id), n.cursor - 1);
    DistToLine(ports, IndexOf(ports, n.id), c);
  }

  function Promote(n: Node): Node {
    n.(primary := n.id, isPrimary := true, disconnected := false)
  }

  /**
    The retry loop of connectToServer after a disconnection. Coming upon its own port the server
    promotes itself, reads one more line and stops scanning.
    */
  function Scan(ports: seq<Port>, n: Node, live: set<Port>): (n': Node)
    requires WellFormed(ports, n) && n.id in live
    ensures WellFormed(ports, n') && n'.id == n.id
    decreases Dist(ports, n.clientPort, n.id)
  {
    if n.clientPort in live then n
    else
      var m := ReadPort(ports, n);
      ReadPortMovesOn(ports, n);
      DistThrough(ports, n.clientPort, m.clientPort, n.id);
      if m.clientPort == n.id then ReadPort(ports, Promote(m)) else Scan(ports, m, live)
  }

  lemma ScanOnce(ports: seq<Port>, n: Node, live: set<Port>)
    requires WellFormed(ports, n) && n.id in live && n.clientPort !in live
    ensures
      var m := ReadPort(ports, n);
      && Scan(ports, n, live) == (if m.clientPort == n.id then ReadPort(ports, Promote(m)) else Scan(ports, m, live))
      && (m.clientPort != n.id ==> Dist(ports, m.clientPort, n.id) < Dist(ports, n.clientPort, n.id))
  {
    ReadPortMovesOn(ports, n);
    DistThrough(ports, n.clientPort, ReadPort(ports, n).clientPort, n.id);
  }

  /** `linked`: the connection was made; otherwise the thread keeps retrying `clientPort`. */
  datatype Reconnection = Reconnection(node: Node, linked: bool, starts: bool)

  /** connectToServer, up to the point where the new connection is watched. */
  function Reconnect(ports: seq<Port>, n: Node, live: set<Port>): (r: Reconnection)
    requires WellFormed(ports, n) && n.id in live
    ensures WellFormed(ports, r.node) && r.node.id == n.id
  {
    var canStartElection := n.clientPort == n.primary;
    var m := ReadPort(ports, n);
    var k := if m.disconnected then Scan(ports, m, live) else m;
    if k.clientPort in live then
      Reconnection(k.(disconnected := false), true, k.disconnected && canStartElection)
    else
      Reconnection(k, false, false)
  }

  /**
    What connectToServer does for a server that has lost nobody, at the start: it goes on to the next line and
    stays there, and it starts no election. An election is started only by a server that has lost the server it
    took for the primary, and only when it has found another one.
    */
  lemma OnlyLossStarts(ports: seq<Port>, n: Node, live: set<Port>)
    requires WellFormed(ports, n) && n.id in live
    ensures var r := Reconnect(ports, n, live);
            && (r.starts ==> r.linked && n.disconnected && n.clientPort == n.primary && !r.node.disconnected)
            && (!n.disconnected ==>
                  && !r.starts
                  && Dist(ports, n.clientPort, r.node.clientPort) == 1
                  && r.linked == (r.node.clientPort in live)
                  && r.node == n.(cursor := r.node.cursor, clientPort := r.node.clientPort))
  {
    ReadPortMovesOn(ports, n);
  }

  /** listenClientCommunication's treatment of one election message. */
  function Receive(n: Node, m: Msg): (Node, Option<Msg>) {
    var r := React(n.participating, n.id, m);
    var n1 := n.(participating := r.participating);
    match r.newPrimary
    case None => (n1, r.sent)
    case Some(p) => (n1.(primary := p, isPrimary := n.isPrimary || p == n.id), r.sent)
  }

  // ----- Start-up -----

  /** Lines of the file tried until a port that is not `taken` can be bound. */
  function FirstFree(ports: seq<Port>, taken: set<Port>): (i: nat)
    requires exists p :: p in ports && p !in taken
    ensures i < |ports| && ports[i] !in taken && forall j :: 0 <= j < i ==> ports[j] in taken
  {
    if ports[0] !in taken then 0 else
      assert exists p :: p in ports[1..] && p !in taken by {
        var p :| p in ports && p !in taken;
        assert p in ports[1..];
      }
      1 + FirstFree(ports[1..], taken)
  }

  /**
    A server bound to line `i`, before it has connected to anyone: its client port is not set yet
    (its own port stands for that), and it takes the first port of the list for the primary.
    */
  function Started(ports: seq<Port>, i: nat): Node
    requires i < |ports|
  {
    Node(ports[i], i + 1, ports[i], ports[0], i == 0, false, false)
  }

  class ServersRing {
    const ports: seq<Port>
    const elect: Election
    var serverId: Port
    var cursor: nat
    var clientPort: Port
    var primary: Port
    var isPrimary: bool
    var disconnected: bool

    ghost function View(): Node
      reads this, elect
    {
      Node(serverId, cursor, clientPort, primary, isPrimary, elect.isParticipating, disconnected)
    }

    /** The constructor and prepareServerConnection: bind the first free port of the list. */
    constructor (ports: seq<Port>, taken: set<Port>)
      requires Distinct(ports) && exists p :: p in ports && p !in taken
      ensures this.ports == ports && fresh(elect)
      ensures View() == Started(ports, FirstFree(ports, taken))
      ensures WellFormed(ports, View())
    {
      this.ports := ports;
      primary := ports[0];
      elect := new Election();
      ghost var free := FirstFree(ports, taken);
      var line := 0;
      while ports[line] in taken
        invariant 0 <= line <= free
        decreases free - line
      {
        line := line + 1;
      }
      serverId, cursor := ports[line], line + 1;
      clientPort := ports[line];
      isPrimary := ports[line] == ports[0];
      disconnected := false;
    }

    method GetNewPortFromFile() returns (port: Port)
      requires 1 <= cursor <= |ports|
      modifies this`cursor
      ensures cursor == (if old(cursor) < |ports| then old(cursor) else 0) + 1
      ensures port == ports[cursor - 1]
    {
      if cursor == |ports| {
        cursor := 0; // the file is closed and opened again
      }
      port := ports[cursor];
      cursor := cursor + 1;
    }

    /** The `while (connect(...) < 0)` loop: ports are read only after a disconnection. */
    method RetryConnection(live: set<Port>)
      requires WellFormed(ports, View()) && serverId in live
      modifies this`cursor, this`clientPort, this`primary, this`isPrimary, this`disconnected
      ensures View() == if old(disconnected) then Scan(ports, old(View()), live) else old(View())
    {
      ghost var target := if disconnected then Scan(ports, View(), live) else View();
      while clientPort !in live && disconnected
        invariant WellFormed(ports, View()) && serverId in live
        invariant target == if disconnected then Scan(ports, View(), live) else View()
        decreases disconnected, Dist(ports, clientPort, serverId)
      {
        ghost var before := View();
        ScanOnce(ports, before, live);
        clientPort := GetNewPortFromFile();
        ghost var m := View();
        assert m == ReadPort(ports, before);
        if clientPort == serverId {
          // the only port left: this is the only server
          primary := serverId;
          isPrimary := true;
          disconnected := false;
          assert View() == Promote(m);
          clientPort := GetNewPortFromFile();
          assert View() == ReadPort(ports, Promote(m));
        }
      }
    }

    /** `startElection` is the message sent on the new connection, if any. */
    method ConnectToServer(live: set<Port>) returns (linked: bool, startElection: Option<string>)
      requires WellFormed(ports, View()) && serverId in live
      modifies this
      ensures var r := Reconnect(ports, old(View()), live);
              View() == r.node && linked == r.linked && startElection.Some? == r.starts &&
              (r.starts ==> ReadText(startElection.value) == Some(Msg(ELECTION, serverId)))
    {
      var canStartElection := clientPort == primary;
      startElection := None;
      clientPort := GetNewPortFromFile();
      assert View() == ReadPort(ports, old(View()));
      RetryConnection(live);
      linked := clientPort in live;
      if linked {
        if disconnected && canStartElection {
          var text := elect.StartElection(serverId);
          startElection := Some(text);
        }
        disconnected := false;
      }
    }

    method ListenClientCommunication(received: string) returns (sent: Option<string>)
      requires ReadText(received).Some?
      modifies this`primary, this`isPrimary, elect
      ensures var r := Receive(old(View()), ReadText(received).value);
              View() == r.0 && sent.Some? == r.1.Some? && (sent.Some? ==> ReadText(sent.value) == r.1)
    {
      var newPrimary;
      newPrimary, sent := elect.ProcessElectionInfo(received, serverId);
      if newPrimary.Some? {
        primary := newPrimary.value;
        if primary == serverId {
          isPrimary := true;
        }
      }
    }
  }
}
