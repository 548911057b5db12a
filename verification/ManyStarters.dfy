/**
  Elections begun by any number of servers at any time (src/server/Election.cpp). The servers' guard
  allows one starter only (src/server/ServersRing.cpp:233-235); this module proves what would and what
  would not hold without it. Each connection delivers its messages in order.
  */
module ManyStarters {
  import opened Common
  import opened PortRing
  import opened Elections
  import opened ServersRings
  import opened ElectionRuns

  /** A message is handled, or a server starts an election. */
  datatype Choice = Hop(i: nat) | Starts(s: Port)

  /** The message is the oldest one on its connection. */
  predicate Oldest(flight: seq<Envelope>, i: nat) {
    i < |flight| && forall j :: 0 <= j < i ==> flight[j].dest != flight[i].dest
  }

  predicate Allowed(net: Net, c: Choice) {
    match c
    case Hop(i) => Oldest(net.flight, i)
    case Starts(s) => s in net.nodes
  }

  function Choose(net: Net, c: Choice): Net
    requires Allowed(net, c)
  {
    match c
    case Hop(i) => DeliverAt(net, i)
    case Starts(s) => net.(flight := net.flight + [Envelope(net.nodes[s].clientPort, Msg(ELECTION, s))])
  }

  predicate Valid(net: Net, choices: seq<Choice>)
    decreases |choices|
  {
    choices == [] || (Allowed(net, choices[0]) && Valid(Choose(net, choices[0]), choices[1..]))
  }

  function After(net: Net, choices: seq<Choice>): Net
    requires Valid(net, choices)
    decreases |choices|
  {
    if choices == [] then net else After(Choose(net, choices[0]), choices[1..])
  }

  // ----- Order on the ring, seen from the server `w` with the largest id -----

  /** Message `j` follows message `i` on the lap that begins at `w`. */
  predicate Behind(ports: seq<Port>, w: Port, flight: seq<Envelope>, j: nat, i: nat)
    requires i < |flight| && j < |flight| && w in ports && flight[i].dest in ports && flight[j].dest in ports
  {
    var p, q := flight[j].dest, flight[i].dest;
    Dist(ports, w, p) < Dist(ports, w, q) || (p == q && j > i)
  }

  ghost predicate Sound(ports: seq<Port>, net: Net) {
    && Ring(ports, net.nodes)
    && forall i :: 0 <= i < |net.flight| ==> net.flight[i].dest in net.nodes && net.flight[i].msg.id in net.nodes
  }

  ghost predicate Setup(ports: seq<Port>, net: Net, w: Port) {
    Sound(ports, net) && IsMax(net.nodes.Keys, w)
  }

  /** Message `j` carries the largest id. */
  predicate Carries(net: Net, w: Port, j: nat) {
    j < |net.flight| && net.flight[j].msg.id == w
  }

  /** While `w` participates, some message carries its id. */
  ghost predicate Represented(net: Net, w: Port)
    requires w in net.nodes
  {
    net.nodes[w].participating ==> exists j: nat :: Carries(net, w, j)
  }

  /** Message `i` elects another server and has passed `w` on the way there. */
  predicate Misled(ports: seq<Port>, net: Net, w: Port, i: nat)
    requires w in ports && i < |net.flight| && net.flight[i].dest in ports && net.flight[i].msg.id in ports
  {
    var e := net.flight[i];
    e.msg.status == ELECTED && e.msg.id != w && Dist(ports, w, e.dest) <= Dist(ports, w, e.msg.id)
  }

  ghost predicate Escort(ports: seq<Port>, net: Net, w: Port, i: nat, j: nat)
    requires Setup(ports, net, w) && i < |net.flight|
  {
    Carries(net, w, j) && (net.nodes[w].participating ==> Behind(ports, w, net.flight, j, i))
  }

  /** Such a message does not travel alone: one with the largest id follows it, at the latest from `w` on. */
  ghost predicate Escorted(ports: seq<Port>, net: Net, w: Port, i: nat)
    requires Setup(ports, net, w) && i < |net.flight|
  {
    Misled(ports, net, w, i) ==> exists j: nat :: Escort(ports, net, w, i, j)
  }

  predicate Clean(n: Node, w: Port) { !n.participating && n.primary == w }

  /** Message `j` has visited server `z` after message `i` did. */
  ghost predicate Covers(ports: seq<Port>, net: Net, w: Port, i: nat, z: Port, j: nat)
    requires Setup(ports, net, w) && i < |net.flight| && z in net.nodes
  {
    j < |net.flight| && Dist(ports, w, z) < Dist(ports, w, net.flight[j].dest) && Behind(ports, w, net.flight, j, i)
  }

  /** A server passed by the message that elects `w`, and visited by no other since, has recorded `w` and left. */
  ghost predicate Swept(ports: seq<Port>, net: Net, w: Port, i: nat, z: Port)
    requires Setup(ports, net, w) && i < |net.flight| && z in net.nodes
  {
    net.flight[i].msg == Msg(ELECTED, w) && Dist(ports, w, z) < Dist(ports, w, net.flight[i].dest) ==>
      Clean(net.nodes[z], w) || exists j: nat :: Covers(ports, net, w, i, z, j)
  }

  ghost predicate Settled(nodes: map<Port, Node>, w: Port)
    requires w in nodes
  {
    nodes[w].isPrimary && forall z :: z in nodes ==> Clean(nodes[z], w)
  }

  ghost predicate Inv(ports: seq<Port>, net: Net, w: Port) {
    && Setup(ports, net, w)
    && Represented(net, w)
    && (forall i: nat :: i < |net.flight| ==> Escorted(ports, net, w, i))
    && (forall i: nat, z: Port :: i < |net.flight| && z in net.nodes ==> Swept(ports, net, w, i, z))
  }

  // ----- One message handled -----

  /** Where message `j` is found when message `i` has been taken out. */
  function New(i: nat, j: nat): nat
    requires j != i
  {
    if j < i then j else j - 1
  }

  function Old(i: nat, k: nat): nat { if k < i then k else k + 1 }

  /** `net'` is `net` with message `i` handled by `x`, whose next server is `y`. */
  ghost predicate Handled(net: Net, i: nat, x: Port, y: Port, net': Net) {
    && Oldest(net.flight, i) && net.flight[i].dest == x && x in net.nodes
    && var r := Receive(net.nodes[x], net.flight[i].msg);
       && net'.nodes == net.nodes[x := r.0]
       && net'.nodes.Keys == net.nodes.Keys
       && |net'.flight| == |net.flight| - 1 + (if r.1.Some? then 1 else 0)
       && (forall k: nat :: k < |net.flight| - 1 ==> net'.flight[k] == net.flight[Old(i, k)])
       && (r.1.Some? ==> net'.flight[|net.flight| - 1] == Envelope(y, r.1.value))
  }

  ghost predicate Stepped(ports: seq<Port>, net: Net, w: Port, i: nat, x: Port, y: Port, net': Net) {
    && Setup(ports, net, w) && Setup(ports, net', w)
    && Handled(net, i, x, y, net')
    && IsNext(ports, net.nodes.Keys, x, y)
  }

  lemma HopIsHandled(ports: seq<Port>, net: Net, i: nat)
    requires Sound(ports, net) && Oldest(net.flight, i)
    ensures var x := net.flight[i].dest;
            Handled(net, i, x, net.nodes[x].clientPort, DeliverAt(net, i))
  {
    var x := net.flight[i].dest;
    assert x in net.nodes;
    assert DeliverAt(net, i).nodes.Keys == net.nodes.Keys;
  }

  lemma HopKeepsSound(ports: seq<Port>, net: Net, i: nat, x: Port, y: Port, net': Net)
    requires Sound(ports, net) && Handled(net, i, x, y, net') && y == net.nodes[x].clientPort
    ensures Sound(ports, net') && IsNext(ports, net.nodes.Keys, x, y)
  {
    assert Linked(ports, net.nodes, x);
    forall p {:trigger Linked(ports, net'.nodes, p)} | p in net'.nodes ensures Linked(ports, net'.nodes, p) {
      assert Linked(ports, net.nodes, p);
    }
  }

  /** One step of the lap that begins at `w`: nobody is between a server and its next one. */
  lemma NextOnLap(ports: seq<Port>, live: set<Port>, w: Port, x: Port, y: Port)
    requires OnList(ports, live) && w in live && x in live && IsNext(ports, live, x, y)
    ensures x != w ==> Dist(ports, w, x) < Dist(ports, w, y)
    ensures x != w ==> forall z :: z in live && Dist(ports, w, x) < Dist(ports, w, z)
                         ==> Dist(ports, w, y) <= Dist(ports, w, z)
    ensures x == w ==> forall z :: z in live ==> Dist(ports, w, y) <= Dist(ports, w, z)
  {
    if x != w {
      HopAdvances(ports, live, w, x, y);
      assert Dist(ports, w, x) < Dist(ports, w, y);
    } else {
      LapStarts(ports, live, w, y);
    }
  }

  /** Messages that stay keep their order. */
  lemma OrderStays(ports: seq<Port>, net: Net, w: Port, i: nat, x: Port, y: Port, net': Net, j: nat, k: nat)
    requires Setup(ports, net, w) && Setup(ports, net', w) && Handled(net, i, x, y, net')
    requires j < |net.flight| && k < |net.flight| && j != i && k != i
    ensures Behind(ports, w, net'.flight, New(i, j), New(i, k)) == Behind(ports, w, net.flight, j, k)
  {
    assert net'.flight[New(i, j)] == net.flight[j] && net'.flight[New(i, k)] == net.flight[k];
  }

  /** The message that moves on, short of `w`, stays ahead of those behind it. */
  lemma MovesAhead(ports: seq<Port>, net: Net, w: Port, i: nat, x: Port, y: Port, net': Net, j: nat)
    requires Stepped(ports, net, w, i, x, y, net') && x != w && |net'.flight| == |net.flight|
    requires j < |net.flight| && j != i && Behind(ports, w, net.flight, j, i)
    ensures Behind(ports, w, net'.flight, New(i, j), |net.flight| - 1)
  {
    NextOnLap(ports, net.nodes.Keys, w, x, y);
    assert net'.flight[New(i, j)] == net.flight[j];
  }

  /** And it stays behind those ahead of it. */
  lemma MovesBehind(ports: seq<Port>, net: Net, w: Port, i: nat, x: Port, y: Port, net': Net, k: nat)
    requires Stepped(ports, net, w, i, x, y, net') && |net'.flight| == |net.flight|
    requires k < |net.flight| && k != i && Behind(ports, w, net.flight, i, k)
    ensures Behind(ports, w, net'.flight, |net.flight| - 1, New(i, k))
    ensures x != w && Dist(ports, w, x) < Dist(ports, w, net.flight[k].dest)
  {
    hide Dist;
    var z := net.flight[k].dest;
    assert Dist(ports, w, x) < Dist(ports, w, z);
    NextOnLap(ports, net.nodes.Keys, w, x, y);
    if Dist(ports, w, y) == Dist(ports, w, z) {
      DistInjective(ports, w, y, z);
    }
    assert net'.flight[New(i, k)] == net.flight[k];
  }

  /** A message that carries the largest id keeps it, unless `w` takes it out. */
  lemma LargestStays(ports: seq<Port>, net: Net, w: Port, i: nat, x: Port, y: Port, net': Net)
    requires Setup(ports, net, w) && Handled(net, i, x, y, net') && x != w && Carries(net, w, i)
    ensures Carries(net', w, |net.flight| - 1)
  {
    assert Linked(ports, net.nodes, x);
  }

  lemma HopKeepsRepresented(ports: seq<Port>, net: Net, w: Port, i: nat, x: Port, y: Port, net': Net)
    requires Setup(ports, net, w) && Setup(ports, net', w) && Handled(net, i, x, y, net') && Represented(net, w)
    ensures Represented(net', w)
  {
    assert Linked(ports, net.nodes, w);
    if net.nodes[w].participating {
      var j: nat :| Carries(net, w, j);
      if j != i {
        assert Carries(net', w, New(i, j));
      } else if x != w {
        LargestStays(ports, net, w, i, x, y, net');
      } else if net'.nodes[w].participating {
        assert Carries(net', w, |net.flight| - 1);
      }
    } else if net'.nodes[w].participating {
      assert Carries(net', w, |net.flight| - 1);
    }
  }

  /** A message that stays keeps an escort. */
  lemma HopKeepsEscort(ports: seq<Port>, net: Net, w: Port, i: nat, x: Port, y: Port, net': Net, k: nat)
    requires Stepped(ports, net, w, i, x, y, net')
    requires k < |net.flight| && k != i && Escorted(ports, net, w, k)
    ensures Escorted(ports, net', w, New(i, k))
  {
    hide Dist;
    assert net'.flight[New(i, k)] == net.flight[k];
    assert Linked(ports, net.nodes, w);
    if Misled(ports, net, w, k) {
      var j: nat :| Escort(ports, net, w, k, j);
      if x == w && !net.nodes[w].participating {
        EscortBegins(ports, net, w, i, y, net', k);
      } else if j != i {
        OrderStays(ports, net, w, i, x, y, net', j, k);
        assert Escort(ports, net', w, New(i, k), New(i, j));
      } else {
        EscortMoves(ports, net, w, i, x, y, net', k);
      }
    }
  }

  /** `w` takes part again and sends its id after the message that passed it. */
  lemma EscortBegins(ports: seq<Port>, net: Net, w: Port, i: nat, y: Port, net': Net, k: nat)
    requires Stepped(ports, net, w, i, w, y, net') && !net.nodes[w].participating
    requires k < |net.flight| && k != i && Misled(ports, net, w, k)
    ensures Escort(ports, net', w, New(i, k), |net.flight| - 1)
  {
    assert Linked(ports, net.nodes, w);
    var l, z := |net.flight| - 1, net.flight[k].dest;
    assert net'.flight[New(i, k)] == net.flight[k];
    NextOnLap(ports, net.nodes.Keys, w, w, y);
    if Dist(ports, w, y) == Dist(ports, w, z) {
      DistInjective(ports, w, y, z);
    }
    assert Behind(ports, w, net'.flight, l, New(i, k));
  }

  /** The escort itself is handled. */
  lemma EscortMoves(ports: seq<Port>, net: Net, w: Port, i: nat, x: Port, y: Port, net': Net, k: nat)
    requires Stepped(ports, net, w, i, x, y, net') && (x == w ==> net.nodes[w].participating)
    requires k < |net.flight| && k != i && Misled(ports, net, w, k) && Escort(ports, net, w, k, i)
    ensures Escort(ports, net', w, New(i, k), |net.flight| - 1)
  {
    assert x != w;
    LargestStays(ports, net, w, i, x, y, net');
    if net.nodes[w].participating {
      MovesBehind(ports, net, w, i, x, y, net', k);
    }
  }

  /** `w` has let a message pass that elects another: the message with its own id is still under way. */
  lemma EscortFromLargest(ports: seq<Port>, net: Net, w: Port, i: nat, y: Port, net': Net)
    requires Setup(ports, net, w) && Setup(ports, net', w) && Handled(net, i, w, y, net')
    requires |net'.flight| == |net.flight| && Represented(net, w)
    ensures Escorted(ports, net', w, |net.flight| - 1)
  {
    var l := |net.flight| - 1;
    assert Linked(ports, net.nodes, w);
    if Misled(ports, net', w, l) {
      var j: nat :| Carries(net, w, j);
      assert Escort(ports, net', w, l, New(i, j));
    }
  }

  lemma WasMisled(ports: seq<Port>, net: Net, w: Port, i: nat, x: Port, y: Port, net': Net)
    requires Stepped(ports, net, w, i, x, y, net') && |net'.flight| == |net.flight| && x != w
    requires Misled(ports, net', w, |net.flight| - 1)
    ensures Misled(ports, net, w, i) && net'.nodes[w] == net.nodes[w]
  {
    assert Linked(ports, net.nodes, x);
    NextOnLap(ports, net.nodes.Keys, w, x, y);
  }

  /** The message just sent has an escort if it needs one. */
  lemma HopEscortsNew(ports: seq<Port>, net: Net, w: Port, i: nat, x: Port, y: Port, net': Net)
    requires Stepped(ports, net, w, i, x, y, net') && |net'.flight| == |net.flight|
    requires Represented(net, w) && Escorted(ports, net, w, i)
    ensures Escorted(ports, net', w, |net.flight| - 1)
  {
    var l := |net.flight| - 1;
    if x == w {
      EscortFromLargest(ports, net, w, i, y, net');
    } else if Misled(ports, net', w, l) {
      WasMisled(ports, net, w, i, x, y, net');
      var j: nat :| Escort(ports, net, w, i, j);
      if net.nodes[w].participating {
        MovesAhead(ports, net, w, i, x, y, net', j);
      }
      assert Escort(ports, net', w, l, New(i, j));
    }
  }

  /** A server behind a message that stays is still swept. */
  lemma HopKeepsSwept(ports: seq<Port>, net: Net, w: Port, i: nat, x: Port, y: Port, net': Net, k: nat, z: Port)
    requires Stepped(ports, net, w, i, x, y, net')
    requires k < |net.flight| && k != i && z in net.nodes && Swept(ports, net, w, k, z) && Swept(ports, net, w, k, x)
    ensures Swept(ports, net', w, New(i, k), z)
  {
    hide Dist;
    assert net'.flight[New(i, k)] == net.flight[k];
    if net.flight[k].msg == Msg(ELECTED, w) && Dist(ports, w, z) < Dist(ports, w, net.flight[k].dest) {
      if j: nat :| Covers(ports, net, w, k, z, j) {
        if j != i {
          OrderStays(ports, net, w, i, x, y, net', j, k);
          assert net'.flight[New(i, j)] == net.flight[j];
          assert Covers(ports, net', w, New(i, k), z, New(i, j));
        } else {
          CoverMoves(ports, net, w, i, x, y, net', k, z);
        }
      } else if z == x {
        CoverBegins(ports, net, w, i, x, y, net', k);
      }
    }
  }

  /** The covering message goes on and covers. */
  lemma CoverGoesOn(ports: seq<Port>, net: Net, w: Port, i: nat, x: Port, y: Port, net': Net, k: nat, z: Port)
    requires Stepped(ports, net, w, i, x, y, net') && |net'.flight| == |net.flight|
    requires k < |net.flight| && k != i && z in net.nodes && Covers(ports, net, w, k, z, i)
    ensures Covers(ports, net', w, New(i, k), z, |net.flight| - 1)
  {
    MovesBehind(ports, net, w, i, x, y, net', k);
    NextOnLap(ports, net.nodes.Keys, w, x, y);
  }

  /** The covering message is taken out by a server that participates, so another one covers that server. */
  lemma CoverIsReplaced(ports: seq<Port>, net: Net, w: Port, i: nat, x: Port, y: Port, net': Net, k: nat, z: Port,
                        j: nat)
    requires Stepped(ports, net, w, i, x, y, net')
    requires k < |net.flight| && k != i && z in net.nodes && Covers(ports, net, w, k, z, i)
    requires Covers(ports, net, w, k, x, j)
    ensures j != i && Covers(ports, net', w, New(i, k), z, New(i, j))
  {
    assert j != i;
    OrderStays(ports, net, w, i, x, y, net', j, k);
    assert net'.flight[New(i, j)] == net.flight[j];
  }

  /** The covering message is handled. */
  lemma CoverMoves(ports: seq<Port>, net: Net, w: Port, i: nat, x: Port, y: Port, net': Net, k: nat, z: Port)
    requires Stepped(ports, net, w, i, x, y, net')
    requires k < |net.flight| && k != i && z in net.nodes && Covers(ports, net, w, k, z, i)
    requires net.flight[k].msg == Msg(ELECTED, w) && Swept(ports, net, w, k, x)
    ensures exists j: nat :: Covers(ports, net', w, New(i, k), z, j)
  {
    if |net'.flight| == |net.flight| {
      CoverGoesOn(ports, net, w, i, x, y, net', k, z);
    } else {
      StaysBehind(ports, net, w, i, x, y, net', k);
      var j: nat :| Covers(ports, net, w, k, x, j);
      CoverIsReplaced(ports, net, w, i, x, y, net', k, z, j);
    }
  }

  lemma StaysBehind(ports: seq<Port>, net: Net, w: Port, i: nat, x: Port, y: Port, net': Net, k: nat)
    requires Stepped(ports, net, w, i, x, y, net') && |net'.flight| != |net.flight|
    requires k < |net.flight| && k != i && Behind(ports, w, net.flight, i, k)
    ensures Dist(ports, w, x) < Dist(ports, w, net.flight[k].dest) && net.nodes[x].participating
  {
  }

  /** A clean server is visited: the message that visits it covers it from now on. */
  lemma CoverBegins(ports: seq<Port>, net: Net, w: Port, i: nat, x: Port, y: Port, net': Net, k: nat)
    requires Stepped(ports, net, w, i, x, y, net')
    requires k < |net.flight| && k != i && Dist(ports, w, x) < Dist(ports, w, net.flight[k].dest)
    requires !net.nodes[x].participating
    ensures Covers(ports, net', w, New(i, k), x, |net.flight| - 1)
  {
    assert Behind(ports, w, net.flight, i, k);
    MovesBehind(ports, net, w, i, x, y, net', k);
    NextOnLap(ports, net.nodes.Keys, w, x, y);
  }

  /** The servers behind the message just sent are swept if it elects `w`. */
  lemma HopSweepsNew(ports: seq<Port>, net: Net, w: Port, i: nat, x: Port, y: Port, net': Net, z: Port)
    requires Stepped(ports, net, w, i, x, y, net') && |net'.flight| == |net.flight|
    requires z in net.nodes && Swept(ports, net, w, i, z)
    ensures Swept(ports, net', w, |net.flight| - 1, z)
  {
    hide Dist;
    var l := |net.flight| - 1;
    assert Linked(ports, net.nodes, x);
    if net'.flight[l].msg == Msg(ELECTED, w) && Dist(ports, w, z) < Dist(ports, w, y) {
      NextOnLap(ports, net.nodes.Keys, w, x, y);
      assert x != w && net.flight[i].msg == Msg(ELECTED, w);
      if z != x {
        if Dist(ports, w, z) == Dist(ports, w, x) {
          DistInjective(ports, w, z, x);
        }
        assert Dist(ports, w, z) < Dist(ports, w, x);
        if j: nat :| Covers(ports, net, w, i, z, j) {
          MovesAhead(ports, net, w, i, x, y, net', j);
          assert net'.flight[New(i, j)] == net.flight[j];
          assert Covers(ports, net', w, l, z, New(i, j));
        }
      }
    }
  }

  lemma HopKeeps(ports: seq<Port>, net: Net, w: Port, i: nat)
    requires Inv(ports, net, w) && Oldest(net.flight, i)
    ensures Inv(ports, DeliverAt(net, i), w)
  {
    hide Dist;
    var x, net' := net.flight[i].dest, DeliverAt(net, i);
    var y := net.nodes[x].clientPort;
    HopIsHandled(ports, net, i);
    HopKeepsSound(ports, net, i, x, y, net');
    HopKeepsRepresented(ports, net, w, i, x, y, net');
    forall k: nat | k < |net'.flight| ensures Escorted(ports, net', w, k) {
      if k < |net.flight| - 1 {
        assert New(i, Old(i, k)) == k;
        assert Escorted(ports, net, w, Old(i, k));
        HopKeepsEscort(ports, net, w, i, x, y, net', Old(i, k));
      } else {
        assert Escorted(ports, net, w, i);
        HopEscortsNew(ports, net, w, i, x, y, net');
      }
    }
    forall k: nat, z: Port | k < |net'.flight| && z in net'.nodes ensures Swept(ports, net', w, k, z) {
      if k < |net.flight| - 1 {
        assert New(i, Old(i, k)) == k;
        assert Swept(ports, net, w, Old(i, k), z) && Swept(ports, net, w, Old(i, k), x);
        HopKeepsSwept(ports, net, w, i, x, y, net', Old(i, k), z);
      } else {
        assert Swept(ports, net, w, i, z);
        HopSweepsNew(ports, net, w, i, x, y, net', z);
      }
    }
  }

  /** The last message can only be one that has elected `w` and comes home. */
  lemma LastHopSettles(ports: seq<Port>, net: Net, w: Port, i: nat)
    requires Inv(ports, net, w) && Oldest(net.flight, i) && DeliverAt(net, i).flight == []
    ensures Settled(DeliverAt(net, i).nodes, w)
  {
    var x, net' := net.flight[i].dest, DeliverAt(net, i);
    HopIsHandled(ports, net, i);
    assert i == 0 && |net.flight| == 1;
    assert Linked(ports, net.nodes, x);
    assert net.flight[0].msg == Msg(ELECTED, x) && net.nodes[x].participating;
    assert x == w || Misled(ports, net, w, 0);
    assert forall j: nat :: Escort(ports, net, w, 0, j) ==> x == w;
    assert Escorted(ports, net, w, 0);
    forall z | z in net'.nodes ensures Clean(net'.nodes[z], w) {
      if z != w {
        assert Swept(ports, net, w, 0, z);
        assert forall j: nat :: !Covers(ports, net, w, 0, z, j);
      }
    }
  }

  /** A further starter disturbs nothing. */
  lemma StartKeeps(ports: seq<Port>, net: Net, w: Port, s: Port)
    requires Inv(ports, net, w) && s in net.nodes
    ensures Inv(ports, Choose(net, Starts(s)), w)
  {
    var net' := Choose(net, Starts(s));
    assert Linked(ports, net.nodes, s);
    if net.nodes[w].participating {
      var j: nat :| Carries(net, w, j);
      assert Carries(net', w, j);
    }
    forall k: nat | k < |net'.flight| ensures Escorted(ports, net', w, k) {
      if k < |net.flight| && Misled(ports, net, w, k) {
        assert Escorted(ports, net, w, k);
        var j: nat :| Escort(ports, net, w, k, j);
        assert Escort(ports, net', w, k, j);
      }
    }
    forall k: nat, z: Port | k < |net'.flight| && z in net'.nodes ensures Swept(ports, net', w, k, z) {
      if k < |net.flight| {
        assert Swept(ports, net, w, k, z);
        if j: nat :| Covers(ports, net, w, k, z, j) {
          assert Covers(ports, net', w, k, z, j);
        }
      }
    }
  }

  // ----- Every run -----

  ghost predicate Quiescent(net: Net, w: Port)
    requires w in net.nodes
  {
    net.flight == [] ==> Settled(net.nodes, w)
  }

  lemma {:induction false} InvAfter(ports: seq<Port>, net: Net, w: Port, choices: seq<Choice>)
    requires Inv(ports, net, w) && Valid(net, choices)
    requires choices == [] ==> Quiescent(net, w)
    ensures Inv(ports, After(net, choices), w) && Quiescent(After(net, choices), w)
    decreases |choices|
  {
    if choices != [] {
      var c := choices[0];
      match c {
        case Hop(i) =>
          HopKeeps(ports, net, w, i);
          if DeliverAt(net, i).flight == [] {
            LastHopSettles(ports, net, w, i);
          }
        case Starts(s) => StartKeeps(ports, net, w, s);
      }
      InvAfter(ports, Choose(net, c), w, choices[1..]);
    }
  }

  /**
    Agreement needs no guard: however many elections are started, on a ring of any size and in any
    order, once all messages are gone every server has recorded the largest id and none participates.
    */
  lemma QuiescenceAgrees(ports: seq<Port>, nodes: map<Port, Node>, w: Port, choices: seq<Choice>)
    requires Ring(ports, nodes) && Idle(nodes) && IsMax(nodes.Keys, w)
    requires choices != [] && Valid(Net(nodes, []), choices) && After(Net(nodes, []), choices).flight == []
    ensures var nodes' := After(Net(nodes, []), choices).nodes;
            && nodes'.Keys == nodes.Keys && nodes'[w].isPrimary
            && forall z :: z in nodes' ==> nodes'[z].primary == w && !nodes'[z].participating
  {
    InvAfter(ports, Net(nodes, []), w, choices);
    KeysStay(Net(nodes, []), choices);
  }

  lemma {:induction false} KeysStay(net: Net, choices: seq<Choice>)
    requires Valid(net, choices)
    ensures After(net, choices).nodes.Keys == net.nodes.Keys
    decreases |choices|
  {
    if choices != [] {
      KeysStay(Choose(net, choices[0]), choices[1..]);
    }
  }
}
