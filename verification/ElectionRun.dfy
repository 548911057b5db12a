/**
  One election on a closed ring of live servers (src/server/Election.cpp, with the topology and the
  effects of src/server/ServersRing.cpp).

  The starter does not mark itself as participating, so a run has three parts, each described here
  by the exact state of every server: one lap in which the message collects the maximum, a partial
  lap until that maximum is back at its owner `w`, and one lap in which ELECTED is recorded.
  */
module ElectionRuns {
  import opened Common
  import opened PortRing
  import opened Elections
  import opened ServersRings

  datatype Envelope = Envelope(dest: Port, msg: Msg)

  datatype Net = Net(nodes: map<Port, Node>, flight: seq<Envelope>)

  /** The message at index `i` reaches its destination; the reply goes to that server's client port. */
  function DeliverAt(net: Net, i: nat): Net
    requires i < |net.flight|
  {
    var e := net.flight[i];
    var rest := net.flight[..i] + net.flight[i + 1..];
    if e.dest !in net.nodes then Net(net.nodes, rest)
    else
      var (n, sent) := Receive(net.nodes[e.dest], e.msg);
      Net(net.nodes[e.dest := n], rest + if sent.Some? then [Envelope(n.clientPort, sent.value)] else [])
  }

  ghost predicate Linked(ports: seq<Port>, nodes: map<Port, Node>, p: Port)
    requires OnList(ports, nodes.Keys) && p in nodes
  {
    && WellFormed(ports, nodes[p])
    && nodes[p].id == p
    && IsNext(ports, nodes.Keys, p, nodes[p].clientPort)
  }

  /** Every live server is connected to the next live server of the list. */
  ghost predicate Ring(ports: seq<Port>, nodes: map<Port, Node>) {
    && OnList(ports, nodes.Keys)
    && forall p {:trigger Linked(ports, nodes, p)} :: p in nodes ==> Linked(ports, nodes, p)
  }

  ghost predicate Idle(nodes: map<Port, Node>) {
    forall p :: p in nodes ==> !nodes[p].participating
  }

  ghost predicate IsMax(s: set<Port>, m: Port) {
    m in s && forall p :: p in s ==> p <= m
  }

  /** Server `s` has just called startElection. */
  function Begin(start: map<Port, Node>, s: Port): Net
    requires s in start
  {
    Net(start, [Envelope(start[s].clientPort, Msg(ELECTION, s))])
  }

  function Run(net: Net, k: nat): Net {
    if k == 0 then net
    else
      var r := Run(net, k - 1);
      if r.flight == [] then r else DeliverAt(r, 0)
  }

  // ----- The state during each part of the run -----

  ghost predicate Setting(ports: seq<Port>, start: map<Port, Node>, s: Port, w: Port) {
    Ring(ports, start) && Idle(start) && s in start && IsMax(start.Keys, w)
  }

  function Joined(n: Node, participating: bool): Node {
    n.(participating := participating)
  }

  function Recorded(n: Node, w: Port): Node {
    n.(participating := false, primary := w, isPrimary := n.isPrimary || w == n.id)
  }

  ghost predicate OneMessage(start: map<Port, Node>, net: Net) {
    |net.flight| == 1 && net.flight[0].dest in start && net.nodes.Keys == start.Keys
  }

  ghost predicate MaxLap(ports: seq<Port>, start: map<Port, Node>, s: Port, w: Port, net: Net)
    requires Setting(ports, start, s, w)
  {
    && OneMessage(start, net)
    && var e := net.flight[0];
       && e.msg.status == ELECTION
       && IsMax(Before(ports, start.Keys, s, e.dest) + {s}, e.msg.id)
       && forall i :: i in start ==>
            net.nodes[i] == Joined(start[i], Dist(ports, s, i) < Dist(ports, s, e.dest))
  }

  ghost predicate PartialLap(ports: seq<Port>, start: map<Port, Node>, s: Port, w: Port, net: Net)
    requires Setting(ports, start, s, w)
  {
    && OneMessage(start, net)
    && var e := net.flight[0];
       && e.msg == Msg(ELECTION, w)
       && Dist(ports, s, e.dest) <= Dist(ports, s, w)
       && forall i :: i in start ==> net.nodes[i] == Joined(start[i], true)
  }

  ghost predicate ElectedLap(ports: seq<Port>, start: map<Port, Node>, s: Port, w: Port, net: Net)
    requires Setting(ports, start, s, w)
  {
    && OneMessage(start, net)
    && var e := net.flight[0];
       && e.msg == Msg(ELECTED, w)
       && forall i :: i in start ==>
            net.nodes[i] == if Dist(ports, w, i) < Dist(ports, w, e.dest) then Recorded(start[i], w)
                            else Joined(start[i], true)
  }

  ghost predicate Finished(start: map<Port, Node>, w: Port, net: Net) {
    && net.flight == []
    && net.nodes.Keys == start.Keys
    && forall i :: i in start ==> net.nodes[i] == Recorded(start[i], w)
  }

  /** Hops from the starter to the largest id; a whole lap if the starter holds it. */
  ghost function HopsToMax(ports: seq<Port>, start: map<Port, Node>, s: Port, w: Port): (d: nat)
    requires Setting(ports, start, s, w)
    ensures 1 <= d <= |start.Keys|
  {
    var b := Before(ports, start.Keys, s, w);
    LapCloses(ports, start.Keys, s);
    SubsetSize(b, Before(ports, start.Keys, s, s));
    |b| + 1
  }

  lemma {:induction false} SubsetSize<T>(a: set<T>, b: set<T>)
    requires a <= b
    ensures |a| <= |b|
  {
    assert b == a + (b - a);
  }

  ghost function Cost(ports: seq<Port>, start: map<Port, Node>, s: Port, w: Port): nat
    requires Setting(ports, start, s, w)
  {
    2 * |start.Keys| + HopsToMax(ports, start, s, w)
  }

  /** The state of the run after exactly `t` deliveries. */
  ghost predicate At(ports: seq<Port>, start: map<Port, Node>, s: Port, w: Port, net: Net, t: nat)
    requires Setting(ports, start, s, w)
  {
    var live, n, d := start.Keys, |start.Keys|, HopsToMax(ports, start, s, w);
    || (MaxLap(ports, start, s, w, net) && t == |Before(ports, live, s, net.flight[0].dest)|)
    || (PartialLap(ports, start, s, w, net) && t == n + |Before(ports, live, s, net.flight[0].dest)|)
    || (ElectedLap(ports, start, s, w, net) && t == n + d + |Before(ports, live, w, net.flight[0].dest)|)
    || (Finished(start, w, net) && t == 2 * n + d)
  }

  // ----- One delivery in each part -----

  /** With one message in flight, a delivery changes its receiver and replaces the message. */
  lemma OneDelivery(start: map<Port, Node>, net: Net)
    requires OneMessage(start, net)
    ensures var e := net.flight[0];
            var (n, sent) := Receive(net.nodes[e.dest], e.msg);
            && DeliverAt(net, 0).nodes == net.nodes[e.dest := n]
            && DeliverAt(net, 0).flight == if sent.Some? then [Envelope(n.clientPort, sent.value)] else []
  {
  }

  lemma MaxOfMore(b: set<Port>, m: Port, x: Port)
    requires IsMax(b, m)
    ensures IsMax(b + {x}, if m > x then m else x)
  {
  }

  ghost predicate MaxLapMoves(ports: seq<Port>, start: map<Port, Node>, s: Port, w: Port, net: Net, net': Net)
    requires Setting(ports, start, s, w) && MaxLap(ports, start, s, w, net)
  {
    var x, m := net.flight[0].dest, net.flight[0].msg.id;
    && net'.nodes == net.nodes[x := Joined(start[x], true)]
    && net'.flight == [Envelope(start[x].clientPort, Msg(ELECTION, if m > x then m else x))]
  }

  lemma MaxLapDelivery(ports: seq<Port>, start: map<Port, Node>, s: Port, w: Port, net: Net)
    requires Setting(ports, start, s, w) && MaxLap(ports, start, s, w, net)
    ensures MaxLapMoves(ports, start, s, w, net, DeliverAt(net, 0))
  {
    OneDelivery(start, net);
    assert Linked(ports, start, net.flight[0].dest);
  }

  lemma MaxLapHop(ports: seq<Port>, start: map<Port, Node>, s: Port, w: Port, net: Net, net': Net)
    requires Setting(ports, start, s, w)
    requires MaxLap(ports, start, s, w, net) && net.flight[0].dest != s
    requires MaxLapMoves(ports, start, s, w, net, net')
    ensures MaxLap(ports, start, s, w, net')
    ensures Before(ports, start.Keys, s, net'.flight[0].dest)
         == Before(ports, start.Keys, s, net.flight[0].dest) + {net.flight[0].dest}
  {
    var x := net.flight[0].dest;
    var y := start[x].clientPort;
    assert Linked(ports, start, x);
    HopAdvances(ports, start.Keys, s, x, y);
    var b := Before(ports, start.Keys, s, x);
    MaxOfMore(b + {s}, net.flight[0].msg.id, x);
    assert b + {s} + {x} == Before(ports, start.Keys, s, y) + {s};
    forall i | i in start
      ensures net'.nodes[i] == Joined(start[i], Dist(ports, s, i) < Dist(ports, s, y))
    {
    }
  }

  lemma MaxLapEnd(ports: seq<Port>, start: map<Port, Node>, s: Port, w: Port, net: Net, net': Net)
    requires Setting(ports, start, s, w)
    requires MaxLap(ports, start, s, w, net) && net.flight[0].dest == s
    requires MaxLapMoves(ports, start, s, w, net, net')
    ensures PartialLap(ports, start, s, w, net')
    ensures Before(ports, start.Keys, s, net'.flight[0].dest) == {}
  {
    var m := net.flight[0].msg.id;
    assert Linked(ports, start, s);
    LapCloses(ports, start.Keys, s);
    LapStarts(ports, start.Keys, s, start[s].clientPort);
    assert Before(ports, start.Keys, s, s) + {s} == start.Keys;
    assert m == w;
    forall i | i in start ensures net'.nodes[i] == Joined(start[i], true) {
      assert i != s ==> i in Before(ports, start.Keys, s, s);
    }
  }

  lemma MaxLapStep(ports: seq<Port>, start: map<Port, Node>, s: Port, w: Port, net: Net, t: nat)
    requires Setting(ports, start, s, w)
    requires MaxLap(ports, start, s, w, net)
    requires t == |Before(ports, start.Keys, s, net.flight[0].dest)|
    ensures At(ports, start, s, w, DeliverAt(net, 0), t + 1)
  {
    MaxLapDelivery(ports, start, s, w, net);
    if net.flight[0].dest != s {
      MaxLapHop(ports, start, s, w, net, DeliverAt(net, 0));
    } else {
      MaxLapEnd(ports, start, s, w, net, DeliverAt(net, 0));
      LapCloses(ports, start.Keys, s);
    }
  }

  ghost predicate PartialLapMoves(ports: seq<Port>, start: map<Port, Node>, s: Port, w: Port, net: Net, net': Net)
    requires Setting(ports, start, s, w) && PartialLap(ports, start, s, w, net)
  {
    var x := net.flight[0].dest;
    && net'.nodes == net.nodes
    && net'.flight == [Envelope(start[x].clientPort, Msg(if x != w then ELECTION else ELECTED, w))]
  }

  lemma PartialLapDelivery(ports: seq<Port>, start: map<Port, Node>, s: Port, w: Port, net: Net)
    requires Setting(ports, start, s, w) && PartialLap(ports, start, s, w, net)
    ensures PartialLapMoves(ports, start, s, w, net, DeliverAt(net, 0))
  {
    OneDelivery(start, net);
    assert Linked(ports, start, net.flight[0].dest);
  }

  lemma PartialLapHop(ports: seq<Port>, start: map<Port, Node>, s: Port, w: Port, net: Net, net': Net)
    requires Setting(ports, start, s, w)
    requires PartialLap(ports, start, s, w, net) && net.flight[0].dest != w
    requires PartialLapMoves(ports, start, s, w, net, net')
    ensures PartialLap(ports, start, s, w, net')
    ensures |Before(ports, start.Keys, s, net'.flight[0].dest)|
         == |Before(ports, start.Keys, s, net.flight[0].dest)| + 1
  {
    var x := net.flight[0].dest;
    assert Linked(ports, start, x);
    HopAdvances(ports, start.Keys, s, x, start[x].clientPort);
    if Dist(ports, s, x) == Dist(ports, s, w) {
      DistInjective(ports, s, x, w);
    }
  }

  lemma PartialLapEnd(ports: seq<Port>, start: map<Port, Node>, s: Port, w: Port, net: Net, net': Net)
    requires Setting(ports, start, s, w)
    requires PartialLap(ports, start, s, w, net) && net.flight[0].dest == w
    requires PartialLapMoves(ports, start, s, w, net, net')
    ensures ElectedLap(ports, start, s, w, net')
    ensures Before(ports, start.Keys, w, net'.flight[0].dest) == {}
  {
    assert Linked(ports, start, w);
    LapStarts(ports, start.Keys, w, start[w].clientPort);
  }

  lemma PartialLapStep(ports: seq<Port>, start: map<Port, Node>, s: Port, w: Port, net: Net, t: nat)
    requires Setting(ports, start, s, w)
    requires PartialLap(ports, start, s, w, net)
    requires t == |start.Keys| + |Before(ports, start.Keys, s, net.flight[0].dest)|
    ensures At(ports, start, s, w, DeliverAt(net, 0), t + 1)
  {
    PartialLapDelivery(ports, start, s, w, net);
    if net.flight[0].dest != w {
      PartialLapHop(ports, start, s, w, net, DeliverAt(net, 0));
    } else {
      PartialLapEnd(ports, start, s, w, net, DeliverAt(net, 0));
    }
  }

  ghost predicate ElectedLapMoves(ports: seq<Port>, start: map<Port, Node>, s: Port, w: Port, net: Net, net': Net)
    requires Setting(ports, start, s, w) && ElectedLap(ports, start, s, w, net)
  {
    var x := net.flight[0].dest;
    && net'.nodes == net.nodes[x := Recorded(start[x], w)]
    && net'.flight == if x != w then [Envelope(start[x].clientPort, Msg(ELECTED, w))] else []
  }

  lemma ElectedLapDelivery(ports: seq<Port>, start: map<Port, Node>, s: Port, w: Port, net: Net)
    requires Setting(ports, start, s, w) && ElectedLap(ports, start, s, w, net)
    ensures ElectedLapMoves(ports, start, s, w, net, DeliverAt(net, 0))
  {
    OneDelivery(start, net);
    assert Linked(ports, start, net.flight[0].dest);
  }

  lemma ElectedLapHop(ports: seq<Port>, start: map<Port, Node>, s: Port, w: Port, net: Net, net': Net)
    requires Setting(ports, start, s, w)
    requires ElectedLap(ports, start, s, w, net) && net.flight[0].dest != w
    requires ElectedLapMoves(ports, start, s, w, net, net')
    ensures ElectedLap(ports, start, s, w, net')
    ensures |Before(ports, start.Keys, w, net'.flight[0].dest)|
         == |Before(ports, start.Keys, w, net.flight[0].dest)| + 1
  {
    var x := net.flight[0].dest;
    assert Linked(ports, start, x);
    HopAdvances(ports, start.Keys, w, x, start[x].clientPort);
  }

  lemma ElectedLapEnd(ports: seq<Port>, start: map<Port, Node>, s: Port, w: Port, net: Net, net': Net)
    requires Setting(ports, start, s, w)
    requires ElectedLap(ports, start, s, w, net) && net.flight[0].dest == w
    requires ElectedLapMoves(ports, start, s, w, net, net')
    ensures Finished(start, w, net')
  {
    forall i | i in start && i != w ensures Dist(ports, w, i) < Dist(ports, w, w) {
    }
  }

  lemma ElectedLapStep(ports: seq<Port>, start: map<Port, Node>, s: Port, w: Port, net: Net, t: nat)
    requires Setting(ports, start, s, w)
    requires ElectedLap(ports, start, s, w, net)
    requires t == |start.Keys| + HopsToMax(ports, start, s, w) + |Before(ports, start.Keys, w, net.flight[0].dest)|
    ensures At(ports, start, s, w, DeliverAt(net, 0), t + 1)
  {
    ElectedLapDelivery(ports, start, s, w, net);
    if net.flight[0].dest != w {
      ElectedLapHop(ports, start, s, w, net, DeliverAt(net, 0));
    } else {
      ElectedLapEnd(ports, start, s, w, net, DeliverAt(net, 0));
      LapCloses(ports, start.Keys, w);
    }
  }

  /** Each delivery moves the run on by exactly one, and there is always exactly one to make. */
  lemma Step(ports: seq<Port>, start: map<Port, Node>, s: Port, w: Port, net: Net, t: nat)
    requires Setting(ports, start, s, w)
    requires At(ports, start, s, w, net, t) && t < Cost(ports, start, s, w)
    ensures |net.flight| == 1 && At(ports, start, s, w, DeliverAt(net, 0), t + 1)
  {
    if MaxLap(ports, start, s, w, net) && t == |Before(ports, start.Keys, s, net.flight[0].dest)| {
      MaxLapStep(ports, start, s, w, net, t);
    } else if
      && PartialLap(ports, start, s, w, net)
      && t == |start.Keys| + |Before(ports, start.Keys, s, net.flight[0].dest)|
    {
      PartialLapStep(ports, start, s, w, net, t);
    } else {
      ElectedLapStep(ports, start, s, w, net, t);
    }
  }

  lemma BeginsAtZero(ports: seq<Port>, start: map<Port, Node>, s: Port, w: Port)
    requires Setting(ports, start, s, w)
    ensures At(ports, start, s, w, Begin(start, s), 0)
  {
    assert Linked(ports, start, s);
    LapStarts(ports, start.Keys, s, start[s].clientPort);
    assert MaxLap(ports, start, s, w, Begin(start, s));
  }

  // ----- The theorems -----

  /** The state of every server and of the network after any number of deliveries. */
  lemma {:induction false} Trajectory(ports: seq<Port>, start: map<Port, Node>, s: Port, w: Port, k: nat)
    requires Setting(ports, start, s, w) && k <= Cost(ports, start, s, w)
    ensures At(ports, start, s, w, Run(Begin(start, s), k), k)
  {
    hide At, Cost;
    if k == 0 {
      BeginsAtZero(ports, start, s, w);
    } else {
      Trajectory(ports, start, s, w, k - 1);
      var net := Run(Begin(start, s), k - 1);
      Step(ports, start, s, w, net, k - 1);
    }
  }

  /** A message is in flight after `k` deliveries exactly if k < 2n + d. */
  lemma ElectionCost(ports: seq<Port>, start: map<Port, Node>, s: Port, w: Port, k: nat)
    requires Setting(ports, start, s, w) && k <= Cost(ports, start, s, w)
    ensures |Run(Begin(start, s), k).flight| == if k < Cost(ports, start, s, w) then 1 else 0
  {
    Trajectory(ports, start, s, w, k);
    var net := Run(Begin(start, s), k);
    if k < Cost(ports, start, s, w) {
      Step(ports, start, s, w, net, k);
    } else {
      EndsFinished(ports, start, s, w, net);
    }
  }

  lemma EndsFinished(ports: seq<Port>, start: map<Port, Node>, s: Port, w: Port, net: Net)
    requires Setting(ports, start, s, w)
    requires At(ports, start, s, w, net, Cost(ports, start, s, w))
    ensures Finished(start, w, net)
  {
    LapCloses(ports, start.Keys, s);
    LapCloses(ports, start.Keys, w);
    if |net.flight| == 1 && net.flight[0].dest in start {
      var x := net.flight[0].dest;
      SubsetSize(Before(ports, start.Keys, s, x), Before(ports, start.Keys, s, s));
      SubsetSize(Before(ports, start.Keys, w, x), Before(ports, start.Keys, w, w));
    }
  }

  lemma FinishedKeepsRing(ports: seq<Port>, start: map<Port, Node>, w: Port, net: Net)
    requires Ring(ports, start) && Finished(start, w, net)
    ensures Ring(ports, net.nodes)
  {
    forall p {:trigger Linked(ports, net.nodes, p)} | p in net.nodes ensures Linked(ports, net.nodes, p) {
      assert Linked(ports, start, p);
    }
  }

  /** All servers agree on the largest id, which alone has become primary, and all is quiet again. */
  lemma ElectionOutcome(ports: seq<Port>, start: map<Port, Node>, s: Port, w: Port)
    requires Setting(ports, start, s, w)
    ensures var net := Run(Begin(start, s), Cost(ports, start, s, w));
            && net.flight == []
            && net.nodes.Keys == start.Keys
            && Ring(ports, net.nodes) && Idle(net.nodes)
            && forall i :: i in start ==>
                 && net.nodes[i].primary == w
                 && (net.nodes[i].isPrimary <==> start[i].isPrimary || i == w)
  {
    var net := Run(Begin(start, s), Cost(ports, start, s, w));
    Trajectory(ports, start, s, w, Cost(ports, start, s, w));
    EndsFinished(ports, start, s, w, net);
    FinishedKeepsRing(ports, start, w, net);
    forall i | i in start ensures net.nodes[i].isPrimary <==> start[i].isPrimary || i == w {
      assert Linked(ports, start, i);
    }
  }

  lemma SafeAt(ports: seq<Port>, start: map<Port, Node>, s: Port, w: Port, net: Net, t: nat)
    requires Setting(ports, start, s, w) && At(ports, start, s, w, net, t)
    ensures net.nodes.Keys == start.Keys
    ensures forall i :: i in start ==> net.nodes[i].primary == start[i].primary || net.nodes[i].primary == w
    ensures forall i :: i in start && i != w ==> net.nodes[i].isPrimary == start[i].isPrimary
    ensures net.nodes[w].isPrimary && !start[w].isPrimary ==> Finished(start, w, net) && t == Cost(ports, start, s, w)
  {
    forall i | i in start && i != w ensures net.nodes[i].isPrimary == start[i].isPrimary {
      assert Linked(ports, start, i);
    }
  }

  /**
    At every intermediate step: at most one message is in flight, nobody has recorded any id but the
    maximum, and the winner becomes primary only after everybody else has recorded it.
    */
  lemma ElectionSafety(ports: seq<Port>, start: map<Port, Node>, s: Port, w: Port, k: nat)
    requires Setting(ports, start, s, w) && k <= Cost(ports, start, s, w)
    ensures var net := Run(Begin(start, s), k);
            && |net.flight| <= 1
            && net.nodes.Keys == start.Keys
            && (forall i :: i in start ==> net.nodes[i].primary == start[i].primary || net.nodes[i].primary == w)
            && (forall i :: i in start && i != w ==> net.nodes[i].isPrimary == start[i].isPrimary)
            && (net.nodes[w].isPrimary && !start[w].isPrimary ==>
                  k == Cost(ports, start, s, w) &&
                  forall i :: i in start ==> net.nodes[i].primary == w)
  {
    Trajectory(ports, start, s, w, k);
    ElectionCost(ports, start, s, w, k);
    SafeAt(ports, start, s, w, Run(Begin(start, s), k), k);
  }

  /** One delivery before the end everybody but the winner has recorded it, and the message is the winner's. */
  lemma WinnerIsLast(ports: seq<Port>, start: map<Port, Node>, s: Port, w: Port, net: Net)
    requires Setting(ports, start, s, w)
    requires At(ports, start, s, w, net, Cost(ports, start, s, w) - 1)
    ensures net.flight == [Envelope(w, Msg(ELECTED, w))]
    ensures net.nodes.Keys == start.Keys
    ensures forall i :: i in start ==> net.nodes[i] == if i == w then Joined(start[w], true) else Recorded(start[i], w)
  {
    LapCloses(ports, start.Keys, s);
    LapCloses(ports, start.Keys, w);
    Step(ports, start, s, w, net, Cost(ports, start, s, w) - 1);
    var x := net.flight[0].dest;
    if MaxLap(ports, start, s, w, net) || PartialLap(ports, start, s, w, net) {
      SubsetSize(Before(ports, start.Keys, s, x), Before(ports, start.Keys, s, s));
    }
    assert ElectedLap(ports, start, s, w, net);
    var b, others := Before(ports, start.Keys, w, x), start.Keys - {w};
    assert forall i :: i in b ==> i != w;
    SubsetFull(b, others);
    assert x !in others;
    assert x == w;
    forall i | i in start && i != w ensures net.nodes[i] == Recorded(start[i], w) {
      assert i in b;
    }
  }

  lemma SubsetFull<T>(a: set<T>, b: set<T>)
    requires a <= b && |a| == |b|
    ensures a == b
  {
    assert b == a + (b - a);
    assert |b - a| == 0;
  }
}
