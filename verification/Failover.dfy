/**
  Whole runs of the server ring (src/server/ServersRing.cpp with src/server/Election.cpp): servers
  crash one at a time, each crash being repaired, and a new primary elected if needed, before the
  next one. The events are the atomic steps of the source: a crash noticed by the neighbours, one
  call of connectToServer, one election message handled.
  */
module Failover {
  import opened Common
  import opened PortRing
  import opened Elections
  import opened ServersRings
  import opened ElectionRuns

  /** `elected` records, in order, the servers that turned into primary after the start. */
  datatype System = System(net: Net, elected: seq<Port>)

  datatype Event = Crash(k: Port) | Relink(p: Port) | Deliver(i: nat)

  ghost predicate Own(ports: seq<Port>, nodes: map<Port, Node>, p: Port)
    requires p in nodes
  {
    WellFormed(ports, nodes[p]) && nodes[p].id == p
  }

  ghost predicate Structured(ports: seq<Port>, nodes: map<Port, Node>) {
    && OnList(ports, nodes.Keys)
    && forall p {:trigger Own(ports, nodes, p)} :: p in nodes ==> Own(ports, nodes, p)
  }

  /** The thread of `p` that watches its next server has seen it go and calls connectToServer. */
  predicate NeedsRelink(nodes: map<Port, Node>, p: Port)
    requires p in nodes
  {
    nodes[p].disconnected && nodes[p].clientPort !in nodes
  }

  ghost predicate Enabled(s: System, e: Event) {
    match e
    case Crash(k) =>
      && k in s.net.nodes
      && s.net.flight == []
      && forall p {:trigger NeedsRelink(s.net.nodes, p)} :: p in s.net.nodes ==> !NeedsRelink(s.net.nodes, p)
    case Relink(p) => p in s.net.nodes && NeedsRelink(s.net.nodes, p)
    case Deliver(i) => i < |s.net.flight|
  }

  /** Both neighbours of a crashed server notice: the one connected to it and the one it was connected to. */
  function AfterCrash(nodes: map<Port, Node>, k: Port): map<Port, Node>
    requires k in nodes
  {
    map p | p in nodes && p != k ::
      nodes[p].(disconnected := nodes[p].disconnected || nodes[p].clientPort == k || nodes[k].clientPort == p)
  }

  function Turned(before: map<Port, Node>, after: map<Port, Node>, p: Port): seq<Port> {
    if p in before && p in after && after[p].isPrimary && !before[p].isPrimary then [p] else []
  }

  ghost function Apply(ports: seq<Port>, s: System, e: Event): System
    requires Structured(ports, s.net.nodes) && Enabled(s, e)
  {
    var Net(nodes, flight) := s.net;
    match e
    case Crash(k) => System(Net(AfterCrash(nodes, k), flight), s.elected)
    case Relink(p) =>
      assert Own(ports, nodes, p);
      var r := Reconnect(ports, nodes[p], nodes.Keys);
      var nodes' := nodes[p := r.node];
      System(Net(nodes', flight + if r.starts then [Envelope(r.node.clientPort, Msg(ELECTION, p))] else []),
             s.elected + Turned(nodes, nodes', p))
    case Deliver(i) =>
      var net := DeliverAt(s.net, i);
      System(net, s.elected + Turned(nodes, net.nodes, flight[i].dest))
  }

  lemma ApplyKeepsStructure(ports: seq<Port>, s: System, e: Event)
    requires Structured(ports, s.net.nodes) && Enabled(s, e)
    ensures Structured(ports, Apply(ports, s, e).net.nodes)
  {
    var nodes, nodes' := s.net.nodes, Apply(ports, s, e).net.nodes;
    if e.Relink? {
      assert Own(ports, nodes, e.p);
    }
    forall p {:trigger Own(ports, nodes', p)} | p in nodes' ensures Own(ports, nodes', p) {
      assert Own(ports, nodes, p);
    }
  }

  // ----- The start: one server per port, started in list order, each connected to the next -----

  ghost function BootNode(ports: seq<Port>, p: Port): Node
    requires Distinct(ports) && p in ports
  {
    var live := set q | q in ports;
    Reconnect(ports, Started(ports, IndexOf(ports, p)), live).node
  }

  /** The election messages that the first `k` servers send when they connect. */
  ghost function BootStarts(ports: seq<Port>, k: nat): seq<Envelope>
    requires Distinct(ports) && k <= |ports|
  {
    if k == 0 then []
    else
      var r := Reconnect(ports, Started(ports, k - 1), set q | q in ports);
      BootStarts(ports, k - 1) + if r.starts then [Envelope(r.node.clientPort, Msg(ELECTION, ports[k - 1]))] else []
  }

  ghost function Boot(ports: seq<Port>): System
    requires Distinct(ports)
  {
    System(Net(map p | p in ports :: BootNode(ports, p), BootStarts(ports, |ports|)), [])
  }

  /** A server that has lost nobody starts no election, so none is started when the system comes up. */
  lemma {:induction false} BootStartsNothing(ports: seq<Port>, k: nat)
    requires Distinct(ports) && k <= |ports|
    ensures BootStarts(ports, k) == []
  {
    if k > 0 {
      OnlyLossStarts(ports, Started(ports, k - 1), set q | q in ports);
      BootStartsNothing(ports, k - 1);
    }
  }

  /** Started in order, the servers bind the lines of the list in order. */
  lemma BootOrder(ports: seq<Port>, i: nat)
    requires Distinct(ports) && i < |ports|
    ensures ports[i] in ports && ports[i] !in (set q | q in ports[..i])
    ensures FirstFree(ports, set q | q in ports[..i]) == i
  {
    var taken := set q | q in ports[..i];
    forall j | 0 <= j < i ensures ports[j] in taken && ports[j] != ports[i] {
      assert ports[..i][j] == ports[j];
      assert Apart(ports, j, i);
    }
  }

  ghost predicate Valid(ports: seq<Port>, s: System, events: seq<Event>)
    requires Structured(ports, s.net.nodes)
    decreases |events|
  {
    events == [] ||
    (Enabled(s, events[0]) &&
     (ApplyKeepsStructure(ports, s, events[0]); Valid(ports, Apply(ports, s, events[0]), events[1..])))
  }

  ghost function After(ports: seq<Port>, s: System, events: seq<Event>): System
    requires Structured(ports, s.net.nodes) && Valid(ports, s, events)
    decreases |events|
  {
    if events == [] then s else
      ApplyKeepsStructure(ports, s, events[0]);
      After(ports, Apply(ports, s, events[0]), events[1..])
  }

  // ----- What holds between the steps -----

  ghost predicate Agree(nodes: map<Port, Node>, primary: Port) {
    forall p :: p in nodes ==> nodes[p].primary == primary && (nodes[p].isPrimary <==> p == primary)
  }

  ghost predicate Decreasing(s: seq<Port>) {
    forall i, j :: 0 <= i < j < |s| ==> s[i] > s[j]
  }

  /** After the first election the primary is the largest id alive, or was until it crashed. */
  ghost predicate Ranked(s: System, primary: Port) {
    && Decreasing(s.elected)
    && (s.elected != [] ==>
          s.elected[|s.elected| - 1] == primary && forall p :: p in s.net.nodes ==> p <= primary)
  }

  /** A last survivor that promoted itself and keeps looking for a next server. */
  ghost predicate Alone(ports: seq<Port>, nodes: map<Port, Node>, p: Port)
    requires Structured(ports, nodes)
  {
    nodes.Keys == {p} && !nodes[p].disconnected
  }

  datatype Phase =
    | Gone
    | Quiet(primary: Port)
    | Broken(p: Port, primary: Port)
    | Electing(start: map<Port, Node>, s: Port, w: Port, t: nat, primary: Port)

  ghost predicate QuietAt(ports: seq<Port>, s: System, primary: Port) {
    && Structured(ports, s.net.nodes)
    && primary in s.net.nodes
    && s.net.flight == []
    && Idle(s.net.nodes)
    && Agree(s.net.nodes, primary)
    && Ranked(s, primary)
    && (Ring(ports, s.net.nodes) || Alone(ports, s.net.nodes, primary))
  }

  /** `p` is the one server whose next server, on port `k`, has crashed; it has not reconnected yet. */
  ghost predicate BrokenAt(ports: seq<Port>, s: System, p: Port, primary: Port) {
    var nodes := s.net.nodes;
    && Structured(ports, nodes)
    && p in nodes
    && s.net.flight == []
    && Idle(nodes)
    && Agree(nodes, primary)
    && Ranked(s, primary)
    && nodes[p].disconnected
    && nodes[p].clientPort !in nodes
    && nodes[p].clientPort in ports
    && (primary in nodes || primary == nodes[p].clientPort)
    && (forall r :: r in nodes ==> Dist(ports, p, nodes[p].clientPort) < Dist(ports, p, r))
    && (forall q {:trigger Linked(ports, nodes, q)} :: q in nodes && q != p ==> Linked(ports, nodes, q))
  }

  ghost predicate ElectingAt(ports: seq<Port>, s: System, start: map<Port, Node>, st: Port, w: Port, t: nat,
                             primary: Port) {
    && Structured(ports, s.net.nodes)
    && Setting(ports, start, st, w)
    && At(ports, start, st, w, s.net, t)
    && t < Cost(ports, start, st, w)
    && Agree(start, primary)
    && primary !in start
    && Ranked(System(Net(start, []), s.elected), primary)
  }

  ghost predicate InvAt(ports: seq<Port>, s: System, ph: Phase) {
    match ph
    case Gone => s.net.nodes == map[] && s.net.flight == [] && Decreasing(s.elected)
    case Quiet(primary) => QuietAt(ports, s, primary)
    case Broken(p, primary) => BrokenAt(ports, s, p, primary)
    case Electing(start, st, w, t, primary) => ElectingAt(ports, s, start, st, w, t, primary)
  }

  // ----- Ring repair -----

  /**
    The scan refines "next live server": as long as no live server has been skipped between the
    server and the line last read, it stops at the next live server in list order; it comes upon its
    own port inside the loop only if nobody else is alive.
    */
  lemma {:induction false} ScanFindsNext(ports: seq<Port>, n: Node, live: set<Port>)
    requires WellFormed(ports, n) && n.id in live && OnList(ports, live) && n.disconnected
    requires forall r :: r in live ==> Dist(ports, n.id, n.clientPort) <= Dist(ports, n.id, r)
    ensures var m := Scan(ports, n, live);
            if m.disconnected
            then IsNext(ports, live, n.id, m.clientPort) &&
                 m == n.(cursor := m.cursor, clientPort := m.clientPort)
            else live == {n.id} && m.clientPort !in live &&
                 m == Promote(n).(cursor := m.cursor, clientPort := m.clientPort)
    decreases Dist(ports, n.clientPort, n.id)
  {
    if n.clientPort !in live {
      var m := ReadPort(ports, n);
      ReadPortMovesOn(ports, n);
      DistThrough(ports, n.clientPort, m.clientPort, n.id);
      forall r | r in live ensures Dist(ports, n.id, m.clientPort) <= Dist(ports, n.id, r) {
        if Dist(ports, n.id, n.clientPort) == Dist(ports, n.id, r) {
          DistInjective(ports, n.id, n.clientPort, r);
        }
      }
      if m.clientPort == n.id {
        assert forall r :: r in live ==> r == n.id;
        assert live == {n.id};
        ReadPortMovesOn(ports, Promote(m));
      } else {
        ScanFindsNext(ports, m, live);
      }
    }
  }

  /** connectToServer after the next server has crashed. */
  lemma RelinkFindsNext(ports: seq<Port>, n: Node, live: set<Port>)
    requires WellFormed(ports, n) && n.id in live && OnList(ports, live) && n.disconnected
    requires n.clientPort in ports && n.clientPort !in live
    requires forall r :: r in live ==> Dist(ports, n.id, n.clientPort) < Dist(ports, n.id, r)
    ensures var r := Reconnect(ports, n, live);
            if r.linked
            then && IsNext(ports, live, n.id, r.node.clientPort)
                 && r.starts == (n.clientPort == n.primary)
                 && r.node == n.(cursor := r.node.cursor, clientPort := r.node.clientPort, disconnected := false)
            else && live == {n.id} && !r.starts
                 && r.node == Promote(n).(cursor := r.node.cursor, clientPort := r.node.clientPort)
  {
    ReadPortMovesOn(ports, n);
    ScanFindsNext(ports, ReadPort(ports, n), live);
  }

  // ----- One step from each phase -----

  /** A crash is noticed by the server before the crashed one and the server after it, and by nobody else. */
  lemma NeighboursNotice(ports: seq<Port>, nodes: map<Port, Node>, k: Port, q: Port)
    requires Ring(ports, nodes) && k in nodes && q in nodes && q != k
    ensures AfterCrash(nodes, k)[q] == nodes[q].(disconnected := AfterCrash(nodes, k)[q].disconnected)
    ensures AfterCrash(nodes, k)[q].disconnected <==>
            nodes[q].disconnected || IsNext(ports, nodes.Keys, q, k) || IsNext(ports, nodes.Keys, k, q)
  {
    assert Linked(ports, nodes, q) && Linked(ports, nodes, k);
    if IsNext(ports, nodes.Keys, q, k) {
      NextIsUnique(ports, nodes.Keys, q, k, nodes[q].clientPort);
    }
    if IsNext(ports, nodes.Keys, k, q) {
      NextIsUnique(ports, nodes.Keys, k, q, nodes[k].clientPort);
    }
  }

  /** The crash of one server leaves exactly one server, its predecessor, without a next server. */
  lemma CrashedRing(ports: seq<Port>, nodes: map<Port, Node>, k: Port) returns (p: Port)
    requires Ring(ports, nodes) && k in nodes && nodes.Keys != {k}
    ensures p in AfterCrash(nodes, k) && k in ports
    ensures nodes[p].clientPort == k && AfterCrash(nodes, k)[p].disconnected
    ensures forall r :: r in AfterCrash(nodes, k) ==> Dist(ports, p, k) < Dist(ports, p, r)
    ensures OnList(ports, AfterCrash(nodes, k).Keys)
    ensures forall q {:trigger Linked(ports, AfterCrash(nodes, k), q)} ::
              q in AfterCrash(nodes, k) && q != p ==> Linked(ports, AfterCrash(nodes, k), q)
  {
    var live, nodes' := nodes.Keys, AfterCrash(nodes, k);
    assert nodes'.Keys == live - {k};
    p := PredecessorExists(ports, live, k);
    assert Linked(ports, nodes, p);
    NextIsUnique(ports, live, p, k, nodes[p].clientPort);
    forall q {:trigger Linked(ports, nodes', q)} | q in nodes' && q != p ensures Linked(ports, nodes', q) {
      assert Linked(ports, nodes, q);
      if nodes[q].clientPort == k {
        PredecessorIsUnique(ports, live, k, p, q);
      }
    }
    forall r | r in nodes' ensures Dist(ports, p, k) < Dist(ports, p, r) {
      if Dist(ports, p, k) == Dist(ports, p, r) {
        DistInjective(ports, p, k, r);
      }
    }
  }

  lemma CrashStep(ports: seq<Port>, s: System, primary: Port, k: Port) returns (ph: Phase)
    requires QuietAt(ports, s, primary) && Enabled(s, Crash(k))
    ensures InvAt(ports, Apply(ports, s, Crash(k)), ph)
    ensures ph.Gone? || (ph.Broken? && ph.primary == primary && s.net.nodes[ph.p].clientPort == k)
  {
    var nodes := s.net.nodes;
    var nodes' := AfterCrash(nodes, k);
    assert nodes'.Keys == nodes.Keys - {k};
    ApplyKeepsStructure(ports, s, Crash(k));
    if nodes.Keys == {k} {
      ph := Gone;
    } else {
      var p := CrashedRing(ports, nodes, k);
      assert Agree(nodes', primary);
      ph := Broken(p, primary);
    }
  }

  /** The predecessor's new connection closes the ring, unless it is the last server. */
  lemma RelinkedRing(ports: seq<Port>, s: System, p: Port, primary: Port)
    requires BrokenAt(ports, s, p, primary) && WellFormed(ports, s.net.nodes[p]) && s.net.nodes[p].id == p
    ensures var r := Reconnect(ports, s.net.nodes[p], s.net.nodes.Keys);
            r.linked ==> Ring(ports, s.net.nodes[p := r.node]) && Idle(s.net.nodes[p := r.node]) &&
                         Agree(s.net.nodes[p := r.node], primary)
  {
    var nodes := s.net.nodes;
    var r := Reconnect(ports, nodes[p], nodes.Keys);
    var nodes' := nodes[p := r.node];
    assert nodes'.Keys == nodes.Keys;
    RelinkFindsNext(ports, nodes[p], nodes.Keys);
    if r.linked {
      forall i {:trigger Linked(ports, nodes', i)} | i in nodes' ensures Linked(ports, nodes', i) {
        if i != p {
          assert Linked(ports, nodes, i);
        }
      }
    }
  }

  lemma OnlyOneRelink(ports: seq<Port>, s: System, p: Port, primary: Port, q: Port)
    requires BrokenAt(ports, s, p, primary) && Enabled(s, Relink(q))
    ensures q == p
  {
    assert q != p ==> Linked(ports, s.net.nodes, q);
  }

  /** The effect of Relink on the broken system, in terms of the one node it changes. */
  lemma RelinkEffect(ports: seq<Port>, s: System, p: Port, primary: Port)
    requires BrokenAt(ports, s, p, primary) && Own(ports, s.net.nodes, p)
    ensures NeedsRelink(s.net.nodes, p)
    ensures var r := Reconnect(ports, s.net.nodes[p], s.net.nodes.Keys);
            var s' := Apply(ports, s, Relink(p));
            && s'.net.nodes == s.net.nodes[p := r.node]
            && s'.net.nodes.Keys == s.net.nodes.Keys
            && s'.net.flight == (if r.starts then [Envelope(r.node.clientPort, Msg(ELECTION, p))] else [])
            && s'.elected == s.elected + (if r.node.isPrimary && p != primary then [p] else [])
  {
  }

  /** The last server alive becomes primary without an election. */
  lemma RelinkAlone(ports: seq<Port>, s: System, p: Port, primary: Port)
    requires BrokenAt(ports, s, p, primary) && Own(ports, s.net.nodes, p)
    requires Enabled(s, Relink(p))
    requires !Reconnect(ports, s.net.nodes[p], s.net.nodes.Keys).linked
    ensures QuietAt(ports, Apply(ports, s, Relink(p)), p)
  {
    ApplyKeepsStructure(ports, s, Relink(p));
    RelinkEffect(ports, s, p, primary);
    RelinkFindsNext(ports, s.net.nodes[p], s.net.nodes.Keys);
    var s' := Apply(ports, s, Relink(p));
    assert s'.net.nodes.Keys == {p};
  }

  lemma RelinkOthers(ports: seq<Port>, s: System, p: Port, primary: Port)
    requires BrokenAt(ports, s, p, primary) && Own(ports, s.net.nodes, p)
    requires Enabled(s, Relink(p))
    requires Reconnect(ports, s.net.nodes[p], s.net.nodes.Keys).linked
    ensures var r, s' := Reconnect(ports, s.net.nodes[p], s.net.nodes.Keys), Apply(ports, s, Relink(p));
            && r.starts == (primary !in s.net.nodes)
            && Structured(ports, s'.net.nodes) && s'.net.nodes.Keys == s.net.nodes.Keys
            && Ring(ports, s'.net.nodes) && Idle(s'.net.nodes) && Agree(s'.net.nodes, primary)
            && s'.elected == s.elected
            && (r.starts ==> s'.net == Begin(s'.net.nodes, p))
  {
    ApplyKeepsStructure(ports, s, Relink(p));
    RelinkEffect(ports, s, p, primary);
    RelinkFindsNext(ports, s.net.nodes[p], s.net.nodes.Keys);
    RelinkedRing(ports, s, p, primary);
  }

  /** Reconnecting closes the ring again; an election starts exactly if the primary has crashed. */
  lemma RelinkStep(ports: seq<Port>, s: System, p: Port, primary: Port) returns (ph: Phase)
    requires BrokenAt(ports, s, p, primary) && Enabled(s, Relink(p))
    ensures InvAt(ports, Apply(ports, s, Relink(p)), ph)
    ensures ph.Quiet? || (ph.Electing? && ph.t == 0 && ph.start.Keys == s.net.nodes.Keys && primary !in s.net.nodes)
  {
    assert Own(ports, s.net.nodes, p);
    var s' := Apply(ports, s, Relink(p));
    if !Reconnect(ports, s.net.nodes[p], s.net.nodes.Keys).linked {
      RelinkAlone(ports, s, p, primary);
      ph := Quiet(p);
    } else {
      RelinkOthers(ports, s, p, primary);
      if primary in s.net.nodes {
        ph := Quiet(primary);
      } else {
        var w := ExistsMax(s'.net.nodes.Keys, p);
        BeginsAtZero(ports, s'.net.nodes, p, w);
        ph := Electing(s'.net.nodes, p, w, 0, primary);
      }
    }
  }

  lemma ExistsMax(live: set<Port>, p: Port) returns (w: Port)
    requires p in live
    ensures IsMax(live, w)
    decreases |live|
  {
    var rest := live - {p};
    assert live == rest + {p};
    if |rest| == 0 {
      w := p;
    } else {
      var q :| q in rest;
      var m := ExistsMax(rest, q);
      w := if m > p then m else p;
    }
  }

  lemma FinishedAgrees(ports: seq<Port>, start: map<Port, Node>, w: Port, net: Net, primary: Port)
    requires Ring(ports, start) && Finished(start, w, net) && Agree(start, primary) && primary !in start
    ensures Ring(ports, net.nodes) && Idle(net.nodes) && Agree(net.nodes, w)
  {
    FinishedKeepsRing(ports, start, w, net);
    forall i | i in start ensures net.nodes[i].isPrimary <==> i == w {
      assert Linked(ports, start, i);
    }
  }

  lemma RankedAppend(start: map<Port, Node>, elected: seq<Port>, primary: Port, w: Port, net: Net)
    requires Ranked(System(Net(start, []), elected), primary) && primary !in start
    requires IsMax(start.Keys, w) && net.nodes.Keys == start.Keys
    ensures Ranked(System(net, elected + [w]), w)
  {
  }

  lemma LastDelivery(ports: seq<Port>, s: System, ph: Phase, net: Net)
    requires ph.Electing? && InvAt(ports, s, ph) && Structured(ports, net.nodes)
    requires Finished(ph.start, ph.w, net)
    ensures QuietAt(ports, System(net, s.elected + [ph.w]), ph.w)
  {
    FinishedAgrees(ports, ph.start, ph.w, net, ph.primary);
    RankedAppend(ph.start, s.elected, ph.primary, ph.w, net);
  }

  lemma MiddleDelivery(ports: seq<Port>, s: System, ph: Phase, net: Net)
    requires ph.Electing? && InvAt(ports, s, ph) && Structured(ports, net.nodes)
    requires ph.t + 1 < Cost(ports, ph.start, ph.s, ph.w)
    requires At(ports, ph.start, ph.s, ph.w, net, ph.t + 1)
    ensures InvAt(ports, System(net, s.elected), ph.(t := ph.t + 1))
    ensures forall p :: p in net.nodes ==> !net.nodes[p].isPrimary
  {
    SafeAt(ports, ph.start, ph.s, ph.w, net, ph.t + 1);
    assert Agree(ph.start, ph.primary);
  }

  lemma DeliverEffect(ports: seq<Port>, s: System)
    requires Structured(ports, s.net.nodes) && s.net.flight != []
    ensures
      var net := DeliverAt(s.net, 0);
      Apply(ports, s, Deliver(0)) == System(net, s.elected + Turned(s.net.nodes, net.nodes, s.net.flight[0].dest))
  {
  }

  /** The winner, and only the winner, turns into primary when the last message is handled. */
  lemma LastTurn(ports: seq<Port>, s: System, ph: Phase, net: Net)
    requires ph.Electing? && InvAt(ports, s, ph) && ph.t + 1 == Cost(ports, ph.start, ph.s, ph.w)
    requires At(ports, ph.start, ph.s, ph.w, net, ph.t + 1)
    ensures Finished(ph.start, ph.w, net)
    ensures |s.net.flight| == 1 && Turned(s.net.nodes, net.nodes, s.net.flight[0].dest) == [ph.w]
  {
    EndsFinished(ports, ph.start, ph.s, ph.w, net);
    WinnerIsLast(ports, ph.start, ph.s, ph.w, s.net);
    assert Agree(ph.start, ph.primary);
    assert Linked(ports, ph.start, ph.w);
  }

  lemma NoTurn(before: map<Port, Node>, after: map<Port, Node>, p: Port, elected: seq<Port>)
    requires forall q :: q in after ==> !after[q].isPrimary
    ensures elected + Turned(before, after, p) == elected
  {
  }

  lemma DeliverOutcome(ports: seq<Port>, s: System, ph: Phase, net: Net) returns (s': System, ph': Phase)
    requires ph.Electing? && InvAt(ports, s, ph) && s.net.flight != [] && Structured(ports, net.nodes)
    requires At(ports, ph.start, ph.s, ph.w, net, ph.t + 1)
    ensures s' == System(net, s.elected + Turned(s.net.nodes, net.nodes, s.net.flight[0].dest))
    ensures InvAt(ports, s', ph')
    ensures ph'.Quiet? || (ph'.Electing? && ph' == ph.(t := ph.t + 1))
  {
    if ph.t + 1 < Cost(ports, ph.start, ph.s, ph.w) {
      MiddleDelivery(ports, s, ph, net);
      NoTurn(s.net.nodes, net.nodes, s.net.flight[0].dest, s.elected);
      s', ph' := System(net, s.elected), ph.(t := ph.t + 1);
    } else {
      LastTurn(ports, s, ph, net);
      LastDelivery(ports, s, ph, net);
      s', ph' := System(net, s.elected + [ph.w]), Quiet(ph.w);
    }
  }

  /** During an election only its one message can be handled. */
  lemma DeliverStep(ports: seq<Port>, s: System, ph: Phase) returns (ph': Phase)
    requires ph.Electing? && InvAt(ports, s, ph)
    ensures |s.net.flight| == 1
    ensures InvAt(ports, Apply(ports, s, Deliver(0)), ph')
    ensures ph'.Quiet? || (ph'.Electing? && ph' == ph.(t := ph.t + 1))
  {
    Step(ports, ph.start, ph.s, ph.w, s.net, ph.t);
    ApplyKeepsStructure(ports, s, Deliver(0));
    DeliverEffect(ports, s);
    var s';
    s', ph' := DeliverOutcome(ports, s, ph, DeliverAt(s.net, 0));
  }

  lemma NoRelinkWhileElecting(ports: seq<Port>, s: System, ph: Phase)
    requires ph.Electing? && InvAt(ports, s, ph)
    ensures forall p {:trigger NeedsRelink(s.net.nodes, p)} :: p in s.net.nodes ==> !NeedsRelink(s.net.nodes, p)
  {
    SafeAt(ports, ph.start, ph.s, ph.w, s.net, ph.t);
    forall p {:trigger NeedsRelink(s.net.nodes, p)} | p in s.net.nodes ensures !NeedsRelink(s.net.nodes, p) {
      assert Linked(ports, ph.start, p);
    }
  }

  lemma NoRelinkWhenQuiet(ports: seq<Port>, s: System, primary: Port)
    requires QuietAt(ports, s, primary)
    ensures forall p {:trigger NeedsRelink(s.net.nodes, p)} :: p in s.net.nodes ==> !NeedsRelink(s.net.nodes, p)
  {
    forall p {:trigger NeedsRelink(s.net.nodes, p)} | p in s.net.nodes ensures !NeedsRelink(s.net.nodes, p) {
      if Ring(ports, s.net.nodes) {
        assert Linked(ports, s.net.nodes, p);
      }
    }
  }

  /** An upper bound on the events, other than crashes, until all is quiet. */
  ghost function Work(ports: seq<Port>, s: System, ph: Phase): int
    requires InvAt(ports, s, ph)
  {
    match ph
    case Gone => 0
    case Quiet(_) => 0
    case Broken(_, _) => 1 + 3 * |s.net.nodes.Keys|
    case Electing(start, st, w, t, _) => Cost(ports, start, st, w) - t
  }

  /** Every enabled event keeps the invariant; all but crashes bring the system closer to quiet. */
  lemma EventStep(ports: seq<Port>, s: System, ph: Phase, e: Event) returns (ph': Phase)
    requires InvAt(ports, s, ph) && Structured(ports, s.net.nodes) && Enabled(s, e)
    ensures InvAt(ports, Apply(ports, s, e), ph')
    ensures e.Crash? <==> Work(ports, s, ph) == 0
    ensures !e.Crash? ==> 0 <= Work(ports, Apply(ports, s, e), ph') < Work(ports, s, ph)
  {
    match ph
    case Gone =>
    case Quiet(primary) =>
      NoRelinkWhenQuiet(ports, s, primary);
      ph' := CrashStep(ports, s, primary, e.k);
    case Broken(p, primary) =>
      assert NeedsRelink(s.net.nodes, p);
      OnlyOneRelink(ports, s, p, primary, e.p);
      ph' := RelinkStep(ports, s, p, primary);
    case Electing(_, _, _, _, _) =>
      NoRelinkWhileElecting(ports, s, ph);
      ph' := DeliverStep(ports, s, ph);
  }

  lemma BootLinks(ports: seq<Port>, p: Port)
    requires Distinct(ports) && p in ports
    ensures var n, live := BootNode(ports, p), set q | q in ports;
            && WellFormed(ports, n) && n.id == p && IsNext(ports, live, p, n.clientPort)
            && n.primary == ports[0] && (n.isPrimary <==> p == ports[0])
            && !n.participating && !n.disconnected
  {
    ReadPortMovesOn(ports, Started(ports, IndexOf(ports, p)));
    assert ports[IndexOf(ports, p)] == p;
  }

  lemma BootRing(ports: seq<Port>)
    requires Distinct(ports)
    ensures var nodes := Boot(ports).net.nodes;
            nodes.Keys == (set q | q in ports) &&
            forall p {:trigger Linked(ports, nodes, p)} :: p in nodes ==> Linked(ports, nodes, p)
  {
    var nodes := Boot(ports).net.nodes;
    assert nodes.Keys == set q | q in ports;
    forall p {:trigger Linked(ports, nodes, p)} | p in nodes ensures Linked(ports, nodes, p) {
      BootLinks(ports, p);
    }
  }

  lemma BootAgrees(ports: seq<Port>)
    requires Distinct(ports) && ports != []
    ensures Idle(Boot(ports).net.nodes) && Agree(Boot(ports).net.nodes, ports[0])
  {
    var nodes := Boot(ports).net.nodes;
    forall p | p in nodes
      ensures !nodes[p].participating && nodes[p].primary == ports[0] && (nodes[p].isPrimary <==> p == ports[0])
    {
      BootLinks(ports, p);
    }
  }

  lemma QuietFromLinks(ports: seq<Port>, nodes: map<Port, Node>, primary: Port)
    requires OnList(ports, nodes.Keys) && primary in nodes && Idle(nodes) && Agree(nodes, primary)
    requires forall p {:trigger Linked(ports, nodes, p)} :: p in nodes ==> Linked(ports, nodes, p)
    ensures QuietAt(ports, System(Net(nodes, []), []), primary)
  {
    forall p {:trigger Own(ports, nodes, p)} | p in nodes ensures Own(ports, nodes, p) {
      assert Linked(ports, nodes, p);
    }
  }

  /** The complete system starts as a closed ring that agrees on the first port of the list. */
  lemma BootIsQuiet(ports: seq<Port>)
    requires Distinct(ports) && ports != []
    ensures QuietAt(ports, Boot(ports), ports[0])
  {
    BootRing(ports);
    BootAgrees(ports);
    BootStartsNothing(ports, |ports|);
    QuietFromLinks(ports, Boot(ports).net.nodes, ports[0]);
  }

  // ----- The theorems, over every run from the start -----

  lemma {:induction false} InvAfter(ports: seq<Port>, s: System, ph: Phase, events: seq<Event>) returns (ph': Phase)
    requires InvAt(ports, s, ph) && Structured(ports, s.net.nodes) && Valid(ports, s, events)
    ensures InvAt(ports, After(ports, s, events), ph') && Structured(ports, After(ports, s, events).net.nodes)
    decreases |events|
  {
    if events == [] {
      ph' := ph;
    } else {
      ApplyKeepsStructure(ports, s, events[0]);
      var ph1 := EventStep(ports, s, ph, events[0]);
      ph' := InvAfter(ports, Apply(ports, s, events[0]), ph1, events[1..]);
    }
  }

  ghost predicate IsRun(ports: seq<Port>, events: seq<Event>) {
    Distinct(ports) && ports != [] &&
    (BootIsQuiet(ports); Valid(ports, Boot(ports), events))
  }

  ghost function End(ports: seq<Port>, events: seq<Event>): System
    requires IsRun(ports, events)
  {
    BootIsQuiet(ports);
    After(ports, Boot(ports), events)
  }

  lemma EveryRun(ports: seq<Port>, events: seq<Event>) returns (ph: Phase)
    requires IsRun(ports, events)
    ensures InvAt(ports, End(ports, events), ph) && Structured(ports, End(ports, events).net.nodes)
  {
    BootIsQuiet(ports);
    ph := InvAfter(ports, Boot(ports), Quiet(ports[0]), events);
  }

  lemma OnePrimaryAt(ports: seq<Port>, s: System, ph: Phase, p: Port)
    requires InvAt(ports, s, ph) && p in s.net.nodes && s.net.nodes[p].isPrimary
    ensures s.net.nodes[p].primary == p && (ph.Quiet? || ph.Broken?) && ph.primary == p
  {
    if ph.Electing? {
      SafeAt(ports, ph.start, ph.s, ph.w, s.net, ph.t);
    }
  }

  /** No two live servers are primary at the same time, and a primary has recorded itself as such. */
  lemma NeverTwoPrimaries(ports: seq<Port>, events: seq<Event>, p: Port, q: Port)
    requires IsRun(ports, events)
    requires var nodes := End(ports, events).net.nodes;
             p in nodes && q in nodes && nodes[p].isPrimary && nodes[q].isPrimary
    ensures p == q && End(ports, events).net.nodes[p].primary == p
  {
    hide InvAt;
    var ph := EveryRun(ports, events);
    OnePrimaryAt(ports, End(ports, events), ph, p);
    OnePrimaryAt(ports, End(ports, events), ph, q);
  }

  /** Whenever nothing is left to do, all live servers agree on one that is alive and is the only primary. */
  lemma AgreementWhenQuiet(ports: seq<Port>, events: seq<Event>) returns (primary: Port)
    requires IsRun(ports, events)
    requires End(ports, events).net.nodes != map[] && End(ports, events).net.flight == []
    requires forall p {:trigger NeedsRelink(End(ports, events).net.nodes, p)} ::
               p in End(ports, events).net.nodes ==> !NeedsRelink(End(ports, events).net.nodes, p)
    ensures primary in End(ports, events).net.nodes && Agree(End(ports, events).net.nodes, primary)
    ensures End(ports, events).elected != [] ==> IsMax(End(ports, events).net.nodes.Keys, primary)
  {
    var s := End(ports, events);
    var ph := EveryRun(ports, events);
    if ph.Broken? {
      assert NeedsRelink(s.net.nodes, ph.p);
    } else if ph.Electing? {
      Step(ports, ph.start, ph.s, ph.w, s.net, ph.t);
    }
    primary := ph.primary;
  }

  /** Whenever all is quiet any live server may crash: the theorems are about runs with any crashes in them. */
  lemma AnyServerMayCrash(ports: seq<Port>, events: seq<Event>, k: Port)
    requires IsRun(ports, events) && k in End(ports, events).net.nodes && End(ports, events).net.flight == []
    ensures Enabled(End(ports, events), Crash(k)) || exists p :: Enabled(End(ports, events), Relink(p))
  {
    var s := End(ports, events);
    if !Enabled(s, Crash(k)) {
      var p :| p in s.net.nodes && NeedsRelink(s.net.nodes, p);
      assert Enabled(s, Relink(p));
    }
  }

  /** At most one live server can reconnect, hence start an election, and never while one is running. */
  lemma AtMostOneStarter(ports: seq<Port>, events: seq<Event>, p: Port, q: Port)
    requires IsRun(ports, events)
    requires Enabled(End(ports, events), Relink(p)) && Enabled(End(ports, events), Relink(q))
    ensures p == q && End(ports, events).net.flight == []
  {
    var s := End(ports, events);
    var ph := EveryRun(ports, events);
    if ph.Quiet? {
      NoRelinkWhenQuiet(ports, s, ph.primary);
    } else if ph.Electing? {
      NoRelinkWhileElecting(ports, s, ph);
    } else if ph.Broken? {
      OnlyOneRelink(ports, s, ph.p, ph.primary, p);
      OnlyOneRelink(ports, s, ph.p, ph.primary, q);
    }
  }

  lemma {:induction false} ScanNeverDemotes(ports: seq<Port>, n: Node, live: set<Port>)
    requires WellFormed(ports, n) && n.id in live && n.isPrimary
    ensures Scan(ports, n, live).isPrimary
    decreases Dist(ports, n.clientPort, n.id)
  {
    if n.clientPort !in live {
      ScanOnce(ports, n, live);
      if ReadPort(ports, n).clientPort != n.id {
        ScanNeverDemotes(ports, ReadPort(ports, n), live);
      }
    }
  }

  /** The primaries among the servers that are alive: the first one of the list and those that were elected. */
  ghost predicate PrimariesFit(s: System, first: Port) {
    forall p :: p in s.net.nodes ==> (s.net.nodes[p].isPrimary <==> p == first || p in s.elected)
  }

  lemma TurnedFits(nodes: map<Port, Node>, nodes': map<Port, Node>, flight: seq<Envelope>, flight': seq<Envelope>,
                   elected: seq<Port>, q: Port, first: Port)
    requires PrimariesFit(System(Net(nodes, flight), elected), first) && q in nodes && q in nodes'
    requires nodes'.Keys == nodes.Keys && forall p :: p in nodes && p != q ==> nodes'[p].isPrimary == nodes[p].isPrimary
    requires nodes[q].isPrimary ==> nodes'[q].isPrimary
    ensures PrimariesFit(System(Net(nodes', flight'), elected + Turned(nodes, nodes', q)), first)
  {
  }

  lemma EventFitsPrimaries(ports: seq<Port>, s: System, e: Event, first: Port)
    requires Structured(ports, s.net.nodes) && Enabled(s, e) && PrimariesFit(s, first)
    ensures PrimariesFit(Apply(ports, s, e), first)
  {
    var nodes := s.net.nodes;
    match e
    case Crash(_) =>
    case Relink(p) =>
      assert Own(ports, nodes, p);
      if nodes[p].isPrimary && ReadPort(ports, nodes[p]).disconnected {
        ScanNeverDemotes(ports, ReadPort(ports, nodes[p]), nodes.Keys);
      }
      var s' := Apply(ports, s, e);
      TurnedFits(nodes, s'.net.nodes, s.net.flight, s'.net.flight, s.elected, p, first);
    case Deliver(i) =>
      var net := DeliverAt(s.net, i);
      if s.net.flight[i].dest in nodes {
        TurnedFits(nodes, net.nodes, s.net.flight, net.flight, s.elected, s.net.flight[i].dest, first);
      }
  }

  lemma {:induction false} PrimariesFitAfter(ports: seq<Port>, s: System, events: seq<Event>, first: Port)
    requires Structured(ports, s.net.nodes) && Valid(ports, s, events) && PrimariesFit(s, first)
    ensures PrimariesFit(After(ports, s, events), first)
    decreases |events|
  {
    if events != [] {
      ApplyKeepsStructure(ports, s, events[0]);
      EventFitsPrimaries(ports, s, events[0], first);
      PrimariesFitAfter(ports, Apply(ports, s, events[0]), events[1..], first);
    }
  }

  /** A live server is primary exactly if it was the first one on the list or has been elected. */
  lemma PrimariesAreElected(ports: seq<Port>, events: seq<Event>, p: Port)
    requires IsRun(ports, events) && p in End(ports, events).net.nodes
    ensures End(ports, events).net.nodes[p].isPrimary <==> p == ports[0] || p in End(ports, events).elected
  {
    BootIsQuiet(ports);
    PrimariesFitAfter(ports, Boot(ports), events, ports[0]);
  }

  /** The ids elected one after the other strictly decrease, and never more than one message travels. */
  lemma ElectedIdsDecrease(ports: seq<Port>, events: seq<Event>)
    requires IsRun(ports, events)
    ensures Decreasing(End(ports, events).elected)
    ensures |End(ports, events).net.flight| <= 1
  {
    var ph := EveryRun(ports, events);
    if ph.Electing? {
      Step(ports, ph.start, ph.s, ph.w, End(ports, events).net, ph.t);
    }
  }

  /** After a crash at most 1 + 3n events follow before the next crash, n being the survivors. */
  lemma RepairsInBoundedTime(ports: seq<Port>, events: seq<Event>, repair: seq<Event>)
    requires IsRun(ports, events) && IsRun(ports, events + repair)
    requires forall i :: 0 <= i < |repair| ==> !repair[i].Crash?
    ensures |repair| <= 1 + 3 * |End(ports, events).net.nodes.Keys|
  {
    var ph := EveryRun(ports, events);
    BootIsQuiet(ports);
    SplitRun(ports, Boot(ports), events, repair);
    if ph.Electing? {
      SafeAt(ports, ph.start, ph.s, ph.w, End(ports, events).net, ph.t);
    }
    WorkBoundsEvents(ports, End(ports, events), ph, repair);
  }

  lemma {:induction false} SplitRun(ports: seq<Port>, s: System, first: seq<Event>, rest: seq<Event>)
    requires Structured(ports, s.net.nodes) && Valid(ports, s, first) && Valid(ports, s, first + rest)
    ensures Structured(ports, After(ports, s, first).net.nodes) && Valid(ports, After(ports, s, first), rest)
    decreases |first|
  {
    if first == [] {
      assert first + rest == rest;
    } else {
      ApplyKeepsStructure(ports, s, first[0]);
      assert (first + rest)[1..] == first[1..] + rest;
      SplitRun(ports, Apply(ports, s, first[0]), first[1..], rest);
    }
  }

  lemma {:induction false} WorkBoundsEvents(ports: seq<Port>, s: System, ph: Phase, events: seq<Event>)
    requires InvAt(ports, s, ph) && Structured(ports, s.net.nodes) && Valid(ports, s, events)
    requires forall i :: 0 <= i < |events| ==> !events[i].Crash?
    ensures |events| <= Work(ports, s, ph)
    decreases |events|
  {
    if events != [] {
      ApplyKeepsStructure(ports, s, events[0]);
      var ph' := EventStep(ports, s, ph, events[0]);
      WorkBoundsEvents(ports, Apply(ports, s, events[0]), ph', events[1..]);
    }
  }

  /** Until all is quiet there is always an event other than a crash to continue with. */
  lemma NeverStuck(ports: seq<Port>, s: System, ph: Phase)
    requires InvAt(ports, s, ph) && Work(ports, s, ph) > 0
    ensures exists e: Event :: !e.Crash? && Enabled(s, e)
  {
    if ph.Broken? {
      assert Enabled(s, Relink(ph.p));
    } else {
      Step(ports, ph.start, ph.s, ph.w, s.net, ph.t);
      assert Enabled(s, Deliver(0));
    }
  }
}
