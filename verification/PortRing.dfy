/**
  The ring in which the servers are arranged: the ports listed in config.txt, in file order and
  read cyclically. `live` is the set of ports on which a server is running.
  */
module PortRing {

  /** A TCP port; it doubles as the id of the server bound to it. */
  type Port = x: int | 0 < x < 65536 witness 6660

  predicate Apart(ports: seq<Port>, i: nat, j: nat)
    requires i < |ports| && j < |ports|
  {
    ports[i] != ports[j]
  }

  ghost predicate Distinct(ports: seq<Port>) {
    forall i: nat, j: nat :: i < j < |ports| ==> Apart(ports, i, j)
  }

  lemma IndexOfLine(ports: seq<Port>, i: nat)
    requires Distinct(ports) && i < |ports|
    ensures IndexOf(ports, ports[i]) == i
  {
    var k := IndexOf(ports, ports[i]);
    assert k < i ==> Apart(ports, k, i);
    assert i < k ==> Apart(ports, i, k);
  }

  ghost predicate OnList(ports: seq<Port>, live: set<Port>) {
    forall p :: p in live ==> p in ports
  }

  function IndexOf(ports: seq<Port>, p: Port): (i: nat)
    requires p in ports
    ensures i < |ports| && ports[i] == p
  {
    if ports[0] == p then 0 else 1 + IndexOf(ports[1..], p)
  }

  /** Lines to read after `p` until `q` is reached: 1 to |ports|, and |ports| when q == p. */
  function Dist(ports: seq<Port>, p: Port, q: Port): (d: nat)
    requires p in ports && q in ports
    ensures 1 <= d <= |ports|
    ensures d == |ports| <==> p == q
  {
    var i, j := IndexOf(ports, p), IndexOf(ports, q);
    if j > i then j - i else j - i + |ports|
  }

  /** `q` is the next live server after `p` in list order (`p` itself if it is alone). */
  ghost predicate IsNext(ports: seq<Port>, live: set<Port>, p: Port, q: Port)
    requires OnList(ports, live) && p in ports
  {
    q in live && forall r :: r in live ==> Dist(ports, p, q) <= Dist(ports, p, r)
  }

  /** The live servers met on the way from `s` to `x`, both excluded. */
  ghost function Before(ports: seq<Port>, live: set<Port>, s: Port, x: Port): set<Port>
    requires OnList(ports, live) && s in ports && x in ports
  {
    set i | i in live && Dist(ports, s, i) < Dist(ports, s, x)
  }

  lemma DistInjective(ports: seq<Port>, p: Port, q: Port, r: Port)
    requires p in ports && q in ports && r in ports
    requires Dist(ports, p, q) == Dist(ports, p, r)
    ensures q == r
  {
    assert IndexOf(ports, q) == IndexOf(ports, r);
  }

  /** Distances add up along the ring, with one wrap around the end of the list at most. */
  lemma DistThrough(ports: seq<Port>, p: Port, q: Port, r: Port)
    requires p in ports && q in ports && r in ports
    ensures Dist(ports, p, q) < Dist(ports, p, r) ==>
              Dist(ports, q, r) == Dist(ports, p, r) - Dist(ports, p, q)
    ensures Dist(ports, p, r) <= Dist(ports, p, q) ==>
              Dist(ports, q, r) == Dist(ports, p, r) - Dist(ports, p, q) + |ports|
  {
  }

  lemma DistToLine(ports: seq<Port>, i: nat, j: nat)
    requires Distinct(ports) && i < |ports| && j < |ports|
    ensures Dist(ports, ports[i], ports[j]) == if j > i then j - i else j - i + |ports|
  {
    IndexOfLine(ports, i);
    IndexOfLine(ports, j);
  }

  lemma NextIsUnique(ports: seq<Port>, live: set<Port>, p: Port, q: Port, r: Port)
    requires OnList(ports, live) && p in ports
    requires IsNext(ports, live, p, q) && IsNext(ports, live, p, r)
    ensures q == r
  {
    DistInjective(ports, p, q, r);
  }

  /** One hop of a lap that started at `s`: exactly the server just left is added to those met. */
  lemma HopAdvances(ports: seq<Port>, live: set<Port>, s: Port, x: Port, y: Port)
    requires OnList(ports, live) && s in live && x in live && x != s
    requires IsNext(ports, live, x, y)
    ensures Before(ports, live, s, y) == Before(ports, live, s, x) + {x}
    ensures forall i :: i in live ==>
              (Dist(ports, s, i) < Dist(ports, s, y) <==> Dist(ports, s, i) < Dist(ports, s, x) || i == x)
  {
    DistThrough(ports, s, x, y);
    DistThrough(ports, s, x, s);
    forall i | i in live
      ensures Dist(ports, s, i) < Dist(ports, s, y) <==> Dist(ports, s, i) < Dist(ports, s, x) || i == x
    {
      DistThrough(ports, s, x, i);
      if Dist(ports, s, i) == Dist(ports, s, x) {
        DistInjective(ports, s, i, x);
      }
    }
  }

  /** The first hop of a lap has met nobody yet. */
  lemma LapStarts(ports: seq<Port>, live: set<Port>, s: Port, y: Port)
    requires OnList(ports, live) && s in ports && IsNext(ports, live, s, y)
    ensures Before(ports, live, s, y) == {}
    ensures forall i :: i in live ==> !(Dist(ports, s, i) < Dist(ports, s, y))
  {
  }

  /** When the lap is back at `s`, everybody else has been met. */
  lemma LapCloses(ports: seq<Port>, live: set<Port>, s: Port)
    requires OnList(ports, live) && s in live
    ensures Before(ports, live, s, s) == live - {s}
    ensures |Before(ports, live, s, s)| == |live| - 1
  {
    assert Before(ports, live, s, s) == live - {s};
  }

  lemma ExistsClosest(ports: seq<Port>, live: set<Port>, k: Port) returns (r: Port)
    requires OnList(ports, live) && k in ports && |live| > 0
    ensures r in live && forall q :: q in live ==> Dist(ports, r, k) <= Dist(ports, q, k)
    decreases |live|
  {
    var p :| p in live;
    var rest := live - {p};
    assert live == rest + {p};
    if |rest| == 0 {
      r := p;
    } else {
      var c := ExistsClosest(ports, rest, k);
      r := if Dist(ports, p, k) <= Dist(ports, c, k) then p else c;
    }
  }

  /** Every live server that is not alone has exactly one live predecessor. */
  lemma PredecessorExists(ports: seq<Port>, live: set<Port>, k: Port) returns (p: Port)
    requires OnList(ports, live) && k in live && live != {k}
    ensures p in live && p != k && IsNext(ports, live, p, k)
  {
    assert live == live - {k} + {k};
    p := ExistsClosest(ports, live - {k}, k);
    forall q | q in live ensures Dist(ports, p, k) <= Dist(ports, p, q) {
      if q != k {
        DistThrough(ports, p, q, k);
      }
    }
  }

  lemma PredecessorIsUnique(ports: seq<Port>, live: set<Port>, k: Port, p: Port, p': Port)
    requires OnList(ports, live) && {p, p'} <= live && p != k && p' != k
    requires IsNext(ports, live, p, k) && IsNext(ports, live, p', k)
    ensures p == p'
  {
    DistThrough(ports, p, p', k);
    DistThrough(ports, p, p', p);
  }
}
