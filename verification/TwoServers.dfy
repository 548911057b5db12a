/**
  What fails without the guard on starting elections (src/server/ServersRing.cpp:233-235), on every ring
  of two servers `p` < `q`: with two starts an election may go on for ever, the smaller id being
  recorded on the way; with three it may end with two servers that have become primary.
  */
module TwoServers {
  import opened Common
  import opened PortRing
  import opened Elections
  import opened ServersRings
  import opened ElectionRuns
  import opened ManyStarters

  /** The two servers and what is under way, oldest first. */
  datatype Duo = Duo(a: Node, b: Node, flight: seq<Envelope>)

  function ToNet(d: Duo): Net {
    Net(map[d.a.id := d.a, d.b.id := d.b], d.flight)
  }

  ghost predicate Pair(d: Duo) {
    && d.a.id < d.b.id && d.a.clientPort == d.b.id && d.b.clientPort == d.a.id
    && forall i :: 0 <= i < |d.flight| ==> d.flight[i].dest == d.a.id || d.flight[i].dest == d.b.id
  }

  function HopOf(d: Duo, i: nat): Duo
    requires i < |d.flight|
  {
    var e, rest := d.flight[i], d.flight[..i] + d.flight[i + 1..];
    if e.dest == d.a.id then
      var (n, sent) := Receive(d.a, e.msg);
      Duo(n, d.b, if sent.Some? then rest + [Envelope(d.a.clientPort, sent.value)] else rest)
    else
      var (n, sent) := Receive(d.b, e.msg);
      Duo(d.a, n, if sent.Some? then rest + [Envelope(d.b.clientPort, sent.value)] else rest)
  }

  /** From `d` the choices lead to `d'`. */
  ghost predicate Leads(d: Duo, choices: seq<Choice>, d': Duo) {
    Valid(ToNet(d), choices) && After(ToNet(d), choices) == ToNet(d')
  }

  lemma HopLeads(d: Duo, i: nat, d': Duo)
    requires Pair(d) && Oldest(d.flight, i) && HopOf(d, i) == d'
    ensures Pair(d') && Leads(d, [Hop(i)], d')
  {
    var e := d.flight[i];
    assert DeliverAt(ToNet(d), i).nodes == ToNet(d').nodes;
    assert DeliverAt(ToNet(d), i) == ToNet(d');
    OneChoice(ToNet(d), Hop(i));
  }

  lemma StartLeads(d: Duo, s: Node, d': Duo)
    requires Pair(d) && (s == d.a || s == d.b)
    requires d' == d.(flight := d.flight + [Envelope(s.clientPort, Msg(ELECTION, s.id))])
    ensures Pair(d') && Leads(d, [Choice.Starts(s.id)], d')
  {
    OneChoice(ToNet(d), Choice.Starts(s.id));
  }

  lemma OneChoice(net: Net, c: Choice)
    requires Allowed(net, c)
    ensures Valid(net, [c]) && After(net, [c]) == Choose(net, c)
  {
    assert [c][1..] == [];
  }

  lemma {:induction false} Concat(net: Net, first: seq<Choice>, rest: seq<Choice>)
    requires Valid(net, first) && Valid(After(net, first), rest)
    ensures Valid(net, first + rest) && After(net, first + rest) == After(After(net, first), rest)
    decreases |first|
  {
    if first == [] {
      assert first + rest == rest;
    } else {
      Concat(Choose(net, first[0]), first[1..], rest);
      assert (first + rest)[1..] == first[1..] + rest;
    }
  }

  lemma LeadsOn(d0: Duo, first: seq<Choice>, d1: Duo, rest: seq<Choice>, d2: Duo)
    requires Leads(d0, first, d1) && Leads(d1, rest, d2)
    ensures Leads(d0, first + rest, d2)
  {
    Concat(ToNet(d0), first, rest);
  }

  function ToA(d: Duo, s: Status, id: Port): Envelope { Envelope(d.a.id, Msg(s, id)) }
  function ToB(d: Duo, s: Status, id: Port): Envelope { Envelope(d.b.id, Msg(s, id)) }

  const H0 := Choice.Hop(0)

  /** Two deliveries. */
  lemma HopsLead(d: Duo, i: nat, m: Duo, j: nat, d': Duo)
    requires Pair(d) && Oldest(d.flight, i) && HopOf(d, i) == m && Oldest(m.flight, j) && HopOf(m, j) == d'
    ensures Pair(d') && Leads(d, [Choice.Hop(i), Choice.Hop(j)], d')
  {
    HopLeads(d, i, m);
    HopLeads(m, j, d');
    LeadsOn(d, [Choice.Hop(i)], m, [Choice.Hop(j)], d');
    assert [Choice.Hop(i)] + [Choice.Hop(j)] == [Choice.Hop(i), Choice.Hop(j)];
  }

  /** Two oldest-first deliveries. */
  lemma TwoHops(d: Duo, m: Duo, d': Duo)
    requires Pair(d) && d.flight != [] && HopOf(d, 0) == m && m.flight != [] && HopOf(m, 0) == d'
    ensures Pair(d') && Leads(d, [H0, H0], d')
  {
    HopsLead(d, 0, m, 0, d');
  }

  // ----- Two starts: an election without end -----

  /** Both participate, and the id of each is about to come home to it. */
  function Meeting(a: Node, b: Node): Duo {
    Duo(Joined(a, true), Joined(b, true),
        [Envelope(a.id, Msg(ELECTION, a.id)), Envelope(b.id, Msg(ELECTION, b.id))])
  }

  lemma BothAreElected(a: Node, b: Node) returns (d: Duo)
    requires Pair(Meeting(a, b))
    ensures d == Meeting(a, b).(flight := [ToB(d, ELECTED, a.id), ToA(d, ELECTED, b.id)])
    ensures Pair(d) && Leads(Meeting(a, b), [H0, H0], d)
  {
    var c := Meeting(a, b);
    d := c.(flight := [ToB(c, ELECTED, a.id), ToA(c, ELECTED, b.id)]);
    TwoHops(c, c.(flight := [ToB(c, ELECTION, b.id), ToB(c, ELECTED, a.id)]), d);
  }

  lemma EachRecordsTheOther(c: Duo, d: Duo)
    requires Pair(c) && c.a.participating && c.b.participating
    requires c.flight == [ToB(c, ELECTED, c.a.id), ToA(c, ELECTED, c.b.id)]
    requires d == Duo(Recorded(c.a, c.b.id), Recorded(c.b, c.a.id), [ToA(c, ELECTED, c.a.id), ToB(c, ELECTED, c.b.id)])
    ensures Pair(d) && Leads(c, [H0, H0], d)
  {
    TwoHops(c, Duo(c.a, Recorded(c.b, c.a.id), [ToA(c, ELECTED, c.b.id), ToA(c, ELECTED, c.a.id)]), d);
  }

  lemma BothJoinAgain(c: Duo, d: Duo)
    requires Pair(c) && !c.a.participating && !c.b.participating
    requires c.flight == [ToA(c, ELECTED, c.a.id), ToB(c, ELECTED, c.b.id)]
    requires d == Duo(Joined(c.a, true), Joined(c.b, true), [ToB(c, ELECTION, c.a.id), ToA(c, ELECTION, c.b.id)])
    ensures Pair(d) && Leads(c, [H0, H0], d)
  {
    TwoHops(c, Duo(Joined(c.a, true), c.b, [ToB(c, ELECTED, c.b.id), ToB(c, ELECTION, c.a.id)]), d);
  }

  lemma BothPassOn(c: Duo, d: Duo)
    requires Pair(c) && c.a.participating && c.b.participating
    requires c.flight == [ToB(c, ELECTION, c.a.id), ToA(c, ELECTION, c.b.id)]
    requires d == c.(flight := [ToA(c, ELECTION, c.a.id), ToB(c, ELECTION, c.b.id)])
    ensures Pair(d) && Leads(c, [H0, H0], d)
  {
    TwoHops(c, c.(flight := [ToA(c, ELECTION, c.b.id), ToA(c, ELECTION, c.a.id)]), d);
  }

  const ROUND := [H0, H0, H0, H0, H0, H0, H0, H0]

  /** A round of eight deliveries comes back to the same messages, each server having recorded the other. */
  lemma RoundRecurs(a: Node, b: Node)
    requires Pair(Meeting(a, b))
    ensures Leads(Meeting(a, b), ROUND, Meeting(Recorded(a, b.id), Recorded(b, a.id)))
    ensures Pair(Meeting(Recorded(a, b.id), Recorded(b, a.id)))
  {
    var c := Meeting(a, b);
    var d1 := BothAreElected(a, b);
    var ra, rb := Recorded(d1.a, b.id), Recorded(d1.b, a.id);
    var d2 := Duo(ra, rb, [ToA(c, ELECTED, a.id), ToB(c, ELECTED, b.id)]);
    EachRecordsTheOther(d1, d2);
    var d3 := Duo(Joined(ra, true), Joined(rb, true), [ToB(c, ELECTION, a.id), ToA(c, ELECTION, b.id)]);
    BothJoinAgain(d2, d3);
    var d4 := d3.(flight := [ToA(c, ELECTION, a.id), ToB(c, ELECTION, b.id)]);
    BothPassOn(d3, d4);
    assert d4 == Meeting(Recorded(a, b.id), Recorded(b, a.id));
    LeadsOn(c, [H0, H0], d1, [H0, H0], d2);
    LeadsOn(c, [H0, H0] + [H0, H0], d2, [H0, H0], d3);
    LeadsOn(c, [H0, H0] + [H0, H0] + [H0, H0], d3, [H0, H0], d4);
    assert [H0, H0] + [H0, H0] + [H0, H0] + [H0, H0] == ROUND;
  }

  function Rounds(k: nat): seq<Choice> { if k == 0 then [] else ROUND + Rounds(k - 1) }

  lemma {:induction false} RoundsRecur(a: Node, b: Node, k: nat) returns (a': Node, b': Node)
    requires Pair(Meeting(a, b))
    ensures Leads(Meeting(a, b), Rounds(k), Meeting(a', b'))
    ensures k > 0 ==> a'.primary == b.id && b'.primary == a.id
    ensures a'.id == a.id && b'.id == b.id
    decreases k
  {
    if k == 0 {
      a', b' := a, b;
    } else {
      RoundRecurs(a, b);
      a', b' := RoundsRecur(Recorded(a, b.id), Recorded(b, a.id), k - 1);
      LeadsOn(Meeting(a, b), ROUND, Meeting(Recorded(a, b.id), Recorded(b, a.id)), Rounds(k - 1), Meeting(a', b'));
      if k == 1 {
        assert Rounds(0) == [];
        assert ToNet(Meeting(a', b')).nodes[a.id] == Joined(Recorded(a, b.id), true);
        assert ToNet(Meeting(a', b')).nodes[b.id] == Joined(Recorded(b, a.id), true);
      }
    }
  }

  /** The way into the first round: `q` starts, and after its first lap `p` starts as well. */
  function TwoStarts(q: Port, p: Port): seq<Choice> {
    [Choice.Starts(q)] + [H0, H0] + [Choice.Starts(p)] + [Choice.Hop(1)] + [H0]
  }

  lemma TwoStartsMeet(a: Node, b: Node)
    requires Pair(Duo(a, b, [])) && !a.participating && !b.participating
    ensures Leads(Duo(a, b, []), TwoStarts(b.id, a.id), Meeting(a, b)) && Pair(Meeting(a, b))
  {
    var d0 := Duo(a, b, []);
    var d1 := d0.(flight := [ToA(d0, ELECTION, b.id)]);
    StartLeads(d0, b, d1);
    var both := Duo(Joined(a, true), Joined(b, true), [ToA(d0, ELECTION, b.id)]);
    TwoHops(d1, Duo(Joined(a, true), b, [ToB(d0, ELECTION, b.id)]), both);
    var d2 := both.(flight := [ToA(d0, ELECTION, b.id), ToB(d0, ELECTION, a.id)]);
    StartLeads(both, both.a, d2);
    var d3 := both.(flight := [ToA(d0, ELECTION, b.id), ToA(d0, ELECTION, a.id)]);
    HopLeads(d2, 1, d3);
    HopLeads(d3, 0, Meeting(a, b));
    LeadsOn(d0, [Choice.Starts(b.id)], d1, [H0, H0], both);
    LeadsOn(d0, [Choice.Starts(b.id)] + [H0, H0], both, [Choice.Starts(a.id)], d2);
    LeadsOn(d0, [Choice.Starts(b.id)] + [H0, H0] + [Choice.Starts(a.id)], d2, [Choice.Hop(1)], d3);
    LeadsOn(d0, [Choice.Starts(b.id)] + [H0, H0] + [Choice.Starts(a.id)] + [Choice.Hop(1)], d3, [H0], Meeting(a, b));
  }

  /**
    With two starts an election need not end: for every k there is a run of 6 + 8k steps, two of them
    starts, that still has two messages under way, and from the first round on the server with the largest
    id has recorded the smaller one.
    */
  lemma TwoStartsNeverEnd(a: Node, b: Node, k: nat)
    requires Pair(Duo(a, b, [])) && !a.participating && !b.participating
    ensures var net, choices := ToNet(Duo(a, b, [])), TwoStarts(b.id, a.id) + Rounds(k);
            && Valid(net, choices)
            && |After(net, choices).flight| == 2
            && (k > 0 ==> a.id in After(net, choices).nodes && b.id in After(net, choices).nodes
                          && After(net, choices).nodes[b.id].primary == a.id
                          && After(net, choices).nodes[a.id].primary == b.id)
  {
    TwoStartsMeet(a, b);
    var a', b' := RoundsRecur(a, b, k);
    LeadsOn(Duo(a, b, []), TwoStarts(b.id, a.id), Meeting(a, b), Rounds(k), Meeting(a', b'));
  }

  // ----- Three starts: two primaries -----

  /** The smaller server joins with the larger id, the larger one after it. */
  lemma BothRejoin(d: Duo, d': Duo)
    requires Pair(d) && !d.a.participating && !d.b.participating
    requires d.flight == [ToA(d, ELECTION, d.b.id), ToA(d, ELECTION, d.a.id)]
    requires d' == Duo(Joined(d.a, true), Joined(d.b, true), [ToA(d, ELECTION, d.a.id), ToA(d, ELECTION, d.b.id)])
    ensures Pair(d') && Leads(d, [H0, Choice.Hop(1)], d')
  {
    var ja := Joined(d.a, true);
    HopsLead(d, 0, Duo(ja, d.b, [ToA(d, ELECTION, d.a.id), ToB(d, ELECTION, d.b.id)]), 1, d');
  }

  /** The smaller id, home first, is elected and recorded by the larger server. */
  lemma LargerIsMisled(d: Duo, d': Duo)
    requires Pair(d) && d.a.participating && d.b.participating
    requires d.flight == [ToA(d, ELECTION, d.a.id), ToA(d, ELECTION, d.b.id)]
    requires d' == Duo(d.a, Recorded(d.b, d.a.id), [ToA(d, ELECTION, d.b.id), ToA(d, ELECTED, d.a.id)])
    ensures Pair(d') && Leads(d, [H0, Choice.Hop(1)], d')
  {
    HopsLead(d, 0, d.(flight := [ToA(d, ELECTION, d.b.id), ToB(d, ELECTED, d.a.id)]), 1, d');
  }

  /** The larger server joins once more, so its message stays behind the other. */
  lemma LargerRejoins(d: Duo, d': Duo)
    requires Pair(d) && d.a.participating && !d.b.participating
    requires d.flight == [ToA(d, ELECTION, d.b.id), ToA(d, ELECTED, d.a.id)]
    requires d' == Duo(d.a, Joined(d.b, true), [ToA(d, ELECTED, d.a.id), ToA(d, ELECTION, d.b.id)])
    ensures Pair(d') && Leads(d, [H0, Choice.Hop(1)], d')
  {
    HopsLead(d, 0, d.(flight := [ToA(d, ELECTED, d.a.id), ToB(d, ELECTION, d.b.id)]), 1, d');
  }

  /** From there the smaller server wins, while the message of the larger is still under way. */
  lemma SmallerWins(d: Duo) returns (choices: seq<Choice>, d': Duo)
    requires Pair(d) && !d.a.participating && !d.b.participating
    requires d.flight == [ToA(d, ELECTION, d.b.id), ToA(d, ELECTION, d.a.id)]
    ensures Pair(d') && Leads(d, choices, d') && d'.flight == [ToA(d', ELECTION, d'.b.id)]
    ensures d'.a.isPrimary && !d'.a.participating && d'.b.participating
    ensures d'.a.id == d.a.id && d'.b.id == d.b.id
  {
    var ja, jb := Joined(d.a, true), Joined(d.b, true);
    var d1 := Duo(ja, jb, [ToA(d, ELECTION, d.a.id), ToA(d, ELECTION, d.b.id)]);
    BothRejoin(d, d1);
    var rb := Recorded(jb, d.a.id);
    var d2 := Duo(ja, rb, [ToA(d, ELECTION, d.b.id), ToA(d, ELECTED, d.a.id)]);
    LargerIsMisled(d1, d2);
    var d3 := Duo(ja, Joined(rb, true), [ToA(d, ELECTED, d.a.id), ToA(d, ELECTION, d.b.id)]);
    LargerRejoins(d2, d3);
    d' := Duo(Recorded(ja, d.a.id), d3.b, [ToA(d, ELECTION, d.b.id)]);
    HopLeads(d3, 0, d');
    var pair := [H0, Choice.Hop(1)];
    LeadsOn(d, pair, d1, pair, d2);
    LeadsOn(d, pair + pair, d2, pair, d3);
    LeadsOn(d, pair + pair + pair, d3, [H0], d');
    choices := pair + pair + pair + [H0];
  }

  /** A lone message of the larger id brings the election to its end. */
  lemma EndsElection(d: Duo) returns (choices: seq<Choice>, d': Duo)
    requires Pair(d) && !d.a.participating && d.b.participating && d.flight == [ToA(d, ELECTION, d.b.id)]
    ensures Leads(d, choices, d') && d'.flight == []
    ensures d'.a == Recorded(d.a, d.b.id) && d'.b == Recorded(d.b, d.b.id)
  {
    var ja := Joined(d.a, true);
    var d2 := Duo(ja, d.b, [ToA(d, ELECTED, d.b.id)]);
    TwoHops(d, Duo(ja, d.b, [ToB(d, ELECTION, d.b.id)]), d2);
    d' := Duo(Recorded(ja, d.b.id), Recorded(d.b, d.b.id), []);
    TwoHops(d2, Duo(Recorded(ja, d.b.id), d.b, [ToB(d, ELECTED, d.b.id)]), d');
    LeadsOn(d, [H0, H0], d2, [H0, H0], d');
    choices := [H0, H0] + [H0, H0];
  }

  /** `p` starts; when both participate it starts again, and `q` starts while its own election succeeds. */
  lemma ThreeStarts(a: Node, b: Node) returns (choices: seq<Choice>, d': Duo)
    requires Pair(Duo(a, b, [])) && !a.participating && !b.participating
    ensures Pair(d') && Leads(Duo(a, b, []), choices, d')
    ensures d' == Duo(Joined(a, true), Joined(b, true),
                      [ToB(d', ELECTION, a.id), ToA(d', ELECTED, b.id), ToA(d', ELECTION, b.id)])
  {
    var d0 := Duo(a, b, []);
    var ja, jb := Joined(a, true), Joined(b, true);
    var d1 := d0.(flight := [ToB(d0, ELECTION, a.id)]);
    StartLeads(d0, a, d1);
    var d2 := Duo(ja, jb, [ToB(d0, ELECTION, b.id)]);
    TwoHops(d1, Duo(a, jb, [ToA(d0, ELECTION, b.id)]), d2);
    var d3 := d2.(flight := [ToB(d0, ELECTION, b.id), ToB(d0, ELECTION, a.id)]);
    StartLeads(d2, ja, d3);
    var d4 := d2.(flight := [ToB(d0, ELECTION, a.id), ToA(d0, ELECTED, b.id)]);
    HopLeads(d3, 0, d4);
    d' := d2.(flight := [ToB(d0, ELECTION, a.id), ToA(d0, ELECTED, b.id), ToA(d0, ELECTION, b.id)]);
    StartLeads(d4, jb, d');
    var sa, sb := [Choice.Starts(a.id)], [Choice.Starts(b.id)];
    LeadsOn(d0, sa, d1, [H0, H0], d2);
    LeadsOn(d0, sa + [H0, H0], d2, sa, d3);
    LeadsOn(d0, sa + [H0, H0] + sa, d3, [H0], d4);
    LeadsOn(d0, sa + [H0, H0] + sa + [H0], d4, sb, d');
    choices := sa + [H0, H0] + sa + [H0] + sb;
  }

  /** The first election ends with the larger server; the messages of the other two starts remain. */
  lemma LargerWins(d: Duo) returns (d': Duo)
    requires Pair(d) && d.a.participating && d.b.participating
    requires d.flight == [ToB(d, ELECTION, d.a.id), ToA(d, ELECTED, d.b.id), ToA(d, ELECTION, d.b.id)]
    ensures Pair(d') && Leads(d, [H0, H0] + [Choice.Hop(2)], d')
    ensures d' == Duo(Recorded(d.a, d.b.id), Recorded(d.b, d.b.id),
                      [ToA(d, ELECTION, d.b.id), ToA(d, ELECTION, d.a.id)])
  {
    hide Leads;
    var ra := Recorded(d.a, d.b.id);
    var d1 := d.(flight := [ToA(d, ELECTED, d.b.id), ToA(d, ELECTION, d.b.id), ToA(d, ELECTION, d.a.id)]);
    var d2 := Duo(ra, d.b, [ToA(d, ELECTION, d.b.id), ToA(d, ELECTION, d.a.id), ToB(d, ELECTED, d.b.id)]);
    TwoHops(d, d1, d2);
    d' := Duo(ra, Recorded(d.b, d.b.id), [ToA(d, ELECTION, d.b.id), ToA(d, ELECTION, d.a.id)]);
    HopLeads(d2, 2, d');
    LeadsOn(d, [H0, H0], d2, [Choice.Hop(2)], d');
  }

  /** With three starts, all can be quiet, the larger id recorded by both, and yet both have become primary. */
  lemma ThreeStartsMakeTwoPrimaries(a: Node, b: Node) returns (choices: seq<Choice>)
    requires Pair(Duo(a, b, [])) && !a.participating && !b.participating
    ensures Valid(ToNet(Duo(a, b, [])), choices)
    ensures var net := After(ToNet(Duo(a, b, [])), choices);
            && net.flight == [] && a.id in net.nodes && b.id in net.nodes
            && net.nodes[a.id].isPrimary && net.nodes[b.id].isPrimary
  {
    var d0 := Duo(a, b, []);
    var c1, d1 := ThreeStarts(a, b);
    var d2 := LargerWins(d1);
    var c2 := [H0, H0] + [Choice.Hop(2)];
    var c3, d3 := SmallerWins(d2);
    var c4, d4 := EndsElection(d3);
    LeadsOn(d0, c1, d1, c2, d2);
    LeadsOn(d0, c1 + c2, d2, c3, d3);
    LeadsOn(d0, c1 + c2 + c3, d3, c4, d4);
    choices := c1 + c2 + c3 + c4;
  }
}
