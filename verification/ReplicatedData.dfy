/**
  "The exactly same data is shared and synced between all the servers" (README.md:17): replication as a
  whole, from the packets the front-end threads of the primary receive to the tables of the servers.
  Module Replication says in which order packets are applied where, ReplicaAgreement what they do to
  the tables. When a front end is gone, the primary disconnects its clients by itself
  (src/server/server.cpp:266-268, 282-310); a backup may connect at any time, and is told nothing of what
  has happened before (src/server/server.cpp:439-470).
  */
module ReplicatedData {
  import opened Users
  import opened Groups
  import opened FeDisconnect
  import D = ReplicaAgreement
  import R = Replication

  type Packet = R.Packet<D.Packet>
  type State = R.State<D.Packet>
  type Event = R.Event<D.Packet>
  type Backup = R.Backup

  /** closeFrontEndConnection's disconnection of everybody on a front end. */
  function Drop(fe: string): Packet {
    R.Packet(D.DisconnectPacket(FE_DISCONNECT, fe), R.DISCONNECT)
  }

  /** What the thread of the front end with address `fe` receives: the packets carry its address. */
  predicate Fitting(fe: string, p: Packet) {
    match p.kind
    case MESSAGE => p.body.MessagePacket?
    case JOIN => p.body.JoinPacket? && p.body.fe == fe
    case DISCONNECT => p.body.DisconnectPacket? && p.body.fe == fe
    case KEEP_ALIVE => true
  }

  /** Thread number t serves the front end with address addresses[t]. */
  predicate Served(addresses: seq<string>, e: Event) {
    && (e.Receive? && e.t < |addresses| ==> Fitting(addresses[e.t], e.packet))
    && (e.FrontEndGone? && e.t < |addresses| ==> e.drop == Drop(addresses[e.t]))
  }

  ghost predicate IsRun(addresses: seq<string>, s: State, events: seq<Event>) {
    && R.Initial(s) && |addresses| == |s.threads|
    && R.Valid(s, events)
    && forall e <- events :: Served(addresses, e)
  }

  function Bodies(log: seq<Packet>): (r: seq<D.Packet>)
    ensures |r| == |log| && forall i :: 0 <= i < |log| ==> r[i] == log[i].body
  {
    seq(|log|, i requires 0 <= i < |log| => log[i].body)
  }

  /** The counters, groups, users, sessions and lines of a server that has applied the packets. */
  function Data(log: seq<Packet>): D.Image { D.Replay(Bodies(log)) }

  ghost predicate Equal(s: State, b: Backup) {
    b in s.log && Data(s.log[b]) == Data(s.applied)
  }

  /** All is quiet, and backup `b` is still connected. */
  ghost predicate Quiet(addresses: seq<string>, s: State, events: seq<Event>, b: Backup) {
    IsRun(addresses, s, events) && R.Settled(R.After(s, events)) && b in R.After(s, events).connected
  }

  lemma DataLast(log: seq<Packet>, p: Packet)
    ensures Data(log + [p]) == D.HandleImage(Data(log), p.body)
  {
    assert Bodies(log + [p]) == Bodies(log) + [p.body];
    assert (Bodies(log) + [p.body])[..|log|] == Bodies(log);
  }

  /** Two servers, in either role and with any clocks, that have handled these packets hold the same. */
  lemma ServersHoldData(events: seq<D.Event>, isPrimary: bool, log: seq<Packet>)
    requires D.Packets(events) == Bodies(log)
    ensures D.Abstract(D.Run(events, isPrimary)) == Data(log)
  {
    D.ImageOfRun(events, isPrimary);
  }

  // ----- What dropping a front end does to the tables -----

  predicate NoneOn(groups: seq<D.GroupImage>, fe: string) {
    forall g :: 0 <= g < |groups| ==> forall c <- AllConns(groups[g].users) :: c.fe != fe
  }

  lemma {:induction false} LoopLowers(us: seq<Member>, counts: Counts, snapshot: seq<Conn>, j: nat, k: nat, fe: string,
                                      name: string)
    requires j <= k <= |snapshot|
    ensures Get(FeLoop(us, counts, snapshot, k, fe).counts, name) <=
            Get(FeLoop(us, counts, snapshot, j, fe).counts, name)
  {
    if j < k {
      LoopLowers(us, counts, snapshot, j, k - 1, fe, name);
      var o := FeLoop(us, counts, snapshot, k - 1, fe);
      DropOneCases(o.users, o.counts, snapshot[k - 1]);
    }
  }

  lemma {:induction false} LoopWaits(us: seq<Member>, counts: Counts, snapshot: seq<Conn>, k: nat, fe: string)
    requires k <= |snapshot| && forall i :: 0 <= i < k ==> snapshot[i].fe != fe
    ensures FeLoop(us, counts, snapshot, k, fe) == Outcome(us, counts, [])
  {
    if k > 0 {
      LoopWaits(us, counts, snapshot, k - 1, fe);
    }
  }

  /** The index of the first session on the front end. */
  function FirstOn(conns: seq<Conn>, fe: string): (j: nat)
    requires exists c <- conns :: c.fe == fe
    ensures j < |conns| && conns[j].fe == fe && forall i :: 0 <= i < j ==> conns[i].fe != fe
  {
    if conns[0].fe == fe then 0 else
      assert exists c <- conns[1..] :: c.fe == fe by {
        var c :| c in conns && c.fe == fe;
        assert c in conns[1..];
      }
      1 + FirstOn(conns[1..], fe)
  }

  /** If anybody is on the front end, somebody's counter drops. */
  lemma DropLowers(us: seq<Member>, counts: Counts, fe: string) returns (name: string)
    requires exists c <- AllConns(us) :: c.fe == fe
    ensures Get(HandleDisconnect(us, counts, FE_DISCONNECT, fe).counts, name) < Get(counts, name)
  {
    var conns := AllConns(us);
    var j := FirstOn(conns, fe);
    LoopWaits(us, counts, conns, j, fe);
    OwnerListed(us, conns[j]);
    DropOneCases(us, counts, conns[j]);
    name := us[OwnerOf(us, conns[j])].name;
    LoopLowers(us, counts, conns, j + 1, |conns|, fe, name);
  }

  lemma DropNeverRaises(us: seq<Member>, counts: Counts, fe: string, name: string)
    ensures Get(HandleDisconnect(us, counts, FE_DISCONNECT, fe).counts, name) <= Get(counts, name)
  {
    LoopLowers(us, counts, AllConns(us), 0, |AllConns(us)|, fe, name);
  }

  lemma {:induction false} ImageLowers(groups: seq<D.GroupImage>, counts: Counts, fe: string,
                                       j: nat, k: nat, name: string)
    requires j <= k <= |groups|
    ensures Get(D.DisconnectImage(groups, counts, FE_DISCONNECT, fe, k).1, name)
         <= Get(D.DisconnectImage(groups, counts, FE_DISCONNECT, fe, j).1, name)
  {
    if j < k {
      ImageLowers(groups, counts, fe, j, k - 1, name);
      var (gs, cs) := D.DisconnectImage(groups, counts, FE_DISCONNECT, fe, k - 1);
      DropNeverRaises(gs[k - 1].users, cs, fe, name);
    }
  }

  lemma {:induction false} ImageWaits(groups: seq<D.GroupImage>, counts: Counts, fe: string, k: nat)
    requires k <= |groups| && NoneOn(groups[..k], fe)
    ensures D.DisconnectImage(groups, counts, FE_DISCONNECT, fe, k).0 == groups
    ensures D.DisconnectImage(groups, counts, FE_DISCONNECT, fe, k).1 == counts
  {
    if k > 0 {
      assert groups[..k][..k - 1] == groups[..k - 1] && groups[..k][k - 1] == groups[k - 1];
      ImageWaits(groups, counts, fe, k - 1);
      var us := groups[k - 1].users;
      LoopWaits(us, counts, AllConns(us), |AllConns(us)|, fe);
    }
  }

  function FirstGroupOn(groups: seq<D.GroupImage>, fe: string): (k: nat)
    requires !NoneOn(groups, fe)
    ensures k < |groups| && NoneOn(groups[..k], fe) && exists c <- AllConns(groups[k].users) :: c.fe == fe
  {
    if exists c <- AllConns(groups[0].users) :: c.fe == fe then 0 else
      var k := FirstGroupOn(groups[1..], fe);
      assert groups[..1 + k] == [groups[0]] + groups[1..][..k];
      1 + k
  }

  /** Dropping a front end leaves the tables as they are exactly if no session is open on it. */
  lemma DropIsIdle(image: D.Image, fe: string)
    ensures D.HandleImage(image, Drop(fe).body) == image <==> NoneOn(image.groups, fe)
  {
    var groups, n := image.groups, |image.groups|;
    assert groups[..n] == groups;
    if NoneOn(groups, fe) {
      ImageWaits(groups, image.counts, fe, n);
    } else {
      var k := FirstGroupOn(groups, fe);
      ImageWaits(groups, image.counts, fe, k);
      var name := DropLowers(groups[k].users, image.counts, fe);
      ImageLowers(groups, image.counts, fe, k + 1, n, name);
    }
  }

  // ----- A backup that connects late -----

  const NOTHING := D.Image([], map[])

  predicate NobodyJoined(log: seq<Packet>) { forall p <- log :: !p.body.JoinPacket? }

  /** The tables are empty exactly until somebody joins: groups are never taken out. */
  lemma {:induction false} EmptyUntilJoin(log: seq<Packet>)
    ensures Data(log).groups == [] <==> NobodyJoined(log)
    ensures NobodyJoined(log) ==> Data(log) == NOTHING
  {
    if log != [] {
      var front, p := log[..|log| - 1], log[|log| - 1];
      assert log == front + [p] && p in log;
      EmptyUntilJoin(front);
      DataLast(front, p);
      if p.body.JoinPacket? && NobodyJoined(front) {
        assert Data(front).counts == map[];
      }
    }
  }

  /** Who missed nothing but packets before the first join ends up with the same tables. */
  lemma {:induction false} SuffixGivesData(log: seq<Packet>, k: nat)
    requires k <= |log| && NobodyJoined(log[..k])
    ensures Data(log[k..]) == Data(log)
  {
    if k == |log| {
      assert log[..k] == log && log[k..] == [];
      EmptyUntilJoin(log);
    } else {
      var front, p := log[..|log| - 1], log[|log| - 1];
      assert front[..k] == log[..k];
      SuffixGivesData(front, k);
      assert log == front + [p] && log[k..] == front[k..] + [p];
      DataLast(front, p);
      DataLast(front[k..], p);
    }
  }

  /** The backup has missed no join: it connected before the first one was replicated. */
  ghost predicate Early(s: State, b: Backup) {
    b in s.since && s.since[b] <= |s.sent| && NobodyJoined(s.sent[..s.since[b]])
  }

  lemma FromTheStartIsEarly(addresses: seq<string>, s: State, events: seq<Event>, b: Backup)
    requires IsRun(addresses, s, events) && b in s.connected
    ensures Early(R.After(s, events), b)
  {
    R.SinceStays(s, events, b);
  }

  lemma {:induction false} SentGrows(s: State, events: seq<Event>)
    requires R.Valid(s, events)
    ensures |s.sent| <= |R.After(s, events).sent| && R.After(s, events).sent[..|s.sent|] == s.sent
    decreases |events|
  {
    if events != [] {
      SentGrows(R.Apply(s, events[0]), events[1..]);
    }
  }

  // ----- With a single front end -----

  lemma SettledIsFree(s: State)
    requires R.Settled(s)
    ensures R.LockFree(s)
  {
  }

  /**
    With one front end, which stays: whenever all is quiet, every connected backup that has missed no join
    holds the primary's counters, groups, users, sessions and lines.
    */
  lemma OneFrontEndKeepsData(addresses: seq<string>, s: State, events: seq<Event>, b: Backup)
    requires Quiet(addresses, s, events, b) && |s.threads| <= 1 && R.After(s, events).gone == {}
    requires Early(R.After(s, events), b)
    ensures Equal(R.After(s, events), b)
  {
    R.OneThreadKeepsReplicasEqual(s, events, b);
    SuffixGivesData(R.After(s, events).sent, R.After(s, events).since[b]);
  }

  /** The state in which a backup has just connected, all being quiet. */
  lemma JustConnected(addresses: seq<string>, s: State, first: seq<Event>, b: Backup)
    requires |s.threads| <= 1 && IsRun(addresses, s, first)
    requires R.Settled(R.After(s, first)) && R.After(s, first).gone == {}
    requires R.Enabled(R.After(s, first), Connects(b))
    ensures var s1, events := R.After(s, first), first + [Connects(b)];
            && Quiet(addresses, s, events, b)
            && R.After(s, events) == R.Apply(s1, Connects(b)) && R.After(s, events).gone == {}
            && b in R.After(s, events).since && R.After(s, events).since[b] == |s1.sent|
            && b in R.After(s, events).log && R.After(s, events).log[b] == []
            && R.After(s, events).applied == s1.sent == R.After(s, events).sent
  {
    var s1 := R.After(s, first);
    var done := R.InvOfRun(s, first);
    assert b !in s1.connected;
    SettledIsFree(s1);
    R.ConnectsLate(s1, b);
    R.Prepend(s1, Connects(b), []);
    R.Concat(s, first, [Connects(b)] + []);
    assert [Connects(b)] + [] == [Connects(b)];
    R.OneThreadOrder(s, first);
  }

  /**
    A backup that connects while all is quiet: it holds the primary's data from then on, whenever all is
    quiet, if and only if nobody has joined before.
    */
  lemma ConnectingExactly(addresses: seq<string>, s: State, first: seq<Event>, b: Backup)
    requires |s.threads| <= 1 && IsRun(addresses, s, first)
    requires R.Settled(R.After(s, first)) && R.After(s, first).gone == {}
    requires R.Enabled(R.After(s, first), Connects(b))
    ensures (forall rest: seq<Event> ::
               var events := (first + [Connects(b)]) + rest;
               Quiet(addresses, s, events, b) && R.After(s, events).gone == {} ==> Equal(R.After(s, events), b))
            <==> NobodyJoined(R.After(s, first).sent)
  {
    var s1, head := R.After(s, first), first + [Connects(b)];
    JustConnected(addresses, s, first, b);
    if NobodyJoined(s1.sent) {
      forall rest: seq<Event> | Quiet(addresses, s, head + rest, b) && R.After(s, head + rest).gone == {}
        ensures Equal(R.After(s, head + rest), b)
      {
        SplitRun(s, head, rest);
        R.SinceStays(R.After(s, head), rest, b);
        SentGrows(R.After(s, head), rest);
        OneFrontEndKeepsData(addresses, s, head + rest, b);
      }
    } else {
      EmptyUntilJoin(s1.sent);
      assert head + [] == head;
      assert Data([]) == NOTHING;
      assert !Equal(R.After(s, head + []), b);
    }
  }

  function Connects(b: Backup): Event { R.Event<D.Packet>.BackupConnects(b) }

  /**
    When the only front end goes, a backup that has missed no join goes on holding the same data exactly if no
    session was open on it.
    */
  lemma OneFrontEndGone(addresses: seq<string>, s: State, first: seq<Event>, rest: seq<Event>, b: Backup)
    requires |s.threads| == 1 && IsRun(addresses, s, first)
    requires R.Settled(R.After(s, first)) && R.After(s, first).gone == {} && !R.After(s, first).crashed
    requires Quiet(addresses, s, first + ([Gone(addresses, 0)] + rest), b)
    requires Early(R.After(s, first + ([Gone(addresses, 0)] + rest)), b)
    ensures Equal(R.After(s, first + ([Gone(addresses, 0)] + rest)), b)
            <==> NoneOn(Data(R.After(s, first).sent).groups, addresses[0])
  {
    var s1 := R.After(s, first);
    var gone := Gone(addresses, 0);
    R.OneThreadOrder(s, first);
    R.ThreadsStay(s, first);
    SplitRun(s, first, [gone] + rest);
    assert s1.threads == [R.Idle];
    assert ([gone] + rest)[0] == gone && ([gone] + rest)[1..] == rest;
    var s2 := R.Apply(s1, gone);
    R.OneThreadRests(s2, rest);
    var s3 := R.After(s, first + ([gone] + rest));
    assert s3.applied == s1.sent + [Drop(addresses[0])] && s3.sent == s1.sent;
    SettledIsFree(s3);
    R.BackupsHold(s, first + ([gone] + rest), b);
    SuffixGivesData(s3.sent, s3.since[b]);
    DataLast(s1.sent, Drop(addresses[0]));
    DropIsIdle(Data(s1.sent), addresses[0]);
  }

  function Gone(addresses: seq<string>, t: nat): Event
    requires t < |addresses|
  {
    R.FrontEndGone(t, Drop(addresses[t]))
  }

  lemma {:induction false} SplitRun(s: State, first: seq<Event>, rest: seq<Event>)
    requires R.Valid(s, first) && R.Valid(s, first + rest)
    ensures R.Valid(R.After(s, first), rest) && R.After(s, first + rest) == R.After(R.After(s, first), rest)
    decreases |first|
  {
    if first == [] {
      assert first + rest == rest;
    } else {
      assert (first + rest)[1..] == first[1..] + rest;
      SplitRun(R.Apply(s, first[0]), first[1..], rest);
    }
  }

  // ----- When the data are equal in every run -----

  const USER := "u"
  const GROUP := "g"

  /** A client's join and its message, through the front end `fe`. */
  function Joining(fe: string): Packet { R.Packet(D.JoinPacket(fe + "c", USER, GROUP, fe), R.JOIN) }
  function Writing(): Packet { R.Packet(D.MessagePacket(USER, GROUP, "hello"), R.MESSAGE) }

  function Joined(fe: string): D.Image {
    D.Image([D.GroupImage(GROUP, [Member(USER, [Conn(fe + "c", fe)])], [])], map[USER := 1])
  }

  lemma JoinGivesGroup(fe: string)
    ensures Data([Joining(fe)]) == Joined(fe)
  {
    var c := Conn(fe + "c", fe);
    DataLast([], Joining(fe));
    assert [] + [Joining(fe)] == [Joining(fe)];
    assert [] + [Member(USER, [])] == [Member(USER, [])] && [] + [c] == [c];
    assert [] + [D.GroupImage(GROUP, [], [])] == [D.GroupImage(GROUP, [], [])];
    assert Join([], USER, c).0 == [Member(USER, [c])];
    assert D.JoinImage([], c, USER, GROUP) == Joined(fe).groups;
  }

  /** A message before the join is not the same as after it: a group that does not exist drops it. */
  lemma OrderMatters(fe: string)
    ensures Data([Joining(fe), Writing()]) != Data([Writing(), Joining(fe)])
  {
    JoinGivesGroup(fe);
    DataLast([Joining(fe)], Writing());
    assert [Joining(fe)] + [Writing()] == [Joining(fe), Writing()];
    assert |Data([Joining(fe), Writing()]).groups[0].lines| == 1;
    DataLast([Writing()], Joining(fe));
    assert [Writing()] + [Joining(fe)] == [Writing(), Joining(fe)];
    DataLast([], Writing());
    assert [] + [Writing()] == [Writing()];
    assert Data([Writing()]) == D.Image([], map[]) == Data([]);
    DataLast([], Joining(fe));
    assert [] + [Joining(fe)] == [Joining(fe)];
    assert Data([Writing(), Joining(fe)]) == Joined(fe);
  }

  lemma DropMatters(fe: string)
    ensures Data([Joining(fe), Drop(fe)]) != Data([Joining(fe)])
  {
    JoinGivesGroup(fe);
    DataLast([Joining(fe)], Drop(fe));
    assert [Joining(fe)] + [Drop(fe)] == [Joining(fe), Drop(fe)];
    DropIsIdle(Joined(fe), fe);
    var us := Joined(fe).groups[0].users;
    assert us[1..] == [];
    assert AllConns(us) == [Conn(fe + "c", fe)];
    assert Conn(fe + "c", fe) in AllConns(us);
  }

  /** A front end whose client has joined goes: the primary forgets the client, the backup keeps it. */
  lemma GoneDiffers(addresses: seq<string>, s: State, b: Backup) returns (events: seq<Event>)
    requires R.Initial(s) && |addresses| == |s.threads| && |s.threads| >= 1
    requires b in s.connected && b in s.alive
    ensures Quiet(addresses, s, events, b) && !Equal(R.After(s, events), b)
  {
    events := R.ThenGone(s, Joining(addresses[0]), Drop(addresses[0]), b);
    assert R.Settled(R.After(s, events));
    DropMatters(addresses[0]);
  }

  /** Two front ends whose packets are applied in another order than they were replicated. */
  lemma ReorderDiffers(addresses: seq<string>, s: State, b: Backup) returns (events: seq<Event>)
    requires R.Initial(s) && |addresses| == |s.threads| && |s.threads| >= 2
    requires b in s.connected && b in s.alive
    ensures Quiet(addresses, s, events, b) && !Equal(R.After(s, events), b) && R.After(s, events).gone == {}
  {
    events := R.TwoThreadsReorder(s, Joining(addresses[0]), Writing(), b);
    assert R.Settled(R.After(s, events));
    OrderMatters(addresses[0]);
  }

  /**
    One front end, none lost: a user joins, a backup connects, the user writes. The message is acknowledged,
    all is quiet, and the backup has neither the group nor the message.
    */
  lemma LateBackupDiffers(addresses: seq<string>, s: State) returns (events: seq<Event>, b: Backup)
    requires R.Initial(s) && |addresses| == |s.threads| && |s.threads| >= 1
    ensures Quiet(addresses, s, events, b) && !Equal(R.After(s, events), b) && R.After(s, events).gone == {}
    ensures var s' := R.After(s, events);
            && s'.sent == [Joining(addresses[0]), Writing()] && 1 in s'.acked
            && b in s'.log && Data(s'.log[b]) == NOTHING && |Data(s'.applied).groups| == 1
  {
    events, b := R.ThenConnects(s, Joining(addresses[0]), Writing());
    assert R.Settled(R.After(s, events));
    JoinGivesGroup(addresses[0]);
    DataLast([Joining(addresses[0])], Writing());
    assert [Joining(addresses[0])] + [Writing()] == [Joining(addresses[0]), Writing()];
    EmptyUntilJoin([Writing()]);
  }

  /** The same run with a backup that connects before anything else happens. */
  lemma WithEarlyBackup(addresses: seq<string>, s: State, b: Backup, rest: seq<Event>)
    requires R.Initial(s) && b !in s.log && R.Enabled(s, Connects(b))
    requires Quiet(addresses, R.Apply(s, Connects(b)), rest, b)
    ensures Quiet(addresses, s, [Connects(b)] + rest, b)
    ensures R.After(s, [Connects(b)] + rest) == R.After(R.Apply(s, Connects(b)), rest)
    ensures Early(R.After(s, [Connects(b)] + rest), b)
  {
    R.ConnectsAtOnce(s, b);
    R.Prepend(s, Connects(b), rest);
    FromTheStartIsEarly(addresses, R.Apply(s, Connects(b)), rest, b);
  }

  /**
    When the promise is kept as long as no front end is lost and no backup misses a join: in every such run,
    whenever all is quiet, every connected backup holds the primary's data, if and only if there is at most
    one front end.
    */
  lemma EqualDataExactly(addresses: seq<string>, s: State)
    requires R.Initial(s) && |addresses| == |s.threads|
    ensures (forall events: seq<Event>, b: Backup ::
               Quiet(addresses, s, events, b) && R.After(s, events).gone == {} && Early(R.After(s, events), b)
               ==> Equal(R.After(s, events), b))
            <==> |s.threads| <= 1
  {
    if |s.threads| <= 1 {
      forall events: seq<Event>, b: Backup
        | Quiet(addresses, s, events, b) && R.After(s, events).gone == {} && Early(R.After(s, events), b)
        ensures Equal(R.After(s, events), b)
      {
        OneFrontEndKeepsData(addresses, s, events, b);
      }
    } else {
      var b := R.FreshSocket(s.log.Keys);
      R.ConnectsAtOnce(s, b);
      var rest := ReorderDiffers(addresses, R.Apply(s, Connects(b)), b);
      WithEarlyBackup(addresses, s, b, rest);
    }
  }

  /** Without front ends nothing is replicated, so nothing can be missed. */
  lemma NobodyServed(addresses: seq<string>, s: State, events: seq<Event>, b: Backup)
    requires Quiet(addresses, s, events, b) && |s.threads| == 0
    ensures Equal(R.After(s, events), b)
  {
    NothingSent(s, events);
    R.GoneAreThreads(s, events);
    OneFrontEndKeepsData(addresses, s, events, b) by {
      R.BackupsHold(s, events, b);
    }
  }

  lemma {:induction false} NothingSent(s: State, events: seq<Event>)
    requires R.Valid(s, events) && |s.threads| == 0
    ensures R.After(s, events).sent == s.sent
    decreases |events|
  {
    if events != [] {
      NothingSent(R.Apply(s, events[0]), events[1..]);
    }
  }

  /**
    Front ends are lost without a word to the backups: if they may be, the promise is kept in every run, for the
    backups that miss no join, if and only if there is no front end at all.
    */
  lemma EqualDataDespiteLossExactly(addresses: seq<string>, s: State)
    requires R.Initial(s) && |addresses| == |s.threads|
    ensures (forall events: seq<Event>, b: Backup ::
               Quiet(addresses, s, events, b) && Early(R.After(s, events), b) ==> Equal(R.After(s, events), b))
            <==> |s.threads| == 0
  {
    if |s.threads| == 0 {
      forall events: seq<Event>, b: Backup | Quiet(addresses, s, events, b) ensures Equal(R.After(s, events), b) {
        NobodyServed(addresses, s, events, b);
      }
    } else {
      var b := R.FreshSocket(s.log.Keys);
      R.ConnectsAtOnce(s, b);
      var rest := GoneDiffers(addresses, R.Apply(s, Connects(b)), b);
      WithEarlyBackup(addresses, s, b, rest);
    }
  }

  /**
    Backups are told nothing of what they have missed: if they may connect at any time, the promise is kept in
    every run, though no front end is lost, if and only if there is no front end at all.
    */
  lemma EqualDataDespiteLatenessExactly(addresses: seq<string>, s: State)
    requires R.Initial(s) && |addresses| == |s.threads|
    ensures (forall events: seq<Event>, b: Backup ::
               Quiet(addresses, s, events, b) && R.After(s, events).gone == {} ==> Equal(R.After(s, events), b))
            <==> |s.threads| == 0
  {
    if |s.threads| == 0 {
      forall events: seq<Event>, b: Backup | Quiet(addresses, s, events, b) ensures Equal(R.After(s, events), b) {
        NobodyServed(addresses, s, events, b);
      }
    } else {
      var events, b := LateBackupDiffers(addresses, s);
    }
  }
}
