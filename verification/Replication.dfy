/**
  Primary/backup replication during one tenure of a primary (src/server/server.cpp:189-264 and
  439-530), for any number of front-end threads interleaved in any way, backups that connect and are
  lost at any moment and a crash of the primary at any moment. The events are the atomic steps of the
  threads.
  */
module Replication {

  /** A backup stands for its connection: the socket under which rm_connect_sockets_fd lists it. */
  type Backup = nat

  datatype Kind = MESSAGE | JOIN | DISCONNECT | KEEP_ALIVE
  datatype Packet<P> = Packet(body: P, kind: Kind)

  predicate Replicable<P>(p: Packet<P>) { p.kind != KEEP_ALIVE }

  /** How far the backup at the head of the list has got with the packet in progress. */
  datatype Progress = NotSent | Sent | Applied

  /**
    Where a front-end thread is in listenFrontEndCommunication. In Replicating and Passing it holds
    sockets_connections_semaphore; the others it runs through without it. A replicated packet is known
    by its position `k` among all that were replicated.
    */
  datatype Thread<P> =
    | Idle
    | Waiting(p: Packet<P>)
    | Replicating(p: Packet<P>, k: nat, todo: seq<Backup>, head: Progress)
    | Passing(p: Packet<P>)
    | Replicated(p: Packet<P>, k: nat)
    | Acked(p: Packet<P>)

  /**
    `connected` is rm_connect_sockets_fd in its order; `log` is what each backup has applied, `applied` what
    the primary has, `acked` the positions of the messages acknowledged to their front ends. `sent` lists the
    packets in the order in which they were replicated, and `since` how many of them a backup has missed
    because it connected too late. When a front end is gone (its thread is then in `gone`), the primary
    disconnects its clients by itself: these updates, listed in `local`, are not replicated.
    */
  datatype State<P> = State(threads: seq<Thread<P>>, connected: seq<Backup>, alive: set<Backup>,
                            log: map<Backup, seq<Packet<P>>>, since: map<Backup, nat>, sent: seq<Packet<P>>,
                            applied: seq<Packet<P>>, local: seq<Packet<P>>, gone: set<nat>, acked: seq<nat>,
                            crashed: bool)

  datatype Event<P> =
    | Receive(t: nat, packet: Packet<P>)
    | Lock(t: nat)
    | Send(t: nat)
    | BackupApplies(t: nat)
    | Confirmed(t: nat)
    | Lost(t: nat)
    | Release(t: nat)
    | Ack(t: nat)
    | ApplyLocally(t: nat)
    | FrontEndGone(t: nat, drop: Packet<P>)
    | BackupConnects(b: Backup)
    | BackupDies(b: Backup)
    | PrimaryCrashes

  predicate HoldsLock<P>(th: Thread<P>) { th.Replicating? || th.Passing? }

  predicate LockFree<P>(s: State<P>) {
    forall i :: 0 <= i < |s.threads| ==> !HoldsLock(s.threads[i])
  }

  /** A connection is accepted under no semaphore, and gets a socket that was not used before. */
  predicate Enabled<P>(s: State<P>, e: Event<P>) {
    match e
    case BackupDies(_) => true
    case PrimaryCrashes => true
    case BackupConnects(b) => !s.crashed && b !in s.log
    case BackupApplies(t) =>
      t < |s.threads| && s.threads[t].Replicating? && s.threads[t].todo != [] && s.threads[t].head.Sent? &&
      s.threads[t].todo[0] in s.alive && s.threads[t].todo[0] in s.log
    case Receive(t, _) => !s.crashed && t < |s.threads| && s.threads[t].Idle? && t !in s.gone
    case FrontEndGone(t, _) => !s.crashed && t < |s.threads| && t !in s.gone && LockFree(s)
    case Lock(t) => !s.crashed && t < |s.threads| && s.threads[t].Waiting? && LockFree(s)
    case Send(t) =>
      && !s.crashed && t < |s.threads| && s.threads[t].Replicating?
      && s.threads[t].todo != [] && s.threads[t].head.NotSent?
    case Confirmed(t) =>
      && !s.crashed && t < |s.threads| && s.threads[t].Replicating?
      && s.threads[t].todo != [] && s.threads[t].head.Applied?
    case Lost(t) =>
      !s.crashed && t < |s.threads| && s.threads[t].Replicating? && s.threads[t].todo != [] &&
      !s.threads[t].head.NotSent? && s.threads[t].todo[0] !in s.alive
    case Release(t) =>
      !s.crashed && t < |s.threads| &&
      ((s.threads[t].Replicating? && s.threads[t].todo == []) || s.threads[t].Passing?)
    case Ack(t) => !s.crashed && t < |s.threads| && s.threads[t].Replicated?
    case ApplyLocally(t) => !s.crashed && t < |s.threads| && s.threads[t].Acked?
  }

  function Remove(s: seq<Backup>, b: Backup): seq<Backup> {
    if s == [] then [] else if s[0] == b then Remove(s[1..], b) else [s[0]] + Remove(s[1..], b)
  }

  /** The map is ordered by sockets. */
  function Insert(s: seq<Backup>, b: Backup): seq<Backup> {
    if s == [] || b < s[0] then [b] + s else [s[0]] + Insert(s[1..], b)
  }

  /** The loop over the map that a thread is in comes to a new socket exactly if it has not got past it. */
  predicate Visits<P>(th: Thread<P>, b: Backup) { th.Replicating? && th.todo != [] && th.todo[0] < b }

  function Joins<P>(th: Thread<P>, b: Backup): Thread<P> {
    if Visits(th, b) then th.(todo := Insert(th.todo, b)) else th
  }

  /** How many packets a backup that connects now will never get. */
  function Missed<P>(s: State<P>, b: Backup): nat {
    if s.sent != [] && exists i {:trigger s.threads[i]} :: 0 <= i < |s.threads| && Visits(s.threads[i], b)
    then |s.sent| - 1 else |s.sent|
  }

  function AllJoin<P>(threads: seq<Thread<P>>, b: Backup): (r: seq<Thread<P>>)
    ensures |r| == |threads| && forall i :: 0 <= i < |r| ==> r[i] == Joins(threads[i], b)
  {
    seq(|threads|, i requires 0 <= i < |threads| => Joins(threads[i], b))
  }

  function Apply<P>(s: State<P>, e: Event<P>): State<P>
    requires Enabled(s, e)
  {
    match e
    case BackupDies(b) => s.(alive := s.alive - {b})
    case PrimaryCrashes => s.(crashed := true)
    case FrontEndGone(t, drop) => s.(gone := s.gone + {t}, applied := s.applied + [drop], local := s.local + [drop])
    case BackupConnects(b) =>
      s.(threads := AllJoin(s.threads, b), connected := Insert(s.connected, b), alive := s.alive + {b},
         log := s.log[b := []], since := s.since[b := Missed(s, b)])
    case Receive(t, p) => s.(threads := s.threads[t := Waiting(p)])
    case Lock(t) =>
      var p := s.threads[t].p;
      if Replicable(p)
      then s.(threads := s.threads[t := Replicating(p, |s.sent|, s.connected, NotSent)], sent := s.sent + [p])
      else s.(threads := s.threads[t := Passing(p)])
    case Send(t) => s.(threads := s.threads[t := s.threads[t].(head := Sent)])
    case BackupApplies(t) =>
      var th := s.threads[t];
      s.(threads := s.threads[t := th.(head := Applied)],
         log := s.log[th.todo[0] := s.log[th.todo[0]] + [th.p]])
    case Confirmed(t) =>
      var th := s.threads[t];
      s.(threads := s.threads[t := th.(todo := th.todo[1..], head := NotSent)])
    case Lost(t) =>
      var th := s.threads[t];
      s.(threads := s.threads[t := th.(todo := th.todo[1..], head := NotSent)],
         connected := Remove(s.connected, th.todo[0]))
    case Release(t) =>
      var th := s.threads[t];
      s.(threads := s.threads[t := if th.Replicating? then Replicated(th.p, th.k) else Idle])
    case Ack(t) =>
      var th := s.threads[t];
      s.(threads := s.threads[t := Acked(th.p)], acked := if th.p.kind == MESSAGE then s.acked + [th.k] else s.acked)
    case ApplyLocally(t) => s.(threads := s.threads[t := Idle], applied := s.applied + [s.threads[t].p])
  }

  /** A tenure begins with `n` idle front-end threads and some connected backups, or none, all equal. */
  ghost predicate Initial<P>(s: State<P>) {
    && (forall i :: 0 <= i < |s.threads| ==> s.threads[i].Idle?)
    && Sorted(s.connected)
    && (forall b :: b in s.connected ==> b in s.log && s.log[b] == [] && b in s.since && s.since[b] == 0)
    && s.sent == [] && s.applied == [] && s.acked == [] && s.local == [] && s.gone == {} && !s.crashed
  }

  // ----- The invariant -----

  ghost predicate Sorted(s: seq<Backup>) {
    forall i, j :: 0 <= i < j < |s| ==> s[i] < s[j]
  }

  /** The backup has applied the packets from the first that it did not miss up to number `n`. */
  ghost predicate Holds<P>(s: State<P>, b: Backup, n: nat) {
    b in s.log && b in s.since && s.since[b] <= n <= |s.sent| && s.log[b] == s.sent[s.since[b]..n]
  }

  /** `done` packets are with every connected backup; the next one, if any, is in progress. */
  ghost predicate BackupsFit<P>(s: State<P>, done: nat) {
    && done <= |s.sent| <= done + 1
    && Sorted(s.connected)
    && forall b :: b in s.connected ==> Holds(s, b, done) || Holds(s, b, |s.sent|)
  }

  ghost predicate ThreadFits<P>(s: State<P>, th: Thread<P>, done: nat) {
    match th
    case Replicating(p, k, todo, head) =>
      && k == done && done + 1 == |s.sent| && s.sent[done] == p && Replicable(p)
      && Sorted(todo)
      && (forall b :: b in todo ==> b in s.connected)
      && (forall b :: b in s.connected ==>
            Holds(s, b, if b !in todo || (b == todo[0] && head.Applied?) then |s.sent| else done))
    case Replicated(p, k) => k < done <= |s.sent| && s.sent[k] == p && Replicable(p)
    case _ => true
  }

  ghost predicate Inv<P>(s: State<P>, done: nat) {
    && BackupsFit(s, done)
    && (forall i, j :: 0 <= i < j < |s.threads| ==> !(HoldsLock(s.threads[i]) && HoldsLock(s.threads[j])))
    && (forall i :: 0 <= i < |s.threads| ==> ThreadFits(s, s.threads[i], done))
    && (done < |s.sent| ==> exists i :: 0 <= i < |s.threads| && s.threads[i].Replicating?)
    && (forall k :: k in s.acked ==> k < done && s.sent[k].kind == MESSAGE)
  }

  lemma {:induction false} RemoveExact(s: seq<Backup>, b: Backup)
    requires Sorted(s)
    ensures Sorted(Remove(s, b))
    ensures forall c :: c in Remove(s, b) <==> c in s && c != b
  {
    if s != [] {
      RemoveExact(s[1..], b);
      var r := Remove(s[1..], b);
      forall j | 0 <= j < |r| ensures r[j] > s[0] {
        assert r[j] in s[1..];
      }
    }
  }

  lemma {:induction false} InsertExact(s: seq<Backup>, b: Backup)
    requires Sorted(s) && b !in s
    ensures Sorted(Insert(s, b))
    ensures forall c :: c in Insert(s, b) <==> c in s || c == b
    ensures s != [] && s[0] < b ==> Insert(s, b) != [] && Insert(s, b)[0] == s[0]
  {
    if s != [] && s[0] < b {
      InsertExact(s[1..], b);
      var r := Insert(s[1..], b);
      forall j | 0 <= j < |r| ensures s[0] < r[j] {
        assert r[j] in r;
      }
    }
  }

  // ----- Each event keeps it -----

  lemma LockKeeps<P>(s: State<P>, done: nat, t: nat)
    requires Inv(s, done) && Enabled(s, Lock(t))
    ensures Inv(Apply(s, Lock(t)), done)
  {
    var s' := Apply(s, Lock(t));
    assert done == |s.sent|;
    forall b | b in s.connected ensures Holds(s', b, done) {
      assert Holds(s, b, done);
    }
    forall i | 0 <= i < |s'.threads| ensures ThreadFits(s', s'.threads[i], done) {
      assert ThreadFits(s, s.threads[i], done);
    }
    if Replicable(s.threads[t].p) {
      assert s'.threads[t].Replicating?;
    }
  }

  lemma BackupAppliesKeeps<P>(s: State<P>, done: nat, t: nat)
    requires Inv(s, done) && Enabled(s, BackupApplies(t))
    ensures Inv(Apply(s, BackupApplies(t)), done)
  {
    var s' := Apply(s, BackupApplies(t));
    var th := s.threads[t];
    assert ThreadFits(s, th, done);
    var c := th.todo[0];
    assert Holds(s, c, done);
    assert s.sent[s.since[c]..done] + [th.p] == s.sent[s.since[c]..];
    forall b | b in s.connected
      ensures Holds(s', b, if b !in th.todo || b == c then |s.sent| else done)
    {
      assert Holds(s, b, if b !in th.todo then |s.sent| else done);
    }
    forall i | 0 <= i < |s'.threads| ensures ThreadFits(s', s'.threads[i], done) {
      assert ThreadFits(s, s.threads[i], done);
    }
    assert s'.threads[t].Replicating?;
  }

  /** What is left to do after the head of a sorted list. */
  lemma Rest(todo: seq<Backup>)
    requires Sorted(todo) && todo != []
    ensures Sorted(todo[1..]) && forall b :: b in todo[1..] <==> b in todo && b != todo[0]
  {
    assert todo == [todo[0]] + todo[1..];
  }

  lemma ConfirmedKeeps<P>(s: State<P>, done: nat, t: nat)
    requires Inv(s, done) && Enabled(s, Confirmed(t))
    ensures Inv(Apply(s, Confirmed(t)), done)
  {
    var s' := Apply(s, Confirmed(t));
    assert ThreadFits(s, s.threads[t], done);
    Rest(s.threads[t].todo);
    forall b, n: nat | Holds(s, b, n) ensures Holds(s', b, n) {
    }
    forall i | 0 <= i < |s'.threads| ensures ThreadFits(s', s'.threads[i], done) {
      assert ThreadFits(s, s.threads[i], done);
    }
    assert s'.threads[t].Replicating?;
  }

  lemma LostKeeps<P>(s: State<P>, done: nat, t: nat)
    requires Inv(s, done) && Enabled(s, Lost(t))
    ensures Inv(Apply(s, Lost(t)), done)
  {
    var s' := Apply(s, Lost(t));
    var todo := s.threads[t].todo;
    assert ThreadFits(s, s.threads[t], done);
    RemoveExact(s.connected, todo[0]);
    Rest(todo);
    forall b, n: nat | Holds(s, b, n) ensures Holds(s', b, n) {
    }
    forall i | 0 <= i < |s'.threads| ensures ThreadFits(s', s'.threads[i], done) {
      assert ThreadFits(s, s.threads[i], done);
    }
    assert s'.threads[t].Replicating?;
  }

  lemma ReleaseKeeps<P>(s: State<P>, done: nat, t: nat)
    requires Inv(s, done) && Enabled(s, Release(t))
    ensures Inv(Apply(s, Release(t)), if s.threads[t].Replicating? then done + 1 else done)
  {
    var s' := Apply(s, Release(t));
    var done' := if s.threads[t].Replicating? then done + 1 else done;
    assert ThreadFits(s, s.threads[t], done);
    forall b, n: nat | Holds(s, b, n) ensures Holds(s', b, n) {
    }
    forall i | 0 <= i < |s'.threads| ensures ThreadFits(s', s'.threads[i], done') {
      assert ThreadFits(s, s.threads[i], done);
    }
  }

  /** A thread that visits a new backup does so with the packet in progress. */
  lemma MissedFits<P>(s: State<P>, done: nat, b: Backup, i: nat)
    requires Inv(s, done) && i < |s.threads| && s.threads[i].Replicating?
    ensures Missed(s, b) == if Visits(s.threads[i], b) then done else |s.sent|
  {
    assert ThreadFits(s, s.threads[i], done);
  }

  lemma ConnectHolds<P>(s: State<P>, done: nat, b: Backup, c: Backup, n: nat)
    requires Enabled(s, BackupConnects(b)) && c in s.connected && Holds(s, c, n)
    ensures Holds(Apply(s, BackupConnects(b)), c, n)
  {
  }

  lemma ThreadMeetsBackup<P>(s: State<P>, done: nat, b: Backup, i: nat)
    requires Inv(s, done) && Enabled(s, BackupConnects(b)) && i < |s.threads|
    ensures ThreadFits(Apply(s, BackupConnects(b)), Joins(s.threads[i], b), done)
  {
    hide Insert;
    var s', th := Apply(s, BackupConnects(b)), s.threads[i];
    assert ThreadFits(s, th, done);
    if th.Replicating? {
      assert b !in s.connected && b !in th.todo;
      MissedFits(s, done, b, i);
      InsertExact(s.connected, b);
      if Visits(th, b) {
        InsertExact(th.todo, b);
      }
      forall c | c in s.connected
        ensures Holds(s', c, if c !in th.todo || (c == th.todo[0] && th.head.Applied?) then |s.sent| else done)
      {
        ConnectHolds(s, done, b, c, if c !in th.todo || (c == th.todo[0] && th.head.Applied?) then |s.sent| else done);
      }
      assert Holds(s', b, if Visits(th, b) then done else |s.sent|);
    }
  }

  lemma MissedIsDone<P>(s: State<P>, done: nat, b: Backup)
    requires Inv(s, done)
    ensures Missed(s, b) == done || Missed(s, b) == |s.sent|
  {
    if done == |s.sent| {
      forall i | 0 <= i < |s.threads| ensures !s.threads[i].Replicating? {
        assert ThreadFits(s, s.threads[i], done);
      }
    }
  }

  lemma BackupsMeetBackup<P>(s: State<P>, done: nat, b: Backup)
    requires Inv(s, done) && Enabled(s, BackupConnects(b))
    ensures BackupsFit(Apply(s, BackupConnects(b)), done)
  {
    hide ThreadFits;
    var s' := Apply(s, BackupConnects(b));
    assert b !in s.connected;
    InsertExact(s.connected, b);
    MissedIsDone(s, done, b);
    forall c | c in s'.connected ensures Holds(s', c, done) || Holds(s', c, |s.sent|) {
      if c != b && Holds(s, c, done) {
        ConnectHolds(s, done, b, c, done);
      } else if c != b {
        ConnectHolds(s, done, b, c, |s.sent|);
      }
    }
  }

  lemma ConnectKeeps<P>(s: State<P>, done: nat, b: Backup)
    requires Inv(s, done) && Enabled(s, BackupConnects(b))
    ensures Inv(Apply(s, BackupConnects(b)), done)
  {
    hide ThreadFits, BackupsFit;
    var s' := Apply(s, BackupConnects(b));
    BackupsMeetBackup(s, done, b);
    forall i | 0 <= i < |s'.threads| ensures ThreadFits(s', s'.threads[i], done) {
      ThreadMeetsBackup(s, done, b, i);
    }
    if done < |s.sent| {
      var i :| 0 <= i < |s.threads| && s.threads[i].Replicating?;
      assert s'.threads[i].Replicating?;
    }
  }

  /** The remaining events touch neither the backups' logs nor the list of backups. */
  predicate Local<P>(e: Event<P>) {
    e.Receive? || e.Send? || e.Ack? || e.ApplyLocally? || e.FrontEndGone? || e.BackupDies? || e.PrimaryCrashes?
  }

  lemma LocalEventFits<P>(s: State<P>, done: nat, e: Event<P>, i: nat)
    requires Inv(s, done) && Enabled(s, e) && Local(e) && i < |s.threads|
    ensures ThreadFits(Apply(s, e), Apply(s, e).threads[i], done)
  {
    assert ThreadFits(s, s.threads[i], done);
  }

  lemma AckedIsDone<P>(s: State<P>, done: nat, t: nat)
    requires Inv(s, done) && Enabled(s, Ack(t))
    ensures s.threads[t].k < done && s.sent[s.threads[t].k] == s.threads[t].p
  {
    assert ThreadFits(s, s.threads[t], done);
  }

  lemma LocalEventKeeps<P>(s: State<P>, done: nat, e: Event<P>)
    requires Inv(s, done) && Enabled(s, e) && Local(e)
    ensures Inv(Apply(s, e), done)
  {
    hide ThreadFits;
    var s' := Apply(s, e);
    if e.Ack? {
      AckedIsDone(s, done, e.t);
    }
    forall i | 0 <= i < |s'.threads| ensures ThreadFits(s', s'.threads[i], done) {
      LocalEventFits(s, done, e, i);
    }
    if done < |s'.sent| {
      var i :| 0 <= i < |s.threads| && s.threads[i].Replicating?;
      assert s'.threads[i].Replicating?;
    }
  }

  lemma EventKeeps<P>(s: State<P>, done: nat, e: Event<P>) returns (done': nat)
    requires Inv(s, done) && Enabled(s, e)
    ensures Inv(Apply(s, e), done')
  {
    done' := done;
    match e
    case Lock(t) => LockKeeps(s, done, t);
    case BackupApplies(t) => BackupAppliesKeeps(s, done, t);
    case Confirmed(t) => ConfirmedKeeps(s, done, t);
    case Lost(t) => LostKeeps(s, done, t);
    case BackupConnects(b) => ConnectKeeps(s, done, b);
    case Release(t) =>
      ReleaseKeeps(s, done, t);
      done' := if s.threads[t].Replicating? then done + 1 else done;
    case _ => LocalEventKeeps(s, done, e);
  }

  // ----- Every run -----

  predicate Valid<P>(s: State<P>, events: seq<Event<P>>)
    decreases |events|
  {
    events == [] || (Enabled(s, events[0]) && Valid(Apply(s, events[0]), events[1..]))
  }

  function After<P>(s: State<P>, events: seq<Event<P>>): State<P>
    requires Valid(s, events)
    decreases |events|
  {
    if events == [] then s else After(Apply(s, events[0]), events[1..])
  }

  lemma {:induction false} InvAfter<P>(s: State<P>, done: nat, events: seq<Event<P>>) returns (done': nat)
    requires Inv(s, done) && Valid(s, events)
    ensures Inv(After(s, events), done')
    decreases |events|
  {
    if events == [] {
      done' := done;
    } else {
      var d := EventKeeps(s, done, events[0]);
      done' := InvAfter(Apply(s, events[0]), d, events[1..]);
    }
  }

  lemma InvOfRun<P>(s: State<P>, events: seq<Event<P>>) returns (done: nat)
    requires Initial(s) && Valid(s, events)
    ensures Inv(After(s, events), done)
  {
    forall b | b in s.connected ensures Holds(s, b, 0) {
    }
    done := InvAfter(s, 0, events);
  }

  /** Positions of replicated packets: no two threads have the same, and none that is acknowledged. */
  ghost predicate PositionsFit<P>(s: State<P>) {
    && (forall i, j :: 0 <= i < j < |s.threads| && s.threads[i].Replicated? && s.threads[j].Replicated? ==>
          s.threads[i].k != s.threads[j].k)
    && (forall i :: 0 <= i < |s.threads| && s.threads[i].Replicated? ==> s.threads[i].k !in s.acked)
    && (forall i, j :: 0 <= i < j < |s.acked| ==> s.acked[i] != s.acked[j])
  }

  /** No position is given out again: those of the threads and of the acknowledgements are in the past. */
  lemma ReleaseKeepsPositions<P>(s: State<P>, done: nat, t: nat)
    requires Inv(s, done) && PositionsFit(s) && Enabled(s, Release(t))
    ensures PositionsFit(Apply(s, Release(t)))
  {
    forall i | 0 <= i < |s.threads| ensures s.threads[i].Replicated? ==> s.threads[i].k < done {
      assert ThreadFits(s, s.threads[i], done);
    }
    assert ThreadFits(s, s.threads[t], done);
  }

  lemma AckKeepsPositions<P>(s: State<P>, t: nat)
    requires PositionsFit(s) && Enabled(s, Ack(t))
    ensures PositionsFit(Apply(s, Ack(t)))
  {
  }

  /** The threads with a position keep it, or a new one has none. */
  lemma SamePositions<P>(s: State<P>, s': State<P>)
    requires PositionsFit(s) && s'.acked == s.acked && |s'.threads| == |s.threads|
    requires forall i :: 0 <= i < |s.threads| && s'.threads[i].Replicated? ==> s.threads[i] == s'.threads[i]
    ensures PositionsFit(s')
  {
  }

  lemma PositionsKept<P>(s: State<P>, done: nat, e: Event<P>)
    requires Inv(s, done) && PositionsFit(s) && Enabled(s, e)
    ensures PositionsFit(Apply(s, e))
  {
    hide Inv, PositionsFit;
    match e
    case Release(t) => ReleaseKeepsPositions(s, done, t);
    case Ack(t) => AckKeepsPositions(s, t);
    case _ => SamePositions(s, Apply(s, e));
  }

  lemma {:induction false} PositionsFitAfter<P>(s: State<P>, done: nat, events: seq<Event<P>>)
    requires Inv(s, done) && PositionsFit(s) && Valid(s, events)
    ensures PositionsFit(After(s, events))
    decreases |events|
  {
    if events != [] {
      PositionsKept(s, done, events[0]);
      var d := EventKeeps(s, done, events[0]);
      PositionsFitAfter(Apply(s, events[0]), d, events[1..]);
    }
  }

  /**
    What a connected backup holds: everything that was replicated from the moment on when it connected, in
    that order, but perhaps the packet in progress.
    */
  lemma BackupsHold<P>(s: State<P>, events: seq<Event<P>>, b: Backup)
    requires Initial(s) && Valid(s, events) && b in After(s, events).connected
    ensures var s' := After(s, events);
            && b in s'.log && b in s'.since && s'.since[b] <= |s'.sent|
            && (LockFree(s') ==> s'.log[b] == s'.sent[s'.since[b]..])
            && (|| s'.log[b] == s'.sent[s'.since[b]..]
                || (s'.since[b] < |s'.sent| && s'.log[b] == s'.sent[s'.since[b]..|s'.sent| - 1]))
  {
    var done := InvOfRun(s, events);
    var s' := After(s, events);
    assert Holds(s', b, done) || Holds(s', b, |s'.sent|);
    assert s'.sent[s'.since[b]..|s'.sent|] == s'.sent[s'.since[b]..];
  }

  /**
    Acknowledged messages survive: whatever crashes, every backup still in the replication map has applied
    every message that was acknowledged, each at its place, unless it connected after its replication.
    */
  lemma AcknowledgedSurvives<P>(s: State<P>, events: seq<Event<P>>, k: nat, b: Backup)
    requires Initial(s) && Valid(s, events)
    requires k in After(s, events).acked && b in After(s, events).connected
    ensures var s' := After(s, events);
            && k < |s'.sent| && s'.sent[k].kind == MESSAGE && b in s'.log && b in s'.since
            && (s'.since[b] <= k ==>
                  k - s'.since[b] < |s'.log[b]| && s'.log[b][k - s'.since[b]] == s'.sent[k])
  {
    var done := InvOfRun(s, events);
    var s' := After(s, events);
    assert Holds(s', b, done) || Holds(s', b, |s'.sent|);
  }

  /**
    A backup that connects in the middle of a replication still gets the packet in progress exactly if the loop has
    not got past its socket: then it is among those to come, otherwise it has missed the packet.
    */
  lemma ConnectsMidway<P>(s: State<P>, events: seq<Event<P>>, t: nat, b: Backup)
    requires Initial(s) && Valid(s, events) && Enabled(After(s, events), BackupConnects(b))
    requires t < |After(s, events).threads| && After(s, events).threads[t].Replicating?
    ensures var before := After(s, events);
            var after := Apply(before, BackupConnects(b));
            var comes := before.threads[t].todo != [] && before.threads[t].todo[0] < b;
            && b in after.connected && b in after.since && after.log[b] == []
            && after.since[b] == (if comes then |before.sent| - 1 else |before.sent|)
            && (b in after.threads[t].todo <==> comes)
  {
    var done := InvOfRun(s, events);
    var before := After(s, events);
    var th := before.threads[t];
    assert ThreadFits(before, th, done);
    MissedFits(before, done, b, t);
    InsertExact(before.connected, b);
    if Visits(th, b) {
      InsertExact(th.todo, b);
    }
  }

  /**
    Failures come at any moment: a backup may die and the primary may crash in every state. A backup that has died
    before it answers is found out by the thread that has sent to it, and leaves the map; the others stay.
    */
  lemma SilentBackupIsErased<P>(s: State<P>, events: seq<Event<P>>, t: nat, b: Backup)
    requires Initial(s) && Valid(s, events)
    ensures Enabled(After(s, events), PrimaryCrashes) && Enabled(After(s, events), BackupDies(b))
    ensures var before := After(s, events);
            var after := Apply(before, BackupDies(b));
            t < |before.threads| && before.threads[t].Replicating? && before.threads[t].todo != [] && !before.crashed
            && !before.threads[t].head.NotSent? && before.threads[t].todo[0] == b ==>
              && Enabled(after, Lost(t))
              && forall c :: c in Apply(after, Lost(t)).connected <==> c in before.connected && c != b
  {
    var done := InvOfRun(s, events);
    RemoveExact(After(s, events).connected, b);
  }

  /** A crashed primary does nothing more: only the packet it has sent last may still be applied by backups. */
  lemma {:induction false} CrashStopsPrimary<P>(s: State<P>, events: seq<Event<P>>)
    requires Valid(s, [PrimaryCrashes] + events)
    ensures var s' := After(s, [PrimaryCrashes] + events);
            && s'.crashed && s'.sent == s.sent && s'.applied == s.applied && s'.acked == s.acked
            && s'.connected == s.connected
  {
    assert ([PrimaryCrashes] + events)[1..] == events;
    CrashedStays(Apply(s, PrimaryCrashes), events);
  }

  lemma {:induction false} CrashedStays<P>(s: State<P>, events: seq<Event<P>>)
    requires Valid(s, events) && s.crashed
    ensures var s' := After(s, events);
            && s'.crashed && s'.sent == s.sent && s'.applied == s.applied && s'.acked == s.acked
            && s'.connected == s.connected
    decreases |events|
  {
    if events != [] {
      CrashedStays(Apply(s, events[0]), events[1..]);
    }
  }

  /** No replicated message is acknowledged twice: as many acknowledgements as there are positions. */
  lemma AcknowledgedOnce<P>(s: State<P>, events: seq<Event<P>>, i: nat, j: nat)
    requires Initial(s) && Valid(s, events)
    requires i < j < |After(s, events).acked|
    ensures After(s, events).acked[i] != After(s, events).acked[j]
  {
    var done := InvOfRun(s, []);
    PositionsFitAfter(s, done, events);
  }

  /** `a` and `b` are equal, or one of them still lacks the last packet of the other, which is in progress. */
  ghost predicate AtMostOneAhead<P>(a: seq<Packet<P>>, b: seq<Packet<P>>) {
    a == b || (a != [] && b == a[..|a| - 1]) || (b != [] && a == b[..|b| - 1])
  }

  /**
    Of two connected backups, the one that connected later holds the end of what the other one holds. If they
    have missed the same packets they hold the same ones, in the same order, except that in the middle of
    a replication one of them may not have applied the packet in progress.
    */
  lemma BackupsAgree<P>(s: State<P>, events: seq<Event<P>>, b: Backup, c: Backup)
    requires Initial(s) && Valid(s, events)
    requires b in After(s, events).connected && c in After(s, events).connected
    ensures var s' := After(s, events);
            && b in s'.log && c in s'.log && b in s'.since && c in s'.since
            && (LockFree(s') && s'.since[b] <= s'.since[c] ==>
                  s'.since[c] - s'.since[b] <= |s'.log[b]|
                  && s'.log[c] == s'.log[b][s'.since[c] - s'.since[b]..])
            && (s'.since[b] == s'.since[c] ==> AtMostOneAhead(s'.log[b], s'.log[c]))
  {
    BackupsHold(s, events, b);
    BackupsHold(s, events, c);
  }

  // ----- The primary's own tables -----

  /** Packets replicated, or being replicated, that the thread has still to apply on the primary. */
  function Owed<P>(th: Thread<P>): seq<Packet<P>> {
    match th
    case Replicating(p, _, _, _) => [p]
    case Replicated(p, _) => [p]
    case Acked(p) => [p]
    case _ => []
  }

  ghost function AllOwed<P>(threads: seq<Thread<P>>): multiset<Packet<P>> {
    if threads == [] then multiset{} else multiset(Owed(threads[0])) + AllOwed(threads[1..])
  }

  lemma {:induction false} OwedSame<P>(threads: seq<Thread<P>>, t: nat, th: Thread<P>)
    requires t < |threads| && Owed(th) == Owed(threads[t])
    ensures AllOwed(threads[t := th]) == AllOwed(threads)
  {
    assert threads[t := th][1..] == if t == 0 then threads[1..] else threads[1..][t - 1 := th];
    if t > 0 {
      OwedSame(threads[1..], t - 1, th);
    }
  }

  lemma {:induction false} OwedMore<P>(threads: seq<Thread<P>>, t: nat, th: Thread<P>, p: Packet<P>)
    requires t < |threads| && Owed(threads[t]) == [] && Owed(th) == [p]
    ensures AllOwed(threads[t := th]) == AllOwed(threads) + multiset{p}
  {
    assert threads[t := th][1..] == if t == 0 then threads[1..] else threads[1..][t - 1 := th];
    if t > 0 {
      OwedMore(threads[1..], t - 1, th, p);
    }
  }

  lemma OwedLess<P>(threads: seq<Thread<P>>, t: nat, p: Packet<P>)
    requires t < |threads| && Owed(threads[t]) == [p]
    ensures AllOwed(threads) == AllOwed(threads[t := Idle]) + multiset{p}
  {
    OwedMore(threads[t := Idle], t, threads[t], p);
    assert threads[t := Idle][t := threads[t]] == threads;
  }

  lemma {:induction false} NothingOwed<P>(threads: seq<Thread<P>>)
    requires forall i :: 0 <= i < |threads| ==> threads[i].Idle?
    ensures AllOwed(threads) == multiset{}
  {
    if threads != [] {
      NothingOwed(threads[1..]);
    }
  }

  ghost predicate Conserved<P>(s: State<P>) {
    multiset(s.applied) + AllOwed(s.threads) == multiset(s.sent) + multiset(s.local)
  }

  lemma LockConserves<P>(s: State<P>, t: nat)
    requires Enabled(s, Lock(t)) && Conserved(s) && Replicable(s.threads[t].p)
    ensures Conserved(Apply(s, Lock(t)))
  {
    var p := s.threads[t].p;
    OwedMore(s.threads, t, Replicating(p, |s.sent|, s.connected, NotSent), p);
    assert multiset(s.sent + [p]) == multiset(s.sent) + multiset{p};
    Shuffle(multiset(s.applied), AllOwed(s.threads), multiset(s.sent), multiset(s.local), multiset{p});
  }

  lemma Shuffle<T>(a: multiset<T>, b: multiset<T>, c: multiset<T>, d: multiset<T>, e: multiset<T>)
    requires a + b == c + d
    ensures a + (b + e) == (c + e) + d && (a + e) + b == c + (d + e)
  {
    assert a + (b + e) == (a + b) + e && (a + e) + b == (a + b) + e;
    assert (c + e) + d == (c + d) + e && c + (d + e) == (c + d) + e;
  }

  lemma GoneConserves<P>(s: State<P>, e: Event<P>)
    requires e.FrontEndGone? && Enabled(s, e) && Conserved(s)
    ensures Conserved(Apply(s, e))
  {
    assert multiset(s.applied + [e.drop]) == multiset(s.applied) + multiset{e.drop};
    assert multiset(s.local + [e.drop]) == multiset(s.local) + multiset{e.drop};
    Shuffle(multiset(s.applied), AllOwed(s.threads), multiset(s.sent), multiset(s.local), multiset{e.drop});
  }

  lemma ApplyConserves<P>(s: State<P>, t: nat)
    requires Enabled(s, ApplyLocally(t)) && Conserved(s)
    ensures Conserved(Apply(s, ApplyLocally(t)))
  {
    var p, threads := s.threads[t].p, s.threads[t := Idle];
    OwedLess(s.threads, t, p);
    assert multiset(s.applied + [p]) == multiset(s.applied) + multiset{p};
    Regroup(multiset(s.applied), AllOwed(threads), multiset{p});
  }

  lemma Regroup<T>(a: multiset<T>, b: multiset<T>, c: multiset<T>)
    ensures a + (b + c) == (a + c) + b == (a + b) + c
  {
  }

  lemma {:induction false} OwedJoins<P>(threads: seq<Thread<P>>, b: Backup)
    ensures AllOwed(AllJoin(threads, b)) == AllOwed(threads)
  {
    if threads != [] {
      OwedJoins(threads[1..], b);
      assert AllJoin(threads, b)[1..] == AllJoin(threads[1..], b);
      assert Owed(Joins(threads[0], b)) == Owed(threads[0]);
    }
  }

  lemma EventConserves<P>(s: State<P>, e: Event<P>)
    requires Enabled(s, e) && Conserved(s)
    ensures Conserved(Apply(s, e))
  {
    if e.BackupDies? || e.PrimaryCrashes? {
    } else if e.BackupConnects? {
      OwedJoins(s.threads, e.b);
    } else if e.Lock? && Replicable(s.threads[e.t].p) {
      LockConserves(s, e.t);
    } else if e.ApplyLocally? {
      ApplyConserves(s, e.t);
    } else if e.FrontEndGone? {
      GoneConserves(s, e);
    } else {
      var s' := Apply(s, e);
      OwedSame(s.threads, e.t, s'.threads[e.t]);
      assert s'.threads == s.threads[e.t := s'.threads[e.t]];
    }
  }

  lemma {:induction false} ConservedAfter<P>(s: State<P>, events: seq<Event<P>>)
    requires Valid(s, events) && Conserved(s)
    ensures Conserved(After(s, events))
    decreases |events|
  {
    if events != [] {
      EventConserves(s, events[0]);
      ConservedAfter(Apply(s, events[0]), events[1..]);
    }
  }

  /**
    Nothing is lost or applied twice on the primary: under any interleaving, what it has applied and
    what its threads still hold is, as a multiset, exactly what was replicated and what it did by itself.
    */
  lemma PrimaryConserves<P>(s: State<P>, events: seq<Event<P>>)
    requires Initial(s) && Valid(s, events)
    ensures var s' := After(s, events);
            multiset(s'.applied) + AllOwed(s'.threads) == multiset(s'.sent) + multiset(s'.local)
  {
    NothingOwed(s.threads);
    ConservedAfter(s, events);
  }

  // ----- What is received is replicated and applied -----

  /** What the front ends have sent, in the order in which it was read. */
  function Received<P>(events: seq<Event<P>>): seq<Packet<P>> {
    if events == [] then []
    else (if events[0].Receive? then [events[0].packet] else []) + Received(events[1..])
  }

  /** The packets that are to be replicated and handled. */
  function Requests<P>(packets: seq<Packet<P>>): seq<Packet<P>> {
    if packets == [] then []
    else
      var kind, rest := packets[0].kind, Requests(packets[1..]);
      if kind == MESSAGE || kind == JOIN || kind == DISCONNECT then [packets[0]] + rest else rest
  }

  /** Read, but not yet replicated. */
  function Pending<P>(th: Thread<P>): seq<Packet<P>> {
    if th.Waiting? then Requests([th.p]) else []
  }

  ghost function AllPending<P>(threads: seq<Thread<P>>): multiset<Packet<P>> {
    if threads == [] then multiset{} else multiset(Pending(threads[0])) + AllPending(threads[1..])
  }

  lemma Exchange<T>(p: multiset<T>, a: multiset<T>, b: multiset<T>, c: multiset<T>, d: multiset<T>)
    requires a + b == c + d
    ensures (p + a) + b == (p + c) + d
  {
    assert (p + a) + b == p + (a + b) && (p + c) + d == p + (c + d);
  }

  lemma Swap<T>(a: multiset<T>, b: multiset<T>, c: multiset<T>)
    ensures (a + b) + c == (c + b) + a
  {
  }

  lemma {:induction false} PendingChanges<P>(threads: seq<Thread<P>>, t: nat, th: Thread<P>)
    requires t < |threads|
    ensures AllPending(threads[t := th]) + multiset(Pending(threads[t]))
         == AllPending(threads) + multiset(Pending(th))
  {
    hide Pending;
    assert threads[t := th][1..] == if t == 0 then threads[1..] else threads[1..][t - 1 := th];
    if t > 0 {
      PendingChanges(threads[1..], t - 1, th);
      Exchange(multiset(Pending(threads[0])), AllPending(threads[1..][t - 1 := th]), multiset(Pending(threads[t])),
               AllPending(threads[1..]), multiset(Pending(th)));
    } else {
      Swap(multiset(Pending(th)), AllPending(threads[1..]), multiset(Pending(threads[0])));
    }
  }

  lemma {:induction false} PendingSame<P>(threads: seq<Thread<P>>, t: nat, th: Thread<P>)
    requires t < |threads| && !threads[t].Waiting? && !th.Waiting?
    ensures AllPending(threads[t := th]) == AllPending(threads)
  {
    assert threads[t := th][1..] == if t == 0 then threads[1..] else threads[1..][t - 1 := th];
    if t > 0 {
      PendingSame(threads[1..], t - 1, th);
    }
  }

  lemma {:induction false} PendingJoins<P>(threads: seq<Thread<P>>, b: Backup)
    ensures AllPending(AllJoin(threads, b)) == AllPending(threads)
  {
    if threads != [] {
      PendingJoins(threads[1..], b);
      assert AllJoin(threads, b)[1..] == AllJoin(threads[1..], b);
    }
  }

  lemma {:induction false} NonePending<P>(threads: seq<Thread<P>>)
    requires forall i :: 0 <= i < |threads| ==> threads[i].Idle?
    ensures AllPending(threads) == multiset{}
  {
    if threads != [] {
      NonePending(threads[1..]);
    }
  }

  lemma RequestsOne<P>(p: Packet<P>)
    ensures Requests([p]) == if p.kind == MESSAGE || p.kind == JOIN || p.kind == DISCONNECT then [p] else []
  {
    assert [p][1..] == [];
  }

  lemma LockReplicates<P>(s: State<P>, t: nat)
    requires Enabled(s, Lock(t))
    ensures var s' := Apply(s, Lock(t));
            multiset(s'.sent) + AllPending(s'.threads) == multiset(s.sent) + AllPending(s.threads)
  {
    var s', p := Apply(s, Lock(t)), s.threads[t].p;
    RequestsOne(p);
    PendingChanges(s.threads, t, s'.threads[t]);
    assert s'.threads == s.threads[t := s'.threads[t]];
    assert s'.sent == s.sent + Pending(s.threads[t]);
    assert multiset(s.sent + Pending(s.threads[t])) == multiset(s.sent) + multiset(Pending(s.threads[t]));
    Transfer(multiset(s.sent), AllPending(s.threads), AllPending(s'.threads), multiset(Pending(s.threads[t])));
  }

  /** `d` goes from `b` to `a`. */
  lemma Transfer<T>(a: multiset<T>, b: multiset<T>, c: multiset<T>, d: multiset<T>)
    requires c + d == b
    ensures a + d + c == a + b
  {
  }

  lemma ReceiveWaits<P>(s: State<P>, t: nat, p: Packet<P>)
    requires Enabled(s, Receive(t, p))
    ensures AllPending(Apply(s, Receive(t, p)).threads) == AllPending(s.threads) + multiset(Requests([p]))
  {
    PendingChanges(s.threads, t, Waiting(p));
    assert Pending(s.threads[t]) == [] && Pending(Thread.Waiting(p)) == Requests([p]);
  }

  /** The other steps neither read nor replicate. */
  lemma OthersReplicateNothing<P>(s: State<P>, e: Event<P>)
    requires Enabled(s, e) && !e.Receive? && !e.Lock?
    ensures Apply(s, e).sent == s.sent && AllPending(Apply(s, e).threads) == AllPending(s.threads)
  {
    var s' := Apply(s, e);
    if e.BackupConnects? {
      PendingJoins(s.threads, e.b);
    } else if !e.BackupDies? && !e.PrimaryCrashes? && !e.FrontEndGone? {
      PendingSame(s.threads, e.t, s'.threads[e.t]);
      assert s'.threads == s.threads[e.t := s'.threads[e.t]];
    }
  }

  /** One step brings in the packet it reads, if any, and replicates only what was waiting. */
  lemma StepReplicates<P>(s: State<P>, e: Event<P>)
    requires Enabled(s, e)
    ensures var s' := Apply(s, e);
            var read := if e.Receive? then Requests([e.packet]) else [];
            multiset(s'.sent) + AllPending(s'.threads) == multiset(s.sent) + AllPending(s.threads) + multiset(read)
  {
    match e
    case Receive(t, p) =>
      ReceiveWaits(s, t, p);
      Regroup(multiset(s.sent), AllPending(s.threads), multiset(Requests([p])));
    case Lock(t) => LockReplicates(s, t);
    case _ => OthersReplicateNothing(s, e);
  }

  lemma {:induction false} RequestsFirst<P>(packets: seq<Packet<P>>)
    requires packets != []
    ensures Requests(packets) == Requests([packets[0]]) + Requests(packets[1..])
  {
    assert [packets[0]][1..] == [];
  }

  lemma {:induction false} ReplicatedAfter<P>(s: State<P>, events: seq<Event<P>>)
    requires Valid(s, events)
    ensures var s' := After(s, events);
            multiset(s'.sent) + AllPending(s'.threads)
            == multiset(s.sent) + AllPending(s.threads) + multiset(Requests(Received(events)))
    decreases |events|
  {
    if events != [] {
      StepReplicates(s, events[0]);
      ReplicatedAfter(Apply(s, events[0]), events[1..]);
      if events[0].Receive? {
        var all := Received(events);
        assert all[0] == events[0].packet && all[1..] == Received(events[1..]);
        RequestsFirst(all);
      } else {
        assert Received(events) == Received(events[1..]);
      }
    }
  }

  /**
    Every message, join and disconnection that is received is replicated once or waits for it, and nothing else
    is, under any interleaving. When all is quiet the primary has applied exactly these, and what it did by itself.
    */
  lemma ReceivedIsHandled<P>(s: State<P>, events: seq<Event<P>>)
    requires Initial(s) && Valid(s, events)
    ensures var s' := After(s, events);
            && multiset(s'.sent) + AllPending(s'.threads) == multiset(Requests(Received(events)))
            && (Settled(s') ==> multiset(s'.applied) == multiset(Requests(Received(events))) + multiset(s'.local))
  {
    var s' := After(s, events);
    ReplicatedAfter(s, events);
    NonePending(s.threads);
    PrimaryConserves(s, events);
    if Settled(s') {
      NonePending(s'.threads);
      NothingOwed(s'.threads);
      assert multiset(s'.sent) + multiset{} == multiset(s'.sent);
      assert multiset(s'.applied) + multiset{} == multiset(s'.applied);
    }
  }

  // ----- Every replicated message is acknowledged -----

  /** The packet at a position is not acknowledged yet: its thread is at it. */
  predicate AtPosition<P>(th: Thread<P>, k: nat) { (th.Replicating? || th.Replicated?) && th.k == k }

  ghost predicate Answered<P>(s: State<P>, k: nat) {
    k in s.acked || exists i {:trigger s.threads[i]} :: 0 <= i < |s.threads| && AtPosition(s.threads[i], k)
  }

  lemma AnsweredStays<P>(s: State<P>, e: Event<P>, k: nat)
    requires Enabled(s, e) && k < |s.sent| && Answered(s, k)
    requires forall i :: 0 <= i < |s.threads| && AtPosition(s.threads[i], k) ==> s.threads[i].p.kind == MESSAGE
    ensures Answered(Apply(s, e), k)
  {
    var s' := Apply(s, e);
    if k !in s.acked {
      var i :| 0 <= i < |s.threads| && AtPosition(s.threads[i], k);
      assert k in s'.acked || AtPosition(s'.threads[i], k);
    }
  }

  lemma NewIsAnswered<P>(s: State<P>, e: Event<P>)
    requires Enabled(s, e) && |Apply(s, e).sent| > |s.sent|
    ensures |Apply(s, e).sent| == |s.sent| + 1 && Answered(Apply(s, e), |s.sent|)
  {
    assert AtPosition(Apply(s, e).threads[e.t], |s.sent|);
  }

  ghost predicate AllAnswered<P>(s: State<P>) {
    forall k :: 0 <= k < |s.sent| && s.sent[k].kind == MESSAGE ==> Answered(s, k)
  }

  lemma StepAnswers<P>(s: State<P>, done: nat, e: Event<P>)
    requires Inv(s, done) && Enabled(s, e) && AllAnswered(s)
    ensures AllAnswered(Apply(s, e))
  {
    var s' := Apply(s, e);
    forall k | 0 <= k < |s'.sent| && s'.sent[k].kind == MESSAGE ensures Answered(s', k) {
      if k < |s.sent| {
        assert s'.sent[k] == s.sent[k];
        forall i | 0 <= i < |s.threads| && AtPosition(s.threads[i], k) ensures s.threads[i].p.kind == MESSAGE {
          assert ThreadFits(s, s.threads[i], done);
        }
        AnsweredStays(s, e, k);
      } else {
        NewIsAnswered(s, e);
      }
    }
  }

  lemma {:induction false} AnsweredAfter<P>(s: State<P>, done: nat, events: seq<Event<P>>)
    requires Inv(s, done) && AllAnswered(s) && Valid(s, events)
    ensures AllAnswered(After(s, events))
    decreases |events|
  {
    if events != [] {
      StepAnswers(s, done, events[0]);
      var d := EventKeeps(s, done, events[0]);
      AnsweredAfter(Apply(s, events[0]), d, events[1..]);
    }
  }

  /** When all is quiet, exactly the replicated messages have been acknowledged: no join, no disconnection. */
  lemma MessagesAreAcknowledged<P>(s: State<P>, events: seq<Event<P>>, k: nat)
    requires Initial(s) && Valid(s, events) && Settled(After(s, events)) && k < |After(s, events).sent|
    ensures k in After(s, events).acked <==> After(s, events).sent[k].kind == MESSAGE
  {
    var done := InvOfRun(s, []);
    AnsweredAfter(s, done, events);
    var done' := InvOfRun(s, events);
    assert After(s, events).sent[k].kind == MESSAGE ==> Answered(After(s, events), k);
  }

  /** What the only thread, if there is one, has still to apply. */
  function OnlyOwed<P>(threads: seq<Thread<P>>): seq<Packet<P>> {
    if threads == [] then [] else Owed(threads[0])
  }

  lemma {:induction false} GoneGrows<P>(s: State<P>, events: seq<Event<P>>)
    requires Valid(s, events)
    ensures s.gone <= After(s, events).gone
    decreases |events|
  {
    if events != [] {
      GoneGrows(Apply(s, events[0]), events[1..]);
    }
  }

  lemma {:induction false} ThreadsStay<P>(s: State<P>, events: seq<Event<P>>)
    requires Valid(s, events)
    ensures |After(s, events).threads| == |s.threads|
    decreases |events|
  {
    if events != [] {
      ThreadsStay(Apply(s, events[0]), events[1..]);
    }
  }

  lemma {:induction false} GoneAreThreads<P>(s: State<P>, events: seq<Event<P>>)
    requires Valid(s, events) && forall t <- s.gone :: t < |s.threads|
    ensures forall t <- After(s, events).gone :: t < |s.threads|
    decreases |events|
  {
    if events != [] {
      GoneAreThreads(Apply(s, events[0]), events[1..]);
    }
  }

  lemma {:induction false} OneThreadOrder<P>(s: State<P>, events: seq<Event<P>>)
    requires Valid(s, events) && |s.threads| <= 1 && After(s, events).gone == {}
    requires s.applied + OnlyOwed(s.threads) == s.sent && s.local == []
    ensures var s' := After(s, events);
            |s'.threads| <= 1 && s'.applied + OnlyOwed(s'.threads) == s'.sent && s'.local == []
    decreases |events|
  {
    if events != [] {
      var s1 := Apply(s, events[0]);
      GoneGrows(s1, events[1..]);
      assert s1.applied + OnlyOwed(s1.threads) == s1.sent;
      OneThreadOrder(s1, events[1..]);
    }
  }

  ghost predicate Settled<P>(s: State<P>) {
    forall i :: 0 <= i < |s.threads| ==> s.threads[i].Idle?
  }

  /**
    With a single front-end thread, whenever it is idle every connected backup has applied what the primary has,
    but for the packets it has missed by connecting late.
    */
  lemma OneThreadKeepsReplicasEqual<P>(s: State<P>, events: seq<Event<P>>, b: Backup)
    requires Initial(s) && |s.threads| <= 1 && Valid(s, events)
    requires Settled(After(s, events)) && After(s, events).gone == {} && b in After(s, events).connected
    ensures var s' := After(s, events);
            && b in s'.log && b in s'.since && s'.since[b] <= |s'.applied|
            && s'.log[b] == s'.applied[s'.since[b]..] && s'.applied == s'.sent
  {
    OneThreadOrder(s, events);
    BackupsHold(s, events, b);
  }

  /** When its front end is gone, an idle thread handles nothing more. */
  lemma {:induction false} OneThreadRests<P>(s: State<P>, events: seq<Event<P>>)
    requires Valid(s, events) && s.threads == [Idle] && 0 in s.gone
    ensures var s' := After(s, events);
            s'.threads == [Idle] && s'.applied == s.applied && s'.sent == s.sent
    decreases |events|
  {
    if events != [] {
      OneThreadRests(Apply(s, events[0]), events[1..]);
    }
  }

  // ----- With two threads the order may differ -----

  lemma Prepend<P>(s: State<P>, e: Event<P>, rest: seq<Event<P>>)
    requires Enabled(s, e) && Valid(Apply(s, e), rest)
    ensures Valid(s, [e] + rest) && After(s, [e] + rest) == After(Apply(s, e), rest)
  {
    assert ([e] + rest)[1..] == rest;
  }

  lemma {:induction false} Concat<P>(s: State<P>, first: seq<Event<P>>, rest: seq<Event<P>>)
    requires Valid(s, first) && Valid(After(s, first), rest)
    ensures Valid(s, first + rest) && After(s, first + rest) == After(After(s, first), rest)
    decreases |first|
  {
    if first == [] {
      assert first + rest == rest;
    } else {
      Concat(Apply(s, first[0]), first[1..], rest);
      assert (first + rest)[1..] == first[1..] + rest;
    }
  }

  lemma ThreeEvents<P>(s: State<P>, e1: Event<P>, e2: Event<P>, e3: Event<P>, s': State<P>)
    requires Enabled(s, e1) && Enabled(Apply(s, e1), e2) && Enabled(Apply(Apply(s, e1), e2), e3)
    requires s' == Apply(Apply(Apply(s, e1), e2), e3)
    ensures Valid(s, [e1, e2, e3]) && After(s, [e1, e2, e3]) == s'
  {
    var s1 := Apply(s, e1);
    var s2 := Apply(s1, e2);
    Prepend(s2, e3, []);
    Prepend(s1, e2, [e3]);
    Prepend(s, e1, [e2, e3]);
    assert [e3] + [] == [e3] && [e2] + [e3] == [e2, e3] && [e1] + [e2, e3] == [e1, e2, e3];
  }

  /** Neither a packet's arrival nor the loss of a front end, nor a new connection. */
  predicate Inner<P>(e: Event<P>) { !e.Receive? && !e.FrontEndGone? && !e.BackupConnects? }

  /** What one thread can do without the others, while no backup dies: the live backups stay connected. */
  ghost predicate Undisturbed<P>(s: State<P>, s': State<P>) {
    && s'.alive == s.alive && s'.gone == s.gone && s'.since == s.since && !s'.crashed
    && forall b :: b in s.connected && b in s.alive ==> b in s'.connected
  }

  lemma NextApplies<P>(s: State<P>, t: nat, done: nat) returns (s2: State<P>, done': nat)
    requires Inv(s, done) && !s.crashed && t < |s.threads|
    requires s.threads[t].Replicating? && s.threads[t].todo != [] && s.threads[t].head.NotSent?
    requires s.threads[t].todo[0] in s.alive
    ensures Enabled(s, Send(t)) && Enabled(Apply(s, Send(t)), BackupApplies(t))
    ensures s2 == Apply(Apply(s, Send(t)), BackupApplies(t)) && Inv(s2, done')
    ensures s2.threads == s.threads[t := s.threads[t].(head := Applied)]
    ensures s2.sent == s.sent && s2.applied == s.applied && Undisturbed(s, s2)
  {
    assert ThreadFits(s, s.threads[t], done);
    assert Holds(s, s.threads[t].todo[0], done);
    var s1 := Apply(s, Send(t));
    done' := EventKeeps(s, done, Send(t));
    s2 := Apply(s1, BackupApplies(t));
    done' := EventKeeps(s1, done', BackupApplies(t));
  }

  /** The next backup applies the packet in progress and confirms it. */
  lemma NextAnswers<P>(s: State<P>, t: nat, done: nat) returns (events: seq<Event<P>>, s': State<P>, done': nat)
    requires Inv(s, done) && !s.crashed && t < |s.threads|
    requires s.threads[t].Replicating? && s.threads[t].todo != [] && s.threads[t].head.NotSent?
    requires s.threads[t].todo[0] in s.alive
    ensures forall e <- events :: Inner(e)
    ensures Valid(s, events) && s' == After(s, events) && Inv(s', done')
    ensures s'.threads == s.threads[t := s.threads[t].(todo := s.threads[t].todo[1..], head := NotSent)]
    ensures s'.sent == s.sent && s'.applied == s.applied && Undisturbed(s, s')
  {
    var s2, done2 := NextApplies(s, t, done);
    s' := Apply(s2, Confirmed(t));
    done' := EventKeeps(s2, done2, Confirmed(t));
    events := [Send(t), BackupApplies(t), Confirmed(t)];
    ThreeEvents(s, Send(t), BackupApplies(t), Confirmed(t), s');
  }

  /** The next backup is dead and is taken off the list. */
  lemma NextIsLost<P>(s: State<P>, t: nat, done: nat) returns (events: seq<Event<P>>, s': State<P>, done': nat)
    requires Inv(s, done) && !s.crashed && t < |s.threads|
    requires s.threads[t].Replicating? && s.threads[t].todo != [] && s.threads[t].head.NotSent?
    requires s.threads[t].todo[0] !in s.alive
    ensures forall e <- events :: Inner(e)
    ensures Valid(s, events) && s' == After(s, events) && Inv(s', done')
    ensures s'.threads == s.threads[t := s.threads[t].(todo := s.threads[t].todo[1..], head := NotSent)]
    ensures s'.sent == s.sent && s'.applied == s.applied && Undisturbed(s, s')
  {
    hide ThreadFits, Holds;
    var s1 := Apply(s, Send(t));
    done' := EventKeeps(s, done, Send(t));
    s' := Apply(s1, Lost(t));
    done' := EventKeeps(s1, done', Lost(t));
    RemoveExact(s1.connected, s.threads[t].todo[0]);
    Prepend(s1, Lost(t), []);
    Prepend(s, Send(t), [Lost(t)]);
    events := [Send(t)] + [Lost(t)];
  }

  /** The loop over the backups runs to its end. */
  lemma {:induction false} AllBackups<P>(s: State<P>, t: nat, done: nat)
    returns (events: seq<Event<P>>, s': State<P>, done': nat)
    requires Inv(s, done) && !s.crashed && t < |s.threads|
    requires s.threads[t].Replicating? && s.threads[t].head.NotSent?
    ensures forall e <- events :: Inner(e)
    ensures Valid(s, events) && s' == After(s, events) && Inv(s', done')
    ensures s'.threads == s.threads[t := Replicated(s.threads[t].p, s.threads[t].k)]
    ensures s'.sent == s.sent && s'.applied == s.applied && Undisturbed(s, s')
    decreases |s.threads[t].todo|
  {
    hide Inv;
    if s.threads[t].todo == [] {
      s' := Apply(s, Release(t));
      done' := EventKeeps(s, done, Release(t));
      Prepend(s, Release(t), []);
      events := [Release(t)] + [];
    } else {
      var first, s1, done1;
      if s.threads[t].todo[0] in s.alive {
        first, s1, done1 := NextAnswers(s, t, done);
      } else {
        first, s1, done1 := NextIsLost(s, t, done);
      }
      var rest;
      rest, s', done' := AllBackups(s1, t, done1);
      Concat(s, first, rest);
      events := first + rest;
    }
  }

  /** An idle thread replicates a message, undisturbed. */
  lemma Replicates<P>(s: State<P>, t: nat, p: Packet<P>, done: nat)
    returns (events: seq<Event<P>>, s': State<P>, done': nat)
    requires Inv(s, done) && !s.crashed && LockFree(s) && Replicable(p)
    requires t < |s.threads| && s.threads[t].Idle? && t !in s.gone
    ensures forall e <- events :: Inner(e) || e == Receive(t, p)
    ensures Valid(s, events) && s' == After(s, events) && Inv(s', done')
    ensures s'.threads == s.threads[t := Replicated(p, |s.sent|)]
    ensures s'.sent == s.sent + [p] && s'.applied == s.applied && Undisturbed(s, s')
  {
    var s1 := Apply(s, Receive(t, p));
    var done1 := EventKeeps(s, done, Receive(t, p));
    assert LockFree(s1);
    var s2 := Apply(s1, Lock(t));
    var done2 := EventKeeps(s1, done1, Lock(t));
    var rest;
    rest, s', done' := AllBackups(s2, t, done2);
    Prepend(s1, Lock(t), rest);
    Prepend(s, Receive(t, p), [Lock(t)] + rest);
    events := [Receive(t, p)] + ([Lock(t)] + rest);
  }

  /** The thread acknowledges and applies the message it has replicated. */
  lemma Finishes<P>(s: State<P>, t: nat, p: Packet<P>, k: nat) returns (events: seq<Event<P>>, s': State<P>)
    requires !s.crashed && t < |s.threads| && s.threads[t] == Replicated(p, k)
    ensures forall e <- events :: Inner(e)
    ensures Valid(s, events) && s' == After(s, events)
    ensures s'.threads == s.threads[t := Idle]
    ensures s'.sent == s.sent && s'.applied == s.applied + [p] && s'.log == s.log && Undisturbed(s, s')
    ensures s'.acked == if p.kind == MESSAGE then s.acked + [k] else s.acked
  {
    var s1 := Apply(s, Ack(t));
    s' := Apply(s1, ApplyLocally(t));
    Prepend(s1, ApplyLocally(t), []);
    Prepend(s, Ack(t), [ApplyLocally(t)]);
    events := [Ack(t)] + [ApplyLocally(t)];
  }

  /** A backup that has missed nothing has applied everything when no replication is in progress. */
  lemma HoldsAll<P>(s: State<P>, events: seq<Event<P>>, b: Backup)
    requires Initial(s) && Valid(s, events) && b in s.connected
    requires b in After(s, events).connected && LockFree(After(s, events))
    ensures b in After(s, events).log && After(s, events).log[b] == After(s, events).sent
  {
    SinceStays(s, events, b);
    BackupsHold(s, events, b);
  }

  /** Two threads replicate one packet each, and the second one applies its own first. */
  lemma OutOfOrder<P>(s: State<P>, p: Packet<P>, q: Packet<P>) returns (events: seq<Event<P>>, s': State<P>)
    requires Initial(s) && |s.threads| >= 2 && Replicable(p) && Replicable(q)
    ensures forall e <- events :: Inner(e) || e == Receive(0, p) || e == Receive(1, q)
    ensures Valid(s, events) && s' == After(s, events)
    ensures s'.threads == s.threads && s'.sent == [p, q] && s'.applied == [q, p] && Undisturbed(s, s')
  {
    hide Inv;
    var done := InvOfRun(s, []);
    var e1, s1, done1 := Replicates(s, 0, p, done);
    var e2, s2, done2 := Replicates(s1, 1, q, done1);
    var e3, s3 := Finishes(s2, 1, q, 1);
    var e4;
    e4, s' := Finishes(s3, 0, p, 0);
    Concat(s2, e3, e4);
    Concat(s, e1, e2);
    Concat(s, e1 + e2, e3 + e4);
    events := e1 + e2 + (e3 + e4);
    assert s'.threads == s.threads;
  }

  /**
    The semaphore is released before the primary applies a packet, so two front-end threads can leave
    the primary with another order than its backups: all is quiet, and still the logs differ.
    */
  lemma TwoThreadsReorder<P>(s: State<P>, p: Packet<P>, q: Packet<P>, b: Backup) returns (events: seq<Event<P>>)
    requires Initial(s) && |s.threads| >= 2 && b in s.connected && b in s.alive
    requires Replicable(p) && Replicable(q)
    ensures forall e <- events :: Inner(e) || e == Receive(0, p) || e == Receive(1, q)
    ensures Valid(s, events)
    ensures var s' := After(s, events);
            && s'.threads == s.threads && s'.gone == {} && b in s'.connected && b in s'.log
            && s'.log[b] == [p, q] && s'.applied == [q, p]
  {
    var s';
    events, s' := OutOfOrder(s, p, q);
    HoldsAll(s, events, b);
  }

  /** A front end goes after its packet has been applied everywhere; what the primary then does stays with it. */
  lemma ThenGone<P>(s: State<P>, p: Packet<P>, drop: Packet<P>, b: Backup) returns (events: seq<Event<P>>)
    requires Initial(s) && |s.threads| >= 1 && b in s.connected && b in s.alive && Replicable(p)
    ensures forall e <- events :: Inner(e) || e == Receive(0, p) || e == FrontEndGone(0, drop)
    ensures Valid(s, events)
    ensures var s' := After(s, events);
            && s'.threads == s.threads && b in s'.connected && b in s'.log
            && s'.log[b] == [p] && s'.applied == [p, drop]
  {
    hide Inv;
    var done := InvOfRun(s, []);
    var e1, s1, done1 := Replicates(s, 0, p, done);
    var e2, s2 := Finishes(s1, 0, p, 0);
    assert s2.threads == s.threads;
    Prepend(s2, FrontEndGone(0, drop), []);
    Concat(s, e1, e2);
    Concat(s, e1 + e2, [FrontEndGone(0, drop)] + []);
    events := e1 + e2 + ([FrontEndGone(0, drop)] + []);
    HoldsAll(s, events, b);
  }

  // ----- A backup may connect too late -----

  /** A socket that was not used before. */
  lemma FreshSocket(used: set<Backup>) returns (b: Backup)
    ensures b !in used
  {
    if used == {} {
      b := 0;
    } else {
      var top := Largest(used);
      b := top + 1;
    }
  }

  lemma {:induction false} Largest(used: set<Backup>) returns (top: Backup)
    requires used != {}
    ensures top in used && forall x <- used :: x <= top
  {
    var x: Backup :| x in used;
    var rest := used - {x};
    assert used == rest + {x};
    top := x;
    if rest != {} {
      var y := Largest(rest);
      top := if x < y then y else x;
    }
  }

  /** A backup that connects before anything happens has as good a start as the others. */
  lemma ConnectsAtOnce<P>(s: State<P>, b: Backup)
    requires Initial(s) && b !in s.log
    ensures Enabled(s, BackupConnects(b))
    ensures var s' := Apply(s, BackupConnects(b));
            Initial(s') && b in s'.connected && b in s'.alive && s'.threads == s.threads
  {
    var s' := Apply(s, BackupConnects(b));
    assert b !in s.connected;
    InsertExact(s.connected, b);
    assert s'.threads == s.threads;
  }

  lemma ConnectsLate<P>(s: State<P>, b: Backup)
    requires LockFree(s) && Enabled(s, BackupConnects(b)) && Sorted(s.connected) && b !in s.connected
    ensures var s' := Apply(s, BackupConnects(b));
            && s'.threads == s.threads && s'.sent == s.sent && s'.applied == s.applied && s'.acked == s.acked
            && s'.gone == s.gone && !s'.crashed
            && b in s'.connected && b in s'.alive && b in s'.since && s'.since[b] == |s.sent|
  {
    InsertExact(s.connected, b);
    assert Apply(s, BackupConnects(b)).threads == s.threads;
  }

  /** An idle thread handles a packet from its arrival to the end, undisturbed. */
  lemma Handles<P>(s: State<P>, t: nat, p: Packet<P>, done: nat)
    returns (events: seq<Event<P>>, s': State<P>, done': nat)
    requires Inv(s, done) && !s.crashed && LockFree(s) && Replicable(p)
    requires t < |s.threads| && s.threads[t].Idle? && t !in s.gone
    ensures forall e <- events :: Inner(e) || e == Receive(t, p)
    ensures Valid(s, events) && s' == After(s, events) && Inv(s', done')
    ensures s'.threads == s.threads && s'.sent == s.sent + [p] && s'.applied == s.applied + [p]
    ensures Undisturbed(s, s') && (p.kind == MESSAGE ==> |s.sent| in s'.acked)
  {
    hide Inv;
    var e1, s1, done1 := Replicates(s, t, p, done);
    var e2;
    e2, s' := Finishes(s1, t, p, |s.sent|);
    Concat(s, e1, e2);
    events := e1 + e2;
    done' := InvAfter(s1, done1, e2);
    assert s'.threads == s.threads;
  }

  /** A backup connects after the first of two packets, and never gets it; the second one is acknowledged. */
  lemma ThenConnects<P>(s: State<P>, p: Packet<P>, q: Packet<P>) returns (events: seq<Event<P>>, b: Backup)
    requires Initial(s) && |s.threads| >= 1 && Replicable(p) && Replicable(q)
    ensures forall e <- events :: Inner(e) || e == Receive(0, p) || e == Receive(0, q) || e == BackupConnects(b)
    ensures Valid(s, events)
    ensures var s' := After(s, events);
            && s'.threads == s.threads && s'.gone == {} && !s'.crashed && b in s'.connected && b in s'.log
            && s'.log[b] == [q] && s'.applied == [p, q]
            && s'.sent == [p, q] && (q.kind == MESSAGE ==> 1 in s'.acked)
  {
    var done := InvOfRun(s, []);
    var e1, s1, done1 := Handles(s, 0, p, done);
    b := FreshSocket(s1.log.Keys);
    var connects := BackupConnects(b);
    assert Sorted(s1.connected) && b !in s1.connected;
    ConnectsLate(s1, b);
    var s2 := Apply(s1, connects);
    var done2 := EventKeeps(s1, done1, connects);
    var e3, s3, done3 := Handles(s2, 0, q, done2);
    Prepend(s1, connects, e3);
    Concat(s, e1, [connects] + e3);
    events := e1 + ([connects] + e3);
    LateHolds(s, events, b, q);
  }

  lemma LateHolds<P>(s: State<P>, events: seq<Event<P>>, b: Backup, q: Packet<P>)
    requires Initial(s) && Valid(s, events)
    requires var s' := After(s, events);
             && b in s'.connected && LockFree(s') && b in s'.since && s'.since[b] == 1
             && |s'.sent| == 2 && s'.sent[1] == q
    ensures b in After(s, events).log && After(s, events).log[b] == [q]
  {
    BackupsHold(s, events, b);
    assert After(s, events).sent[1..] == [q];
  }

  /** Backups that were there from the start have missed nothing. */
  lemma {:induction false} SinceStays<P>(s: State<P>, events: seq<Event<P>>, b: Backup)
    requires Valid(s, events) && b in s.log && b in s.since
    ensures b in After(s, events).log && b in After(s, events).since && After(s, events).since[b] == s.since[b]
    decreases |events|
  {
    if events != [] {
      SinceStays(Apply(s, events[0]), events[1..], b);
    }
  }

  // ----- The loop over rm_connect_sockets_fd, in place -----

  /** One round of the loop over the backups: which of them are done and which are still to come. */
  lemma CursorMoves(sockets: seq<Backup>, i: nat)
    requires i < |sockets| && Sorted(sockets)
    ensures sockets[i] !in sockets[..i]
    ensures forall b :: b in sockets[i + 1..] <==> b in sockets[i..] && b != sockets[i]
    ensures forall b :: b in sockets[..i + 1] <==> b in sockets[..i] || b == sockets[i]
  {
    assert sockets[i..] == [sockets[i]] + sockets[i + 1..];
    assert sockets[..i + 1] == sockets[..i] + [sockets[i]];
  }

  class ReplicationManager<P> {
    var rmConnectSockets: seq<Backup>
    var log: map<Backup, seq<Packet<P>>>

    ghost predicate Valid()
      reads this
    {
      Sorted(rmConnectSockets) && forall b :: b in rmConnectSockets ==> b in log
    }

    constructor ()
      ensures Valid() && rmConnectSockets == [] && log == map[]
    {
      rmConnectSockets, log := [], map[];
    }

    /** acceptRMConnection: a new backup is listed, with nothing applied. */
    method Accept(socket: Backup)
      requires Valid() && socket !in log
      modifies this
      ensures Valid() && rmConnectSockets == Insert(old(rmConnectSockets), socket)
      ensures forall b :: b in rmConnectSockets <==> b in old(rmConnectSockets) || b == socket
      ensures log == old(log)[socket := []]
    {
      InsertExact(rmConnectSockets, socket);
      rmConnectSockets, log := Insert(rmConnectSockets, socket), log[socket := []];
    }

    /**
      The critical section of one packet. `applies` are the backups that get to apply it, `answers` those
      whose confirmation arrives; the others are found disconnected and erased from the map.
      */
    method Replicate(p: Packet<P>, applies: set<Backup>, answers: set<Backup>)
      requires Valid() && answers <= applies
      modifies this
      ensures Valid() && log.Keys == old(log).Keys
      ensures forall b :: b in rmConnectSockets <==> b in old(rmConnectSockets) && b in answers
      ensures forall b :: b in log ==>
                log[b] == if b in old(rmConnectSockets) && b in applies then old(log)[b] + [p] else old(log)[b]
    {
      hide Sorted, Remove;
      var sockets := rmConnectSockets;
      var i := 0;
      while i < |sockets|
        invariant 0 <= i <= |sockets|
        invariant Valid() && log.Keys == old(log).Keys
        invariant forall b :: b in rmConnectSockets <==> b in sockets && (b in answers || b in sockets[i..])
        invariant forall b :: b in log ==>
                    log[b] == if b in sockets[..i] && b in applies then old(log)[b] + [p] else old(log)[b]
      {
        var b := sockets[i];
        CursorMoves(sockets, i);
        if b in applies {
          log := log[b := log[b] + [p]];
        }
        if b !in answers {
          RemoveExact(rmConnectSockets, b);
          rmConnectSockets := Remove(rmConnectSockets, b);
        }
        i := i + 1;
      }
    }
  }
}
