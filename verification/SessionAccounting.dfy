/**
  Session accounting under interleaving (src/server/server.cpp:83-107, 326-351;
  src/server/server_group_manager.cpp:18-59; src/server/Group.cpp:101-178). A join reserves a session in
  connectionsCount under one semaphore; then, under none, it looks its group up, creates it if it is
  missing and fetches the pointer; and it inserts the session under the group's semaphore. A
  disconnection fetches one group after the other and disconnects in it. The events are these steps,
  by any number of threads and in any order.

  Group objects are numbered as they are created. Creating a group that another thread has created in
  the meantime replaces the other object in the table, for good.
  */
module SessionAccounting {
  import opened Common
  import opened Users
  import opened Groups
  import opened FeDisconnect
  import opened Servers

  datatype JoinRequest = JoinRequest(user: string, group: string, conn: Conn)

  /** How far a join has got in registerUserToGroup. */
  datatype Stage = Admitted | Missing | Found | Holding(o: nat)

  datatype Pending = Pending(request: JoinRequest, stage: Stage)

  /**
    `objects` are all Group objects ever made, `table` is groupMap; `pending` holds the joins that are
    reserved but not inserted, `used` the client ids seen so far, `visiting` the group object about to
    be told of a disconnection.
    */
  datatype State = State(objects: seq<GroupState>, table: map<string, nat>, counts: Counts, pending: seq<Pending>,
                         used: set<string>, visiting: Option<nat>)

  datatype Event =
    | Reserve(request: JoinRequest)
    | Lookup(i: nat)
    | Create(i: nat)
    | Fetch(i: nat)
    | Register(i: nat, isPrimary: bool, now: int)
    | Visit(group: string)
    | Disconnect(client: string, fe: string, isPrimary: bool, now: int)

  const EMPTY := State([], map[], map[], [], {}, None)

  /** Every JOIN carries a fresh client id, which is not a front-end address. */
  predicate Enabled(s: State, e: Event) {
    match e
    case Reserve(r) => r.conn.client !in s.used && r.conn.client != r.conn.fe
    case Lookup(i) => i < |s.pending| && s.pending[i].stage.Admitted?
    case Create(i) => i < |s.pending| && s.pending[i].stage.Missing?
    case Fetch(i) => i < |s.pending| && s.pending[i].stage.Found? && s.pending[i].request.group in s.table
    case Register(i, _, _) => i < |s.pending| && s.pending[i].stage.Holding? && s.pending[i].stage.o < |s.objects|
    case Visit(group) => s.visiting.None? && group in s.table
    case Disconnect(_, _, _, _) => s.visiting.Some? && s.visiting.value < |s.objects|
  }

  function At(s: State, i: nat, stage: Stage): State
    requires i < |s.pending|
  {
    s.(pending := s.pending[i := Pending(s.pending[i].request, stage)])
  }

  function Apply(s: State, e: Event): State
    requires Enabled(s, e)
  {
    match e
    case Reserve(r) =>
      var (counts, granted) := Increment(s.counts, r.user);
      s.(counts := counts, used := s.used + {r.conn.client},
         pending := if granted then s.pending + [Pending(r, Admitted)] else s.pending)
    case Lookup(i) => At(s, i, if s.pending[i].request.group in s.table then Found else Missing)
    case Create(i) =>
      var group := s.pending[i].request.group;
      At(s, i, Found).(objects := s.objects + [GroupState(group, [], [], [])], table := s.table[group := |s.objects|])
    case Fetch(i) => At(s, i, Holding(s.table[s.pending[i].request.group]))
    case Register(i, isPrimary, now) =>
      var r, o := s.pending[i].request, s.pending[i].stage.o;
      s.(objects := s.objects[o := RegisterIn(s.objects[o], r.conn, r.user, isPrimary, now).0],
         pending := s.pending[..i] + s.pending[i + 1..])
    case Visit(group) => s.(visiting := Some(s.table[group]))
    case Disconnect(client, fe, isPrimary, now) =>
      var o := s.visiting.value;
      var (group, counts) := DisconnectIn(s.objects[o], s.counts, client, fe, isPrimary, now);
      s.(objects := s.objects[o := group], counts := counts, visiting := None)
  }

  // ----- Counting -----

  function Total(groups: seq<GroupState>, user: string): nat {
    if groups == [] then 0 else SessionsOf(groups[0].users, user) + Total(groups[1..], user)
  }

  function Reserved(pending: seq<Pending>, user: string): nat {
    if pending == [] then 0 else (if pending[0].request.user == user then 1 else 0) + Reserved(pending[1..], user)
  }

  lemma {:induction false} TotalUpdate(groups: seq<GroupState>, i: nat, g: GroupState, user: string)
    requires i < |groups|
    ensures Total(groups[i := g], user)
         == Total(groups, user) - SessionsOf(groups[i].users, user) + SessionsOf(g.users, user)
    ensures SessionsOf(groups[i].users, user) <= Total(groups, user)
  {
    if i > 0 {
      TotalUpdate(groups[1..], i - 1, g, user);
      assert groups[i := g][1..] == groups[1..][i - 1 := g];
    } else {
      assert groups[0 := g][1..] == groups[1..];
    }
  }

  lemma {:induction false} TotalAppend(groups: seq<GroupState>, g: GroupState, user: string)
    ensures Total(groups + [g], user) == Total(groups, user) + SessionsOf(g.users, user)
  {
    if groups == [] {
      assert groups + [g] == [g];
    } else {
      TotalAppend(groups[1..], g, user);
      assert (groups + [g])[1..] == groups[1..] + [g];
    }
  }

  lemma {:induction false} ReservedAppend(pending: seq<Pending>, p: Pending, user: string)
    ensures Reserved(pending + [p], user) == Reserved(pending, user) + if p.request.user == user then 1 else 0
  {
    if pending == [] {
      assert pending + [p] == [p];
    } else {
      ReservedAppend(pending[1..], p, user);
      assert (pending + [p])[1..] == pending[1..] + [p];
    }
  }

  lemma {:induction false} ReservedRemove(pending: seq<Pending>, i: nat, user: string)
    requires i < |pending|
    ensures Reserved(pending, user) ==
            Reserved(pending[..i] + pending[i + 1..], user) + if pending[i].request.user == user then 1 else 0
  {
    var rest := pending[..i] + pending[i + 1..];
    if i > 0 {
      ReservedRemove(pending[1..], i - 1, user);
      assert rest[1..] == pending[1..][..i - 1] + pending[1..][i..];
    } else {
      assert rest == pending[1..];
    }
  }

  lemma {:induction false} ReservedMoves(pending: seq<Pending>, i: nat, stage: Stage, user: string)
    requires i < |pending|
    ensures Reserved(pending[i := Pending(pending[i].request, stage)], user) == Reserved(pending, user)
  {
    var after := pending[i := Pending(pending[i].request, stage)];
    assert after[1..] == if i == 0 then pending[1..] else pending[1..][i - 1 := after[i]];
    if i > 0 {
      ReservedMoves(pending[1..], i - 1, stage, user);
    }
  }

  /** The user's sessions in the first `k` objects that are, or are not, in the table. */
  function Count(objects: seq<GroupState>, table: map<string, nat>, listed: bool, user: string, k: nat): nat
    requires k <= |objects|
  {
    if k == 0 then 0
    else
      Count(objects, table, listed, user, k - 1) +
      if (k - 1 in table.Values) == listed then SessionsOf(objects[k - 1].users, user) else 0
  }

  /** Sessions in the groups of the table. */
  function Listed(s: State, user: string): nat { Count(s.objects, s.table, true, user, |s.objects|) }

  /** Sessions in group objects that were replaced: nothing reaches them any more. */
  function Orphaned(s: State, user: string): nat { Count(s.objects, s.table, false, user, |s.objects|) }

  lemma {:induction false} CountSplits(objects: seq<GroupState>, table: map<string, nat>, user: string, k: nat)
    requires k <= |objects|
    ensures Count(objects, table, true, user, k) + Count(objects, table, false, user, k) == Total(objects[..k], user)
  {
    if k > 0 {
      CountSplits(objects, table, user, k - 1);
      TotalAppend(objects[..k - 1], objects[k - 1], user);
      assert objects[..k] == objects[..k - 1] + [objects[k - 1]];
    }
  }

  lemma TotalSplits(s: State, user: string)
    ensures Listed(s, user) + Orphaned(s, user) == Total(s.objects, user)
  {
    CountSplits(s.objects, s.table, user, |s.objects|);
    assert s.objects[..|s.objects|] == s.objects;
  }

  lemma {:induction false} CountHas(objects: seq<GroupState>, table: map<string, nat>, user: string, k: nat, o: nat)
    requires o < k <= |objects| && o !in table.Values
    ensures Count(objects, table, false, user, k) >= SessionsOf(objects[o].users, user)
  {
    if o < k - 1 {
      CountHas(objects, table, user, k - 1, o);
    }
  }

  lemma {:induction false} NoneOrphaned(objects: seq<GroupState>, table: map<string, nat>, user: string, k: nat)
    requires k <= |objects| && forall o: nat :: o < k ==> o in table.Values
    ensures Count(objects, table, false, user, k) == 0
  {
    if k > 0 {
      NoneOrphaned(objects, table, user, k - 1);
    }
  }

  // ----- The invariant -----

  ghost predicate GroupFits(s: State, g: GroupState) {
    && Tidy(g.users)
    && ClientsOf(g.users) <= s.used
    && forall i :: 0 <= i < |s.pending| ==> s.pending[i].request.conn.client !in ClientsOf(g.users)
  }

  ghost predicate PendingFits(s: State) {
    && (forall i :: 0 <= i < |s.pending| ==>
          && s.pending[i].request.conn.client in s.used
          && s.pending[i].request.conn.client != s.pending[i].request.conn.fe)
    && (forall i, j :: 0 <= i < j < |s.pending| ==>
          s.pending[i].request.conn.client != s.pending[j].request.conn.client)
  }

  /** Every pointer leads to an object. */
  ghost predicate PointersFit(s: State) {
    && (forall g :: g in s.table ==> s.table[g] < |s.objects|)
    && (forall i :: 0 <= i < |s.pending| ==>
          && (s.pending[i].stage.Found? ==> s.pending[i].request.group in s.table)
          && (s.pending[i].stage.Holding? ==> s.pending[i].stage.o < |s.objects|))
    && (s.visiting.Some? ==> s.visiting.value < |s.objects|)
  }

  /** The counter of a user is the number of its sessions in all objects plus the joins under way, at most 2. */
  ghost predicate Balanced(s: State, user: string) {
    Get(s.counts, user) == Total(s.objects, user) + Reserved(s.pending, user) <= MAX_NUMBER_OF_SIMULTANEOUS_CONNECTIONS
  }

  ghost predicate Inv(s: State) {
    && PendingFits(s)
    && PointersFit(s)
    && (forall o :: 0 <= o < |s.objects| ==> GroupFits(s, s.objects[o]))
    && (forall user :: Balanced(s, user))
  }

  lemma EmptyFits()
    ensures Inv(EMPTY)
  {
    assert forall user: string :: Balanced(EMPTY, user);
  }

  lemma ReserveKeeps(s: State, r: JoinRequest)
    requires Inv(s) && Enabled(s, Reserve(r))
    ensures Inv(Apply(s, Reserve(r)))
  {
    var s' := Apply(s, Reserve(r));
    forall o | 0 <= o < |s'.objects| ensures GroupFits(s', s'.objects[o]) {
      assert GroupFits(s, s.objects[o]);
    }
    forall user ensures Balanced(s', user) {
      assert Balanced(s, user) && Balanced(s, r.user);
      ReservedAppend(s.pending, Pending(r, Admitted), user);
    }
  }

  /** Looking up, creating and fetching count nobody. */
  lemma StepKeeps(s: State, e: Event)
    requires Inv(s) && Enabled(s, e) && (e.Lookup? || e.Create? || e.Fetch?)
    ensures Inv(Apply(s, e))
  {
    var s' := Apply(s, e);
    forall o | 0 <= o < |s'.objects| ensures GroupFits(s', s'.objects[o]) {
      if o < |s.objects| {
        assert GroupFits(s, s.objects[o]);
      }
    }
    forall user ensures Balanced(s', user) {
      assert Balanced(s, user);
      ReservedMoves(s.pending, e.i, s'.pending[e.i].stage, user);
      if e.Create? {
        TotalAppend(s.objects, GroupState(s.pending[e.i].request.group, [], [], []), user);
      }
    }
  }

  /** The group of a reserved join accepts it. */
  lemma RegisterIsAccepted(s: State, i: nat, isPrimary: bool, now: int)
    requires Inv(s) && Enabled(s, Register(i, isPrimary, now))
    ensures var r := s.pending[i].request;
            RegisterIn(s.objects[s.pending[i].stage.o], r.conn, r.user, isPrimary, now).1 == 0
  {
    var r, o := s.pending[i].request, s.pending[i].stage.o;
    assert Balanced(s, r.user);
    ReservedRemove(s.pending, i, r.user);
    assert GroupFits(s, s.objects[o]);
    TotalUpdate(s.objects, o, s.objects[o], r.user);
    JoinIsExact(s.objects[o].users, r.user, r.conn, r.user);
  }

  lemma RegisterKeepsBalance(s: State, i: nat, isPrimary: bool, now: int, user: string)
    requires Inv(s) && Enabled(s, Register(i, isPrimary, now))
    ensures Balanced(Apply(s, Register(i, isPrimary, now)), user)
  {
    var r, o := s.pending[i].request, s.pending[i].stage.o;
    var s' := Apply(s, Register(i, isPrimary, now));
    RegisterIsAccepted(s, i, isPrimary, now);
    assert Balanced(s, user);
    ReservedRemove(s.pending, i, user);
    assert GroupFits(s, s.objects[o]);
    JoinIsExact(s.objects[o].users, r.user, r.conn, user);
    TotalUpdate(s.objects, o, s'.objects[o], user);
  }

  lemma RegisterKeepsGroup(s: State, i: nat, isPrimary: bool, now: int, g: nat)
    requires Inv(s) && Enabled(s, Register(i, isPrimary, now)) && g < |s.objects|
    requires
      var s' := Apply(s, Register(i, isPrimary, now));
      forall j :: 0 <= j < |s'.pending| ==>
        && s'.pending[j] == s.pending[if j < i then j else j + 1]
        && s'.pending[j].request.conn.client != s.pending[i].request.conn.client
    ensures
      var s' := Apply(s, Register(i, isPrimary, now));
      GroupFits(s', s'.objects[g])
  {
    var r := s.pending[i].request;
    assert GroupFits(s, s.objects[g]);
    if g == s.pending[i].stage.o {
      JoinIsExact(s.objects[g].users, r.user, r.conn, r.user);
    }
  }

  lemma RegisterKeeps(s: State, i: nat, isPrimary: bool, now: int)
    requires Inv(s) && Enabled(s, Register(i, isPrimary, now))
    ensures Inv(Apply(s, Register(i, isPrimary, now)))
  {
    var s' := Apply(s, Register(i, isPrimary, now));
    forall j | 0 <= j < |s'.pending|
      ensures s'.pending[j] == s.pending[if j < i then j else j + 1]
      ensures s'.pending[j].request.conn.client != s.pending[i].request.conn.client
    {
    }
    forall g | 0 <= g < |s'.objects| ensures GroupFits(s', s'.objects[g]) {
      RegisterKeepsGroup(s, i, isPrimary, now, g);
    }
    forall user ensures Balanced(s', user) {
      RegisterKeepsBalance(s, i, isPrimary, now, user);
    }
  }

  lemma DisconnectKeeps(s: State, client: string, fe: string, isPrimary: bool, now: int)
    requires Inv(s) && Enabled(s, Disconnect(client, fe, isPrimary, now))
    ensures Inv(Apply(s, Disconnect(client, fe, isPrimary, now)))
  {
    var s' := Apply(s, Disconnect(client, fe, isPrimary, now));
    var o := s.visiting.value;
    var us := s.objects[o].users;
    assert GroupFits(s, s.objects[o]);
    DisconnectIsPurge(us, s.counts, client, fe);
    DisconnectIsExact(us, s.counts, client, fe, Conn("", ""), "");
    forall h | 0 <= h < |s'.objects| ensures GroupFits(s', s'.objects[h]) {
      assert GroupFits(s, s.objects[h]);
    }
    forall user ensures Balanced(s', user) {
      assert Balanced(s, user);
      DisconnectIsExact(us, s.counts, client, fe, Conn("", ""), user);
      TotalUpdate(s.objects, o, s'.objects[o], user);
    }
  }

  lemma EventKeeps(s: State, e: Event)
    requires Inv(s) && Enabled(s, e)
    ensures Inv(Apply(s, e))
  {
    match e
    case Reserve(r) => ReserveKeeps(s, r);
    case Register(i, isPrimary, now) => RegisterKeeps(s, i, isPrimary, now);
    case Disconnect(client, fe, isPrimary, now) => DisconnectKeeps(s, client, fe, isPrimary, now);
    case Visit(_) =>
      var s' := Apply(s, e);
      assert forall user :: Balanced(s, user) ==> Balanced(s', user);
      assert forall g :: GroupFits(s, g) ==> GroupFits(s', g);
    case _ => StepKeeps(s, e);
  }

  // ----- Every interleaving -----

  predicate Valid(s: State, events: seq<Event>)
    decreases |events|
  {
    events == [] || (Enabled(s, events[0]) && Valid(Apply(s, events[0]), events[1..]))
  }

  function After(s: State, events: seq<Event>): State
    requires Valid(s, events)
    decreases |events|
  {
    if events == [] then s else After(Apply(s, events[0]), events[1..])
  }

  lemma {:induction false} InvAfter(s: State, events: seq<Event>)
    requires Inv(s) && Valid(s, events)
    ensures Inv(After(s, events))
    decreases |events|
  {
    if events != [] {
      EventKeeps(s, events[0]);
      InvAfter(Apply(s, events[0]), events[1..]);
    }
  }

  /**
    Where the connections are, in every reachable state and for every user: in a group of the table,
    under way to a group, or lost with a group object that was replaced.
    */
  lemma ConnectionsAreAccounted(events: seq<Event>, user: string)
    requires Valid(EMPTY, events)
    ensures var s := After(EMPTY, events);
            && Get(s.counts, user) == Listed(s, user) + Reserved(s.pending, user) + Orphaned(s, user)
            && Get(s.counts, user) <= 2
  {
    EmptyFits();
    InvAfter(EMPTY, events);
    assert Balanced(After(EMPTY, events), user);
    TotalSplits(After(EMPTY, events), user);
  }

  /** A join that the server has admitted is never refused by its group. */
  lemma AdmittedJoinSucceeds(events: seq<Event>, i: nat, isPrimary: bool, now: int)
    requires Valid(EMPTY, events) && Enabled(After(EMPTY, events), Register(i, isPrimary, now))
    ensures var s := After(EMPTY, events);
            var r := s.pending[i].request;
            RegisterIn(s.objects[s.pending[i].stage.o], r.conn, r.user, isPrimary, now).1 == 0
  {
    EmptyFits();
    InvAfter(EMPTY, events);
    RegisterIsAccepted(After(EMPTY, events), i, isPrimary, now);
  }

  /** A join is refused exactly when open, reserved and lost sessions of the user make two. */
  lemma RefusedExactlyAtLimit(events: seq<Event>, user: string)
    requires Valid(EMPTY, events)
    ensures var s := After(EMPTY, events);
            !Increment(s.counts, user).1 <==>
            Listed(s, user) + Reserved(s.pending, user) + Orphaned(s, user) == 2
  {
    ConnectionsAreAccounted(events, user);
  }

  /** Every group object ever reached is tidy, so what FeDisconnect proves of one event holds of all of them. */
  lemma GroupsStayTidy(events: seq<Event>, o: nat)
    requires Valid(EMPTY, events) && o < |After(EMPTY, events).objects|
    ensures Tidy(After(EMPTY, events).objects[o].users)
  {
    EmptyFits();
    InvAfter(EMPTY, events);
    assert GroupFits(After(EMPTY, events), After(EMPTY, events).objects[o]);
  }

  // ----- When nothing is lost -----

  /** No other join for the same group is between finding it missing and creating it. */
  predicate Alone(s: State, i: nat)
    requires i < |s.pending|
  {
    forall j :: 0 <= j < |s.pending| && j != i && s.pending[j].request.group == s.pending[i].request.group
                ==> !s.pending[j].stage.Missing?
  }

  /** Lookups that find a group missing do not overlap. */
  predicate Guarded(s: State, e: Event)
    requires Enabled(s, e)
  {
    e.Lookup? && s.pending[e.i].request.group !in s.table ==> Alone(s, e.i)
  }

  predicate AllGuarded(s: State, events: seq<Event>)
    requires Valid(s, events)
    decreases |events|
  {
    events == [] || (Guarded(s, events[0]) && AllGuarded(Apply(s, events[0]), events[1..]))
  }

  /** All objects are in the table, and only one join at a time is about to create a group. */
  ghost predicate NothingLost(s: State) {
    && (forall o: nat :: o < |s.objects| ==> o in s.table.Values)
    && (forall i :: 0 <= i < |s.pending| && s.pending[i].stage.Missing? ==>
          s.pending[i].request.group !in s.table && Alone(s, i))
  }

  lemma CreateLosesNothing(s: State, i: nat)
    requires NothingLost(s) && PointersFit(s) && Enabled(s, Create(i))
    ensures NothingLost(Apply(s, Create(i)))
  {
    var s', group := Apply(s, Create(i)), s.pending[i].request.group;
    forall o: nat | o < |s'.objects| ensures o in s'.table.Values {
      if o < |s.objects| {
        assert o in s.table.Values;
        var g :| g in s.table && s.table[g] == o;
        assert s'.table[g] == o;
      } else {
        assert s'.table[group] == o;
      }
    }
    assert Alone(s, i);
    forall j | 0 <= j < |s'.pending| && s'.pending[j].stage.Missing?
      ensures s'.pending[j].request.group !in s'.table && Alone(s', j)
    {
      assert Alone(s, j);
    }
  }

  lemma GuardedEventLosesNothing(s: State, e: Event)
    requires NothingLost(s) && PointersFit(s) && Enabled(s, e) && Guarded(s, e)
    ensures NothingLost(Apply(s, e))
  {
    if e.Create? {
      CreateLosesNothing(s, e.i);
    } else {
      var s' := Apply(s, e);
      forall j | 0 <= j < |s'.pending| && s'.pending[j].stage.Missing?
        ensures s'.pending[j].request.group !in s'.table && Alone(s', j)
      {
        if e.Register? {
          assert s'.pending[j] == s.pending[if j < e.i then j else j + 1];
          assert Alone(s, if j < e.i then j else j + 1);
        } else if !(e.Lookup? && e.i == j) {
          assert Alone(s, j);
        }
      }
    }
  }

  lemma {:induction false} NothingLostAfter(s: State, events: seq<Event>)
    requires Inv(s) && NothingLost(s) && Valid(s, events) && AllGuarded(s, events)
    ensures NothingLost(After(s, events))
    decreases |events|
  {
    if events != [] {
      EventKeeps(s, events[0]);
      GuardedEventLosesNothing(s, events[0]);
      NothingLostAfter(Apply(s, events[0]), events[1..]);
    }
  }

  ghost predicate Conserved(s: State, user: string) {
    Get(s.counts, user) == Listed(s, user) + Reserved(s.pending, user)
  }

  lemma NothingLostIsConserved(s: State, user: string)
    requires Inv(s) && NothingLost(s)
    ensures Conserved(s, user)
  {
    assert Balanced(s, user);
    TotalSplits(s, user);
    NoneOrphaned(s.objects, s.table, user, |s.objects|);
  }

  /** Conservation of connections, as long as lookups that find a group missing do not overlap. */
  lemma ConnectionsAreConserved(events: seq<Event>, user: string)
    requires Valid(EMPTY, events) && AllGuarded(EMPTY, events)
    ensures var s := After(EMPTY, events);
            && Conserved(s, user)
            && (!Increment(s.counts, user).1 <==>
                Listed(s, user) + Reserved(s.pending, user) == MAX_NUMBER_OF_SIMULTANEOUS_CONNECTIONS)
  {
    EmptyFits();
    InvAfter(EMPTY, events);
    NothingLostAfter(EMPTY, events);
    NothingLostIsConserved(After(EMPTY, events), user);
    RefusedExactlyAtLimit(events, user);
  }

  // ----- When a session is lost -----

  lemma Prepend(s: State, e: Event, rest: seq<Event>)
    requires Enabled(s, e) && Valid(Apply(s, e), rest)
    ensures Valid(s, [e] + rest) && After(s, [e] + rest) == After(Apply(s, e), rest)
    ensures !e.Lookup? && AllGuarded(Apply(s, e), rest) ==> AllGuarded(s, [e] + rest)
  {
    assert ([e] + rest)[1..] == rest;
  }

  lemma FourEvents(s: State, e1: Event, e2: Event, e3: Event, e4: Event, s': State)
    requires Enabled(s, e1) && Enabled(Apply(s, e1), e2) && Enabled(Apply(Apply(s, e1), e2), e3)
    requires Enabled(Apply(Apply(Apply(s, e1), e2), e3), e4)
    requires s' == Apply(Apply(Apply(Apply(s, e1), e2), e3), e4)
    ensures Valid(s, [e1, e2, e3, e4]) && After(s, [e1, e2, e3, e4]) == s'
    ensures !e1.Lookup? && !e2.Lookup? && !e3.Lookup? && !e4.Lookup? ==> AllGuarded(s, [e1, e2, e3, e4])
  {
    var s1 := Apply(s, e1);
    var s2 := Apply(s1, e2);
    var s3 := Apply(s2, e3);
    Prepend(s3, e4, []);
    Prepend(s2, e3, [e4]);
    Prepend(s1, e2, [e3, e4]);
    Prepend(s, e1, [e2, e3, e4]);
    assert [e4] + [] == [e4] && [e3] + [e4] == [e3, e4] && [e2] + [e3, e4] == [e2, e3, e4];
    assert [e1] + [e2, e3, e4] == [e1, e2, e3, e4];
  }

  /** The first of two joins creates the group, and inserts its session. */
  lemma CreatesAndRegisters(s: State, j: nat) returns (s3: State)
    requires Inv(s) && Enabled(s, Create(j))
    ensures Enabled(Apply(s, Create(j)), Fetch(j))
    ensures Enabled(Apply(Apply(s, Create(j)), Fetch(j)), Register(j, true, 0))
    ensures s3 == Apply(Apply(Apply(s, Create(j)), Fetch(j)), Register(j, true, 0)) && Inv(s3)
    ensures s3.pending == s.pending[..j] + s.pending[j + 1..]
    ensures s3.table == s.table[s.pending[j].request.group := |s.objects|] && |s3.objects| == |s.objects| + 1
    ensures SessionsOf(s3.objects[|s.objects|].users, s.pending[j].request.user) == 1
    ensures forall g :: g in s3.table && s3.table[g] == |s.objects| ==> g == s.pending[j].request.group
    ensures s3.counts == s.counts && s3.visiting == s.visiting && s3.used == s.used
  {
    var r, n := s.pending[j].request, |s.objects|;
    var s1 := Apply(s, Create(j));
    EventKeeps(s, Create(j));
    var s2 := Apply(s1, Fetch(j));
    EventKeeps(s1, Fetch(j));
    s3 := Apply(s2, Register(j, true, 0));
    EventKeeps(s2, Register(j, true, 0));
    assert s2.objects[n] == GroupState(r.group, [], [], []);
    JoinIsExact([], r.user, r.conn, r.user);
    assert s2.pending[..j] == s.pending[..j] && s2.pending[j + 1..] == s.pending[j + 1..];
  }

  /** The second one, which had found it missing too, creates it again: the session is lost. */
  lemma CreatesAgain(s: State, i: nat, n: nat, user: string)
    requires Inv(s) && Enabled(s, Create(i)) && n < |s.objects|
    requires forall g :: g in s.table && s.table[g] == n ==> g == s.pending[i].request.group
    ensures n !in Apply(s, Create(i)).table.Values && Apply(s, Create(i)).objects[n] == s.objects[n]
    ensures Orphaned(Apply(s, Create(i)), user) >= SessionsOf(s.objects[n].users, user)
    ensures var s' := Apply(s, Create(i));
            && s'.pending == s.pending[i := Pending(s.pending[i].request, Found)]
            && s'.table.Keys == s.table.Keys + {s.pending[i].request.group} && |s'.objects| == |s.objects| + 1
            && s'.visiting == s.visiting && s'.counts == s.counts && s'.used == s.used && Inv(s')
  {
    var s' := Apply(s, Create(i));
    EventKeeps(s, Create(i));
    CountHas(s'.objects, s'.table, user, |s'.objects|, n);
  }

  /** Where the join at `i` is found when the one at `j` has been taken out. */
  function Shifted(i: nat, j: nat): nat
    requires i != j
  {
    if i < j then i else i - 1
  }

  /** Two joins that have both found their group missing can lose the session of either. */
  lemma OverlapLoses(s: State, j: nat, i: nat) returns (rest: seq<Event>, s': State)
    requires Inv(s) && i != j && Enabled(s, Create(j)) && Enabled(s, Create(i))
    requires s.pending[i].request.group == s.pending[j].request.group
    ensures Valid(s, rest) && AllGuarded(s, rest) && s' == After(s, rest) && Inv(s')
    ensures Orphaned(s', s.pending[j].request.user) > 0
    ensures |s.objects| < |s'.objects| && |s.objects| !in s'.table.Values
    ensures SessionsOf(s'.objects[|s.objects|].users, s.pending[j].request.user) == 1
    ensures s'.table.Keys == s.table.Keys + {s.pending[j].request.group}
    ensures s'.visiting == s.visiting && s'.counts == s.counts && s'.used == s.used
    ensures s'.pending == (s.pending[..j] + s.pending[j + 1..])
                            [Shifted(i, j) := Pending(s.pending[i].request, Found)]
  {
    hide Inv, Apply, Orphaned;
    var k := Shifted(i, j);
    var s3 := CreatesAndRegisters(s, j);
    assert s3.pending[k] == s.pending[i];
    CreatesAgain(s3, k, |s.objects|, s.pending[j].request.user);
    s' := Apply(s3, Create(k));
    rest := [Create(j), Fetch(j), Register(j, true, 0), Create(k)];
    FourEvents(s, Create(j), Fetch(j), Register(j, true, 0), Create(k), s');
  }

  /**
    Exactly when a lookup is harmless: after a run in which none overlapped, a lookup that finds its
    group missing leaves conservation intact, whatever else follows without overlap, if and only if no
    other join for that group is between its own lookup and the creation.
    */
  lemma ConservedExactlyWithoutOverlap(events: seq<Event>, i: nat)
    requires Valid(EMPTY, events) && AllGuarded(EMPTY, events)
    requires Enabled(After(EMPTY, events), Lookup(i))
    requires After(EMPTY, events).pending[i].request.group !in After(EMPTY, events).table
    ensures var s := Apply(After(EMPTY, events), Lookup(i));
            (forall rest: seq<Event>, user: string ::
               Valid(s, rest) && AllGuarded(s, rest) ==> Conserved(After(s, rest), user))
            <==> Alone(After(EMPTY, events), i)
  {
    var before := After(EMPTY, events);
    var s := Apply(before, Lookup(i));
    EmptyFits();
    InvAfter(EMPTY, events);
    NothingLostAfter(EMPTY, events);
    EventKeeps(before, Lookup(i));
    if Alone(before, i) {
      GuardedEventLosesNothing(before, Lookup(i));
      forall rest: seq<Event>, user: string | Valid(s, rest) && AllGuarded(s, rest)
        ensures Conserved(After(s, rest), user)
      {
        InvAfter(s, rest);
        NothingLostAfter(s, rest);
        NothingLostIsConserved(After(s, rest), user);
      }
    } else {
      var j :| 0 <= j < |before.pending| && j != i &&
               before.pending[j].request.group == before.pending[i].request.group && before.pending[j].stage.Missing?;
      var rest, s' := OverlapLoses(s, j, i);
      var user := s.pending[j].request.user;
      NotConserved(s', user);
      assert Valid(s, rest) && AllGuarded(s, rest) && !Conserved(After(s, rest), user);
    }
  }

  lemma NotConserved(s: State, user: string)
    requires Inv(s)
    ensures Conserved(s, user) <==> Orphaned(s, user) == 0
  {
    assert Balanced(s, user);
    TotalSplits(s, user);
  }

  /** Lost sessions stay lost: their objects never come back into the table. */
  lemma EventKeepsOrphan(s: State, e: Event, o: nat, user: string)
    requires Inv(s) && Enabled(s, e)
    requires o < |s.objects| && o !in s.table.Values && s.visiting != Some(o)
    ensures var s' := Apply(s, e);
            && o < |s'.objects| && o !in s'.table.Values && s'.visiting != Some(o)
            && SessionsOf(s'.objects[o].users, user) >= SessionsOf(s.objects[o].users, user)
  {
    var s' := Apply(s, e);
    assert GroupFits(s, s.objects[o]);
    if e.Register? && s.pending[e.i].stage.o == o {
      var r := s.pending[e.i].request;
      JoinIsExact(s.objects[o].users, r.user, r.conn, user);
    } else if e.Visit? {
      assert s.table[e.group] in s.table.Values;
    }
  }

  lemma {:induction false} OrphanStays(s: State, events: seq<Event>, o: nat, user: string)
    requires Inv(s) && Valid(s, events)
    requires o < |s.objects| && o !in s.table.Values && s.visiting != Some(o)
    ensures var s' := After(s, events);
            && o < |s'.objects| && o !in s'.table.Values
            && SessionsOf(s'.objects[o].users, user) >= SessionsOf(s.objects[o].users, user)
    decreases |events|
  {
    if events != [] {
      EventKeepsOrphan(s, events[0], o, user);
      EventKeeps(s, events[0]);
      OrphanStays(Apply(s, events[0]), events[1..], o, user);
    }
  }

  lemma {:induction false} CountGrows(s: State, s': State, user: string, k: nat)
    requires k <= |s.objects| <= |s'.objects|
    requires forall o: nat :: o < |s.objects| && o !in s.table.Values ==>
               o !in s'.table.Values && SessionsOf(s'.objects[o].users, user) >= SessionsOf(s.objects[o].users, user)
    ensures Count(s'.objects, s'.table, false, user, k) >= Count(s.objects, s.table, false, user, k)
  {
    if k > 0 {
      CountGrows(s, s', user, k - 1);
    }
  }

  lemma {:induction false} CountPrefix(objects: seq<GroupState>, table: map<string, nat>, user: string, k: nat, m: nat)
    requires k <= m <= |objects|
    ensures Count(objects, table, false, user, k) <= Count(objects, table, false, user, m)
  {
    if k < m {
      CountPrefix(objects, table, user, k, m - 1);
    }
  }

  lemma {:induction false} ObjectsGrow(s: State, events: seq<Event>)
    requires Valid(s, events)
    ensures |s.objects| <= |After(s, events).objects|
    decreases |events|
  {
    if events != [] {
      ObjectsGrow(Apply(s, events[0]), events[1..]);
    }
  }

  /**
    A lost session is lost for good: whatever happens afterwards it goes on counting, so a user who has
    lost two (LosesBoth shows how) is refused for ever without having a session open.
    */
  lemma LostForGood(events: seq<Event>, rest: seq<Event>, user: string)
    requires Valid(EMPTY, events) && After(EMPTY, events).visiting.None? && Valid(After(EMPTY, events), rest)
    ensures var s := After(EMPTY, events);
            var s' := After(s, rest);
            && Orphaned(s', user) >= Orphaned(s, user)
            && (Orphaned(s, user) == MAX_NUMBER_OF_SIMULTANEOUS_CONNECTIONS ==>
                  !Increment(s'.counts, user).1 && Listed(s', user) == 0)
  {
    var s := After(EMPTY, events);
    var s' := After(s, rest);
    EmptyFits();
    InvAfter(EMPTY, events);
    InvAfter(s, rest);
    ObjectsGrow(s, rest);
    forall o: nat | o < |s.objects| && o !in s.table.Values
      ensures o !in s'.table.Values && SessionsOf(s'.objects[o].users, user) >= SessionsOf(s.objects[o].users, user)
    {
      OrphanStays(s, rest, o, user);
    }
    CountGrows(s, s', user, |s.objects|);
    CountPrefix(s'.objects, s'.table, user, |s.objects|, |s'.objects|);
    assert Balanced(s', user);
    TotalSplits(s', user);
  }

  /** A join that can come now: its client id is new, and its user has a session to spare. */
  predicate CanJoin(s: State, r: JoinRequest) {
    r.conn.client !in s.used && r.conn.client != r.conn.fe &&
    Get(s.counts, r.user) < MAX_NUMBER_OF_SIMULTANEOUS_CONNECTIONS
  }

  /** Two joins of different users for a group that does not exist are admitted and find it missing. */
  lemma BothFindMissing(s: State, r: JoinRequest, q: JoinRequest) returns (events: seq<Event>, s': State)
    requires Inv(s) && CanJoin(s, r) && CanJoin(s, q)
    requires r.user != q.user && r.group == q.group && r.group !in s.table && r.conn.client != q.conn.client
    ensures Valid(s, events) && s' == After(s, events) && Inv(s')
    ensures s'.pending == s.pending + [Pending(r, Missing), Pending(q, Missing)]
    ensures s'.objects == s.objects && s'.table == s.table && s'.visiting == s.visiting
    ensures s'.used == s.used + {r.conn.client, q.conn.client}
    ensures forall user ::
              Get(s'.counts, user) == Get(s.counts, user) + if user == r.user || user == q.user then 1 else 0
  {
    var n := |s.pending|;
    var s1 := Apply(s, Reserve(r));
    var s2 := Apply(s1, Reserve(q));
    assert s2.pending == s.pending + [Pending(r, Admitted), Pending(q, Admitted)];
    var s3 := Apply(s2, Lookup(n));
    s' := Apply(s3, Lookup(n + 1));
    events := [Reserve(r), Reserve(q), Lookup(n), Lookup(n + 1)];
    FourEvents(s, Reserve(r), Reserve(q), Lookup(n), Lookup(n + 1), s');
    InvAfter(s, events);
  }

  /** From any reachable state, two such joins can lose the first one's session. */
  lemma Loses(s: State, r: JoinRequest, q: JoinRequest) returns (events: seq<Event>, s': State)
    requires Inv(s) && CanJoin(s, r) && CanJoin(s, q)
    requires r.user != q.user && r.group == q.group && r.group !in s.table && r.conn.client != q.conn.client
    ensures Valid(s, events) && s' == After(s, events) && Inv(s')
    ensures s'.pending == s.pending + [Pending(q, Found)]
    ensures |s.objects| < |s'.objects| && |s.objects| !in s'.table.Values
    ensures SessionsOf(s'.objects[|s.objects|].users, r.user) == 1
    ensures s'.table.Keys == s.table.Keys + {r.group} && s'.visiting == s.visiting
    ensures s'.used == s.used + {r.conn.client, q.conn.client}
    ensures forall user ::
              Get(s'.counts, user) == Get(s.counts, user) + if user == r.user || user == q.user then 1 else 0
  {
    hide Inv, Apply;
    var n := |s.pending|;
    var first, s4 := BothFindMissing(s, r, q);
    assert s4.pending[n] == Pending(r, Missing) && s4.pending[n + 1] == Pending(q, Missing);
    var rest;
    rest, s' := OverlapLoses(s4, n, n + 1);
    Concat(s, first, rest);
    events := first + rest;
    assert s4.pending[..n] + s4.pending[n + 1..] == s.pending + [Pending(q, Missing)];
  }

  /** The shortest such run: two joins to a new group, and the counter of the first user is 1 for no session. */
  lemma TwoJoinsLoseASession(r: JoinRequest, q: JoinRequest) returns (events: seq<Event>)
    requires r.user != q.user && r.group == q.group && r.conn.client != q.conn.client
    requires r.conn.client != r.conn.fe && q.conn.client != q.conn.fe
    ensures Valid(EMPTY, events)
    ensures var s := After(EMPTY, events);
            Get(s.counts, r.user) == 1 && Listed(s, r.user) == 0 && Reserved(s.pending, r.user) == 0
  {
    EmptyFits();
    var s';
    events, s' := Loses(EMPTY, r, q);
    assert s'.pending == [Pending(q, Found)] && s'.pending[1..] == [];
    CountHas(s'.objects, s'.table, r.user, |s'.objects|, 0);
    assert Balanced(s', r.user);
    TotalSplits(s', r.user);
  }

  lemma {:induction false} CountHasBoth(objects: seq<GroupState>, table: map<string, nat>, user: string, k: nat,
                                        o: nat, p: nat)
    requires o < p < k <= |objects| && o !in table.Values && p !in table.Values
    ensures Count(objects, table, false, user, k) >=
            SessionsOf(objects[o].users, user) + SessionsOf(objects[p].users, user)
  {
    if p < k - 1 {
      CountHasBoth(objects, table, user, k - 1, o, p);
    } else {
      CountHas(objects, table, user, k - 1, o);
    }
  }

  /** The joins that cost a user both sessions: `r` and `r2` are the user's, to two groups that do not exist yet. */
  predicate TwoRounds(r: JoinRequest, q: JoinRequest, r2: JoinRequest, q2: JoinRequest) {
    && r2.user == r.user && q.user != r.user && q2.user != r.user
    && q.group == r.group && q2.group == r2.group && r2.group != r.group
    && (forall x <- [r, q, r2, q2] :: x.conn.client != x.conn.fe)
    && r.conn.client != q.conn.client && r2.conn.client != q2.conn.client
    && r2.conn.client !in {r.conn.client, q.conn.client} && q2.conn.client !in {r.conn.client, q.conn.client}
  }

  /**
    Two such rounds, with two new groups, and the user has lost both sessions: nothing is open, nothing is
    under way, and whatever happens afterwards the user is refused.
    */
  lemma LosesBoth(r: JoinRequest, q: JoinRequest, r2: JoinRequest, q2: JoinRequest) returns (events: seq<Event>)
    requires TwoRounds(r, q, r2, q2)
    ensures Valid(EMPTY, events)
    ensures var s := After(EMPTY, events);
            && Orphaned(s, r.user) == MAX_NUMBER_OF_SIMULTANEOUS_CONNECTIONS
            && Listed(s, r.user) == 0 && Reserved(s.pending, r.user) == 0
    ensures forall rest: seq<Event> :: Valid(After(EMPTY, events), rest) ==>
              !Increment(After(After(EMPTY, events), rest).counts, r.user).1
              && Listed(After(After(EMPTY, events), rest), r.user) == 0
  {
    hide Inv;
    EmptyFits();
    var first, s1 := Loses(EMPTY, r, q);
    assert [r, q, r2, q2][2] == r2 && [r, q, r2, q2][3] == q2;
    var rest, s2 := Loses(s1, r2, q2);
    Concat(EMPTY, first, rest);
    events := first + rest;
    OrphanStays(s1, rest, 0, r.user);
    CountHasBoth(s2.objects, s2.table, r.user, |s2.objects|, 0, |s1.objects|);
    ConnectionsAreAccounted(events, r.user);
    forall more: seq<Event> | Valid(s2, more)
      ensures !Increment(After(s2, more).counts, r.user).1 && Listed(After(s2, more), r.user) == 0
    {
      LostForGood(events, more, r.user);
    }
  }

  lemma {:induction false} Concat(s: State, first: seq<Event>, rest: seq<Event>)
    requires Valid(s, first) && Valid(After(s, first), rest)
    ensures Valid(s, first + rest) && After(s, first + rest) == After(After(s, first), rest)
    decreases |first|
  {
    hide Apply, Enabled;
    if first == [] {
      assert first + rest == rest;
    } else {
      var all, later := first + rest, first[1..] + rest;
      Concat(Apply(s, first[0]), first[1..], rest);
      assert all[0] == first[0] && all[1..] == later;
    }
  }
}
