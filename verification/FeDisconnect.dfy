/**
  What a disconnection removes from a group (src/server/Group.cpp:135-178), for groups in which no
  client id occurs twice: every client process makes one id and sends one JOIN.
  */
module FeDisconnect {
  import opened Users
  import opened Groups

  function ClientIds(sessions: seq<Conn>): set<string> {
    set c | c in sessions :: c.client
  }

  function ClientsOf(us: seq<Member>): set<string> {
    if us == [] then {} else ClientIds(us[0].sessions) + ClientsOf(us[1..])
  }

  function NamesOf(us: seq<Member>): set<string> {
    if us == [] then {} else {us[0].name} + NamesOf(us[1..])
  }

  ghost predicate OneEach(sessions: seq<Conn>) {
    forall i, j :: 0 <= i < j < |sessions| ==> sessions[i].client != sessions[j].client
  }

  ghost predicate TidyMember(m: Member) {
    m.sessions != [] && OneEach(m.sessions) && forall c :: c in m.sessions ==> c.client != c.fe
  }

  /** User names and client ids are distinct, every user listed has a session. */
  ghost predicate Tidy(us: seq<Member>) {
    us == [] ||
    (TidyMember(us[0]) &&
     us[0].name !in NamesOf(us[1..]) &&
     ClientIds(us[0].sessions) !! ClientsOf(us[1..]) &&
     Tidy(us[1..]))
  }

  /** The group without the sessions in `gone` and without the users who have no other session. */
  function Purge(us: seq<Member>, gone: set<Conn>): seq<Member> {
    if us == [] then []
    else
      var keep := Without(us[0].sessions, gone);
      if keep == [] then Purge(us[1..], gone) else [Member(us[0].name, keep)] + Purge(us[1..], gone)
  }

  function SessionsOf(us: seq<Member>, name: string): nat {
    if us == [] then 0 else (if us[0].name == name then |us[0].sessions| else 0) + SessionsOf(us[1..], name)
  }

  // ----- Purging -----

  lemma {:induction false} PurgeShrinks(us: seq<Member>, gone: set<Conn>)
    ensures NamesOf(Purge(us, gone)) <= NamesOf(us)
    ensures ClientsOf(Purge(us, gone)) <= ClientsOf(us)
  {
    if us != [] {
      PurgeShrinks(us[1..], gone);
      var keep := Without(us[0].sessions, gone);
      if keep != [] {
        assert Purge(us, gone)[1..] == Purge(us[1..], gone);
      }
    }
  }

  lemma {:induction false} WithoutOneEach(sessions: seq<Conn>, gone: set<Conn>)
    requires OneEach(sessions)
    ensures OneEach(Without(sessions, gone))
  {
    if sessions != [] {
      WithoutOneEach(sessions[1..], gone);
      var rest := Without(sessions[1..], gone);
      forall j | 0 <= j < |rest| ensures rest[j].client != sessions[0].client {
        assert rest[j] in sessions[1..];
      }
    }
  }

  lemma {:induction false} PurgeKeepsTidy(us: seq<Member>, gone: set<Conn>)
    requires Tidy(us)
    ensures Tidy(Purge(us, gone))
  {
    if us != [] {
      PurgeKeepsTidy(us[1..], gone);
      PurgeShrinks(us[1..], gone);
      WithoutOneEach(us[0].sessions, gone);
      var keep := Without(us[0].sessions, gone);
      if keep != [] {
        assert Purge(us, gone)[1..] == Purge(us[1..], gone);
        assert ClientIds(keep) <= ClientIds(us[0].sessions);
      }
    }
  }

  lemma {:induction false} PurgeTwice(us: seq<Member>, a: set<Conn>, b: set<Conn>)
    ensures Purge(Purge(us, a), b) == Purge(us, a + b)
  {
    if us != [] {
      PurgeTwice(us[1..], a, b);
      WithoutTwice(us[0].sessions, a, b);
      var keep := Without(us[0].sessions, a);
      if keep != [] {
        assert Purge(us, a)[1..] == Purge(us[1..], a);
      } else {
        assert Without(keep, b) == [];
      }
    }
  }

  lemma {:induction false} PurgeNothing(us: seq<Member>, gone: set<Conn>)
    requires Tidy(us) && forall c :: c in AllConns(us) ==> c !in gone
    ensures Purge(us, gone) == us
  {
    if us != [] {
      assert forall c :: c in us[0].sessions || c in AllConns(us[1..]) ==> c in AllConns(us);
      NothingGone(us[0].sessions, gone);
      PurgeNothing(us[1..], gone);
    }
  }

  /** Exactly the sessions in `gone` are removed. */
  lemma {:induction false} PurgeIsExact(us: seq<Member>, gone: set<Conn>, c: Conn)
    ensures c in AllConns(Purge(us, gone)) <==> c in AllConns(us) && c !in gone
  {
    if us != [] {
      PurgeIsExact(us[1..], gone, c);
      var keep := Without(us[0].sessions, gone);
      if keep != [] {
        assert Purge(us, gone)[1..] == Purge(us[1..], gone);
      }
    }
  }

  lemma {:induction false} ClientListed(us: seq<Member>, c: Conn)
    requires c in AllConns(us)
    ensures c.client in ClientsOf(us)
  {
    if c !in us[0].sessions {
      ClientListed(us[1..], c);
    }
  }

  lemma {:induction false} SessionsOfStranger(us: seq<Member>, name: string)
    requires name !in NamesOf(us)
    ensures SessionsOf(us, name) == 0
  {
    if us != [] {
      SessionsOfStranger(us[1..], name);
    }
  }

  lemma {:induction false} PurgeSessions(us: seq<Member>, gone: set<Conn>, name: string)
    ensures SessionsOf(Purge(us, gone), name) <= SessionsOf(us, name)
  {
    if us != [] {
      PurgeSessions(us[1..], gone, name);
      if Without(us[0].sessions, gone) != [] {
        assert Purge(us, gone)[1..] == Purge(us[1..], gone);
      }
    }
  }

  // ----- disconnectSession -----

  lemma {:induction false} OneGone(sessions: seq<Conn>, c: Conn)
    requires OneEach(sessions) && c in sessions
    ensures |Without(sessions, {c})| == |sessions| - 1
  {
    if sessions[0] == c {
      NothingGone(sessions[1..], {c});
    } else {
      OneGone(sessions[1..], c);
    }
  }

  lemma ReleaseInTidyMember(m: Member, c: Conn)
    requires TidyMember(m) && c in m.sessions
    ensures Released(m.sessions, c.client, c.fe) == Without(m.sessions, {c})
    ensures |Without(m.sessions, {c})| == |m.sessions| - 1
  {
    ReleasedEqualsWithout(m.sessions, c.client, c.fe);
    OneGone(m.sessions, c);
  }

  lemma {:induction false} OwnerListed(us: seq<Member>, c: Conn)
    ensures OwnerOf(us, c) == |us| <==> c !in AllConns(us)
  {
    if us != [] {
      OwnerListed(us[1..], c);
    }
  }

  lemma DropOneSkips(us: seq<Member>, counts: Counts, c: Conn)
    requires us != [] && c !in us[0].sessions
    ensures var o, p := DropOne(us, counts, c), DropOne(us[1..], counts, c);
            o.users == [us[0]] + p.users && o.counts == p.counts && o.left == p.left
  {
    var i := OwnerOf(us, c);
    if i < |us| {
      assert us[1..][i - 1] == us[i];
      assert us[..i] + us[i + 1..] == [us[0]] + (us[1..][..i - 1] + us[1..][i..]);
      var m := Member(us[i].name, Released(us[i].sessions, c.client, c.fe));
      assert us[i := m] == [us[0]] + us[1..][i - 1 := m];
    }
  }

  /** Nobody after the first user has a session of the first user. */
  lemma {:induction false} OnlyFirstHas(us: seq<Member>, c: Conn)
    requires Tidy(us) && us != [] && c in us[0].sessions
    ensures c !in AllConns(us[1..]) && Purge(us[1..], {c}) == us[1..]
  {
    assert c.client in ClientIds(us[0].sessions);
    if c in AllConns(us[1..]) {
      ClientListed(us[1..], c);
    }
    PurgeNothing(us[1..], {c});
  }

  lemma {:induction false} DropFirstIsPurge(us: seq<Member>, counts: Counts, c: Conn)
    requires Tidy(us) && us != [] && c in us[0].sessions
    ensures DropOne(us, counts, c).users == Purge(us, {c})
  {
    assert TidyMember(us[0]);
    hide Tidy, TidyMember, Released, Without;
    OnlyFirstHas(us, c);
    ReleaseInTidyMember(us[0], c);
    assert us[..0] + us[1..] == us[1..];
  }

  /** In a tidy group disconnectSession purges exactly one session, if it is there at all. */
  lemma {:induction false} DropOneIsPurge(us: seq<Member>, counts: Counts, c: Conn)
    requires Tidy(us)
    ensures DropOne(us, counts, c).users == Purge(us, {c})
  {
    if us != [] && c in us[0].sessions {
      DropFirstIsPurge(us, counts, c);
    } else if us != [] {
      hide DropOne;
      DropOneSkips(us, counts, c);
      NothingGone(us[0].sessions, {c});
      DropOneIsPurge(us[1..], counts, c);
    }
  }

  /** Each user's counter drops by the number of sessions removed, and by nothing else. */
  lemma {:induction false} DropOneCounts(us: seq<Member>, counts: Counts, c: Conn, name: string)
    requires Tidy(us)
    ensures var o := DropOne(us, counts, c);
            Get(o.counts, name) - Get(counts, name) == SessionsOf(o.users, name) - SessionsOf(us, name)
  {
    if us == [] {
    } else if c in us[0].sessions {
      ReleaseInTidyMember(us[0], c);
      assert us[..0] + us[1..] == us[1..];
      if name == us[0].name {
        SessionsOfStranger(us[1..], name);
      }
    } else {
      DropOneSkips(us, counts, c);
      DropOneCounts(us[1..], counts, c, name);
      assert ([us[0]] + DropOne(us[1..], counts, c).users)[1..] == DropOne(us[1..], counts, c).users;
    }
  }

  lemma {:induction false} DropOneLeft(us: seq<Member>, counts: Counts, c: Conn, name: string)
    requires Tidy(us)
    ensures var o := DropOne(us, counts, c);
            name in o.left <==> name in NamesOf(us) && name !in NamesOf(o.users)
  {
    if us == [] {
    } else if c in us[0].sessions {
      assert us[..0] + us[1..] == us[1..];
    } else {
      DropOneSkips(us, counts, c);
      DropOneLeft(us[1..], counts, c, name);
      assert ([us[0]] + DropOne(us[1..], counts, c).users)[1..] == DropOne(us[1..], counts, c).users;
    }
  }

  /** A client that is not in the group changes nothing. */
  lemma UnknownClientChangesNothing(us: seq<Member>, counts: Counts, client: string, fe: string)
    requires client != FE_DISCONNECT && Conn(client, fe) !in AllConns(us)
    ensures HandleDisconnect(us, counts, client, fe) == Outcome(us, counts, [])
  {
    OwnerListed(us, Conn(client, fe));
  }

  // ----- The front-end loop -----

  /** The sessions on the front end among the first `k` of the snapshot. */
  function OnFe(snapshot: seq<Conn>, k: nat, fe: string): set<Conn>
    requires k <= |snapshot|
  {
    set c | c in snapshot[..k] && c.fe == fe
  }

  lemma DropIfOnIsPurge(us: seq<Member>, counts: Counts, c: Conn, fe: string, name: string)
    requires Tidy(us)
    ensures var o := DropIfOn(us, counts, c, fe);
            && o.users == Purge(us, if c.fe == fe then {c} else {})
            && Get(o.counts, name) - Get(counts, name) == SessionsOf(o.users, name) - SessionsOf(us, name)
            && (name in o.left <==> name in NamesOf(us) && name !in NamesOf(o.users))
  {
    if c.fe == fe {
      DropOneIsPurge(us, counts, c);
      DropOneCounts(us, counts, c, name);
      DropOneLeft(us, counts, c, name);
    } else {
      PurgeNothing(us, {});
    }
  }

  lemma OnFeGrows(snapshot: seq<Conn>, k: nat, fe: string)
    requires k < |snapshot|
    ensures OnFe(snapshot, k + 1, fe) == OnFe(snapshot, k, fe) + if snapshot[k].fe == fe then {snapshot[k]} else {}
  {
    assert snapshot[..k + 1] == snapshot[..k] + [snapshot[k]];
  }

  /** The outcome `o` of disconnecting the sessions `gone`, as seen by one user. */
  ghost predicate Purged(us: seq<Member>, counts: Counts, gone: set<Conn>, name: string, o: Outcome) {
    && o.users == Purge(us, gone)
    && Get(o.counts, name) - Get(counts, name) == SessionsOf(o.users, name) - SessionsOf(us, name)
    && (name in o.left <==> name in NamesOf(us) && name !in NamesOf(o.users))
  }

  lemma FeRoundPurges(us: seq<Member>, counts: Counts, gone: set<Conn>, o: Outcome, c: Conn, fe: string, name: string)
    requires Tidy(us) && Purged(us, counts, gone, name, o)
    ensures
      var p := DropIfOn(o.users, o.counts, c, fe);
      Purged(us, counts, gone + (if c.fe == fe then {c} else {}), name, p.(left := o.left + p.left))
  {
    var more := if c.fe == fe then {c} else {};
    PurgeKeepsTidy(us, gone);
    DropIfOnIsPurge(o.users, o.counts, c, fe, name);
    PurgeTwice(us, gone, more);
    PurgeShrinks(us, gone);
    PurgeShrinks(o.users, more);
  }

  lemma {:induction false} FeLoopPurges(us: seq<Member>, counts: Counts, snapshot: seq<Conn>, k: nat, fe: string,
                                        name: string)
    requires Tidy(us) && k <= |snapshot|
    ensures Purged(us, counts, OnFe(snapshot, k, fe), name, FeLoop(us, counts, snapshot, k, fe))
  {
    if k == 0 {
      assert OnFe(snapshot, 0, fe) == {};
      PurgeNothing(us, {});
    } else {
      FeLoopPurges(us, counts, snapshot, k - 1, fe, name);
      OnFeGrows(snapshot, k - 1, fe);
      var o := FeLoop(us, counts, snapshot, k - 1, fe);
      FeRoundPurges(us, counts, OnFe(snapshot, k - 1, fe), o, snapshot[k - 1], fe, name);
    }
  }

  // ----- The theorems -----

  /** The sessions a disconnect event is about. */
  ghost function Meant(us: seq<Member>, client: string, fe: string): set<Conn> {
    if client == FE_DISCONNECT then set c | c in AllConns(us) && c.fe == fe else {Conn(client, fe)}
  }

  /** The event leaves the group as if exactly the sessions meant had been taken out. */
  lemma DisconnectIsPurge(us: seq<Member>, counts: Counts, client: string, fe: string)
    requires Tidy(us)
    ensures HandleDisconnect(us, counts, client, fe).users == Purge(us, Meant(us, client, fe))
    ensures Tidy(HandleDisconnect(us, counts, client, fe).users)
  {
    var snapshot := AllConns(us);
    PurgeKeepsTidy(us, Meant(us, client, fe));
    if client == FE_DISCONNECT {
      FeLoopPurges(us, counts, snapshot, |snapshot|, fe, "");
      assert snapshot[..|snapshot|] == snapshot;
      assert OnFe(snapshot, |snapshot|, fe) == Meant(us, client, fe);
    } else {
      DropOneIsPurge(us, counts, Conn(client, fe));
    }
  }

  /**
    All and only the sessions meant are gone, every counter drops by the number of its own, and the
    names announced as having left are those no longer listed.
    */
  lemma DisconnectIsExact(us: seq<Member>, counts: Counts, client: string, fe: string, c: Conn, name: string)
    requires Tidy(us)
    ensures var o := HandleDisconnect(us, counts, client, fe);
            && (c in AllConns(o.users) <==> c in AllConns(us) && c !in Meant(us, client, fe))
            && Get(o.counts, name) - Get(counts, name) == SessionsOf(o.users, name) - SessionsOf(us, name)
            && NamesOf(o.users) <= NamesOf(us) && ClientsOf(o.users) <= ClientsOf(us)
            && SessionsOf(o.users, name) <= SessionsOf(us, name)
            && (name in o.left <==> name in NamesOf(us) && name !in NamesOf(o.users))
  {
    DisconnectIsPurge(us, counts, client, fe);
    PurgeSessions(us, Meant(us, client, fe), name);
    PurgeIsExact(us, Meant(us, client, fe), c);
    PurgeShrinks(us, Meant(us, client, fe));
    if client == FE_DISCONNECT {
      FeLoopPurges(us, counts, AllConns(us), |AllConns(us)|, fe, name);
    } else {
      DropOneCounts(us, counts, Conn(client, fe), name);
      DropOneLeft(us, counts, Conn(client, fe), name);
    }
  }

  lemma {:induction false} FeLoopIdle(us: seq<Member>, counts: Counts, snapshot: seq<Conn>, k: nat, fe: string)
    requires k <= |snapshot| && forall c :: c in snapshot ==> c.fe != fe
    ensures FeLoop(us, counts, snapshot, k, fe) == Outcome(us, counts, [])
  {
    if k > 0 {
      assert snapshot[k - 1] in snapshot;
      FeLoopIdle(us, counts, snapshot, k - 1, fe);
    }
  }

  /** Repeating a disconnect event changes nothing more. */
  lemma DisconnectTwice(us: seq<Member>, counts: Counts, client: string, fe: string)
    requires Tidy(us)
    ensures var o := HandleDisconnect(us, counts, client, fe);
            HandleDisconnect(o.users, o.counts, client, fe) == Outcome(o.users, o.counts, [])
  {
    var o := HandleDisconnect(us, counts, client, fe);
    DisconnectIsPurge(us, counts, client, fe);
    if client == FE_DISCONNECT {
      forall c | c in AllConns(o.users) ensures c.fe != fe {
        PurgeIsExact(us, Meant(us, client, fe), c);
      }
      FeLoopIdle(o.users, o.counts, AllConns(o.users), |AllConns(o.users)|, fe);
    } else {
      PurgeIsExact(us, Meant(us, client, fe), Conn(client, fe));
      UnknownClientChangesNothing(o.users, o.counts, client, fe);
    }
  }

  // ----- Joining -----

  lemma {:induction false} NamesFound(us: seq<Member>, name: string)
    ensures FindUser(us, name) == |us| <==> name !in NamesOf(us)
  {
    if us != [] {
      NamesFound(us[1..], name);
    }
  }

  lemma JoinSkips(us: seq<Member>, name: string, c: Conn)
    requires us != [] && us[0].name != name
    ensures var (vs, r, isNew) := Join(us[1..], name, c);
            Join(us, name, c) == ([us[0]] + vs, r, isNew)
  {
    var i := FindUser(us, name);
    var us1 := if i == |us| then us + [Member(name, [])] else us;
    var vs1 := if i == |us| then us[1..] + [Member(name, [])] else us[1..];
    assert us1 == [us[0]] + vs1;
    var m := Member(name, Registered(us1[i].sessions, c).0);
    assert us1[i := m] == [us[0]] + vs1[i - 1 := m];
  }

  ghost predicate JoinedExactly(us: seq<Member>, name: string, c: Conn, other: string,
                                vs: seq<Member>, r: int, isNew: bool) {
    && Tidy(vs) && NamesOf(vs) == NamesOf(us) + {name}
    && (r == 0 <==> SessionsOf(us, name) < 2)
    && (r != 0 ==> vs == us)
    && (r == 0 ==> ClientsOf(vs) == ClientsOf(us) + {c.client})
    && SessionsOf(vs, other) == SessionsOf(us, other) + (if r == 0 && other == name then 1 else 0)
    && (isNew <==> name !in NamesOf(us))
  }

  lemma JoinFirst(us: seq<Member>, c: Conn, other: string)
    requires Tidy(us) && us != [] && c.client !in ClientsOf(us) && c.client != c.fe
    ensures var (vs, r, isNew) := Join(us, us[0].name, c);
            JoinedExactly(us, us[0].name, c, other, vs, r, isNew)
  {
    var (vs, _, _) := Join(us, us[0].name, c);
    SessionsOfStranger(us[1..], us[0].name);
    assert vs[1..] == us[1..];
    JoinMember(us[0], c);
  }

  lemma JoinRest(us: seq<Member>, name: string, c: Conn, other: string, vs: seq<Member>, r: int, isNew: bool)
    requires Tidy(us) && us != [] && us[0].name != name && c.client !in ClientsOf(us)
    requires JoinedExactly(us[1..], name, c, other, vs, r, isNew)
    ensures JoinedExactly(us, name, c, other, [us[0]] + vs, r, isNew)
  {
    assert ([us[0]] + vs)[1..] == vs;
    assert us == [us[0]] + us[1..];
  }

  /**
    A new client id joins: the group stays tidy, and it grows by exactly this session, unless the
    user holds two sessions in this group already, in which case the request is refused.
    */
  lemma {:induction false} JoinIsExact(us: seq<Member>, name: string, c: Conn, other: string)
    requires Tidy(us) && c.client !in ClientsOf(us) && c.client != c.fe
    ensures var (vs, r, isNew) := Join(us, name, c);
            JoinedExactly(us, name, c, other, vs, r, isNew)
  {
    if us == [] {
      var (vs, _, _) := Join(us, name, c);
      assert us + [Member(name, [])] == [Member(name, [])] && [] + [c] == [c];
      assert vs == [Member(name, [c])];
      assert vs[1..] == [];
    } else if us[0].name == name {
      JoinFirst(us, c, other);
    } else {
      JoinSkips(us, name, c);
      assert c.client !in ClientsOf(us[1..]);
      JoinIsExact(us[1..], name, c, other);
      var (vs, r, isNew) := Join(us[1..], name, c);
      JoinRest(us, name, c, other, vs, r, isNew);
    }
  }

  lemma JoinMember(m: Member, c: Conn)
    requires TidyMember(m) && c.client !in ClientIds(m.sessions) && c.client != c.fe
    ensures var (sessions, r) := Registered(m.sessions, c);
            && TidyMember(Member(m.name, sessions))
            && ClientIds(sessions) == ClientIds(m.sessions) + if r == 0 then {c.client} else {}
  {
    forall i | 0 <= i < |m.sessions| ensures m.sessions[i].client != c.client {
      assert m.sessions[i] in m.sessions;
    }
    var (sessions, r) := Registered(m.sessions, c);
    if r == 0 {
      forall x ensures x in ClientIds(sessions) <==> x in ClientIds(m.sessions) || x == c.client {
        if x in ClientIds(m.sessions) {
          var d :| d in m.sessions && d.client == x;
          assert d in sessions;
        }
        if x == c.client {
          assert c in sessions;
        }
      }
    }
  }

  /** In a join everybody else keeps his place, and a new user comes last. */
  lemma JoinKeepsPlaces(us: seq<Member>, name: string, c: Conn, j: nat)
    requires j < |Join(us, name, c).0|
    ensures var (vs, r, isNew) := Join(us, name, c);
            && |vs| == |us| + (if isNew then 1 else 0)
            && (j < |us| ==> vs[j].name == us[j].name && us[j].sessions <= vs[j].sessions)
            && (j < |us| && us[j].name != name ==> vs[j] == us[j])
            && (isNew ==> vs[|us|] == Member(name, [c]) && forall i :: 0 <= i < |us| ==> us[i].name != name)
  {
  }

  /** The sessions of a list of users, user by user. */
  lemma {:induction false} AllConnsApart(a: seq<Member>, b: seq<Member>)
    ensures AllConns(a + b) == AllConns(a) + AllConns(b)
  {
    if a == [] {
      assert a + b == b;
    } else {
      assert (a + b)[1..] == a[1..] + b;
      AllConnsApart(a[1..], b);
    }
  }

  /** A join adds its session, if it is accepted, and takes none away. */
  lemma {:induction false} JoinConns(us: seq<Member>, name: string, c: Conn, d: Conn)
    ensures var (vs, r, _) := Join(us, name, c);
            (d in AllConns(vs) <==> d in AllConns(us) || (r == 0 && d == c)) && (r == 0 || r == -1)
  {
    if us == [] {
      var (vs, r, _) := Join(us, name, c);
      assert us + [Member(name, [])] == [Member(name, [])] && [] + [c] == [c];
      assert vs == [Member(name, [c])] && vs[1..] == [];
    } else if us[0].name == name {
      var (vs, r, _) := Join(us, name, c);
      assert vs[1..] == us[1..] && vs[0].sessions == Registered(us[0].sessions, c).0;
    } else {
      JoinSkips(us, name, c);
      JoinConns(us[1..], name, c, d);
      var (vs, _, _) := Join(us[1..], name, c);
      assert ([us[0]] + vs)[1..] == vs;
    }
  }
}
