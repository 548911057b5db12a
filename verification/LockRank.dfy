/**
  Deadlock freedom of the server's semaphores (src/server/server.cpp:50-60, 83-107, 149-198, 213-238,
  282-330, 490-496; src/server/Group.cpp:32-68, 101-178, 197-206, 240-245; src/util/user.cpp:12-77;
  src/server/FeAddressBook.cpp:9-27; src/util/ConnectionMonitor.cpp:32-66). Each operation is written out
  as the semaphore operations it performs, in order; network and file operations between them are
  assumed to return.

  One semaphore is waited for by one thread and posted by another: handleFrontEndsConnections waits for
  feConnectionInitializationSemaphore, starts a thread, and it is that thread which posts. The
  semaphore is here held by whoever has to post it, so starting the thread hands it on.
  */
module LockRank {
  import opened Common

  /** One users and one message-queue semaphore per group, one per user record. */
  datatype Lock =
    | SocketsConnections
    | FeAddresses
    | FeInitialization
    | GroupUsers(group: string)
    | GroupQueue(group: string)
    | AddressBook
    | UserSessions(user: string, inGroup: string)
    | KeepAliveTable

  function Rank(l: Lock): nat {
    match l
    case SocketsConnections => 0
    case FeAddresses => 1
    case FeInitialization => 2
    case GroupUsers(_) => 3
    case GroupQueue(_) => 4
    case AddressBook => 5
    case UserSessions(_, _) => 6
    case KeepAliveTable => 7
  }

  const MAX_RANK := 7

  /**
    What the threads of the server share and guard: connectionsCount, the users of a group with their sessions,
    its message queue, the front ends' addresses and sockets, the times of the monitor, and the arguments
    that are handed to a new thread.
    */
  datatype Data =
    | Counters
    | Members(group: string)
    | Messages(group: string)
    | Addresses
    | SocketIds
    | KeepAlives
    | Arguments

  function Guard(d: Data): Lock {
    match d
    case Counters => SocketsConnections
    case Members(group) => GroupUsers(group)
    case Messages(group) => GroupQueue(group)
    case Addresses => FeAddresses
    case SocketIds => AddressBook
    case KeepAlives => KeepAliveTable
    case Arguments => FeInitialization
  }

  /**
    Access reads or writes shared data; Work is anything else. Spawn starts a thread that has to post
    feConnectionInitializationSemaphore.
    */
  datatype Instr = Acquire(l: Lock) | Release(l: Lock) | Work | Access(d: Data) | Spawn

  // ----- The operations -----

  function Section(l: Lock, body: seq<Instr>): seq<Instr> {
    [Acquire(l)] + body + [Release(l)]
  }

  function Repeat(n: nat, block: seq<Instr>): seq<Instr> {
    if n == 0 then [] else block + Repeat(n - 1, block)
  }

  function When(c: bool, block: seq<Instr>): seq<Instr> { if c then block else [] }

  /** getInternalSocketId and a send. */
  function SendVia(): seq<Instr> { Section(AddressBook, [Access(SocketIds)]) + [Work] }

  /** disconnectSession for one session: the user's record, and the notice when the user leaves. */
  function DropSession(group: string, user: string, leaves: bool): seq<Instr> {
    [Access(Members(group)), Access(Counters)] + Section(UserSessions(user, group), [Access(Members(group))]) +
    When(leaves, Section(GroupQueue(group), [Access(Messages(group))]) + [Access(Members(group))])
  }

  datatype Dropped = Dropped(user: string, leaves: bool)

  function DropSessions(group: string, dropped: seq<Dropped>): seq<Instr> {
    if dropped == [] then []
    else DropSession(group, dropped[0].user, dropped[0].leaves) + DropSessions(group, dropped[1..])
  }

  datatype GroupVisit = GroupVisit(group: string, dropped: seq<Dropped>)
  function VisitGroups(visits: seq<GroupVisit>): seq<Instr> {
    if visits == [] then []
    else
      Section(GroupUsers(visits[0].group), DropSessions(visits[0].group, visits[0].dropped)) + VisitGroups(visits[1..])
  }

  datatype Operation =
    | RefuseJoin(isPrimary: bool)
    | AdmitJoin(user: string, group: string, isPrimary: bool, isNew: bool, history: nat)
    | ReceiveMessage(group: string)
    | ConsumeMessage(group: string, isPrimary: bool, sessions: nat)
    | Replicate
    | CloseClient(visits: seq<GroupVisit>)
    | CloseFrontEnd(visits: seq<GroupVisit>)
    | CloseServer(frontEnds: nat)
    | ServeFrontEnds(frontEnds: nat)
    | ServeBackup
    | KeepAlive

  function Program(op: Operation): seq<Instr> {
    match op
    case RefuseJoin(isPrimary) => Section(SocketsConnections, [Access(Counters)] + When(isPrimary, SendVia()))
    case AdmitJoin(user, group, isPrimary, isNew, history) =>
      Section(SocketsConnections, [Access(Counters)]) +
      When(isPrimary, SendVia() + Section(GroupQueue(group), Repeat(history, SendVia()))) +
      Section(GroupUsers(group), Inserting(user, group, isPrimary, isNew))
    case ReceiveMessage(group) => Section(GroupQueue(group), [Access(Messages(group))]) + [Work]
    case ConsumeMessage(group, isPrimary, sessions) =>
      Section(GroupQueue(group), [Access(Messages(group))]) + [Work] +
      Section(GroupUsers(group), When(isPrimary, [Access(Members(group))] + Repeat(sessions, SendVia())))
    case Replicate => Section(SocketsConnections, [Work])
    case CloseClient(visits) => Section(SocketsConnections, VisitGroups(visits))
    case CloseFrontEnd(visits) =>
      Section(KeepAliveTable, [Access(KeepAlives)]) + Section(FeAddresses, [Access(Addresses)]) +
      Section(SocketsConnections, VisitGroups(visits)) + SendVia() +
      Section(FeAddresses, [Access(Addresses)] + Section(AddressBook, [Access(SocketIds)]))
    case CloseServer(frontEnds) => Section(FeAddresses, [Access(Addresses)] + Repeat(frontEnds, SendVia()))
    case ServeFrontEnds(frontEnds) =>
      Section(FeAddresses, [Access(Addresses)] + Repeat(frontEnds, StartThreads())) +
      Section(FeInitialization, [Access(Arguments)])
    case ServeBackup => Section(SocketsConnections, []) + [Work]
    case KeepAlive => Section(KeepAliveTable, [Access(KeepAlives)])
  }

  /** registerNewSession inside the group: a new user, its notice on the primary, and the session. */
  function Inserting(user: string, group: string, isPrimary: bool, isNew: bool): seq<Instr> {
    [Access(Members(group))] +
    When(isNew, Section(UserSessions(user, group), [Access(Members(group))])) +
    When(isNew && isPrimary, Section(GroupQueue(group), [Access(Messages(group))])) +
    Section(UserSessions(user, group), [Access(Members(group))])
  }

  /** handleFrontEndsConnections for one front end: its listening and its monitoring thread. */
  function StartThreads(): seq<Instr> {
    Section(AddressBook, [Access(SocketIds)]) +
    [Acquire(FeInitialization), Access(Arguments), Spawn, Acquire(FeInitialization), Spawn, Work]
  }

  /** What both threads do before anything else. */
  function Child(): seq<Instr> {
    [Access(Arguments)] + Section(AddressBook, [Access(SocketIds)]) + [Release(FeInitialization)]
  }

  // ----- The discipline: semaphores are taken in the order of their ranks -----

  ghost predicate Above(l: Lock, held: set<Lock>) {
    forall h :: h in held ==> Rank(h) < Rank(l)
  }

  /** What is held after the program, if every acquisition respects the ranks and every access is guarded. */
  ghost function Runs(prog: seq<Instr>, held: set<Lock>): Option<set<Lock>> {
    if prog == [] then Some(held)
    else match prog[0]
      case Work => Runs(prog[1..], held)
      case Access(d) => if Guard(d) in held then Runs(prog[1..], held) else None
      case Acquire(l) => if Above(l, held) then Runs(prog[1..], held + {l}) else None
      case Release(l) => if l in held then Runs(prog[1..], held - {l}) else None
      case Spawn => if FeInitialization in held then Runs(prog[1..], held - {FeInitialization}) else None
  }

  lemma {:induction false} RunsAppend(a: seq<Instr>, b: seq<Instr>, held: set<Lock>)
    requires Runs(a, held).Some?
    ensures Runs(a + b, held) == Runs(b, Runs(a, held).value)
  {
    if a == [] {
      assert a + b == b;
    } else {
      assert (a + b)[1..] == a[1..] + b;
      match a[0]
      case Work => RunsAppend(a[1..], b, held);
      case Access(_) => RunsAppend(a[1..], b, held);
      case Acquire(l) => RunsAppend(a[1..], b, held + {l});
      case Release(l) => RunsAppend(a[1..], b, held - {l});
      case Spawn => RunsAppend(a[1..], b, held - {FeInitialization});
    }
  }

  /** The program respects the ranks and gives back all that it takes. */
  ghost predicate Neutral(prog: seq<Instr>, held: set<Lock>) {
    Runs(prog, held) == Some(held)
  }

  lemma NeutralAppend(a: seq<Instr>, b: seq<Instr>, held: set<Lock>)
    requires Neutral(a, held) && Neutral(b, held)
    ensures Neutral(a + b, held)
  {
    RunsAppend(a, b, held);
  }

  lemma NeutralSection(l: Lock, body: seq<Instr>, held: set<Lock>)
    requires Above(l, held) && Neutral(body, held + {l})
    ensures Neutral(Section(l, body), held)
  {
    var prog := Section(l, body);
    assert prog[1..] == body + [Release(l)];
    RunsAppend(body, [Release(l)], held + {l});
    assert [Release(l)][1..] == [];
    assert (held + {l}) - {l} == held;
  }

  lemma {:induction false} NeutralRepeat(n: nat, block: seq<Instr>, held: set<Lock>)
    requires Neutral(block, held)
    ensures Neutral(Repeat(n, block), held)
  {
    if n > 0 {
      NeutralRepeat(n - 1, block, held);
      NeutralAppend(block, Repeat(n - 1, block), held);
    }
  }

  lemma NeutralWork(held: set<Lock>)
    ensures Neutral([Work], held)
  {
    assert [Work][1..] == [];
  }

  lemma NeutralAccess(d: Data, held: set<Lock>)
    requires Guard(d) in held
    ensures Neutral([Access(d)], held)
  {
    assert [Access(d)][1..] == [];
  }

  /** A section that does nothing but access what it guards. */
  lemma NeutralGuarded(l: Lock, d: Data, held: set<Lock>)
    requires Above(l, held) && Guard(d) in held + {l}
    ensures Neutral(Section(l, [Access(d)]), held)
  {
    NeutralAccess(d, held + {l});
    NeutralSection(l, [Access(d)], held);
  }

  lemma NeutralSend(held: set<Lock>)
    requires Above(AddressBook, held)
    ensures Neutral(SendVia(), held)
  {
    NeutralGuarded(AddressBook, SocketIds, held);
    NeutralWork(held);
    NeutralAppend(Section(AddressBook, [Access(SocketIds)]), [Work], held);
  }

  lemma NeutralDrop(group: string, user: string, leaves: bool, held: set<Lock>)
    requires held == {SocketsConnections, GroupUsers(group)}
    ensures Neutral(DropSession(group, user, leaves), held)
  {
    var m := Access(Members(group));
    NeutralAccess(Members(group), held);
    NeutralAccess(Counters, held);
    NeutralAppend([m], [Access(Counters)], held);
    assert [m] + [Access(Counters)] == [m, Access(Counters)];
    NeutralGuarded(UserSessions(user, group), Members(group), held);
    NeutralAppend([m, Access(Counters)], Section(UserSessions(user, group), [m]), held);
    NeutralGuarded(GroupQueue(group), Messages(group), held);
    var told := Section(GroupQueue(group), [Access(Messages(group))]);
    NeutralAppend(told, [m], held);
    NeutralAppend([m, Access(Counters)] + Section(UserSessions(user, group), [m]), When(leaves, told + [m]), held);
  }

  lemma {:induction false} NeutralDrops(group: string, dropped: seq<Dropped>, held: set<Lock>)
    requires held == {SocketsConnections, GroupUsers(group)}
    ensures Neutral(DropSessions(group, dropped), held)
  {
    if dropped != [] {
      var d := dropped[0];
      NeutralDrop(group, d.user, d.leaves, held);
      NeutralDrops(group, dropped[1..], held);
      NeutralAppend(DropSession(group, d.user, d.leaves), DropSessions(group, dropped[1..]), held);
    }
  }

  /** One group's semaphore is given back before the next group's is taken. */
  lemma {:induction false} NeutralVisits(visits: seq<GroupVisit>, held: set<Lock>)
    requires held == {SocketsConnections}
    ensures Neutral(VisitGroups(visits), held)
  {
    if visits != [] {
      var v := visits[0];
      NeutralDrops(v.group, v.dropped, held + {GroupUsers(v.group)});
      NeutralSection(GroupUsers(v.group), DropSessions(v.group, v.dropped), held);
      NeutralVisits(visits[1..], held);
      NeutralAppend(Section(GroupUsers(v.group), DropSessions(v.group, v.dropped)), VisitGroups(visits[1..]), held);
    }
  }

  lemma NeutralInserting(user: string, group: string, isPrimary: bool, isNew: bool)
    ensures Neutral(Inserting(user, group, isPrimary, isNew), {GroupUsers(group)})
  {
    var u, m := {GroupUsers(group)}, [Access(Members(group))];
    NeutralAccess(Members(group), u);
    NeutralGuarded(UserSessions(user, group), Members(group), u);
    NeutralGuarded(GroupQueue(group), Messages(group), u);
    var made := When(isNew, Section(UserSessions(user, group), m));
    var told := When(isNew && isPrimary, Section(GroupQueue(group), [Access(Messages(group))]));
    NeutralAppend(m, made, u);
    NeutralAppend(m + made, told, u);
    NeutralAppend(m + made + told, Section(UserSessions(user, group), m), u);
  }

  lemma JoinRespectsRanks(user: string, group: string, isPrimary: bool, isNew: bool, history: nat)
    ensures Neutral(Program(AdmitJoin(user, group, isPrimary, isNew, history)), {})
  {
    var q, u := {GroupQueue(group)}, {GroupUsers(group)};
    NeutralGuarded(SocketsConnections, Counters, {});
    NeutralSend({});
    NeutralSend(q);
    NeutralRepeat(history, SendVia(), q);
    NeutralSection(GroupQueue(group), Repeat(history, SendVia()), {}) by {
      assert {} + q == q;
    }
    NeutralAppend(SendVia(), Section(GroupQueue(group), Repeat(history, SendVia())), {});
    var first := When(isPrimary, SendVia() + Section(GroupQueue(group), Repeat(history, SendVia())));
    NeutralAppend(Section(SocketsConnections, [Access(Counters)]), first, {});
    NeutralInserting(user, group, isPrimary, isNew);
    var body := Inserting(user, group, isPrimary, isNew);
    NeutralSection(GroupUsers(group), body, {}) by {
      assert {} + u == u;
    }
    NeutralAppend(Section(SocketsConnections, [Access(Counters)]) + first, Section(GroupUsers(group), body), {});
  }

  lemma CloseRespectsRanks(visits: seq<GroupVisit>)
    ensures Neutral(Program(CloseClient(visits)), {}) && Neutral(Program(CloseFrontEnd(visits)), {})
  {
    var s, f, a := {SocketsConnections}, {FeAddresses}, [Access(Addresses)];
    NeutralVisits(visits, s);
    NeutralSection(SocketsConnections, VisitGroups(visits), {}) by {
      assert {} + s == s;
    }
    NeutralGuarded(FeAddresses, Addresses, {});
    NeutralSend({});
    NeutralAccess(Addresses, f);
    NeutralGuarded(AddressBook, SocketIds, f);
    NeutralAppend(a, Section(AddressBook, [Access(SocketIds)]), f);
    var purge := Section(FeAddresses, a + Section(AddressBook, [Access(SocketIds)]));
    NeutralSection(FeAddresses, a + Section(AddressBook, [Access(SocketIds)]), {}) by {
      assert {} + f == f;
    }
    var close := Section(SocketsConnections, VisitGroups(visits));
    NeutralGuarded(KeepAliveTable, KeepAlives, {});
    var kill := Section(KeepAliveTable, [Access(KeepAlives)]);
    NeutralAppend(kill, Section(FeAddresses, a), {});
    NeutralAppend(kill + Section(FeAddresses, a), close, {});
    NeutralAppend(kill + Section(FeAddresses, a) + close, SendVia(), {});
    NeutralAppend(kill + Section(FeAddresses, a) + close + SendVia(), purge, {});
  }

  lemma ConsumeRespectsRanks(group: string, isPrimary: bool, sessions: nat)
    ensures Neutral(Program(ConsumeMessage(group, isPrimary, sessions)), {})
    ensures Neutral(Program(ReceiveMessage(group)), {})
  {
    var u, m := {GroupUsers(group)}, [Access(Members(group))];
    var take := Section(GroupQueue(group), [Access(Messages(group))]);
    NeutralGuarded(GroupQueue(group), Messages(group), {});
    NeutralWork({});
    NeutralAppend(take, [Work], {});
    NeutralSend(u);
    NeutralRepeat(sessions, SendVia(), u);
    NeutralAccess(Members(group), u);
    NeutralAppend(m, Repeat(sessions, SendVia()), u);
    NeutralSection(GroupUsers(group), When(isPrimary, m + Repeat(sessions, SendVia())), {}) by {
      assert {} + u == u;
    }
    NeutralAppend(take + [Work], Section(GroupUsers(group), When(isPrimary, m + Repeat(sessions, SendVia()))), {});
  }

  /** From where the first thread is started to the end of one round. */
  lemma HandingOn(held: set<Lock>)
    requires held == {FeAddresses}
    ensures Neutral([Acquire(FeInitialization), Access(Arguments), Spawn, Acquire(FeInitialization), Spawn, Work], held)
  {
    var both := held + {FeInitialization};
    var rest := [Acquire(FeInitialization), Access(Arguments), Spawn, Acquire(FeInitialization), Spawn, Work];
    assert both - {FeInitialization} == held;
    NeutralWork(held);
    assert [Spawn, Work][1..] == [Work];
    assert Runs([Spawn, Work], both) == Some(held);
    assert [Acquire(FeInitialization), Spawn, Work][1..] == [Spawn, Work];
    assert Runs([Acquire(FeInitialization), Spawn, Work], held) == Some(held);
    assert rest[1..][1..][1..] == [Acquire(FeInitialization), Spawn, Work];
    assert Runs(rest[1..][1..], both) == Some(held);
    assert Runs(rest[1..], both) == Some(held);
  }

  lemma StartingRespectsRanks(held: set<Lock>)
    requires held == {FeAddresses}
    ensures Neutral(StartThreads(), held)
  {
    NeutralGuarded(AddressBook, SocketIds, held);
    HandingOn(held);
    NeutralAppend(Section(AddressBook, [Access(SocketIds)]),
                  [Acquire(FeInitialization), Access(Arguments), Spawn, Acquire(FeInitialization), Spawn, Work], held);
  }

  /** The semaphore handed to a new thread is given back by it. */
  lemma ChildGivesBack()
    ensures Runs(Child(), {FeInitialization}) == Some({})
  {
    var i := {FeInitialization};
    NeutralAccess(Arguments, i);
    NeutralGuarded(AddressBook, SocketIds, i);
    NeutralAppend([Access(Arguments)], Section(AddressBook, [Access(SocketIds)]), i);
    RunsAppend([Access(Arguments)] + Section(AddressBook, [Access(SocketIds)]), [Release(FeInitialization)], i);
    assert [Release(FeInitialization)][1..] == [];
    assert i - {FeInitialization} == {};
    assert Runs([Release(FeInitialization)], i) == Some({});
  }

  lemma ServingRespectsRanks(frontEnds: nat)
    ensures Neutral(Program(ServeFrontEnds(frontEnds)), {})
  {
    var f, a := {FeAddresses}, [Access(Addresses)];
    StartingRespectsRanks(f);
    NeutralRepeat(frontEnds, StartThreads(), f);
    NeutralAccess(Addresses, f);
    NeutralAppend(a, Repeat(frontEnds, StartThreads()), f);
    NeutralSection(FeAddresses, a + Repeat(frontEnds, StartThreads()), {}) by {
      assert {} + f == f;
    }
    NeutralGuarded(FeInitialization, Arguments, {});
    NeutralAppend(Section(FeAddresses, a + Repeat(frontEnds, StartThreads())),
                  Section(FeInitialization, [Access(Arguments)]), {});
  }

  lemma {:induction false} RepeatHas(n: nat, block: seq<Instr>, x: Instr)
    ensures x in Repeat(n, block) <==> n > 0 && x in block
  {
    if n > 0 {
      RepeatHas(n - 1, block, x);
    }
  }

  lemma SectionHas(l: Lock, body: seq<Instr>, d: Data)
    ensures Access(d) in Section(l, body) <==> Access(d) in body
  {
  }

  lemma SumHas(a: seq<Instr>, b: seq<Instr>, x: Instr)
    ensures x in a + b <==> x in a || x in b
  {
  }

  lemma SendHas(d: Data)
    ensures Access(d) in SendVia() <==> d == SocketIds
  {
    SectionHas(AddressBook, [Access(SocketIds)], d);
  }

  lemma InsertingHas(user: string, group: string, isPrimary: bool, isNew: bool)
    ensures Access(SocketIds) !in Inserting(user, group, isPrimary, isNew)
    ensures Access(Messages(group)) in Inserting(user, group, isPrimary, isNew) <==> isPrimary && isNew
  {
    var m := [Access(Members(group))];
    var told := Section(GroupQueue(group), [Access(Messages(group))]);
    forall d | d == SocketIds || d == Messages(group)
      ensures Access(d) in Inserting(user, group, isPrimary, isNew) <==> isNew && isPrimary && d == Messages(group)
    {
      SectionHas(UserSessions(user, group), m, d);
      SectionHas(GroupQueue(group), [Access(Messages(group))], d);
      hide Section;
      SumHas(m, When(isNew, Section(UserSessions(user, group), m)), Access(d));
      SumHas(m + When(isNew, Section(UserSessions(user, group), m)), When(isNew && isPrimary, told), Access(d));
    }
  }

  lemma JoinSends(user: string, group: string, isPrimary: bool, isNew: bool, history: nat, d: Data)
    requires d == SocketIds || d == Messages(group)
    ensures Access(d) in Program(AdmitJoin(user, group, isPrimary, isNew, history)) <==>
            isPrimary && (d == SocketIds || isNew)
  {
    var body := Inserting(user, group, isPrimary, isNew);
    InsertingHas(user, group, isPrimary, isNew);
    SendHas(d);
    RepeatHas(history, SendVia(), Access(d));
    SectionHas(SocketsConnections, [Access(Counters)], d);
    SectionHas(GroupQueue(group), Repeat(history, SendVia()), d);
    SectionHas(GroupUsers(group), body, d);
    hide Section, SendVia, Inserting;
    var sent := SendVia() + Section(GroupQueue(group), Repeat(history, SendVia()));
    SumHas(SendVia(), Section(GroupQueue(group), Repeat(history, SendVia())), Access(d));
    SumHas(Section(SocketsConnections, [Access(Counters)]), When(isPrimary, sent), Access(d));
    SumHas(Section(SocketsConnections, [Access(Counters)]) + When(isPrimary, sent), Section(GroupUsers(group), body),
           Access(d));
  }

  lemma RefusalSends(isPrimary: bool)
    ensures Access(SocketIds) in Program(RefuseJoin(isPrimary)) <==> isPrimary
  {
    SendHas(SocketIds);
    SectionHas(SocketsConnections, [Access(Counters)] + When(isPrimary, SendVia()), SocketIds);
  }

  lemma ConsumerSends(group: string, isPrimary: bool, sessions: nat)
    ensures Access(SocketIds) in Program(ConsumeMessage(group, isPrimary, sessions)) <==> isPrimary && sessions > 0
  {
    var told := When(isPrimary, [Access(Members(group))] + Repeat(sessions, SendVia()));
    SendHas(SocketIds);
    RepeatHas(sessions, SendVia(), Access(SocketIds));
    SectionHas(GroupQueue(group), [Access(Messages(group))], SocketIds);
    SectionHas(GroupUsers(group), told, SocketIds);
    hide Section, SendVia;
    SumHas(Section(GroupQueue(group), [Access(Messages(group))]) + [Work], Section(GroupUsers(group), told),
           Access(SocketIds));
  }

  lemma LeavingTells(group: string, user: string, leaves: bool)
    ensures Access(Messages(group)) in DropSession(group, user, leaves) <==> leaves
  {
    SectionHas(UserSessions(user, group), [Access(Members(group))], Messages(group));
    SectionHas(GroupQueue(group), [Access(Messages(group))], Messages(group));
  }

  /**
    Who sends: only the primary, to a client that joins and to the sessions of a group, and only the primary queues
    the notice of a new user. A disconnection gets to a queue exactly when its user leaves the group.
    */
  lemma OnlyThePrimarySends(user: string, group: string, isPrimary: bool, isNew: bool, n: nat)
    ensures Access(SocketIds) in Program(RefuseJoin(isPrimary)) <==> isPrimary
    ensures Access(SocketIds) in Program(AdmitJoin(user, group, isPrimary, isNew, n)) <==> isPrimary
    ensures Access(Messages(group)) in Program(AdmitJoin(user, group, isPrimary, isNew, n)) <==> isPrimary && isNew
    ensures Access(SocketIds) in Program(ConsumeMessage(group, isPrimary, n)) <==> isPrimary && n > 0
    ensures Access(Messages(group)) in DropSession(group, user, isNew) <==> isNew
  {
    hide Program, DropSession;
    RefusalSends(isPrimary);
    JoinSends(user, group, isPrimary, isNew, n, SocketIds);
    JoinSends(user, group, isPrimary, isNew, n, Messages(group));
    ConsumerSends(group, isPrimary, n);
    LeavingTells(group, user, isNew);
  }

  /** Every operation takes its semaphores in rank order, whatever its branches and loops do. */
  lemma OperationsRespectRanks(op: Operation)
    ensures Neutral(Program(op), {})
  {
    var s, f := {SocketsConnections}, {FeAddresses};
    assert {} + s == s && {} + f == f;
    match op
    case RefuseJoin(isPrimary) =>
      NeutralSend(s);
      NeutralAccess(Counters, s);
      NeutralAppend([Access(Counters)], When(isPrimary, SendVia()), s);
      NeutralSection(SocketsConnections, [Access(Counters)] + When(isPrimary, SendVia()), {});
    case AdmitJoin(user, group, isPrimary, isNew, history) => JoinRespectsRanks(user, group, isPrimary, isNew, history);
    case ReceiveMessage(group) => ConsumeRespectsRanks(group, false, 0);
    case ConsumeMessage(group, isPrimary, sessions) => ConsumeRespectsRanks(group, isPrimary, sessions);
    case Replicate =>
      NeutralWork(s);
      NeutralSection(SocketsConnections, [Work], {});
    case CloseClient(visits) => CloseRespectsRanks(visits);
    case CloseFrontEnd(visits) => CloseRespectsRanks(visits);
    case CloseServer(frontEnds) =>
      NeutralSend(f);
      NeutralRepeat(frontEnds, SendVia(), f);
      NeutralAccess(Addresses, f);
      NeutralAppend([Access(Addresses)], Repeat(frontEnds, SendVia()), f);
      NeutralSection(FeAddresses, [Access(Addresses)] + Repeat(frontEnds, SendVia()), {});
    case ServeFrontEnds(frontEnds) => ServingRespectsRanks(frontEnds);
    case ServeBackup =>
      NeutralSection(SocketsConnections, [], {});
      NeutralWork({});
      NeutralAppend(Section(SocketsConnections, []), [Work], {});
    case KeepAlive => NeutralGuarded(KeepAliveTable, KeepAlives, {});
  }

  // ----- Any number of threads -----

  /** What a thread has still to do in its current operation, and what it holds. */
  datatype Thread = Thread(rest: seq<Instr>, held: set<Lock>)

  type State = seq<Thread>

  datatype Event = Start(t: nat, op: Operation) | Step(t: nat)

  ghost predicate FreeLock(s: State, l: Lock) {
    forall i :: 0 <= i < |s| ==> l !in s[i].held
  }

  ghost predicate Enabled(s: State, e: Event) {
    match e
    case Start(t, _) => t < |s| && s[t].rest == []
    case Step(t) => t < |s| && s[t].rest != [] && (s[t].rest[0].Acquire? ==> FreeLock(s, s[t].rest[0].l))
  }

  function Apply(s: State, e: Event): State
    requires e.t < |s| && (e.Step? ==> s[e.t].rest != [])
  {
    var th := s[e.t];
    match e
    case Start(t, op) => s[t := Thread(Program(op), th.held)]
    case Step(t) =>
      var held := match th.rest[0]
                  case Work => th.held
                  case Access(_) => th.held
                  case Acquire(l) => th.held + {l}
                  case Release(l) => th.held - {l}
                  case Spawn => th.held - {FeInitialization};
      s[t := Thread(th.rest[1..], held)] + (if th.rest[0].Spawn? then [Thread(Child(), {FeInitialization})] else [])
  }

  ghost predicate Inv(s: State) {
    && (forall i :: 0 <= i < |s| ==> Runs(s[i].rest, s[i].held) == Some({}))
    && (forall i, j :: 0 <= i < j < |s| ==> s[i].held !! s[j].held)
  }

  lemma EventKeeps(s: State, e: Event)
    requires Inv(s) && Enabled(s, e)
    ensures Inv(Apply(s, e))
  {
    ChildGivesBack();
    if e.Start? {
      OperationsRespectRanks(e.op);
    }
  }

  ghost predicate Valid(s: State, events: seq<Event>)
    decreases |events|
  {
    events == [] || (Enabled(s, events[0]) && Valid(Apply(s, events[0]), events[1..]))
  }

  ghost function After(s: State, events: seq<Event>): State
    requires Valid(s, events)
    decreases |events|
  {
    if events == [] then s else After(Apply(s, events[0]), events[1..])
  }

  lemma {:induction false} InvAfter(s: State, events: seq<Event>)
    requires Inv(s) && Valid(s, events)
    ensures Inv(After(s, events))
    decreases |events|
  {
    if events != [] {
      EventKeeps(s, events[0]);
      InvAfter(Apply(s, events[0]), events[1..]);
    }
  }

  /** Following "waits for a semaphore held by" leads, through increasing ranks, to a thread that can step. */
  lemma SomeoneCanStep(s: State, t: nat) returns (u: nat)
    requires Inv(s) && t < |s| && s[t].rest != []
    ensures u < |s| && Enabled(s, Step(u))
    decreases if s[t].rest[0].Acquire? then MAX_RANK - Rank(s[t].rest[0].l) else 0
  {
    if Enabled(s, Step(t)) {
      u := t;
    } else {
      var l := s[t].rest[0].l;
      var holder :| 0 <= holder < |s| && l in s[holder].held;
      assert s[holder].rest != [];
      if s[holder].rest[0].Acquire? {
        assert Above(s[holder].rest[0].l, s[holder].held);
        u := SomeoneCanStep(s, holder);
      } else {
        u := holder;
      }
    }
  }

  /**
    In every reachable state, with any number of threads, groups and users: as long as some thread is
    inside an operation, some thread can take a step.
    */
  lemma DeadlockFree(threads: nat, events: seq<Event>, t: nat) returns (u: nat)
    requires Valid(seq(threads, _ => Thread([], {})), events)
    requires t < |After(seq(threads, _ => Thread([], {})), events)|
    requires After(seq(threads, _ => Thread([], {})), events)[t].rest != []
    ensures u < |After(seq(threads, _ => Thread([], {})), events)|
    ensures Enabled(After(seq(threads, _ => Thread([], {})), events), Step(u))
  {
    var s := seq(threads, _ => Thread([], {}));
    InvAfter(s, events);
    u := SomeoneCanStep(After(s, events), t);
  }

  predicate About(s: State, t: nat, d: Data) { t < |s| && s[t].rest != [] && s[t].rest[0] == Access(d) }

  /**
    No two threads are ever about to touch the same shared data: whoever is holds the semaphore that guards it.
    */
  lemma NoRaces(threads: nat, events: seq<Event>, t: nat, u: nat, d: Data)
    requires Valid(seq(threads, _ => Thread([], {})), events)
    requires About(After(seq(threads, _ => Thread([], {})), events), t, d)
    requires About(After(seq(threads, _ => Thread([], {})), events), u, d)
    ensures t == u && Guard(d) in After(seq(threads, _ => Thread([], {})), events)[t].held
  {
    var s := seq(threads, _ => Thread([], {}));
    InvAfter(s, events);
    var s' := After(s, events);
    assert Guard(d) in s'[t].held && Guard(d) in s'[u].held;
  }
}
