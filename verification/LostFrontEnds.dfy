/**
  What a lost front end leaves behind (src/server/server.cpp:176-187, 256, 266-268, 282-324). The thread
  that notices first, the monitor's or the listening one, disconnects everybody on the front end, group
  by group, and purges its address; the other one then finds no address and does nothing. A join which
  the listening thread has reserved and not yet inserted may come after that sweep.
  */
module LostFrontEnds {
  import opened Common
  import opened Users
  import opened Groups
  import opened FeDisconnect
  import opened Servers
  import opened SessionAccounting

  predicate NobodyOn(g: GroupState, fe: string) { forall c <- AllConns(g.users) :: c.fe != fe }

  /** No group of the table has a session on the front end. */
  predicate NoneLeft(s: State, fe: string) {
    forall o <- s.table.Values :: o < |s.objects| ==> NobodyOn(s.objects[o], fe)
  }

  /** The front end is lost: its listening thread admits no more joins. */
  predicate NoMoreJoins(events: seq<Event>, fe: string) {
    forall e <- events :: e.Reserve? ==> e.request.conn.fe != fe
  }

  /** The disconnection of everybody on the front end, in the group object that is being visited. */
  predicate Sweeps(e: Event, fe: string) { e.Disconnect? && e.client == FE_DISCONNECT && e.fe == fe }

  /** Of the objects in `todo`, those that the event does not sweep. */
  function Remaining(s: State, e: Event, fe: string, todo: set<nat>): set<nat> {
    if Sweeps(e, fe) && s.visiting.Some? then todo - {s.visiting.value} else todo
  }

  /** Which of the objects in `todo` the run has not swept. */
  function Unswept(s: State, events: seq<Event>, fe: string, todo: set<nat>): set<nat>
    requires Valid(s, events)
    decreases |events|
  {
    if events == [] then todo
    else
      Unswept(Apply(s, events[0]), events[1..], fe, Remaining(s, events[0], fe, todo))
  }

  /** Every group that was in the table, and still is, has been swept. */
  predicate SweptAll(s: State, events: seq<Event>, fe: string)
    requires Valid(s, events)
  {
    Unswept(s, events, fe, s.table.Values) !! After(s, events).table.Values
  }

  /** A join that will be inserted into a group of the table: any but those that hold a group which was replaced. */
  predicate Coming(s: State, i: nat, fe: string) {
    && i < |s.pending| && s.pending[i].request.conn.fe == fe
    && (s.pending[i].stage.Holding? ==> s.pending[i].stage.o in s.table.Values)
  }

  predicate NothingComing(s: State, fe: string) {
    forall i :: 0 <= i < |s.pending| ==> !Coming(s, i, fe)
  }

  // ----- Nothing is left if nothing was coming -----

  /** All listed objects but those in `todo` are clean, and nothing is coming. */
  ghost predicate Clean(s: State, fe: string, todo: set<nat>) {
    NothingComing(s, fe) && forall o <- s.table.Values :: o < |s.objects| && o !in todo ==> NobodyOn(s.objects[o], fe)
  }

  lemma RegisterBringsNothing(s: State, i: nat, isPrimary: bool, now: int, fe: string)
    requires Enabled(s, Register(i, isPrimary, now)) && NothingComing(s, fe)
    ensures NothingComing(Apply(s, Register(i, isPrimary, now)), fe)
  {
    var s' := Apply(s, Register(i, isPrimary, now));
    forall j | 0 <= j < |s'.pending| ensures !Coming(s', j, fe) {
      assert s'.pending[j] == s.pending[if j < i then j else j + 1];
      assert !Coming(s, if j < i then j else j + 1, fe);
    }
  }

  /** A new group object is held by nobody yet. */
  lemma StepBringsNothing(s: State, e: Event, fe: string)
    requires PointersFit(s) && Enabled(s, e) && NothingComing(s, fe) && (e.Lookup? || e.Create? || e.Fetch?)
    ensures NothingComing(Apply(s, e), fe)
  {
    var s' := Apply(s, e);
    forall j | 0 <= j < |s'.pending| ensures !Coming(s', j, fe) {
      assert !Coming(s, j, fe) && !Coming(s, e.i, fe);
      if e.Create? {
        assert s'.table.Values <= s.table.Values + {|s.objects|};
      }
    }
  }

  lemma StillNothingComing(s: State, e: Event, fe: string)
    requires Inv(s) && Enabled(s, e) && NothingComing(s, fe) && (e.Reserve? ==> e.request.conn.fe != fe)
    ensures NothingComing(Apply(s, e), fe)
  {
    match e
    case Register(i, isPrimary, now) => RegisterBringsNothing(s, i, isPrimary, now, fe);
    case Lookup(_) => StepBringsNothing(s, e, fe);
    case Create(_) => StepBringsNothing(s, e, fe);
    case Fetch(_) => StepBringsNothing(s, e, fe);
    case _ =>
      forall j | 0 <= j < |Apply(s, e).pending| ensures !Coming(Apply(s, e), j, fe) {
        if j < |s.pending| {
          assert !Coming(s, j, fe);
        }
      }
  }

  lemma RegisterKeepsNobody(s: State, i: nat, isPrimary: bool, now: int, fe: string, o: nat)
    requires Inv(s) && Enabled(s, Register(i, isPrimary, now)) && NothingComing(s, fe)
    requires o < |s.objects| && o in s.table.Values && NobodyOn(s.objects[o], fe)
    ensures NobodyOn(Apply(s, Register(i, isPrimary, now)).objects[o], fe)
  {
    var r := s.pending[i].request;
    assert !Coming(s, i, fe);
    if s.pending[i].stage.o == o {
      var s' := Apply(s, Register(i, isPrimary, now));
      forall c <- AllConns(s'.objects[o].users) ensures c.fe != fe {
        JoinConns(s.objects[o].users, r.user, r.conn, c);
      }
    }
  }

  lemma DisconnectLeavesFewer(s: State, e: Event, fe: string, o: nat)
    requires Inv(s) && Enabled(s, e) && e.Disconnect? && o < |s.objects|
    requires NobodyOn(s.objects[o], fe) || (Sweeps(e, fe) && s.visiting == Some(o))
    ensures NobodyOn(Apply(s, e).objects[o], fe)
  {
    var us := s.objects[o].users;
    assert GroupFits(s, s.objects[o]);
    if s.visiting == Some(o) {
      forall c <- AllConns(Apply(s, e).objects[o].users) ensures c.fe != fe {
        DisconnectIsExact(us, s.counts, e.client, e.fe, c, "");
      }
    }
  }

  lemma EventKeepsClean(s: State, e: Event, fe: string, todo: set<nat>)
    requires Inv(s) && Enabled(s, e) && Clean(s, fe, todo) && (e.Reserve? ==> e.request.conn.fe != fe)
    ensures Clean(Apply(s, e), fe, Remaining(s, e, fe, todo))
  {
    var s' := Apply(s, e);
    StillNothingComing(s, e, fe);
    forall o <- s'.table.Values | o < |s'.objects| && o !in Remaining(s, e, fe, todo)
      ensures NobodyOn(s'.objects[o], fe)
    {
      if o < |s.objects| {
        assert o in s.table.Values;
        match e
        case Register(i, isPrimary, now) => RegisterKeepsNobody(s, i, isPrimary, now, fe, o);
        case Disconnect(_, _, _, _) => DisconnectLeavesFewer(s, e, fe, o);
        case _ =>
      }
    }
  }

  lemma {:induction false} CleanAfter(s: State, events: seq<Event>, fe: string, todo: set<nat>)
    requires Inv(s) && Valid(s, events) && NoMoreJoins(events, fe) && Clean(s, fe, todo)
    ensures Clean(After(s, events), fe, Unswept(s, events, fe, todo))
    decreases |events|
  {
    if events != [] {
      EventKeepsClean(s, events[0], fe, todo);
      EventKeeps(s, events[0]);
      CleanAfter(Apply(s, events[0]), events[1..], fe, Remaining(s, events[0], fe, todo));
    }
  }

  // ----- Something may be left if something was coming -----

  lemma Extends(s: State, e: Event, rest: seq<Event>, fe: string, todo: set<nat>)
    requires Enabled(s, e) && Valid(Apply(s, e), rest)
    ensures Valid(s, [e] + rest) && After(s, [e] + rest) == After(Apply(s, e), rest)
    ensures Unswept(s, [e] + rest, fe, todo) ==
            Unswept(Apply(s, e), rest, fe, Remaining(s, e, fe, todo))
  {
    assert ([e] + rest)[1..] == rest;
  }

  lemma {:induction false} UnsweptShrinks(s: State, events: seq<Event>, fe: string, todo: set<nat>)
    requires Valid(s, events)
    ensures Unswept(s, events, fe, todo) <= todo
    decreases |events|
  {
    if events != [] {
      UnsweptShrinks(Apply(s, events[0]), events[1..], fe, Remaining(s, events[0], fe, todo));
    }
  }

  /** A sweep moves nothing but sessions. */
  predicate OnlySwept(s: State, s': State) {
    s'.table == s.table && s'.pending == s.pending && |s'.objects| == |s.objects| && s'.visiting.None?
  }

  lemma {:induction false} SweepAll(s: State, names: set<string>, fe: string, todo: set<nat>)
    returns (events: seq<Event>, s': State)
    requires Inv(s) && s.visiting.None? && names <= s.table.Keys
    ensures Valid(s, events) && s' == After(s, events) && Inv(s') && OnlySwept(s, s')
    ensures NoMoreJoins(events, fe)
    ensures forall g <- names :: s.table[g] !in Unswept(s, events, fe, todo)
    decreases |names|
  {
    if names == {} {
      events, s' := [], s;
    } else {
      var g :| g in names;
      var visit, drop := Visit(g), Disconnect(FE_DISCONNECT, fe, true, 0);
      var s1 := Apply(s, visit);
      EventKeeps(s, visit);
      var s2 := Apply(s1, drop);
      EventKeeps(s1, drop);
      var left := todo - {s.table[g]};
      var rest;
      rest, s' := SweepAll(s2, names - {g}, fe, left);
      Extends(s1, drop, rest, fe, todo);
      Extends(s, visit, [drop] + rest, fe, todo);
      UnsweptShrinks(s2, rest, fe, left);
      events := [visit] + ([drop] + rest);
    }
  }

  /** How far a join still has to go. */
  function StepsLeft(stage: Stage): nat {
    match stage case Admitted => 3 case Missing => 2 case Found => 1 case Holding(_) => 0
  }

  function NextStep(i: nat, stage: Stage): Event
    requires !stage.Holding?
  {
    match stage case Admitted => Lookup(i) case Missing => Create(i) case Found => Fetch(i)
  }

  /** Its next step brings it further, whatever it finds. */
  lemma ComesNearer(s: State, i: nat, fe: string)
    requires PointersFit(s) && Coming(s, i, fe) && !s.pending[i].stage.Holding?
    ensures var e := NextStep(i, s.pending[i].stage);
            && Enabled(s, e) && Coming(Apply(s, e), i, fe)
            && StepsLeft(Apply(s, e).pending[i].stage) < StepsLeft(s.pending[i].stage)
  {
    var group := s.pending[i].request.group;
    if s.pending[i].stage.Found? {
      assert s.table[group] in s.table.Values;
    }
  }

  lemma InsertedStays(s: State, i: nat, fe: string)
    requires Inv(s) && Coming(s, i, fe) && s.pending[i].stage.Holding?
    ensures Enabled(s, Register(i, true, 0)) && !NoneLeft(Apply(s, Register(i, true, 0)), fe)
  {
    var r, o := s.pending[i].request, s.pending[i].stage.o;
    RegisterIsAccepted(s, i, true, 0);
    JoinConns(s.objects[o].users, r.user, r.conn, r.conn);
    var s' := Apply(s, Register(i, true, 0));
    assert r.conn in AllConns(s'.objects[o].users) && o in s'.table.Values;
  }

  /** A join that is coming ends up in a group of the table. */
  lemma {:induction false} JoinEnds(s: State, i: nat, fe: string) returns (events: seq<Event>)
    requires Inv(s) && Coming(s, i, fe)
    ensures Valid(s, events) && NoMoreJoins(events, fe) && !NoneLeft(After(s, events), fe)
    decreases StepsLeft(s.pending[i].stage)
  {
    if s.pending[i].stage.Holding? {
      InsertedStays(s, i, fe);
      Extends(s, Register(i, true, 0), [], fe, {});
      events := [Register(i, true, 0)] + [];
    } else {
      var e := NextStep(i, s.pending[i].stage);
      ComesNearer(s, i, fe);
      EventKeeps(s, e);
      var rest := JoinEnds(Apply(s, e), i, fe);
      Extends(s, e, rest, fe, {});
      events := [e] + rest;
    }
  }

  lemma {:induction false} UnsweptConcat(s: State, first: seq<Event>, rest: seq<Event>, fe: string, todo: set<nat>)
    requires Valid(s, first) && Valid(After(s, first), rest)
    ensures Valid(s, first + rest) && After(s, first + rest) == After(After(s, first), rest)
    ensures Unswept(s, first + rest, fe, todo) == Unswept(After(s, first), rest, fe, Unswept(s, first, fe, todo))
    decreases |first|
  {
    hide Apply, Enabled;
    if first == [] {
      assert first + rest == rest;
    } else {
      var all, later := first + rest, first[1..] + rest;
      assert all[0] == first[0] && all[1..] == later;
      UnsweptConcat(Apply(s, first[0]), first[1..], rest, fe, Remaining(s, first[0], fe, todo));
    }
  }

  /** The sweep is complete, then the join is inserted. */
  lemma ComesTooLate(s: State, i: nat, fe: string) returns (events: seq<Event>)
    requires Inv(s) && s.visiting.None? && Coming(s, i, fe)
    ensures Valid(s, events) && NoMoreJoins(events, fe) && SweptAll(s, events, fe)
    ensures !NoneLeft(After(s, events), fe)
  {
    var first, s1 := SweepAll(s, s.table.Keys, fe, s.table.Values);
    var rest := JoinEnds(s1, i, fe);
    UnsweptConcat(s, first, rest, fe, s.table.Values);
    UnsweptShrinks(s, first, fe, s.table.Values);
    forall o | o in s.table.Values ensures o !in Unswept(s, first, fe, s.table.Values) {
      var g :| g in s.table && s.table[g] == o;
      assert g in s.table.Keys;
    }
    assert Unswept(s, first, fe, s.table.Values) == {};
    UnsweptShrinks(s1, rest, fe, {});
    events := first + rest;
  }

  /**
    Whether a lost front end is forgotten: every complete sweep, whatever runs beside it and after it, leaves no
    session on the front end in any group of the table, if and only if no join of the front end is under way
    when the sweep begins, but such as hold a group that was replaced.
    */
  lemma ForgottenExactly(before: seq<Event>, fe: string)
    requires Valid(EMPTY, before) && After(EMPTY, before).visiting.None?
    ensures var s := After(EMPTY, before);
            (forall events: seq<Event> ::
               Valid(s, events) && NoMoreJoins(events, fe) && SweptAll(s, events, fe)
               ==> NoneLeft(After(s, events), fe))
            <==> NothingComing(s, fe)
  {
    var s := After(EMPTY, before);
    EmptyFits();
    InvAfter(EMPTY, before);
    if NothingComing(s, fe) {
      forall events: seq<Event> | Valid(s, events) && NoMoreJoins(events, fe) && SweptAll(s, events, fe)
        ensures NoneLeft(After(s, events), fe)
      {
        CleanAfter(s, events, fe, s.table.Values);
      }
    } else {
      var i :| 0 <= i < |s.pending| && Coming(s, i, fe);
      var events := ComesTooLate(s, i, fe);
      assert Valid(s, events) && !NoneLeft(After(s, events), fe);
    }
  }
}
