/**
 * src/util/ConnectionMonitor.cpp: when a silent connection is given up. Every access to the map is under
 * one semaphore, so an execution is a sequence of refreshes, kills and timeout checks by any threads.
 */
module ConnectionMonitors {

  const KEEP_ALIVE_TIMEOUT := 10

  datatype Event =
    | Refresh(socket: int, time: int)
    | Kill(socket: int, time: int)
    | Check(socket: int, time: int)

  type Table = map<int, int>

  /** socketLastKeepAlive[socket]: a missing entry is created with time 0. */
  function LastSeen(last: Table, socket: int): int {
    if socket in last then last[socket] else 0
  }

  function Apply(last: Table, e: Event): Table {
    match e
    case Refresh(s, time) => last[s := time]
    case Kill(s, _) => last - {s}
    case Check(s, _) => last[s := LastSeen(last, s)]
  }

  function After(last: Table, trace: seq<Event>): Table {
    if trace == [] then last else Apply(After(last, trace[..|trace| - 1]), trace[|trace| - 1])
  }

  predicate IsCheck(trace: seq<Event>, k: nat, s: int) {
    k < |trace| && trace[k].Check? && trace[k].socket == s
  }

  /** The check at k ends the monitoring of s. */
  predicate TimesOut(last: Table, trace: seq<Event>, k: nat, s: int) {
    IsCheck(trace, k, s) && trace[k].time - LastSeen(After(last, trace[..k]), s) >= KEEP_ALIVE_TIMEOUT
  }

  /**
    A refresh reads the clock no earlier than the refreshes and checks before it did. A check may have
    read it long before it got the semaphore, so its time may lie before those of refreshes it follows.
    */
  ghost predicate Timely(trace: seq<Event>) {
    forall i, j :: 0 <= i <= j < |trace| && trace[j].Refresh? && !trace[i].Kill? ==> trace[i].time <= trace[j].time
  }

  /** Monitoring of s begins with the monitor's own refresh. */
  predicate Begins(trace: seq<Event>, s: int) {
    trace != [] && trace[0].Refresh? && trace[0].socket == s
  }

  /** At time t and position k the refresh at j is fresh and was not killed since. */
  ghost predicate KeptAlive(trace: seq<Event>, j: nat, k: nat, s: int, t: int) {
    && j < k <= |trace|
    && trace[j].Refresh? && trace[j].socket == s && t < trace[j].time + 10
    && forall i :: j < i < k ==> !(trace[i].Kill? && trace[i].socket == s)
  }

  lemma AfterOne(last: Table, trace: seq<Event>, k: nat)
    requires 0 < k <= |trace|
    ensures After(last, trace[..k]) == Apply(After(last, trace[..k - 1]), trace[k - 1])
  {
    assert trace[..k][..k - 1] == trace[..k - 1];
  }

  /** The table says "fresh" exactly when some recent refresh was not followed by a kill. */
  lemma {:induction false} FreshMeansKeptAlive(last: Table, trace: seq<Event>, k: nat, s: int, t: int)
    requires Begins(trace, s) && Timely(trace) && 0 < k <= |trace|
    requires t >= KEEP_ALIVE_TIMEOUT
    ensures t - LastSeen(After(last, trace[..k]), s) < KEEP_ALIVE_TIMEOUT
            <==> exists j: nat :: KeptAlive(trace, j, k, s, t)
  {
    AfterOne(last, trace, k);
    var e := trace[k - 1];
    if e.Refresh? && e.socket == s {
      assert t < e.time + KEEP_ALIVE_TIMEOUT ==> KeptAlive(trace, k - 1, k, s, t);
      assert forall j: nat :: KeptAlive(trace, j, k, s, t) ==> trace[j].time <= e.time;
    } else if e.Kill? && e.socket == s {
      assert forall j: nat :: KeptAlive(trace, j, k, s, t) ==> j < k - 1;
    } else {
      var before := k - 1;
      FreshMeansKeptAlive(last, trace, before, s, t);
      if j: nat :| KeptAlive(trace, j, k, s, t) {
        assert KeptAlive(trace, j, before, s, t);
      }
      if j: nat :| KeptAlive(trace, j, before, s, t) {
        assert KeptAlive(trace, j, k, s, t);
      }
    }
  }

  /** A connection is given up at a check exactly when it was killed or not refreshed within the timeout. */
  lemma GivenUpExactlyWhenSilent(last: Table, trace: seq<Event>, k: nat, s: int)
    requires Begins(trace, s) && Timely(trace)
    requires IsCheck(trace, k, s) && trace[k].time >= KEEP_ALIVE_TIMEOUT
    ensures TimesOut(last, trace, k, s) <==> !exists j: nat :: KeptAlive(trace, j, k, s, trace[k].time)
  {
    FreshMeansKeptAlive(last, trace, k, s, trace[k].time);
  }

  /** A killed connection that is not refreshed again is given up at the next check, however recent its last sign. */
  lemma KilledIsNoticed(last: Table, trace: seq<Event>, killed: nat, k: nat, s: int)
    requires Begins(trace, s) && Timely(trace)
    requires killed < k && IsCheck(trace, k, s) && trace[k].time >= KEEP_ALIVE_TIMEOUT
    requires trace[killed].Kill? && trace[killed].socket == s
    requires forall i :: killed < i < k ==> !(trace[i].Refresh? && trace[i].socket == s)
    ensures TimesOut(last, trace, k, s)
  {
    FreshMeansKeptAlive(last, trace, k, s, trace[k].time);
    assert forall j: nat :: KeptAlive(trace, j, k, s, trace[k].time) ==> j < killed;
  }

  /** The monitor's previous look at s before k: its last check, or its start. */
  function PreviousLook(trace: seq<Event>, k: nat, s: int): (p: nat)
    requires 0 < k < |trace|
    ensures p < k && (p == 0 || IsCheck(trace, p, s))
  {
    if k == 1 || IsCheck(trace, k - 1, s) then k - 1 else PreviousLook(trace, k - 1, s)
  }

  lemma {:induction false} SeenAt(last: Table, trace: seq<Event>, j: nat, k: nat, s: int)
    requires j < k <= |trace| && trace[j].Refresh? && trace[j].socket == s
    requires forall i :: j < i < k ==> trace[i].socket == s ==> trace[i].Check?
    ensures LastSeen(After(last, trace[..k]), s) == trace[j].time
  {
    AfterOne(last, trace, k);
    if j < k - 1 {
      SeenAt(last, trace, j, k - 1, s);
    }
  }

  /**
   * The detection window: a connection whose last sign was at r, checked at most `gap` seconds apart, is
   * given up at a time in [r + 10, r + 10 + gap).
   */
  lemma DetectionWindow(last: Table, trace: seq<Event>, j: nat, k: nat, s: int, gap: nat)
    requires Begins(trace, s) && Timely(trace)
    requires j < k && TimesOut(last, trace, k, s)
    requires forall i: nat :: i < k ==> !TimesOut(last, trace, i, s)
    requires trace[j].Refresh? && trace[j].socket == s
    requires forall i :: j < i < k ==> trace[i].socket == s ==> trace[i].Check?
    requires trace[k].time - trace[PreviousLook(trace, k, s)].time <= gap
    ensures trace[j].time + 10 <= trace[k].time < trace[j].time + 10 + gap
  {
    SeenAt(last, trace, j, k, s);
    var p := PreviousLook(trace, k, s);
    if j < p {
      SeenAt(last, trace, j, p, s);
      assert !TimesOut(last, trace, p, s);
    }
  }

  class ConnectionMonitor {
    var socketLastKeepAlive: Table

    constructor ()
      ensures socketLastKeepAlive == map[]
    {
      socketLastKeepAlive := map[];
    }

    method RefreshSocket(socket: int, now: int)
      modifies this
      ensures socketLastKeepAlive == Apply(old(socketLastKeepAlive), Refresh(socket, now))
    {
      socketLastKeepAlive := socketLastKeepAlive[socket := now];
    }

    method KillSocket(socket: int)
      modifies this
      ensures forall time: int :: socketLastKeepAlive == Apply(old(socketLastKeepAlive), Kill(socket, time))
    {
      socketLastKeepAlive := socketLastKeepAlive - {socket};
    }

    /**
     * The sleep-and-look loop for one socket. `others` is what all threads do to the table meanwhile, with
     * this loop's own checks in their places; the loop ends at the first check that finds the connection silent.
     */
    method KeepsMonitoringConnection(socket: int, now: int, others: seq<Event>) returns (stopped: bool, end: nat)
      modifies this
      ensures
        var trace := [Refresh(socket, now)] + others;
        && end <= |trace| && (stopped ==> end > 0 && TimesOut(old(socketLastKeepAlive), trace, end - 1, socket))
        && (!stopped ==> end == |trace|)
        && (forall i: nat :: i < (if stopped then end - 1 else end)
              ==> !TimesOut(old(socketLastKeepAlive), trace, i, socket))
        && socketLastKeepAlive == After(old(socketLastKeepAlive), trace[..end])
    {
      ghost var last := socketLastKeepAlive;
      ghost var trace := [Refresh(socket, now)] + others;
      socketLastKeepAlive := socketLastKeepAlive[socket := now];
      end, stopped := 1, false;
      AfterOne(last, trace, 1);
      while end <= |others| && !stopped
        invariant 1 <= end <= |trace|
        invariant stopped ==> TimesOut(last, trace, end - 1, socket)
        invariant forall i: nat :: i < (if stopped then end - 1 else end) ==> !TimesOut(last, trace, i, socket)
        invariant socketLastKeepAlive == After(last, trace[..end])
        decreases |others| + 1 - end
      {
        var e := others[end - 1];
        assert trace[end] == e;
        AfterOne(last, trace, end + 1);
        match e {
          case Refresh(s, time) => RefreshSocket(s, time);
          case Kill(s, _) => KillSocket(s);
          case Check(s, time) =>
            socketLastKeepAlive := socketLastKeepAlive[s := LastSeen(socketLastKeepAlive, s)];
            var secondsSinceLastKeepAlive := time - socketLastKeepAlive[s];
            stopped := s == socket && secondsSinceLastKeepAlive >= KEEP_ALIVE_TIMEOUT;
        }
        end := end + 1;
      }
    }

    /** Watches a connection until it falls silent and then forgets it. */
    method Monitor(socket: int, now: int, others: seq<Event>) returns (stopped: bool, end: nat)
      modifies this
      ensures
        var trace := [Refresh(socket, now)] + others;
        && (stopped <==> exists k: nat :: TimesOut(old(socketLastKeepAlive), trace, k, socket))
        && end <= |trace|
        && (stopped ==> end > 0 && TimesOut(old(socketLastKeepAlive), trace, end - 1, socket)
                        && forall i: nat :: i < end - 1 ==> !TimesOut(old(socketLastKeepAlive), trace, i, socket))
        && socketLastKeepAlive ==
             if stopped then After(old(socketLastKeepAlive), trace[..end]) - {socket}
             else After(old(socketLastKeepAlive), trace)
    {
      stopped, end := KeepsMonitoringConnection(socket, now, others);
      if stopped {
        socketLastKeepAlive := socketLastKeepAlive - {socket};
      } else {
        ghost var trace := [Refresh(socket, now)] + others;
        assert trace[..|trace|] == trace;
      }
    }
  }
}
