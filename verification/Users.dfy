/** src/util/user.cpp: the sessions one user has open in one group. */
module Users {

  const MAX_NUMBER_OF_SIMULTANEOUS_CONNECTIONS := 2

  /** A session: the client's id and the address of the front end it came through. */
  datatype Conn = Conn(client: string, fe: string)

  /** registerSession: the new list, and 0 or -1. */
  function Registered(sessions: seq<Conn>, c: Conn): (seq<Conn>, int) {
    if |sessions| < MAX_NUMBER_OF_SIMULTANEOUS_CONNECTIONS then (sessions + [c], 0) else (sessions, -1)
  }

  /**
    releaseSession as written: the client ids must be equal, and the second comparison, which is
    meant for the front end, is made between the session's client id and `fe`.
    */
  function Released(sessions: seq<Conn>, client: string, fe: string): (r: seq<Conn>)
    ensures |r| <= |sessions|
  {
    if sessions == [] then []
    else if sessions[0].client == client && sessions[0].client != fe then Released(sessions[1..], client, fe)
    else [sessions[0]] + Released(sessions[1..], client, fe)
  }

  /** releaseSession as documented: the sessions equal to one of the pairs go. */
  function Without(sessions: seq<Conn>, gone: set<Conn>): (r: seq<Conn>)
    ensures |r| <= |sessions|
    ensures forall c :: c in r <==> c in sessions && c !in gone
  {
    if sessions == [] then []
    else if sessions[0] in gone then Without(sessions[1..], gone)
    else [sessions[0]] + Without(sessions[1..], gone)
  }

  /** A third session is refused; otherwise the new one comes last and the others keep their places. */
  lemma RegisteredExactly(sessions: seq<Conn>, c: Conn)
    ensures var (r, result) := Registered(sessions, c);
            && (if |sessions| < 2 then result == 0 else result == -1)
            && sessions <= r && |r| == |sessions| + (if result == 0 then 1 else 0)
            && (result == 0 ==> r[|sessions|] == c)
  {
  }

  /** Every session is judged by itself, and those that stay keep their order. */
  lemma {:induction false} ReleasedApart(a: seq<Conn>, b: seq<Conn>, client: string, fe: string)
    ensures Released(a + b, client, fe) == Released(a, client, fe) + Released(b, client, fe)
  {
    if a == [] {
      assert a + b == b;
    } else {
      assert (a + b)[1..] == a[1..] + b;
      ReleasedApart(a[1..], b, client, fe);
    }
  }

  lemma {:induction false} WithoutApart(a: seq<Conn>, b: seq<Conn>, gone: set<Conn>)
    ensures Without(a + b, gone) == Without(a, gone) + Without(b, gone)
  {
    if a == [] {
      assert a + b == b;
    } else {
      assert (a + b)[1..] == a[1..] + b;
      WithoutApart(a[1..], b, gone);
    }
  }

  lemma {:induction false} ReleasedMembers(sessions: seq<Conn>, client: string, fe: string, c: Conn)
    ensures c in Released(sessions, client, fe) <==> c in sessions && !(c.client == client && client != fe)
  {
    if sessions != [] {
      ReleasedMembers(sessions[1..], client, fe, c);
    }
  }

  lemma {:induction false} ReleasedEqualsWithout(sessions: seq<Conn>, client: string, fe: string)
    requires client != fe && forall c :: c in sessions && c.client == client ==> c.fe == fe
    ensures Released(sessions, client, fe) == Without(sessions, {Conn(client, fe)})
  {
    if sessions != [] {
      assert sessions[0] in sessions;
      assert forall c :: c in sessions[1..] ==> c in sessions;
      ReleasedEqualsWithout(sessions[1..], client, fe);
    }
  }

  lemma {:induction false} NothingReleased(sessions: seq<Conn>, client: string)
    ensures Released(sessions, client, client) == sessions
  {
    if sessions != [] {
      NothingReleased(sessions[1..], client);
    }
  }

  lemma {:induction false} NothingGone(sessions: seq<Conn>, gone: set<Conn>)
    requires forall c :: c in sessions ==> c !in gone
    ensures Without(sessions, gone) == sessions
  {
    if sessions != [] {
      assert sessions[0] in sessions;
      assert forall c :: c in sessions[1..] ==> c in sessions;
      NothingGone(sessions[1..], gone);
    }
  }

  lemma {:induction false} WithoutTwice(sessions: seq<Conn>, a: set<Conn>, b: set<Conn>)
    ensures Without(Without(sessions, a), b) == Without(sessions, a + b)
  {
    if sessions != [] {
      WithoutTwice(sessions[1..], a, b);
      if sessions[0] !in a {
        assert ([sessions[0]] + Without(sessions[1..], a))[1..] == Without(sessions[1..], a);
      }
    }
  }

  /**
    Exactly when the code releases what its documentation says: no other front end holds a session
    with the same client id, and, should the client id equal the front end's address, there is
    nothing to release.
    */
  lemma ReleaseMatchesPair(sessions: seq<Conn>, client: string, fe: string)
    ensures Released(sessions, client, fe) == Without(sessions, {Conn(client, fe)}) <==>
            if client == fe then Conn(client, fe) !in sessions
            else forall c :: c in sessions && c.client == client ==> c.fe == fe
  {
    var r, w := Released(sessions, client, fe), Without(sessions, {Conn(client, fe)});
    if client == fe {
      NothingReleased(sessions, client);
      if Conn(client, fe) !in sessions {
        NothingGone(sessions, {Conn(client, fe)});
      } else {
        assert Conn(client, fe) !in w;
      }
    } else if c :| c in sessions && c.client == client && c.fe != fe {
      ReleasedMembers(sessions, client, fe, c);
      assert c in w && c !in r;
    } else {
      ReleasedEqualsWithout(sessions, client, fe);
    }
  }

  class User {
    const username: string
    var clientIdentifiers: seq<Conn>

    constructor (username: string)
      ensures this.username == username && clientIdentifiers == []
    {
      this.username := username;
      clientIdentifiers := [];
    }

    method RegisterSession(clientID: string, feAddress: string) returns (result: int)
      modifies this`clientIdentifiers
      ensures (clientIdentifiers, result) == Registered(old(clientIdentifiers), Conn(clientID, feAddress))
    {
      if |clientIdentifiers| < MAX_NUMBER_OF_SIMULTANEOUS_CONNECTIONS {
        clientIdentifiers := clientIdentifiers + [Conn(clientID, feAddress)];
        result := 0;
      } else {
        result := -1;
      }
    }

    method ReleaseSession(clientID: string, feAddress: string)
      modifies this`clientIdentifiers
      ensures clientIdentifiers == Released(old(clientIdentifiers), clientID, feAddress)
    {
      var deletionIndex := 0;
      while deletionIndex < |clientIdentifiers|
        invariant 0 <= deletionIndex <= |clientIdentifiers|
        invariant clientIdentifiers[..deletionIndex] + Released(clientIdentifiers[deletionIndex..], clientID, feAddress)
               == Released(old(clientIdentifiers), clientID, feAddress)
        decreases |clientIdentifiers| - deletionIndex
      {
        var s := clientIdentifiers[deletionIndex];
        ghost var before := clientIdentifiers;
        if s.client == clientID && s.client != feAddress {
          clientIdentifiers := clientIdentifiers[..deletionIndex] + clientIdentifiers[deletionIndex + 1..];
          assert clientIdentifiers[deletionIndex..] == before[deletionIndex + 1..];
        } else {
          deletionIndex := deletionIndex + 1;
          assert clientIdentifiers[deletionIndex - 1..][1..] == clientIdentifiers[deletionIndex..];
        }
      }
    }
  }
}
