/** src/server/Election.cpp: what one server does with an election message. */
module Elections {
  import opened Common
  import opened PortRing
  import Decimal
  import PacketText

  datatype Status = ELECTION | ELECTED

  datatype Msg = Msg(status: Status, id: Port)

  /** `sent` goes to the next server; `newPrimary` is None where the source returns 0. */
  datatype Reaction = Reaction(participating: bool, sent: Option<Msg>, newPrimary: Option<Port>)

  function React(participating: bool, me: Port, m: Msg): Reaction {
    if !participating then
      Reaction(true, Some(Msg(ELECTION, if m.id > me then m.id else me)), None)
    else if m.status.ELECTION? then
      Reaction(true, Some(Msg(if m.id != me then ELECTION else ELECTED, m.id)), None)
    else
      Reaction(false, if m.id != me then Some(Msg(ELECTED, m.id)) else None, Some(m.id))
  }

  /**
    The reaction, part by part: what is passed on and with which id, what is decided, and who goes on taking part.
    A server leaves an election exactly when it learns the outcome; the outcome stops at its own server.
    */
  lemma ReactionByPart(participating: bool, me: Port, m: Msg)
    ensures var r := React(participating, me, m);
            var learns := participating && m.status == ELECTED;
            && r.participating == !learns
            && r.newPrimary == (if learns then Some(m.id) else None)
            && (r.sent == None <==> learns && m.id == me)
            && (r.sent.Some? ==>
                  && (r.sent.value.status == ELECTED <==> learns || (participating && m.id == me))
                  && (participating ==> r.sent.value.id == m.id)
                  && (!participating ==> r.sent.value.id >= m.id && r.sent.value.id >= me
                                         && r.sent.value.id in {m.id, me}))
  {
  }

  // ----- The wire format: a status word, a blank and the id in decimal -----

  function StatusWord(s: Status): (w: string)
    ensures w == "ELECTION" || w == "ELECTED"
  {
    if s.ELECTION? then "ELECTION" else "ELECTED"
  }

  function Text(m: Msg): string {
    StatusWord(m.status) + " " + Decimal.Print(m.id)
  }

  predicate IsBlank(c: char) { c == ' ' || c == '\n' || c == '\t' || c == '\r' }

  function SkipBlanks(s: string): (r: string)
    ensures |r| <= |s|
  {
    if s != [] && IsBlank(s[0]) then SkipBlanks(s[1..]) else s
  }

  function WordLength(s: string): (k: nat)
    ensures k <= |s|
  {
    if s == [] || IsBlank(s[0]) then 0 else 1 + WordLength(s[1..])
  }

  /** Two `>>` into strings, then `stoi`. Any first word other than ELECTION is taken as ELECTED. */
  function ReadText(text: string): Option<Msg> {
    var s := SkipBlanks(text);
    var status := s[..WordLength(s)];
    var t := SkipBlanks(s[|status|..]);
    match Decimal.Parse(t[..WordLength(t)])
    case None => None
    case Some(i) =>
      if 0 < i < 65536 then Some(Msg(if status == "ELECTION" then ELECTION else ELECTED, i)) else None
  }

  lemma {:induction false} WordLengthOf(w: string, rest: string)
    requires forall k :: 0 <= k < |w| ==> !IsBlank(w[k])
    requires rest == [] || IsBlank(rest[0])
    ensures WordLength(w + rest) == |w|
  {
    if w == [] {
      assert w + rest == rest;
    } else {
      WordLengthOf(w[1..], rest);
      assert (w + rest)[1..] == w[1..] + rest;
    }
  }

  lemma PortDigits(p: Port)
    ensures |Decimal.Print(p)| <= 5
  {
    assert p / 10 / 10 / 10 / 10 < 10;
    assert |Decimal.Digits(p / 10 / 10 / 10)| <= 2;
    assert |Decimal.Digits(p / 10 / 10)| <= 3;
    assert |Decimal.Digits(p / 10)| <= 4;
  }

  predicate IsWord(w: string) {
    w != [] && forall k :: 0 <= k < |w| ==> !IsBlank(w[k])
  }

  lemma ReadWords(w: string, d: string, id: Port)
    requires IsWord(w) && IsWord(d) && Decimal.Parse(d) == Some(id)
    ensures ReadText(w + " " + d) == Some(Msg(if w == "ELECTION" then ELECTION else ELECTED, id))
  {
    var text := w + " " + d;
    WordLengthOf(w, " " + d);
    WordLengthOf(d, []);
    assert text == w + (" " + d) && d + [] == d;
    assert text[0] == w[0] && text[..|w|] == w;
    assert text[|w|..] == " " + d && (" " + d)[1..] == d;
    assert SkipBlanks(" " + d) == SkipBlanks(d) == d;
    assert d[..|d|] == d;
  }

  lemma PrintIsWord(p: Port)
    ensures IsWord(Decimal.Print(p)) && '\0' !in Decimal.Print(p)
  {
    Decimal.PrintedChars(p);
  }

  lemma TextFits(w: string, d: string)
    requires |w| <= 8 && |d| <= 5 && '\0' !in w && '\0' !in d
    ensures PacketText.Cut(w + " " + d) == w + " " + d
  {
    PacketText.CutKeeps(w + " " + d);
  }

  /** Building, copying into the packet buffer and reading back loses nothing. */
  lemma WireRoundTrip(m: Msg)
    ensures ReadText(PacketText.Cut(Text(m))) == Some(m)
  {
    var w, d := StatusWord(m.status), Decimal.Print(m.id);
    Decimal.ParsePrint(m.id);
    PrintIsWord(m.id);
    PortDigits(m.id);
    TextFits(w, d);
    ReadWords(w, d, m.id);
  }

  /** The Election object each server holds. */
  class Election {
    var isParticipating: bool

    constructor ()
      ensures !isParticipating
    {
      isParticipating := false;
    }

    method BuildPacket(id: Port, status: Status) returns (text: string)
      ensures ReadText(text) == Some(Msg(status, id))
    {
      WireRoundTrip(Msg(status, id));
      text := PacketText.Cut(Text(Msg(status, id)));
    }

    /** Sends the starter's own id; the starter does not count itself as participating. */
    method StartElection(serverId: Port) returns (sent: string)
      ensures ReadText(sent) == Some(Msg(ELECTION, serverId))
    {
      sent := BuildPacket(serverId, ELECTION);
    }

    method ProcessElectionInfo(received: string, serverId: Port)
      returns (newPrimary: Option<Port>, sent: Option<string>)
      requires ReadText(received).Some?
      modifies this
      ensures var r := React(old(isParticipating), serverId, ReadText(received).value);
              isParticipating == r.participating && newPrimary == r.newPrimary &&
              sent.Some? == r.sent.Some? && (sent.Some? ==> ReadText(sent.value) == r.sent)
    {
      var m := ReadText(received).value;
      newPrimary, sent := None, None;
      if !isParticipating {
        var text := BuildPacket(if m.id > serverId then m.id else serverId, ELECTION);
        sent := Some(text);
        isParticipating := true;
      } else if m.status == ELECTION {
        var text := BuildPacket(m.id, if m.id != serverId then ELECTION else ELECTED);
        sent := Some(text);
      } else {
        if m.id != serverId {
          var text := BuildPacket(m.id, ELECTED);
          sent := Some(text);
        }
        isParticipating := false;
        newPrimary := Some(m.id);
      }
    }
  }
}
