/**
 * The text of a history file: one line per message, three fields per line, read back with `getline`
 * (src/util/file_system_manager.cpp).
 */
module HistoryRecords {
  import opened Common
  import opened Decimal
  import opened Groups

  const FILE_SEPARATOR: char := 31 as char
  const NEWLINE: char := '\n'

  const MIN_LONG: int := -0x8000_0000_0000_0000
  const MAX_LONG: int := 0x7FFF_FFFF_FFFF_FFFF

  predicate IsSpan(s: string, d: char, k: nat) {
    k <= |s| && (forall i :: 0 <= i < k ==> s[i] != d) && (k < |s| ==> s[k] == d)
  }

  lemma OneSpan(s: string, d: char, k: nat)
    requires IsSpan(s, d, k)
    ensures Span(s, d) == k
  {
  }

  /** How far `s` runs before the first `d`. */
  function Span(s: string, d: char): (k: nat)
    ensures IsSpan(s, d, k)
  {
    if s == [] || s[0] == d then 0 else 1 + Span(s[1..], d)
  }

  /** What repeated `getline` calls deliver: the text cut at every `d`, with no last empty piece. */
  function Pieces(s: string, d: char): (r: seq<string>)
    ensures forall p <- r :: d !in p
    decreases |s|
  {
    if s == [] then []
    else
      var k := Span(s, d);
      if k == |s| then [s] else [s[..k]] + Pieces(s[k + 1..], d)
  }

  /** Every piece followed by `d`. */
  function Terminated(pieces: seq<string>, d: char): string {
    if pieces == [] then [] else pieces[0] + [d] + Terminated(pieces[1..], d)
  }

  predicate EndsWith(s: string, d: char) { s == [] || s[|s| - 1] == d }

  lemma CutOnce(s: string, d: char, k: nat)
    requires s != [] && IsSpan(s, d, k)
    ensures
      var rest := if k < |s| then s[k + 1..] else [];
      Pieces(s, d) == [s[..k]] + Pieces(rest, d)
  {
    OneSpan(s, d, k);
    assert s[..|s|] == s;
    assert Pieces([], d) == [];
  }

  /** One getline call: what precedes the next `d`, and what is left after it. */
  method GetLine(s: string, d: char) returns (line: string, rest: string)
    requires s != []
    ensures |rest| < |s| && Pieces(s, d) == [line] + Pieces(rest, d)
  {
    var k := 0;
    while k < |s| && s[k] != d
      invariant k <= |s| && forall i :: 0 <= i < k ==> s[i] != d
    {
      k := k + 1;
    }
    CutOnce(s, d, k);
    line, rest := s[..k], if k < |s| then s[k + 1..] else [];
  }

  /** The getline loops: src/util/file_system_manager.cpp:54, :59 and :90. */
  method GetLines(s: string, d: char) returns (pieces: seq<string>)
    ensures pieces == Pieces(s, d)
  {
    pieces := [];
    var rest := s;
    while rest != []
      invariant pieces + Pieces(rest, d) == Pieces(s, d)
      decreases |rest|
    {
      var line, next := GetLine(rest, d);
      assert pieces + ([line] + Pieces(next, d)) == pieces + [line] + Pieces(next, d);
      pieces, rest := pieces + [line], next;
    }
  }

  lemma FirstPiece(x: string, d: char, rest: string)
    requires d !in x
    ensures Pieces(x + [d] + rest, d) == [x] + Pieces(rest, d)
  {
    var s := x + [d] + rest;
    OneSpan(s, d, |x|);
    assert s[..|x|] == x && s[|x| + 1..] == rest;
  }

  lemma OnlyPiece(x: string, d: char)
    requires d !in x && x != []
    ensures Pieces(x, d) == [x]
  {
    OneSpan(x, d, |x|);
  }

  /** Cutting a terminated text gives one piece more than was written for every stray `d`. */
  lemma {:induction false} CutAtLeast(x: string, d: char, rest: string)
    ensures |Pieces(x + [d] + rest, d)| >= 1 + |Pieces(rest, d)|
    ensures d in x ==> |Pieces(x + [d] + rest, d)| > 1 + |Pieces(rest, d)|
    decreases |x|
  {
    if d !in x {
      FirstPiece(x, d, rest);
    } else {
      var k := Span(x, d);
      var y := x[k + 1..];
      assert x == x[..k] + [d] + y;
      assert x + [d] + rest == x[..k] + [d] + (y + [d] + rest);
      FirstPiece(x[..k], d, y + [d] + rest);
      CutAtLeast(y, d, rest);
    }
  }

  lemma {:induction false} PiecesOfTerminated(pieces: seq<string>, d: char)
    requires forall p <- pieces :: d !in p
    ensures Pieces(Terminated(pieces, d), d) == pieces
  {
    if pieces != [] {
      FirstPiece(pieces[0], d, Terminated(pieces[1..], d));
      PiecesOfTerminated(pieces[1..], d);
    }
  }

  lemma {:induction false} CountOfTerminated(pieces: seq<string>, d: char)
    ensures |Pieces(Terminated(pieces, d), d)| >= |pieces|
    ensures |Pieces(Terminated(pieces, d), d)| == |pieces| ==> forall p <- pieces :: d !in p
  {
    if pieces != [] {
      CutAtLeast(pieces[0], d, Terminated(pieces[1..], d));
      CountOfTerminated(pieces[1..], d);
      assert pieces == [pieces[0]] + pieces[1..];
    }
  }

  lemma {:induction false} TerminatedOfPieces(s: string, d: char)
    requires EndsWith(s, d)
    ensures Terminated(Pieces(s, d), d) == s
    decreases |s|
  {
    if s != [] {
      var k := Span(s, d);
      var x, rest := s[..k], s[k + 1..];
      assert s == x + [d] + rest;
      FirstPiece(x, d, rest);
      assert rest != [] ==> rest[|rest| - 1] == s[|s| - 1];
      TerminatedOfPieces(rest, d);
      assert ([x] + Pieces(rest, d))[1..] == Pieces(rest, d);
    }
  }

  lemma {:induction false} TerminatedAppend(pieces: seq<string>, p: string, d: char)
    ensures Terminated(pieces + [p], d) == Terminated(pieces, d) + p + [d]
  {
    if pieces == [] {
      assert pieces + [p] == [p];
    } else {
      TerminatedAppend(pieces[1..], p, d);
      assert (pieces + [p])[1..] == pieces[1..] + [p];
    }
  }

  predicate IsSpace(c: char) { c == ' ' || '\t' <= c <= '\r' }

  function SkipSpaces(s: string): string {
    if s != [] && IsSpace(s[0]) then SkipSpaces(s[1..]) else s
  }

  /** `stream >> time` into a long that starts as 0: 0 when there is no number, the nearest long when it is too big. */
  function ReadTime(s: string): (time: int)
    ensures MIN_LONG <= time <= MAX_LONG
  {
    var t := SkipSpaces(s);
    var signed := |t| >= 2 && t[0] == '+' && IsDigit(t[1]);
    match Parse(if signed then t[1..] else t)
    case None => 0
    case Some(i) => if i < MIN_LONG then MIN_LONG else if i > MAX_LONG then MAX_LONG else i
  }

  lemma ReadTimePrinted(time: int)
    requires MIN_LONG <= time <= MAX_LONG
    ensures ReadTime(Print(time)) == time
  {
    ParsePrint(time);
    PrintedChars(time);
    assert Print(time)[0] == '-' || IsDigit(Print(time)[0]);
  }

  lemma {:induction false} SkipsSpaces(blanks: string, rest: string)
    requires forall c <- blanks :: c == ' ' || 9 <= c as int <= 13
    requires rest == [] || !(rest[0] == ' ' || 9 <= rest[0] as int <= 13)
    ensures SkipSpaces(blanks + rest) == rest
  {
    if blanks == [] {
      assert blanks + rest == rest;
    } else {
      var s := blanks + rest;
      assert blanks[0] in blanks && s[0] == blanks[0] && s[1..] == blanks[1..] + rest;
      assert forall c <- blanks[1..] :: c in blanks;
      SkipsSpaces(blanks[1..], rest);
    }
  }

  lemma {:induction false} DigitRunStops(digits: string, rest: string)
    requires AllDigits(digits) && (rest == [] || !IsDigit(rest[0]))
    ensures DigitRun(digits + rest) == |digits|
  {
    if digits == [] {
      assert digits + rest == rest;
    } else {
      var s := digits + rest;
      assert s[0] == digits[0] && s[1..] == digits[1..] + rest;
      DigitRunStops(digits[1..], rest);
      assert IsDigit(s[0]) && DigitRun(s) == 1 + DigitRun(s[1..]);
    }
  }

  /** A time as it may be found: blanks, a sign, digits and anything else; too big a number gives the nearest long. */
  lemma ReadTimeOfDigits(blanks: string, sign: string, digits: string, rest: string)
    requires forall c <- blanks :: c == ' ' || 9 <= c as int <= 13
    requires sign in ["", "+", "-"] && digits != [] && AllDigits(digits) && (rest == [] || !IsDigit(rest[0]))
    ensures var v: int := if sign == "-" then 0 - Value(digits) else Value(digits);
            ReadTime(blanks + (sign + (digits + rest))) ==
            if v > 9223372036854775807 then 9223372036854775807
            else if v < -9223372036854775808 then -9223372036854775808 else v
  {
    var number := digits + rest;
    var t := sign + number;
    SkipsSpaces(blanks, t);
    DigitRunStops(digits, rest);
    assert number[..|digits|] == digits && number[0] == digits[0];
    if sign == "" {
      assert t == number;
    } else {
      assert t[0] == sign[0] && t[1..] == number;
    }
  }

  /** Where there is no digit after blanks and a sign, the time is 0. */
  lemma ReadTimeOfOther(blanks: string, sign: string, rest: string)
    requires forall c <- blanks :: c == ' ' || 9 <= c as int <= 13
    requires sign in ["+", "-"] ||
             (sign == "" && (rest == [] || (rest[0] !in [' ', '+', '-'] && !(9 <= rest[0] as int <= 13))))
    requires rest == [] || !IsDigit(rest[0])
    ensures ReadTime(blanks + (sign + rest)) == 0
  {
    var t := sign + rest;
    SkipsSpaces(blanks, t);
    if sign == "" {
      assert t == rest;
    } else {
      assert t[0] == sign[0] && t[1..] == rest;
    }
  }

  /** The line appendGroupMessageToHistory writes, without its newline. */
  function FileLine(m: Message): string {
    m.user + [FILE_SEPARATOR] + m.text + [FILE_SEPARATOR] + Print(m.time)
  }

  /** A line read back; a line of fewer than three cells makes the program read past a vector's end. */
  function ReadLine(group: string, line: string): Option<Message> {
    var cells := Pieces(line, FILE_SEPARATOR);
    if |cells| < 3 then None else Some(Message(cells[1], cells[0], group, ReadTime(cells[2]), false))
  }

  /** A message as the history can give it back. */
  predicate Storable(m: Message, group: string) {
    m.group == group && !m.isNotification && MIN_LONG <= m.time <= MAX_LONG
  }

  /** Its fields are free of the two delimiters. */
  predicate Clean(m: Message) {
    && FILE_SEPARATOR !in m.user && FILE_SEPARATOR !in m.text
    && NEWLINE !in m.user && NEWLINE !in m.text
  }

  lemma CleanLine(m: Message)
    ensures NEWLINE in FileLine(m) <==> NEWLINE in m.user || NEWLINE in m.text
  {
    PrintedChars(m.time);
  }

  lemma CellsOfLine(user: string, text: string, time: string, d: char)
    requires d !in time && time != []
    ensures
      var cells := Pieces(user + [d] + text + [d] + time, d);
      |cells| >= 3 && (d !in user && d !in text ==> cells == [user, text, time])
  {
    OnlyPiece(time, d);
    var rest := text + [d] + time;
    assert user + [d] + text + [d] + time == user + [d] + rest;
    CutAtLeast(text, d, time);
    CutAtLeast(user, d, rest);
    if d !in user && d !in text {
      FirstPiece(text, d, time);
      FirstPiece(user, d, rest);
    }
  }

  /** A written line gives its message back exactly when neither field holds the separator. */
  lemma LineRoundTrip(m: Message)
    requires MIN_LONG <= m.time <= MAX_LONG && !m.isNotification
    ensures ReadLine(m.group, FileLine(m)) == Some(m) <==> (31 as char) !in m.user && (31 as char) !in m.text
  {
    PrintedChars(m.time);
    CellsOfLine(m.user, m.text, Print(m.time), FILE_SEPARATOR);
    ReadTimePrinted(m.time);
    var cells := Pieces(FileLine(m), FILE_SEPARATOR);
    assert cells[0] in cells && cells[1] in cells;
  }

  /**
    What becomes of a text with the separator in it: it comes back without what follows its first separator, and
    the time is read from what follows, up to the next one.
    */
  lemma LineWithSeparator(m: Message, first: string, rest: string)
    requires (31 as char) !in m.user && (31 as char) !in first && m.text == first + [31 as char] + rest
    ensures var line := FileLine(m);
            var time := Pieces(rest + [31 as char] + Print(m.time), 31 as char)[0];
            ReadLine(m.group, line) == Some(Message(first, m.user, m.group, ReadTime(time), false))
  {
    var d := FILE_SEPARATOR;
    var after := rest + [d] + Print(m.time);
    PrintedChars(m.time);
    CutAtLeast(rest, d, Print(m.time));
    assert FileLine(m) == m.user + [d] + (first + [d] + after);
    FirstPiece(m.user, d, first + [d] + after);
    FirstPiece(first, d, after);
  }

  /** readGroupHistoryMessages over the bytes of a file, one result a line. */
  function ReadLines(group: string, lines: seq<string>): (r: seq<Option<Message>>)
    ensures |r| == |lines| && forall i :: 0 <= i < |r| ==> r[i] == ReadLine(group, lines[i])
  {
    seq(|lines|, i requires 0 <= i < |lines| => ReadLine(group, lines[i]))
  }

  function FileLines(ms: seq<Message>): (r: seq<string>)
    ensures |r| == |ms| && forall i :: 0 <= i < |r| ==> r[i] == FileLine(ms[i])
  {
    seq(|ms|, i requires 0 <= i < |ms| => FileLine(ms[i]))
  }

  function AllFound(ms: seq<Message>): (r: seq<Option<Message>>)
    ensures |r| == |ms| && forall i :: 0 <= i < |r| ==> r[i] == Some(ms[i])
  {
    seq(|ms|, i requires 0 <= i < |ms| => Some(ms[i]))
  }

  /** Written and read back as bytes, the messages of a group survive exactly when all their fields are clean. */
  lemma FileRoundTrip(group: string, ms: seq<Message>)
    requires forall m <- ms :: Storable(m, group)
    ensures
      var bytes := Terminated(FileLines(ms), NEWLINE);
      ReadLines(group, Pieces(bytes, NEWLINE)) == AllFound(ms) <==> forall m <- ms :: Clean(m)
  {
    var lines := FileLines(ms);
    var found := ReadLines(group, Pieces(Terminated(lines, NEWLINE), NEWLINE));
    CountOfTerminated(lines, NEWLINE);
    if found == AllFound(ms) {
      PiecesOfTerminated(lines, NEWLINE);
      forall i | 0 <= i < |ms| ensures Clean(ms[i]) {
        assert ms[i] in ms && lines[i] in lines && found[i] == Some(ms[i]);
        CleanLine(ms[i]);
        LineRoundTrip(ms[i]);
      }
    }
    if forall m <- ms :: Clean(m) {
      forall i | 0 <= i < |ms|
        ensures NEWLINE !in lines[i] && ReadLine(group, lines[i]) == Some(ms[i])
      {
        assert ms[i] in ms;
        CleanLine(ms[i]);
        LineRoundTrip(ms[i]);
      }
      PiecesOfTerminated(lines, NEWLINE);
    }
  }
}
