/** src/util/file_system_manager.cpp: the bounded message history each group keeps in its file. */
module HistoryFiles {
  import opened Common
  import opened Groups
  import opened HistoryRecords

  const DEFAULT_NUMBER_OF_RECORDED_MESSAGES := 10

  function Limit(configured: int): (n: nat)
    ensures n >= 1
  {
    if configured <= 0 then DEFAULT_NUMBER_OF_RECORDED_MESSAGES else configured
  }

  // ----- One file as lines -----

  function Crop<T>(lines: seq<T>, n: nat, isWrite: bool): seq<T>
    requires n >= 1
  {
    if |lines| > n then lines[|lines| - (n - (if isWrite then 1 else 0))..] else lines
  }

  datatype Op = Append(m: Message) | Read

  /** An operation that touches the file: notifications are not recorded. */
  predicate Real(op: Op) { op.Append? ==> !op.m.isNotification }

  function Apply(lines: seq<string>, op: Op, n: nat): seq<string>
    requires n >= 1
  {
    match op
    case Read => Crop(lines, n, false)
    case Append(m) => if m.isNotification then lines else Crop(lines, n, true) + [FileLine(m)]
  }

  function After(lines: seq<string>, ops: seq<Op>, n: nat): seq<string>
    requires n >= 1
  {
    if ops == [] then lines else Apply(After(lines, ops[..|ops| - 1], n), ops[|ops| - 1], n)
  }

  /** The messages the operations ask to record, in order. */
  function Recorded(ops: seq<Op>): seq<Message> {
    if ops == [] then [] else Recorded(ops[..|ops| - 1]) + RecordedBy(ops[|ops| - 1])
  }

  lemma {:induction false} RecordedWereAppended(ops: seq<Op>, m: Message)
    requires m in Recorded(ops)
    ensures Append(m) in ops && !m.isNotification
  {
    if m in Recorded(ops[..|ops| - 1]) {
      RecordedWereAppended(ops[..|ops| - 1], m);
    }
  }

  predicate AnyReal(ops: seq<Op>) {
    ops != [] && (Real(ops[|ops| - 1]) || AnyReal(ops[..|ops| - 1]))
  }

  function RecordedBy(op: Op): seq<Message> { if op.Append? && Real(op) then [op.m] else [] }

  /** Every line the file ever held: those it started with and all those appended. */
  function FullLog(lines: seq<string>, ops: seq<Op>): seq<string> {
    if ops == [] then lines else FullLog(lines, ops[..|ops| - 1]) + FileLines(RecordedBy(ops[|ops| - 1]))
  }

  function LastOf<T>(n: nat, s: seq<T>): seq<T> {
    if |s| <= n then s else s[|s| - n..]
  }

  ghost predicate IsSuffix<T>(s: seq<T>, all: seq<T>) {
    |s| <= |all| && s == all[|all| - |s|..]
  }

  ghost predicate EndOfLog<T>(file: seq<T>, log: seq<T>, n: nat, touched: bool) {
    && IsSuffix(file, log)
    && (|file| >= n || file == log)
    && (touched ==> |file| <= n + 1)
  }

  lemma SuffixDrop<T>(s: seq<T>, all: seq<T>, k: nat)
    requires IsSuffix(s, all) && k <= |s|
    ensures IsSuffix(s[k..], all)
  {
  }

  lemma SuffixAppend<T>(s: seq<T>, all: seq<T>, x: T)
    requires IsSuffix(s, all)
    ensures IsSuffix(s + [x], all + [x])
  {
    assert (all + [x])[|all| - |s|..] == all[|all| - |s|..] + [x];
  }

  lemma CropKeepsEnd<T>(file: seq<T>, log: seq<T>, n: nat)
    requires n >= 1 && EndOfLog(file, log, n, false)
    ensures EndOfLog(Crop(file, n, false), log, n, true)
  {
  }

  lemma AppendKeepsEnd<T>(file: seq<T>, log: seq<T>, n: nat, line: T)
    requires n >= 1 && EndOfLog(file, log, n, false)
    ensures EndOfLog(Crop(file, n, true) + [line], log + [line], n, true)
  {
    var drop := if |file| > n then |file| - (n - 1) else 0;
    SuffixDrop(file, log, drop);
    SuffixAppend(file[drop..], log, line);
  }

  lemma StepKeepsEnd(file: seq<string>, log: seq<string>, op: Op, n: nat, touched: bool)
    requires n >= 1 && EndOfLog(file, log, n, touched)
    ensures EndOfLog(Apply(file, op, n), log + FileLines(RecordedBy(op)), n, touched || Real(op))
  {
    if op == Read {
      CropKeepsEnd(file, log, n);
    } else if Real(op) {
      AppendKeepsEnd(file, log, n, FileLine(op.m));
      assert FileLines(RecordedBy(op)) == [FileLine(op.m)];
    }
    assert log + [] == log;
  }

  /**
   * Over any run, the file is the end of the full log: it holds at least the last n lines of it, and at
   * most n + 1 lines once a message was recorded or the history was read.
   */
  lemma {:induction false} FileIsEndOfLog(lines: seq<string>, ops: seq<Op>, n: nat)
    requires n >= 1
    ensures EndOfLog(After(lines, ops, n), FullLog(lines, ops), n, AnyReal(ops))
  {
    if ops != [] {
      var front, op := ops[..|ops| - 1], ops[|ops| - 1];
      FileIsEndOfLog(lines, front, n);
      StepKeepsEnd(After(lines, front, n), FullLog(lines, front), op, n, AnyReal(front));
    }
  }

  /** Reading right after any run finds exactly the last n lines of everything ever written. */
  lemma ReadFindsLastLines(lines: seq<string>, ops: seq<Op>, n: nat)
    requires n >= 1
    ensures After(lines, ops + [Read], n) == LastOf(n, FullLog(lines, ops))
  {
    FileIsEndOfLog(lines, ops, n);
    assert (ops + [Read])[..|ops|] == ops;
  }

  /** The cut starts after the first line, so the code's `i > 0` test never drops a line. */
  lemma CutStartsAfterFirst<T>(lines: seq<T>, n: nat, isWrite: bool)
    requires n >= 1 && |lines| > n
    ensures |lines| - (n - (if isWrite then 1 else 0)) >= 1
    ensures |Crop(lines, n, isWrite)| == n - (if isWrite then 1 else 0)
  {
  }

  /** How long the file is: a read leaves n lines at most; recording cuts a longer file to n, its own line included. */
  lemma FileLength(lines: seq<string>, op: Op, n: nat)
    requires n >= 1
    ensures op == Read ==> |Apply(lines, op, n)| == if |lines| > n then n else |lines|
    ensures op.Append? && !op.m.isNotification ==> |Apply(lines, op, n)| == if |lines| > n then n else |lines| + 1
    ensures op.Append? && op.m.isNotification ==> Apply(lines, op, n) == lines
  {
  }

  // ----- The same file as bytes -----

  function CropBytes(bytes: string, n: nat, isWrite: bool): string
    requires n >= 1
  {
    var lines := Pieces(bytes, NEWLINE);
    if |lines| > n then Terminated(Crop(lines, n, isWrite), NEWLINE) else bytes
  }

  function ApplyBytes(bytes: string, op: Op, n: nat): string
    requires n >= 1
  {
    match op
    case Read => CropBytes(bytes, n, false)
    case Append(m) => if m.isNotification then bytes else CropBytes(bytes, n, true) + FileLine(m) + [NEWLINE]
  }

  function AfterBytes(bytes: string, ops: seq<Op>, n: nat): string
    requires n >= 1
  {
    if ops == [] then bytes else ApplyBytes(AfterBytes(bytes, ops[..|ops| - 1], n), ops[|ops| - 1], n)
  }

  /** What can be written without splitting a line. */
  predicate NoNewline(op: Op) {
    op.Append? && Real(op) ==> NEWLINE !in op.m.user && NEWLINE !in op.m.text
  }

  /** A file that is not too long is not touched: not even a last line without a newline changes. */
  lemma ShortFileStays(bytes: string, n: nat, isWrite: bool)
    requires n >= 1 && |Pieces(bytes, NEWLINE)| <= n
    ensures CropBytes(bytes, n, isWrite) == bytes
  {
  }

  lemma CropBytesFollows(lines: seq<string>, n: nat, isWrite: bool)
    requires n >= 1 && forall l <- lines :: NEWLINE !in l
    ensures CropBytes(Terminated(lines, NEWLINE), n, isWrite) == Terminated(Crop(lines, n, isWrite), NEWLINE)
  {
    PiecesOfTerminated(lines, NEWLINE);
  }

  /** The bytes of the file are at every step the lines of the file, each ended by a newline. */
  lemma {:induction false} BytesFollowLines(lines: seq<string>, ops: seq<Op>, n: nat)
    requires n >= 1
    requires forall l <- lines :: NEWLINE !in l
    requires forall op <- ops :: NoNewline(op)
    ensures AfterBytes(Terminated(lines, NEWLINE), ops, n) == Terminated(After(lines, ops, n), NEWLINE)
    ensures forall l <- After(lines, ops, n) :: NEWLINE !in l
  {
    if ops != [] {
      var front, op := ops[..|ops| - 1], ops[|ops| - 1];
      assert op in ops && forall o <- front :: o in ops;
      BytesFollowLines(lines, front, n);
      var before := After(lines, front, n);
      CropBytesFollows(before, n, op.Append?);
      if op.Append? && Real(op) {
        CleanLine(op.m);
        TerminatedAppend(Crop(before, n, true), FileLine(op.m), NEWLINE);
      }
    }
  }

  /** Readable back as itself: it is a message of this group whose fields hold neither delimiter. */
  predicate Faithful(op: Op, group: string) {
    op.Append? && Real(op) ==> Storable(op.m, group) && Clean(op.m)
  }

  lemma FileLinesAppend(ms: seq<Message>, m: Message)
    ensures FileLines(ms + [m]) == FileLines(ms) + [FileLine(m)]
  {
  }

  lemma {:induction false} LogOfRecorded(lines: seq<string>, ops: seq<Op>)
    ensures FullLog(lines, ops) == lines + FileLines(Recorded(ops))
  {
    if ops != [] {
      var front, op := ops[..|ops| - 1], ops[|ops| - 1];
      LogOfRecorded(lines, front);
      if op.Append? && Real(op) {
        FileLinesAppend(Recorded(front), op.m);
      }
    }
  }

  lemma ReadLast(group: string, lines: seq<string>, n: nat)
    ensures ReadLines(group, LastOf(n, lines)) == LastOf(n, ReadLines(group, lines))
  {
    hide ReadLine;
    var last := LastOf(n, lines);
    forall i | 0 <= i < |last| ensures ReadLines(group, last)[i] == LastOf(n, ReadLines(group, lines))[i] {
      assert last[i] == lines[|lines| - |last| + i];
    }
  }

  lemma ReadFileLines(group: string, ms: seq<Message>)
    requires forall m <- ms :: Storable(m, group) && Clean(m)
    ensures ReadLines(group, FileLines(ms)) == AllFound(ms)
  {
    forall i | 0 <= i < |ms| ensures ReadLine(group, FileLine(ms[i])) == Some(ms[i]) {
      assert ms[i] in ms;
      LineRoundTrip(ms[i]);
    }
  }

  lemma ReadAppended(group: string, a: seq<string>, b: seq<string>)
    ensures ReadLines(group, a + b) == ReadLines(group, a) + ReadLines(group, b)
  {
  }

  lemma RecordedAreFaithful(group: string, ops: seq<Op>)
    requires forall op <- ops :: Faithful(op, group)
    ensures forall m <- Recorded(ops) :: Storable(m, group) && Clean(m)
  {
    forall m | m in Recorded(ops) ensures Storable(m, group) && Clean(m) {
      RecordedWereAppended(ops, m);
      assert Faithful(Append(m), group);
    }
  }

  lemma LinesAfterRead(bytes: string, ops: seq<Op>, n: nat)
    requires n >= 1 && EndsWith(bytes, NEWLINE)
    requires forall op <- ops :: NoNewline(op)
    ensures
      var log := Pieces(bytes, NEWLINE) + FileLines(Recorded(ops));
      Pieces(AfterBytes(bytes, ops + [Read], n), NEWLINE) == LastOf(n, log)
  {
    var lines := Pieces(bytes, NEWLINE);
    TerminatedOfPieces(bytes, NEWLINE);
    BytesFollowLines(lines, ops + [Read], n);
    ReadFindsLastLines(lines, ops, n);
    LogOfRecorded(lines, ops);
    PiecesOfTerminated(After(lines, ops + [Read], n), NEWLINE);
  }

  /**
   * The history of a group down to the bytes: whatever the file held before, after any mix of appends and
   * reads readGroupHistoryMessages gives back exactly the last n messages, the old ones followed by those
   * recorded since.
   */
  lemma HistoryIsLastMessages(group: string, bytes: string, ops: seq<Op>, n: nat)
    requires n >= 1 && EndsWith(bytes, NEWLINE)
    requires forall op <- ops :: Faithful(op, group)
    ensures
      var before := ReadLines(group, Pieces(bytes, NEWLINE));
      var found := ReadLines(group, Pieces(AfterBytes(bytes, ops + [Read], n), NEWLINE));
      found == LastOf(n, before + AllFound(Recorded(ops)))
  {
    var lines, ms := Pieces(bytes, NEWLINE), Recorded(ops);
    assert forall op <- ops :: Faithful(op, group) ==> NoNewline(op);
    LinesAfterRead(bytes, ops, n);
    RecordedAreFaithful(group, ops);
    ReadFileLines(group, ms);
    ReadAppended(group, lines, FileLines(ms));
    ReadLast(group, lines + FileLines(ms), n);
  }

  // ----- The manager -----

  /** The files by group name; a missing one reads as empty. */
  function Bytes(files: map<string, string>, group: string): string {
    if group in files then files[group] else ""
  }

  /** Only the group's own file changes; cropping does not create a missing one. */
  function Rewritten(files: map<string, string>, group: string, bytes: string): map<string, string> {
    if group in files then files[group := bytes] else files
  }

  /** What is asked of the manager: recording a message in its group's file, or reading a group's history. */
  datatype FileOp = AppendTo(m: Message) | ReadOf(group: string)

  /** The files after one operation, `configured` being the number of messages to keep. */
  function FilesStep(files: map<string, string>, op: FileOp, configured: int): map<string, string> {
    match op
    case AppendTo(m) =>
      if m.isNotification then files
      else files[m.group := ApplyBytes(Bytes(files, m.group), Append(m), Limit(configured))]
    case ReadOf(group) =>
      Rewritten(files, group, ApplyBytes(Bytes(files, group), Read, Limit(configured)))
  }

  function FilesAfter(files: map<string, string>, ops: seq<FileOp>, configured: int): map<string, string> {
    if ops == [] then files
    else FilesStep(FilesAfter(files, ops[..|ops| - 1], configured), ops[|ops| - 1], configured)
  }

  /** Reading makes no file, recording makes that of the message's group and no other; a notification makes none. */
  lemma FilesMade(files: map<string, string>, op: FileOp, configured: int)
    ensures FilesStep(files, op, configured).Keys ==
            match op
            case ReadOf(_) => files.Keys
            case AppendTo(m) => if m.isNotification then files.Keys else files.Keys + {m.group}
  {
  }

  /** The operations on the file of one group. */
  function OpsOf(ops: seq<FileOp>, group: string): seq<Op> {
    if ops == [] then []
    else
      OpsOf(ops[..|ops| - 1], group) +
      match ops[|ops| - 1]
      case AppendTo(m) => if m.group == group then [Append(m)] else []
      case ReadOf(g) => if g == group then [Read] else []
  }

  /** The messages of one group that are not notifications, in order. */
  function MessagesOf(ops: seq<FileOp>, group: string): seq<Message> {
    if ops == [] then []
    else
      MessagesOf(ops[..|ops| - 1], group) +
      match ops[|ops| - 1]
      case AppendTo(m) => if m.group == group && !m.isNotification then [m] else []
      case ReadOf(_) => []
  }

  lemma {:induction false} OpsRecord(ops: seq<FileOp>, group: string)
    ensures Recorded(OpsOf(ops, group)) == MessagesOf(ops, group)
  {
    if ops != [] {
      var front, last := OpsOf(ops[..|ops| - 1], group), OpsOf(ops, group);
      OpsRecord(ops[..|ops| - 1], group);
      if |last| > |front| {
        assert last[..|last| - 1] == front;
      } else {
        assert last == front;
      }
    }
  }

  lemma AfterOneMore(bytes: string, ops: seq<Op>, op: Op, n: nat)
    requires n >= 1
    ensures AfterBytes(bytes, ops + [op], n) == ApplyBytes(AfterBytes(bytes, ops, n), op, n)
  {
    assert (ops + [op])[..|ops|] == ops;
  }

  lemma AppendOnGroup(files: map<string, string>, m: Message, configured: int, group: string)
    ensures Bytes(FilesStep(files, AppendTo(m), configured), group)
         == if m.group == group then ApplyBytes(Bytes(files, group), Append(m), Limit(configured))
            else Bytes(files, group)
  {
  }

  lemma ReadOnGroup(files: map<string, string>, g: string, configured: int, group: string)
    ensures Bytes(FilesStep(files, ReadOf(g), configured), group)
         == if g == group then ApplyBytes(Bytes(files, group), Read, Limit(configured)) else Bytes(files, group)
  {
    assert Pieces("", NEWLINE) == [];
  }

  /** The groups do not disturb each other: each file is what the operations on its own group make of it. */
  lemma {:induction false} GroupsAreIndependent(files: map<string, string>, ops: seq<FileOp>, configured: int,
                                                group: string)
    ensures Bytes(FilesAfter(files, ops, configured), group)
         == AfterBytes(Bytes(files, group), OpsOf(ops, group), Limit(configured))
  {
    hide FilesStep, Bytes, ApplyBytes, Limit;
    if ops != [] {
      var front, op := ops[..|ops| - 1], ops[|ops| - 1];
      var before := FilesAfter(files, front, configured);
      GroupsAreIndependent(files, front, configured, group);
      match op
      case AppendTo(m) =>
        AppendOnGroup(before, m, configured, group);
        AfterOneMore(Bytes(files, group), OpsOf(front, group), Append(m), Limit(configured));
        assert OpsOf(front, group) + [] == OpsOf(front, group);
      case ReadOf(g) =>
        ReadOnGroup(before, g, configured, group);
        AfterOneMore(Bytes(files, group), OpsOf(front, group), Read, Limit(configured));
        assert OpsOf(front, group) + [] == OpsOf(front, group);
    }
  }

  lemma OpsAreFaithful(ops: seq<FileOp>, group: string, op: Op)
    requires forall o <- ops :: o.AppendTo? && o.m.group == group ==> Faithful(Append(o.m), group)
    requires op in OpsOf(ops, group)
    ensures Faithful(op, group)
  {
    if op !in OpsOf(ops[..|ops| - 1], group) {
      assert ops[|ops| - 1] in ops;
    } else {
      OpsAreFaithful(ops[..|ops| - 1], group, op);
    }
  }

  /** The last `keep` of the messages, or all of them if there are not so many. */
  ghost predicate AreLast<T>(found: seq<T>, keep: nat, all: seq<T>) {
    |found| == (if |all| < keep then |all| else keep) && found == all[|all| - |found|..]
  }

  lemma LastOfAreLast<T>(all: seq<T>, n: nat)
    ensures AreLast(LastOf(n, all), n, all)
  {
  }

  /**
    The history the manager keeps: whatever the files held before, after any operations on any groups a read finds
    exactly the last messages of its group, as many as are configured, or ten if none are.
    */
  lemma ManagerKeepsConfigured(files: map<string, string>, ops: seq<FileOp>, configured: int, group: string)
    requires EndsWith(Bytes(files, group), NEWLINE)
    requires forall o <- ops :: o.AppendTo? && o.m.group == group ==> Faithful(Append(o.m), group)
    ensures
      var before := ReadLines(group, Pieces(Bytes(files, group), NEWLINE));
      var after := FilesAfter(files, ops + [ReadOf(group)], configured);
      AreLast(ReadLines(group, Pieces(Bytes(after, group), NEWLINE)), if configured > 0 then configured else 10,
              before + AllFound(MessagesOf(ops, group)))
  {
    hide LastOf, AreLast;
    var read := ops + [ReadOf(group)];
    GroupsAreIndependent(files, read, configured, group);
    assert read[..|ops|] == ops;
    forall op | op in OpsOf(ops, group) ensures Faithful(op, group) {
      OpsAreFaithful(ops, group, op);
    }
    HistoryIsLastMessages(group, Bytes(files, group), OpsOf(ops, group), Limit(configured));
    OpsRecord(ops, group);
    var all := ReadLines(group, Pieces(Bytes(files, group), NEWLINE)) + AllFound(MessagesOf(ops, group));
    LastOfAreLast(all, Limit(configured));
  }

  /** The loop that copies the lines from the cut on into the new file. */
  method CopyFrom(lines: seq<string>, start: int) returns (newFile: string)
    requires 1 <= start <= |lines|
    ensures newFile == Terminated(lines[start..], NEWLINE)
  {
    newFile := "";
    var i := start;
    while i < |lines|
      invariant start <= i <= |lines|
      invariant newFile == Terminated(lines[start..i], NEWLINE)
    {
      if i > 0 {
        TerminatedAppend(lines[start..i], lines[i], NEWLINE);
        assert lines[start..i] + [lines[i]] == lines[start..i + 1];
        newFile := newFile + lines[i] + [NEWLINE];
      }
      i := i + 1;
    }
    assert lines[start..i] == lines[start..];
  }

  /** The loop that turns lines into messages. */
  method ParseLines(group: string, lines: seq<string>) returns (messages: Option<seq<Message>>)
    ensures
      var found := ReadLines(group, lines);
      if messages.Some? then found == AllFound(messages.value) else None in found
  {
    var read: seq<Message> := [];
    while |read| < |lines|
      invariant |read| <= |lines|
      invariant forall k :: 0 <= k < |read| ==> ReadLine(group, lines[k]) == Some(read[k])
    {
      var parsedRow := GetLines(lines[|read|], FILE_SEPARATOR);
      if |parsedRow| < 3 {
        assert ReadLines(group, lines)[|read|] == None;
        return None;
      }
      read := read + [Message(parsedRow[1], parsedRow[0], group, ReadTime(parsedRow[2]), false)];
    }
    messages := Some(read);
  }

  class FileSystemManager {
    var maxNumberOfMessagesInHistory: int
    var files: map<string, string>

    constructor (configured: int, files: map<string, string>)
      ensures maxNumberOfMessagesInHistory == configured && this.files == files
    {
      maxNumberOfMessagesInHistory := configured;
      this.files := files;
    }

    method CropToFileHistoryLimit(group: string, isWrite: bool)
      modifies `files
      ensures
        var bytes := CropBytes(old(Bytes(files, group)), Limit(maxNumberOfMessagesInHistory), isWrite);
        files == Rewritten(old(files), group, bytes)
    {
      var n := Limit(maxNumberOfMessagesInHistory);
      var oldFile := Bytes(files, group);
      var lines := GetLines(oldFile, NEWLINE);
      var isWriteDiscount := if isWrite then 1 else 0;
      if |lines| > n {
        CutStartsAfterFirst(lines, n, isWrite);
        var newFile := CopyFrom(lines, |lines| - (n - isWriteDiscount));
        assert newFile == CropBytes(oldFile, n, isWrite);
        files := files[group := newFile];
      } else {
        assert oldFile == CropBytes(oldFile, n, isWrite);
        assert files == Rewritten(files, group, oldFile);
      }
    }

    method AppendGroupMessageToHistory(message: Message)
      modifies `files
      ensures files == FilesStep(old(files), AppendTo(message), maxNumberOfMessagesInHistory)
    {
      if message.isNotification {
        return;
      }
      CropToFileHistoryLimit(message.group, true);
      files := files[message.group := Bytes(files, message.group) + FileLine(message) + [NEWLINE]];
    }

    /** None when some line has fewer than three cells, which the code indexes out of bounds. */
    method ReadGroupHistoryMessages(group: string) returns (messages: Option<seq<Message>>)
      modifies `files
      ensures files == FilesStep(old(files), ReadOf(group), maxNumberOfMessagesInHistory)
      ensures
        var found := ReadLines(group, Pieces(Bytes(files, group), NEWLINE));
        if messages.Some? then found == AllFound(messages.value) else None in found
    {
      CropToFileHistoryLimit(group, false);
      var lines := GetLines(Bytes(files, group), NEWLINE);
      messages := ParseLines(group, lines);
    }
  }
}
