/**
 The hash-chained audit log. SHA-256 is a free constructor: `HashOf` is injective and never GENESIS.
 A log file is the list of its lines, or None when it does not exist.
 */
module HashChain {
  import opened Basics
  import opened Fingerprint

  datatype Hash = Genesis | HashOf(body: Body)

  /** Everything an entry's hash covers: every field but the hash itself. */
  datatype Body = Body(seqNo: int, ts: string, content: Content, prevHash: Hash)

  datatype Content = Content(actor: string, tool: string, verdict: string, reason: string,
                             executed: Option<bool>, payloadDigest: Option<Digest>)

  datatype Entry = Entry(body: Body, entryHash: Hash)

  datatype Line = Blank | Garbled | Line(entry: Entry)

  type Disk = Option<seq<Line>>

  /** `verify` answers, or raises on an unreadable line or a missing file. */
  datatype Check = Valid | Invalid | Raises

  function NonBlank(lines: seq<Line>): seq<Line> {
    if lines == [] then []
    else NonBlank(lines[..|lines| - 1]) + if lines[|lines| - 1].Blank? then [] else [lines[|lines| - 1]]
  }

  /** The entries of a file that reads back. */
  function Entries(lines: seq<Line>): seq<Entry> {
    if lines == [] then []
    else Entries(lines[..|lines| - 1]) + if lines[|lines| - 1].Line? then [lines[|lines| - 1].entry] else []
  }

  /** Every line is an entry or blank. */
  ghost predicate Readable(lines: seq<Line>) {
    forall l :: l in NonBlank(lines) ==> l.Line?
  }

  /** Entry `i` continues the chain after `prev`. */
  predicate Follows(e: Entry, i: int, prev: Hash) {
    e.body.seqNo == i && e.body.prevHash == prev && e.entryHash == HashOf(e.body)
  }

  function HashBefore(es: seq<Entry>, i: nat, start: Hash): Hash
    requires i <= |es|
  {
    if i == 0 then start else es[i - 1].entryHash
  }

  ghost predicate ChainedFrom(es: seq<Entry>, first: nat, start: Hash) {
    forall i {:trigger HashBefore(es, i, start)} :: 0 <= i < |es| ==>
      Follows(es[i], first + i, HashBefore(es, i, start))
  }

  /** One unbroken chain from GENESIS. */
  ghost predicate Chained(es: seq<Entry>) {
    ChainedFrom(es, 0, Genesis)
  }

  /** What `verify` says of a file. */
  ghost function Verdict(disk: Disk): Check {
    if disk.None? then Raises else VerdictFrom(NonBlank(disk.value), 0, Genesis)
  }

  /** The first bad line decides: a broken link answers false, an unreadable line raises. */
  ghost function VerdictFrom(lines: seq<Line>, i: nat, prev: Hash): Check {
    if lines == [] then Valid
    else if !lines[0].Line? then Raises
    else if !Follows(lines[0].entry, i, prev) then Invalid
    else VerdictFrom(lines[1..], i + 1, lines[0].entry.entryHash)
  }

  function HeadHash(es: seq<Entry>): Hash {
    if es == [] then Genesis else es[|es| - 1].entryHash
  }

  function HeadSeq(es: seq<Entry>): int {
    if es == [] then -1 else es[|es| - 1].body.seqNo
  }

  // ---- what verification means

  /** `lines` is exactly these entries, one to a line. */
  ghost predicate AreEntries(lines: seq<Line>, es: seq<Entry>) {
    |lines| == |es| && forall i :: 0 <= i < |es| ==> lines[i] == Line(es[i])
  }

  lemma {:induction false} NonBlankEntries(lines: seq<Line>)
    requires Readable(lines)
    ensures AreEntries(NonBlank(lines), Entries(lines))
  {
    if lines != [] {
      NonBlankEntries(lines[..|lines| - 1]);
    }
  }

  lemma {:induction false} ValidIsReadable(lines: seq<Line>, i: nat, prev: Hash)
    requires VerdictFrom(lines, i, prev) == Valid
    ensures forall l :: l in lines ==> l.Line?
  {
    if lines != [] {
      ValidIsReadable(lines[1..], i + 1, lines[0].entry.entryHash);
      assert lines == [lines[0]] + lines[1..];
    }
  }

  lemma ChainUnrolls(es: seq<Entry>, i: nat, prev: Hash)
    requires es != []
    ensures ChainedFrom(es, i, prev) <==> Follows(es[0], i, prev) && ChainedFrom(es[1..], i + 1, es[0].entryHash)
  {
    var tail, h := es[1..], es[0].entryHash;
    if ChainedFrom(es, i, prev) {
      assert HashBefore(es, 0, prev) == prev && Follows(es[0], i + 0, prev);
      forall j | 0 <= j < |tail| ensures Follows(tail[j], i + 1 + j, HashBefore(tail, j, h)) {
        assert Follows(es[j + 1], i + (j + 1), HashBefore(es, j + 1, prev));
      }
    }
    if Follows(es[0], i, prev) && ChainedFrom(tail, i + 1, h) {
      forall j | 0 <= j < |es| ensures Follows(es[j], i + j, HashBefore(es, j, prev)) {
        if j > 0 {
          assert Follows(tail[j - 1], i + 1 + (j - 1), HashBefore(tail, j - 1, h));
        }
      }
    }
  }

  lemma {:induction false} ValidFrom(lines: seq<Line>, es: seq<Entry>, i: nat, prev: Hash)
    requires AreEntries(lines, es)
    ensures VerdictFrom(lines, i, prev) == Valid <==> ChainedFrom(es, i, prev)
  {
    if lines != [] {
      assert lines[0] == Line(es[0]);
      ValidFrom(lines[1..], es[1..], i + 1, es[0].entryHash);
      ChainUnrolls(es, i, prev);
    }
  }

  /** `verify` answers true exactly when the file reads back as one unbroken chain. Blank lines do not show. */
  lemma VerifiesExactly(lines: seq<Line>)
    ensures Verdict(Some(lines)) == Valid <==>
            Readable(lines) && Chained(Entries(lines))
  {
    if Verdict(Some(lines)) == Valid {
      ValidIsReadable(NonBlank(lines), 0, Genesis);
    }
    if Readable(lines) {
      NonBlankEntries(lines);
      ValidFrom(NonBlank(lines), Entries(lines), 0, Genesis);
    }
  }

  /** The last entry of a chain seals its own position and the chain before it. */
  lemma LastFollows(es: seq<Entry>)
    requires Chained(es) && es != []
    ensures Follows(es[|es| - 1], |es| - 1, HeadHash(es[..|es| - 1])) && Chained(es[..|es| - 1])
  {
    var n := |es| - 1;
    var e, before := es[n], es[..n];
    assert Follows(e, 0 + n, HashBefore(es, n, Genesis));
    PrefixChained(es, n);
    assert n > 0 ==> before[n - 1] == es[n - 1];
    assert HashBefore(es, n, Genesis) == HeadHash(before);
  }

  /** Two chains with the same head are the same chain. */
  lemma {:induction false} SameHeadSameChain(a: seq<Entry>, b: seq<Entry>)
    requires Chained(a) && Chained(b) && HeadHash(a) == HeadHash(b)
    ensures a == b
    decreases |a|
  {
    if a != [] { LastFollows(a); }
    if b != [] { LastFollows(b); }
    if a != [] && b != [] {
      var m, n := |a| - 1, |b| - 1;
      var x, y := a[m], b[n];
      assert x.body == y.body && x == y;
      SameHeadSameChain(a[..m], b[..n]);
      assert a == a[..m] + [x] && b == b[..n] + [y];
    }
  }

  lemma PrefixChained(es: seq<Entry>, n: nat)
    requires Chained(es) && n <= |es|
    ensures Chained(es[..n])
  {
    forall i | 0 <= i < n ensures Follows(es[..n][i], 0 + i, HashBefore(es[..n], i, Genesis)) {
      assert Follows(es[i], 0 + i, HashBefore(es, i, Genesis));
    }
  }

  datatype AnchorAnswer = AnchorOk | DoesNotVerify | HeadDiverges | SeqDiverges | AnchorRaises

  /** `verify_against_anchor`. */
  ghost function AnchorCheck(disk: Disk, expectedHash: Hash, expectedSeq: Option<int>): AnchorAnswer {
    if Verdict(disk) == Raises then AnchorRaises
    else if Verdict(disk) == Invalid then DoesNotVerify
    else if HeadHash(Entries(disk.value)) != expectedHash then HeadDiverges
    else if expectedSeq.Some? && HeadSeq(Entries(disk.value)) != expectedSeq.value then SeqDiverges
    else AnchorOk
  }

  /** An unreadable line comes before any broken link. */
  ghost predicate UnreadableFirst(lines: seq<Line>, i: nat, prev: Hash) {
    exists k :: 0 <= k < |lines| && !lines[k].Line? && VerdictFrom(lines[..k], i, prev) == Valid
  }

  /** That is when `verify` raises on a file. */
  lemma {:induction false} RaisesExactly(lines: seq<Line>, i: nat, prev: Hash)
    ensures VerdictFrom(lines, i, prev) == Raises <==> UnreadableFirst(lines, i, prev)
  {
    if lines != [] && lines[0].Line? && Follows(lines[0].entry, i, prev) {
      var h := lines[0].entry.entryHash;
      RaisesExactly(lines[1..], i + 1, h);
      if k :| 0 <= k < |lines[1..]| && !lines[1..][k].Line? && VerdictFrom(lines[1..][..k], i + 1, h) == Valid {
        assert lines[..k + 1][1..] == lines[1..][..k];
        assert !lines[k + 1].Line? && VerdictFrom(lines[..k + 1], i, prev) == Valid;
      }
      if k :| 0 <= k < |lines| && !lines[k].Line? && VerdictFrom(lines[..k], i, prev) == Valid {
        assert lines[..k][1..] == lines[1..][..k - 1];
        assert !lines[1..][k - 1].Line? && VerdictFrom(lines[1..][..k - 1], i + 1, h) == Valid;
      }
    } else if lines != [] && !lines[0].Line? {
      assert !lines[0].Line? && VerdictFrom(lines[..0], i, prev) == Valid;
    } else if lines != [] {
      forall k | 0 <= k < |lines| && !lines[k].Line? ensures VerdictFrom(lines[..k], i, prev) != Valid {
        assert lines[..k][0] == lines[0];
      }
    }
  }

  /**
   Tamper evidence: against the head of an honest log and any expected sequence number or none, the check passes
   exactly on files that hold the same entries in the same order, if the number is theirs. Which refusal follows
   otherwise: what does not verify is told first, then other entries, then a wrong number.
   */
  lemma AnchorPinsTheLog(lines: seq<Line>, honest: seq<Entry>, expectedSeq: Option<int>)
    requires Chained(honest)
    ensures AnchorCheck(Some(lines), HeadHash(honest), expectedSeq) == AnchorOk <==>
            Readable(lines) && Entries(lines) == honest && (expectedSeq.Some? ==> expectedSeq.value == |honest| - 1)
    ensures Readable(lines) && Chained(Entries(lines)) ==>
              AnchorCheck(Some(lines), HeadHash(honest), expectedSeq) ==
              if Entries(lines) != honest then HeadDiverges
              else if expectedSeq.Some? && expectedSeq.value != |honest| - 1 then SeqDiverges
              else AnchorOk
    ensures !(Readable(lines) && Chained(Entries(lines))) ==>
              AnchorCheck(Some(lines), HeadHash(honest), expectedSeq) ==
              if UnreadableFirst(NonBlank(lines), 0, Genesis) then AnchorRaises else DoesNotVerify
  {
    hide UnreadableFirst, Readable, Chained, Entries, NonBlank;
    VerifiesExactly(lines);
    RaisesExactly(NonBlank(lines), 0, Genesis);
    HeadOfChain(honest);
    if Chained(Entries(lines)) {
      HeadOfChain(Entries(lines));
      if HeadHash(Entries(lines)) == HeadHash(honest) {
        SameHeadSameChain(Entries(lines), honest);
      }
    }
  }

  // ---- recording and reopening

  /** The file and what an open log remembers of it. */
  datatype LogState = LogState(disk: Disk, seqNo: int, last: Hash) {
    /** `head()`. */
    function Head(): (int, Hash) {
      (seqNo - 1, last)
    }
  }

  function NextEntry(s: LogState, ts: string, content: Content): Entry {
    var body := Body(s.seqNo, ts, content, s.last);
    Entry(body, HashOf(body))
  }

  function Recorded(s: LogState, ts: string, content: Content): LogState {
    var e := NextEntry(s, ts, content);
    LogState(Some((if s.disk.Some? then s.disk.value else []) + [Line(e)]), s.seqNo + 1, e.entryHash)
  }

  /** The head of what is on disk. */
  function HeadOf(disk: Disk): (int, Hash) {
    if disk.None? then (-1, Genesis) else (HeadSeq(Entries(disk.value)), HeadHash(Entries(disk.value)))
  }

  /** What the constructor reads back from a file without unreadable lines. */
  function Opened(disk: Disk): LogState {
    if disk.None? then LogState(disk, 0, Genesis)
    else LogState(disk, HeadSeq(Entries(disk.value)) + 1, HeadHash(Entries(disk.value)))
  }

  datatype LogEvent = RecordEvent(ts: string, content: Content) | ReopenEvent

  function LogStep(s: LogState, e: LogEvent): LogState {
    match e
    case RecordEvent(ts, content) => Recorded(s, ts, content)
    case ReopenEvent => Opened(s.disk)
  }

  function LogRun(start: Disk, events: seq<LogEvent>): LogState {
    if events == [] then Opened(start)
    else LogStep(LogRun(start, events[..|events| - 1]), events[|events| - 1])
  }

  /** No file yet, or a file that verifies. */
  ghost predicate Sound(disk: Disk) {
    disk.None? || Verdict(disk) == Valid
  }

  lemma AppendChained(es: seq<Entry>, e: Entry)
    requires Chained(es) && Follows(e, |es|, HeadHash(es))
    ensures Chained(es + [e])
  {
    var longer := es + [e];
    forall i | 0 <= i < |longer| ensures Follows(longer[i], 0 + i, HashBefore(longer, i, Genesis)) {
      if i < |es| {
        assert Follows(es[i], 0 + i, HashBefore(es, i, Genesis));
      }
    }
  }

  lemma HeadOfChain(es: seq<Entry>)
    requires Chained(es)
    ensures HeadSeq(es) == |es| - 1
  {
    if es != [] { LastFollows(es); }
  }

  lemma RecordKeeps(s: LogState, ts: string, content: Content)
    requires Sound(s.disk) && s == Opened(s.disk)
    ensures Sound(Recorded(s, ts, content).disk) && Recorded(s, ts, content) == Opened(Recorded(s, ts, content).disk)
    ensures Recorded(s, ts, content).disk.Some?
  {
    var lines := if s.disk.Some? then s.disk.value else [];
    var e := NextEntry(s, ts, content);
    var longer := lines + [Line(e)];
    assert longer[..|longer| - 1] == lines;
    VerifiesExactly(lines);
    HeadOfChain(Entries(lines));
    AppendChained(Entries(lines), e);
    assert NonBlank(longer) == NonBlank(lines) + [Line(e)];
    VerifiesExactly(longer);
  }

  /**
   Every run of records and reopenings keeps `verify` true, and the remembered head equal to the head on disk.
   With no file there is nothing to verify: `verify` raises until the first record creates it.
   */
  lemma {:induction false} RunsStaySound(start: Disk, events: seq<LogEvent>)
    requires Sound(start)
    ensures var s := LogRun(start, events);
            Sound(s.disk) && s == Opened(s.disk) && s.Head() == HeadOf(s.disk) &&
            (s.disk.Some? <==> start.Some? || exists e :: e in events && e.RecordEvent?)
  {
    if events != [] {
      var init, last := events[..|events| - 1], events[|events| - 1];
      RunsStaySound(start, init);
      assert forall e :: e in events <==> e in init || e == last;
      if last.RecordEvent? {
        RecordKeeps(LogRun(start, init), last.ts, last.content);
      }
    }
  }

  lemma {:induction false} EntriesOfPrefix(lines: seq<Line>, n: nat)
    requires n <= |lines|
    ensures Entries(lines[..n]) <= Entries(lines)
    ensures Readable(lines) ==> Readable(lines[..n])
    decreases |lines|
  {
    if n < |lines| {
      var init := lines[..|lines| - 1];
      assert lines[..n] == init[..n];
      assert NonBlank(init) <= NonBlank(lines);
      EntriesOfPrefix(init, n);
    } else {
      assert lines[..n] == lines;
    }
  }

  lemma ChainedPrefix(es: seq<Entry>, shorter: seq<Entry>)
    requires Chained(es) && shorter <= es
    ensures Chained(shorter)
  {
    assert shorter == es[..|shorter|];
    PrefixChained(es, |shorter|);
  }

  lemma PrefixVerifies(lines: seq<Line>, n: nat)
    requires Verdict(Some(lines)) == Valid && n <= |lines|
    ensures Verdict(Some(lines[..n])) == Valid && Chained(Entries(lines)) && Chained(Entries(lines[..n]))
  {
    var kept := lines[..n];
    VerifiesExactly(lines);
    EntriesOfPrefix(lines, n);
    ChainedPrefix(Entries(lines), Entries(kept));
    VerifiesExactly(kept);
  }

  /**
   Truncation: every prefix of a sound log still verifies, but one that lost an entry fails against the
   full log's anchor, sequence number given or not.
   */
  lemma TruncationIsCaught(lines: seq<Line>, n: nat, expectedSeq: Option<int>)
    requires Verdict(Some(lines)) == Valid && n <= |lines|
    ensures Verdict(Some(lines[..n])) == Valid
    ensures Entries(lines[..n]) != Entries(lines) ==>
              AnchorCheck(Some(lines[..n]), HeadHash(Entries(lines)), expectedSeq) == HeadDiverges
  {
    PrefixVerifies(lines, n);
    VerifiesExactly(lines[..n]);
    AnchorPinsTheLog(lines[..n], Entries(lines), expectedSeq);
  }

  ghost predicate Unreadable(disk: Disk) {
    disk.Some? && exists l :: l in disk.value && l.Garbled?
  }

  lemma {:induction false} NonBlankMember(lines: seq<Line>, l: Line)
    ensures l in NonBlank(lines) <==> l in lines && !l.Blank?
  {
    if lines != [] {
      NonBlankMember(lines[..|lines| - 1], l);
      assert l in lines <==> l in lines[..|lines| - 1] || l == lines[|lines| - 1];
    }
  }

  lemma ValidHasNoGarble(lines: seq<Line>)
    requires Verdict(Some(lines)) == Valid
    ensures !Unreadable(Some(lines))
  {
    ValidIsReadable(NonBlank(lines), 0, Genesis);
    forall l | l in lines ensures !l.Garbled? {
      NonBlankMember(lines, l);
    }
  }

  // ---- the class

  class LogFile {
    var disk: Disk

    constructor (disk: Disk)
      ensures this.disk == disk
    {
      this.disk := disk;
    }
  }

  class HashLog {
    const file: LogFile
    const anchored: bool
    var seqNo: int
    var last: Hash
    var published: seq<(int, Hash)>

    constructor (file: LogFile, anchored: bool, seqNo: int, last: Hash)
      ensures this.file == file && this.anchored == anchored && State() == LogState(file.disk, seqNo, last)
      ensures published == []
    {
      this.file, this.anchored, this.seqNo, this.last, this.published := file, anchored, seqNo, last, [];
    }

    function State(): LogState
      reads this, file
    {
      LogState(file.disk, seqNo, last)
    }

    /** `HashLog.__init__` on a file: read every line; null stands for its exception. */
    static method Open(file: LogFile, anchored: bool) returns (log: HashLog?)
      ensures log == null <==> Unreadable(file.disk)
      ensures log != null ==> fresh(log) && log.file == file && log.State() == Opened(file.disk) && log.published == []
    {
      var seqNo, last := 0, Genesis;
      if file.disk.Some? {
        var lines := file.disk.value;
        for i := 0 to |lines|
          invariant forall j :: 0 <= j < i ==> !lines[j].Garbled?
          invariant seqNo == HeadSeq(Entries(lines[..i])) + 1 && last == HeadHash(Entries(lines[..i]))
        {
          assert lines[..i + 1][..i] == lines[..i];
          if lines[i].Garbled? { return null; }
          if lines[i].Line? {
            seqNo, last := lines[i].entry.body.seqNo + 1, lines[i].entry.entryHash;
          }
        }
        assert lines[..|lines|] == lines;
      }
      log := new HashLog(file, anchored, seqNo, last);
    }

    method Record(ts: string, content: Content) returns (e: Entry)
      modifies this, file
      ensures State() == Recorded(old(State()), ts, content) && e == NextEntry(old(State()), ts, content)
      ensures published == old(published) + if anchored then [(e.body.seqNo, e.entryHash)] else []
    {
      var body := Body(seqNo, ts, content, last);
      e := Entry(body, HashOf(body));
      file.disk := Some((if file.disk.Some? then file.disk.value else []) + [Line(e)]);
      seqNo := seqNo + 1;
      last := e.entryHash;
      if anchored {
        published := published + [(e.body.seqNo, e.entryHash)];
      }
    }

    method Verify() returns (answer: Check)
      ensures answer == Verdict(file.disk)
    {
      if file.disk.None? { return Raises; }
      var lines := NonBlank(file.disk.value);
      var prev := Genesis;
      var i := 0;
      while i < |lines|
        invariant 0 <= i <= |lines|
        invariant Verdict(file.disk) == VerdictFrom(lines[i..], i, prev)
      {
        if !lines[i].Line? { return Raises; }
        if !Follows(lines[i].entry, i, prev) { return Invalid; }
        prev := lines[i].entry.entryHash;
        i := i + 1;
      }
      return Valid;
    }

    /** `_current_head_on_disk`: None stands for the exception an unreadable line raises. */
    method CurrentHeadOnDisk() returns (head: Option<(int, Hash)>)
      ensures head == if Unreadable(file.disk) then None else Some(HeadOf(file.disk))
    {
      var seqNo, hash := -1, Genesis;
      if file.disk.Some? {
        var lines := file.disk.value;
        for i := 0 to |lines|
          invariant forall j :: 0 <= j < i ==> !lines[j].Garbled?
          invariant seqNo == HeadSeq(Entries(lines[..i])) && hash == HeadHash(Entries(lines[..i]))
        {
          assert lines[..i + 1][..i] == lines[..i];
          if lines[i].Garbled? { return None; }
          if lines[i].Line? {
            seqNo, hash := lines[i].entry.body.seqNo, lines[i].entry.entryHash;
          }
        }
        assert lines[..|lines|] == lines;
      }
      return Some((seqNo, hash));
    }

    method VerifyAgainstAnchor(expectedHash: Hash, expectedSeq: Option<int>) returns (answer: AnchorAnswer)
      ensures answer == AnchorCheck(file.disk, expectedHash, expectedSeq)
    {
      var ok := Verify();
      if ok == Raises { return AnchorRaises; }
      if ok == Invalid { return DoesNotVerify; }
      var head := CurrentHeadOnDisk();
      ValidHasNoGarble(file.disk.value);
      if head.value.1 != expectedHash { return HeadDiverges; }
      if expectedSeq.Some? && head.value.0 != expectedSeq.value { return SeqDiverges; }
      return AnchorOk;
    }
  }
}
