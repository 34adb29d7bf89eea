/** The host's line-delimited stdio loop: bounded reads that refine plain line splitting. */
module Framing {
  import opened Text

  const MAX_IPC_FRAME_BYTES: nat := 64 * 1024

  newtype byte = b: int | 0 <= b < 0x100 witness 0

  /** UTF-8 (RFC 3629, section 3): a lead byte that tells the length, then six bits to a byte. */
  function Utf8Char(c: char): (bs: seq<byte>)
    ensures 1 <= |bs| <= 4
  {
    var n := c as int;
    if n < 0x80 then [n as byte]
    else if n < 0x800 then [(0xC0 + n / 0x40) as byte, Continuation(n)]
    else if n < 0x10000 then [(0xE0 + n / 0x1000) as byte, Continuation(n / 0x40), Continuation(n)]
    else [(0xF0 + n / 0x40000) as byte, Continuation(n / 0x1000), Continuation(n / 0x40), Continuation(n)]
  }

  function Continuation(n: int): byte {
    (0x80 + n % 0x40) as byte
  }

  /** `s.encode("utf-8")`. */
  function Utf8(s: string): seq<byte> {
    if s == "" then [] else Utf8Char(s[0]) + Utf8(s[1..])
  }

  // ---- reading UTF-8 back

  function SizeFrom(lead: byte): nat {
    if lead < 0xC0 then 1 else if lead < 0xE0 then 2 else if lead < 0xF0 then 3 else 4
  }

  /** The lead byte's own bits, then six from each byte that follows. */
  function CodePoint(bs: seq<byte>): int
    requires bs != []
  {
    if |bs| == 1 then (if bs[0] < 0x80 then bs[0] as int
                       else if bs[0] < 0xE0 then bs[0] as int - 0xC0
                       else if bs[0] < 0xF0 then bs[0] as int - 0xE0
                       else bs[0] as int - 0xF0)
    else CodePoint(bs[..|bs| - 1]) * 0x40 + (bs[|bs| - 1] as int - 0x80)
  }

  /** Code point by code point, each as long as its lead byte says; a truncated last one is dropped. */
  function Decoded(bs: seq<byte>): seq<int>
    decreases |bs|
  {
    if bs == [] || SizeFrom(bs[0]) > |bs| then []
    else [CodePoint(bs[..SizeFrom(bs[0])])] + Decoded(bs[SizeFrom(bs[0])..])
  }

  lemma CharReadsBack(c: char)
    ensures SizeFrom(Utf8Char(c)[0]) == |Utf8Char(c)|
    ensures CodePoint(Utf8Char(c)) == c as int
  {
    var bs, n := Utf8Char(c), c as int;
    if |bs| == 2 {
      assert bs[..1] == [bs[0]] && CodePoint(bs[..1]) == n / 0x40;
    } else if |bs| == 3 {
      assert bs[..2][..1] == [bs[0]] && CodePoint(bs[..2][..1]) == n / 0x1000;
      assert CodePoint(bs[..2]) == n / 0x40;
    } else if |bs| == 4 {
      assert bs[..3][..2] == bs[..2] && bs[..2][..1] == [bs[0]] && CodePoint(bs[..2][..1]) == n / 0x40000;
      assert CodePoint(bs[..2]) == n / 0x1000;
      assert CodePoint(bs[..3]) == n / 0x40;
    }
  }

  /** The bytes say which characters they are of. */
  lemma {:induction false} Utf8ReadsBack(s: string)
    ensures Decoded(Utf8(s)) == seq(|s|, i requires 0 <= i < |s| => s[i] as int)
  {
    hide Utf8Char, CodePoint, SizeFrom;
    if s != "" {
      var bs, rest := Utf8Char(s[0]), Utf8(s[1..]);
      CharReadsBack(s[0]);
      Utf8ReadsBack(s[1..]);
      assert (bs + rest)[0] == bs[0] && (bs + rest)[..|bs|] == bs && (bs + rest)[|bs|..] == rest;
    }
  }

  /** How many characters of `s` are at or past code point `n`. */
  function Past(s: string, n: int): nat {
    if s == "" then 0 else (if s[0] as int >= n then 1 else 0) + Past(s[1..], n)
  }

  /** One byte a character, and one more for each of the three thresholds it is past. */
  lemma {:induction false} Utf8Counts(s: string)
    ensures |Utf8(s)| == |s| + Past(s, 0x80) + Past(s, 0x800) + Past(s, 0x10000)
  {
    if s != "" { Utf8Counts(s[1..]); }
  }

  datatype Reply = InvalidFrame | Handled(line: string)

  /** `handle_ipc_line`, up to what the JSON inside says. */
  function HandleIpcLine(line: string, limit: nat): Reply {
    if |Utf8(line)| > limit then InvalidFrame else Handled(line)
  }

  // ---- the reference: split the stream into lines, answer each

  predicate Terminated(line: string) {
    line != "" && line[|line| - 1] == '\n'
  }

  /** The text up to and including the first newline, or all of it. */
  function FirstLine(s: string): (line: string)
    ensures line <= s && (s != "" ==> line != "")
  {
    if s == "" then ""
    else if s[0] == '\n' then "\n"
    else
      assert FirstLine(s[1..]) <= s[1..];
      [s[0]] + FirstLine(s[1..])
  }

  function AfterFirstLine(s: string): string {
    s[|FirstLine(s)|..]
  }

  function Lines(s: string): seq<string>
    decreases |s|
  {
    if s == "" then [] else [FirstLine(s)] + Lines(AfterFirstLine(s))
  }

  /** An oversized line gets one invalid-frame reply, a blank line none, any other is handled once. */
  function AnswersTo(line: string, limit: nat): seq<Reply> {
    if |Utf8(line)| > limit then [InvalidFrame]
    else if Strip(line) == "" then []
    else [Handled(Strip(line))]
  }

  /** Size is counted in bytes: characters past ASCII weigh at least two. */
  lemma WideLine(line: string, limit: nat)
    requires 2 * |line| > limit && forall c :: c in line ==> c as int >= 0x80
    ensures AnswersTo(line, limit) == [InvalidFrame] && HandleIpcLine(line, limit) == InvalidFrame
  {
    Utf8Counts(line);
    AllPast(line, 0x80);
  }

  lemma {:induction false} AllPast(s: string, n: int)
    requires forall c :: c in s ==> c as int >= n
    ensures Past(s, n) == |s|
  {
    if s != "" {
      assert forall i :: 0 <= i < |s| ==> s[i] in s;
      AllPast(s[1..], n);
    }
  }

  /** 40,000 times `é` is within the limit in characters and past it in bytes. */
  lemma AccentedFrameIsInvalid()
    ensures 40_000 < MAX_IPC_FRAME_BYTES == 65_536
    ensures AnswersTo(seq(40_000, _ => '\U{00E9}'), MAX_IPC_FRAME_BYTES) == [InvalidFrame]
  {
    var line := seq(40_000, _ => '\U{00E9}');
    assert forall i :: 0 <= i < |line| ==> line[i] == '\U{00E9}';
    WideLine(line, MAX_IPC_FRAME_BYTES);
  }

  function AnswersToAll(lines: seq<string>, limit: nat): seq<Reply> {
    if lines == [] then [] else AnswersTo(lines[0], limit) + AnswersToAll(lines[1..], limit)
  }

  function Flatten(lines: seq<string>): string {
    if lines == [] then "" else lines[0] + Flatten(lines[1..])
  }

  lemma {:induction false} FirstLineShape(s: string)
    ensures forall i :: 0 <= i < |FirstLine(s)| - 1 ==> FirstLine(s)[i] != '\n'
    ensures !Terminated(FirstLine(s)) ==> FirstLine(s) == s && '\n' !in s
  {
    if s != "" && s[0] != '\n' {
      FirstLineShape(s[1..]);
      assert s == [s[0]] + s[1..];
    }
  }

  /** `Lines` is plain splitting: it partitions the stream at its newlines, and only the last may lack one. */
  lemma {:induction false} LinesPartition(s: string)
    ensures Flatten(Lines(s)) == s
    ensures forall l :: l in Lines(s) ==> l != "" && forall i :: 0 <= i < |l| - 1 ==> l[i] != '\n'
    ensures forall k :: 0 <= k < |Lines(s)| - 1 ==> Terminated(Lines(s)[k])
    decreases |s|
  {
    hide Terminated, FirstLine;
    if s != "" {
      var first, more := FirstLine(s), Lines(AfterFirstLine(s));
      FirstLineShape(s);
      LinesPartition(AfterFirstLine(s));
      assert s == first + AfterFirstLine(s) && Lines(s) == [first] + more;
      assert !Terminated(first) ==> AfterFirstLine(s) == "" && more == [];
      assert ([first] + more)[0] == first && ([first] + more)[1..] == more;
    }
  }

  // ---- bounded reads

  /** `readline(n)`: at most `n` characters, stopping after a newline. */
  function Take(s: string, n: nat): (line: string)
    ensures line <= s && |line| <= n
  {
    if n == 0 || s == "" then ""
    else if s[0] == '\n' then "\n"
    else
      assert Take(s[1..], n - 1) <= s[1..];
      [s[0]] + Take(s[1..], n - 1)
  }

  class Stdin {
    var rest: string

    constructor (text: string)
      ensures rest == text
    {
      rest := text;
    }

    method ReadLine(n: nat) returns (line: string)
      modifies this
      ensures line == Take(old(rest), n) && old(rest) == line + rest
    {
      line := Take(rest, n);
      rest := rest[|line|..];
    }
  }

  lemma {:induction false} TakeIsFirstLineIfShort(s: string, n: nat)
    ensures |FirstLine(s)| <= n ==> Take(s, n) == FirstLine(s)
    ensures |FirstLine(s)| > n ==> |Take(s, n)| == n && !Terminated(Take(s, n))
  {
    if n > 0 && s != "" && s[0] != '\n' {
      TakeIsFirstLineIfShort(s[1..], n - 1);
    }
  }

  lemma {:induction false} TakeShape(s: string, n: nat)
    ensures forall i :: 0 <= i < |Take(s, n)| - 1 ==> Take(s, n)[i] != '\n'
    ensures n > 0 && s != "" ==> Take(s, n) != ""
  {
    if n > 0 && s != "" && s[0] != '\n' {
      TakeShape(s[1..], n - 1);
    }
  }

  /** A read that stops short of the newline leaves the rest of the line in the stream. */
  lemma {:induction false} FirstLinePast(read: string, rest: string)
    requires forall i :: 0 <= i < |read| - 1 ==> read[i] != '\n'
    ensures FirstLine(read + rest) == if Terminated(read) then read else read + FirstLine(rest)
  {
    if read == "" {
      assert read + rest == rest;
    } else if read[0] != '\n' {
      assert (read + rest)[1..] == read[1..] + rest;
      FirstLinePast(read[1..], rest);
      assert read == [read[0]] + read[1..];
    } else {
      assert read == "\n";
    }
  }

  /** Where the stream stands once the line begun by a read of `n` characters has been read out. */
  lemma DrainStep(s: string, n: nat)
    requires n > 0
    ensures var t := Take(s, n);
            AfterFirstLine(s) == if t == "" || Terminated(t) then s[|t|..] else AfterFirstLine(s[|t|..])
  {
    var t := Take(s, n);
    var rest := s[|t|..];
    assert s == t + rest;
    TakeShape(s, n);
    FirstLinePast(t, rest);
    if t != "" && !Terminated(t) {
      assert s[|t + FirstLine(rest)|..] == rest[|FirstLine(rest)|..];
    }
  }

  lemma {:induction false} Utf8AtLeastLength(s: string)
    ensures |Utf8(s)| >= |s|
  {
    if s != "" { Utf8AtLeastLength(s[1..]); }
  }

  lemma {:induction false} Utf8Prefix(s: string, t: string)
    requires t <= s
    ensures |Utf8(t)| <= |Utf8(s)|
  {
    if t != "" { Utf8Prefix(s[1..], t[1..]); }
  }

  /** A bounded read of one character more than the limit tells oversized lines from the others. */
  lemma BoundedReadDecides(s: string, limit: nat)
    ensures |Utf8(Take(s, limit + 1))| > limit <==> |Utf8(FirstLine(s))| > limit
    ensures |Utf8(FirstLine(s))| <= limit ==> Take(s, limit + 1) == FirstLine(s)
  {
    TakeIsFirstLineIfShort(s, limit + 1);
    Utf8AtLeastLength(FirstLine(s));
    Utf8AtLeastLength(Take(s, limit + 1));
  }

  /** `serve_stdio`: whatever the stream, the replies are those of plain line splitting. */
  method ServeStdio(input: Stdin, limit: nat := MAX_IPC_FRAME_BYTES) returns (out: seq<Reply>)
    modifies input
    ensures out == AnswersToAll(Lines(old(input.rest)), limit)
    ensures input.rest == ""
  {
    out := [];
    ghost var whole := AnswersToAll(Lines(input.rest), limit);
    var open := true;
    while open
      invariant out + AnswersToAll(Lines(input.rest), limit) == whole
      invariant !open ==> input.rest == ""
      decreases |input.rest|, open
    {
      ghost var s := input.rest;
      var replies;
      open, replies := ServeOne(input, limit);
      out := out + replies;
    }
  }

  /** One turn of the loop: one line of the stream, whole, or its end. */
  method ServeOne(input: Stdin, limit: nat) returns (open: bool, replies: seq<Reply>)
    modifies input
    ensures open <==> old(input.rest) != ""
    ensures replies == if open then AnswersTo(FirstLine(old(input.rest)), limit) else []
    ensures input.rest == AfterFirstLine(old(input.rest))
  {
    ghost var s := input.rest;
    var line := input.ReadLine(limit + 1);
    BoundedReadDecides(s, limit);
    DrainStep(s, limit + 1);
    assert input.rest == s[|line|..];
    if line == "" { return false, []; }
    if |Utf8(line)| > limit {
      Drain(input, line, limit);
      OversizedIsInvalid(limit);
      return true, [HandleIpcLine(seq(limit + 1, _ => 'x'), limit)];
    }
    var stripped := Strip(line);
    if stripped == "" { return true, []; }
    StrippedFits(line, limit);
    return true, [HandleIpcLine(stripped, limit)];
  }

  /** The inner loop: read out the rest of an oversized frame without parsing it. */
  method Drain(input: Stdin, first: string, limit: nat)
    requires first != ""
    modifies input
    ensures input.rest == if Terminated(first) then old(input.rest) else AfterFirstLine(old(input.rest))
    ensures |input.rest| <= |old(input.rest)|
  {
    var line := first;
    ghost var target := if Terminated(first) then input.rest else AfterFirstLine(input.rest);
    while line != "" && !Terminated(line)
      invariant |input.rest| <= |old(input.rest)|
      invariant target == if line == "" || Terminated(line) then input.rest else AfterFirstLine(input.rest)
      decreases |input.rest|, if line == "" then 0 else 1
    {
      DrainStep(input.rest, limit + 1);
      ghost var s := input.rest;
      line := input.ReadLine(limit + 1);
      assert input.rest == s[|line|..];
    }
  }

  lemma OversizedIsInvalid(limit: nat)
    ensures HandleIpcLine(seq(limit + 1, _ => 'x'), limit) == InvalidFrame
  {
    Utf8AtLeastLength(seq(limit + 1, _ => 'x'));
  }

  lemma {:induction false} Utf8Suffix(s: string, k: nat)
    requires k <= |s|
    ensures |Utf8(s[k..])| <= |Utf8(s)|
  {
    if k > 0 {
      Utf8Suffix(s[1..], k - 1);
      assert s[1..][k - 1..] == s[k..];
    }
  }

  lemma {:induction false} StripLeftIsSuffix(s: string) returns (k: nat)
    ensures k <= |s| && StripLeft(s) == s[k..]
  {
    k := 0;
    if s != "" && IsSpace(s[0]) {
      k := StripLeftIsSuffix(s[1..]);
      k := k + 1;
    }
  }

  /** Stripping never makes a frame longer, so an accepted line is handled. */
  lemma StrippedFits(line: string, limit: nat)
    requires |Utf8(line)| <= limit
    ensures HandleIpcLine(Strip(line), limit) == Handled(Strip(line))
  {
    var k := StripLeftIsSuffix(line);
    Utf8Suffix(line, k);
    StripRightEnds(StripLeft(line));
    Utf8Prefix(StripLeft(line), Strip(line));
  }
}
