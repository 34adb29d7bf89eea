/**
 Python strings are sequences of code points, lone surrogates included. `json.dumps` prints the UTF-16 units of a
 string, so it prints two strings alike exactly when they have the same units.
 */
module Surrogates {
  import opened Values
  import opened Unambiguous

  type CodePoint = n: nat | n < 0x110000

  type Unit16 = n: nat | n < 0x10000

  predicate High(c: CodePoint) {
    0xD800 <= c < 0xDC00
  }

  predicate Low(c: CodePoint) {
    0xDC00 <= c < 0xE000
  }

  function UnitsOf(c: CodePoint): seq<Unit16> {
    if c < 0x10000 then [c] else [0xD800 + (c - 0x10000) / 0x400, 0xDC00 + (c - 0x10000) % 0x400]
  }

  function Units(s: seq<CodePoint>): seq<Unit16> {
    if s == [] then [] else UnitsOf(s[0]) + Units(s[1..])
  }

  /** The body of the printed string and its closing quote. */
  function QuotedCodes(s: seq<CodePoint>): string {
    if s == [] then "\"" else EscapeCode(s[0]) + QuotedCodes(s[1..])
  }

  function QuotedUnits(us: seq<Unit16>): string {
    if us == [] then "\"" else EscapeCode(us[0]) + QuotedUnits(us[1..])
  }

  /** On strings of scalar values this is the printer of the payload values. */
  lemma {:induction false} ScalarsPrintTheSame(s: string)
    ensures QuotedCodes(seq(|s|, i requires 0 <= i < |s| => s[i] as CodePoint)) == Quoted(s)
  {
    var codes := seq(|s|, i requires 0 <= i < |s| => s[i] as CodePoint);
    if s != "" {
      ScalarsPrintTheSame(s[1..]);
      assert codes[1..] == seq(|s[1..]|, i requires 0 <= i < |s[1..]| => s[1..][i] as CodePoint);
    }
  }

  lemma PrintsUnitsOf(c: CodePoint, rest: seq<Unit16>)
    ensures EscapeCode(c) + QuotedUnits(rest) == QuotedUnits(UnitsOf(c) + rest)
  {
    hide EscapeCode;
    var us := UnitsOf(c);
    if c < 0x10000 {
      assert (us + rest)[1..] == rest;
    } else {
      AstralIsTwoUnits(c);
      assert (us + rest)[1..] == [us[1]] + rest && ([us[1]] + rest)[1..] == rest;
      assert EscapeCode(us[0]) + EscapeCode(us[1]) + QuotedUnits(rest) ==
        EscapeCode(us[0]) + (EscapeCode(us[1]) + QuotedUnits(rest));
    }
  }

  lemma AstralIsTwoUnits(c: CodePoint)
    requires c >= 0x10000
    ensures EscapeCode(c) == EscapeCode(UnitsOf(c)[0]) + EscapeCode(UnitsOf(c)[1])
  {
    hide Unit;
  }

  /** Two lone surrogates are printed like the one code point they would encode. */
  lemma LoneSurrogatesCollide()
    ensures EscapeCode(0xD83D) + EscapeCode(0xDE00) == EscapeCode(0x1F600)
  {
    hide EscapeCode;
    assert UnitsOf(0x1F600) == [0xD83D, 0xDE00];
    AstralIsTwoUnits(0x1F600);
  }

  lemma {:induction false} PrintsItsUnits(s: seq<CodePoint>)
    ensures QuotedCodes(s) == QuotedUnits(Units(s))
  {
    hide EscapeCode;
    if s != [] {
      PrintsItsUnits(s[1..]);
      PrintsUnitsOf(s[0], Units(s[1..]));
    }
  }

  lemma UnitShape(u: Unit16)
    ensures EscapeCode(u) != "" && EscapeCode(u)[0] != '"'
    ensures NeedsUnits(u) ==> EscapeCode(u) == Unit(u)
    ensures ShortEscape(u) ==> |EscapeCode(u)| == 2 && EscapeCode(u)[0] == '\\' && EscapeCode(u)[1] != 'u'
    ensures !NeedsUnits(u) && !ShortEscape(u) ==> EscapeCode(u) == [u as char] && u as char != '\\'
  {
  }

  lemma ShortEscapesDiffer(u: Unit16, v: Unit16)
    requires ShortEscape(u) && ShortEscape(v) && EscapeCode(u)[1] == EscapeCode(v)[1]
    ensures u == v
  {
  }

  lemma EscapedUnitUnambiguous(u: Unit16, v: Unit16, x: string, y: string)
    requires EscapeCode(u) + x == EscapeCode(v) + y
    ensures u == v && x == y
  {
    hide EscapeCode, Unit;
    UnitShape(u);
    UnitShape(v);
    var a, b := EscapeCode(u) + x, EscapeCode(v) + y;
    assert a[0] == b[0];
    if NeedsUnits(u) && NeedsUnits(v) {
      UnitUnambiguous(u, v, x, y);
    } else {
      UnitStart(u);
      UnitStart(v);
      assert a[0] == '\\' ==> a[1] == b[1];
      if ShortEscape(u) && ShortEscape(v) { ShortEscapesDiffer(u, v); }
      Cancel(EscapeCode(u), EscapeCode(v), x, y);
    }
  }

  lemma UnitStart(u: Unit16)
    ensures |Unit(u)| == 6 && Unit(u)[0] == '\\' && Unit(u)[1] == 'u'
  {
  }

  lemma {:induction false} UnitSeqUnambiguous(us: seq<Unit16>, vs: seq<Unit16>, x: string, y: string)
    requires QuotedUnits(us) + x == QuotedUnits(vs) + y
    ensures us == vs && x == y
  {
    hide EscapeCode;
    if us != [] { UnitShape(us[0]); }
    if vs != [] { UnitShape(vs[0]); }
    var a, b := QuotedUnits(us) + x, QuotedUnits(vs) + y;
    assert a[0] == b[0];
    if us != [] && vs != [] {
      assert a == EscapeCode(us[0]) + (QuotedUnits(us[1..]) + x);
      assert b == EscapeCode(vs[0]) + (QuotedUnits(vs[1..]) + y);
      EscapedUnitUnambiguous(us[0], vs[0], QuotedUnits(us[1..]) + x, QuotedUnits(vs[1..]) + y);
      UnitSeqUnambiguous(us[1..], vs[1..], x, y);
      assert us == [us[0]] + us[1..] && vs == [vs[0]] + vs[1..];
    } else {
      assert x == a[1..] && y == b[1..];
    }
  }

  /** Two strings print alike exactly when they have the same UTF-16 units. */
  lemma PrintedAlikeExactly(s: seq<CodePoint>, t: seq<CodePoint>)
    ensures QuotedCodes(s) == QuotedCodes(t) <==> Units(s) == Units(t)
  {
    PrintsItsUnits(s);
    PrintsItsUnits(t);
    if QuotedCodes(s) == QuotedCodes(t) {
      assert QuotedCodes(s) + "" == QuotedCodes(t) + "";
      UnitSeqUnambiguous(Units(s), Units(t), "", "");
    }
  }

  // ---- which strings collide

  /** No high surrogate is directly followed by a low one. */
  ghost predicate Unpaired(s: seq<CodePoint>) {
    forall i :: 0 <= i < |s| - 1 ==> !(High(s[i]) && Low(s[i + 1]))
  }

  lemma FirstUnits(s: seq<CodePoint>)
    requires s != []
    ensures Units(s) != [] && Units(s)[0] == (if s[0] < 0x10000 then s[0] else 0xD800 + (s[0] - 0x10000) / 0x400)
    ensures s[0] < 0x10000 ==> Units(s)[1..] == Units(s[1..])
    ensures s[0] >= 0x10000 ==>
              |Units(s)| >= 2 && High(Units(s)[0]) && Units(s)[1] == 0xDC00 + (s[0] - 0x10000) % 0x400 &&
              Units(s)[2..] == Units(s[1..])
  {
    var us, rest := UnitsOf(s[0]), Units(s[1..]);
    assert (us + rest)[|us|..] == rest;
  }

  /** After a lone high surrogate, an unpaired string goes on with a unit that is not a low surrogate. */
  lemma NoLowAfterHigh(s: seq<CodePoint>)
    requires Unpaired(s) && s != [] && High(s[0])
    ensures |Units(s)| >= 2 ==> !Low(Units(s)[1])
  {
    FirstUnits(s);
    if |s| > 1 {
      FirstUnits(s[1..]);
      assert Units(s)[1] == Units(s)[1..][0];
    }
  }

  lemma SameHeadOf(s: seq<CodePoint>, t: seq<CodePoint>)
    requires Unpaired(s) && Unpaired(t) && s != [] && t != [] && Units(s) == Units(t)
    ensures s[0] == t[0] && Units(s[1..]) == Units(t[1..])
  {
    FirstUnits(s);
    FirstUnits(t);
    if High(s[0]) { NoLowAfterHigh(s); }
    if High(t[0]) { NoLowAfterHigh(t); }
  }

  lemma TailUnpaired(s: seq<CodePoint>)
    requires Unpaired(s) && s != []
    ensures Unpaired(s[1..])
  {
    forall i | 0 <= i < |s[1..]| - 1 ensures !(High(s[1..][i]) && Low(s[1..][i + 1])) {
      assert !(High(s[i + 1]) && Low(s[i + 2]));
    }
  }

  /** Strings without such a pair are printed alike exactly when they are equal. */
  lemma {:induction false} UnpairedIsInjective(s: seq<CodePoint>, t: seq<CodePoint>)
    requires Unpaired(s) && Unpaired(t)
    ensures QuotedCodes(s) == QuotedCodes(t) <==> s == t
  {
    PrintedAlikeExactly(s, t);
    if Units(s) == Units(t) {
      if s != [] { FirstUnits(s); }
      if t != [] { FirstUnits(t); }
      if s != [] && t != [] {
        SameHeadOf(s, t);
        TailUnpaired(s);
        TailUnpaired(t);
        PrintedAlikeExactly(s[1..], t[1..]);
        UnpairedIsInjective(s[1..], t[1..]);
        assert s == [s[0]] + s[1..] && t == [t[0]] + t[1..];
      }
    }
  }

  /** Every string with such a pair is printed like the one with the pair joined to the code point it encodes. */
  lemma {:induction false} PairsCollide(s: seq<CodePoint>) returns (t: seq<CodePoint>)
    requires !Unpaired(s)
    ensures t != s && QuotedCodes(t) == QuotedCodes(s)
    ensures |t| == |s| - 1
  {
    hide EscapeCode;
    if High(s[0]) && Low(s[1]) {
      var joined: CodePoint := 0x10000 + (s[0] - 0xD800) * 0x400 + (s[1] - 0xDC00);
      t := [joined] + s[2..];
      assert UnitsOf(joined) == [s[0], s[1]];
      assert t[1..] == s[2..] && s[1..][1..] == s[2..];
      assert Units(s) == [s[0]] + ([s[1]] + Units(s[2..]));
      PrintedAlikeExactly(s, t);
    } else {
      assert !Unpaired(s[1..]) by {
        var i :| 0 <= i < |s| - 1 && High(s[i]) && Low(s[i + 1]);
        assert i > 0 && High(s[1..][i - 1]) && Low(s[1..][i]);
      }
      var rest := PairsCollide(s[1..]);
      t := [s[0]] + rest;
      assert t[1..] == rest;
    }
  }
}
