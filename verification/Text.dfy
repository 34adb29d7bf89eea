/** The parts of Python's `str` the kernel relies on: strip, split on a comma, join. */
module Text {
  /** `str.isspace` on one code point (the whitespace that `str.strip` removes). */
  predicate IsSpace(c: char) {
    var n := c as int;
    9 <= n <= 13 || 28 <= n <= 32 || n == 0x85 || n == 0xA0 || n == 0x1680 ||
    0x2000 <= n <= 0x200A || n == 0x2028 || n == 0x2029 || n == 0x202F || n == 0x205F || n == 0x3000
  }

  /** The twenty-nine code points that count as blank. */
  lemma BlanksExactly(c: char)
    ensures IsSpace(c) <==>
            c as int in {0x09, 0x0A, 0x0B, 0x0C, 0x0D, 0x1C, 0x1D, 0x1E, 0x1F, 0x20, 0x85, 0xA0, 0x1680,
                         0x2000, 0x2001, 0x2002, 0x2003, 0x2004, 0x2005, 0x2006, 0x2007, 0x2008, 0x2009, 0x200A,
                         0x2028, 0x2029, 0x202F, 0x205F, 0x3000}
  {
  }

  function StripLeft(s: string): string {
    if s != "" && IsSpace(s[0]) then StripLeft(s[1..]) else s
  }

  function StripRight(s: string): string {
    if s != "" && IsSpace(s[|s| - 1]) then StripRight(s[..|s| - 1]) else s
  }

  function Strip(s: string): string {
    StripRight(StripLeft(s))
  }

  /** Neither end is a blank: what `strip` leaves alone. */
  predicate Trimmed(s: string) {
    s == "" || (!IsSpace(s[0]) && !IsSpace(s[|s| - 1]))
  }

  lemma {:induction false} StripLeftEnds(s: string)
    ensures StripLeft(s) == "" || !IsSpace(StripLeft(s)[0])
    ensures forall c :: c in StripLeft(s) ==> c in s
  {
    if s != "" && IsSpace(s[0]) {
      StripLeftEnds(s[1..]);
    }
  }

  lemma {:induction false} StripRightEnds(s: string)
    ensures StripRight(s) == "" || (!IsSpace(StripRight(s)[|StripRight(s)| - 1]) && StripRight(s)[0] == s[0])
    ensures forall c :: c in StripRight(s) ==> c in s
    ensures StripRight(s) <= s
  {
    if s != "" && IsSpace(s[|s| - 1]) {
      StripRightEnds(s[..|s| - 1]);
    }
  }

  lemma StripTrims(s: string)
    ensures Trimmed(Strip(s))
    ensures forall c :: c in Strip(s) ==> c in s
    ensures Trimmed(s) ==> Strip(s) == s
  {
    StripLeftEnds(s);
    StripRightEnds(StripLeft(s));
  }

  predicate Blank(s: string) {
    forall c :: c in s ==> IsSpace(c)
  }

  /** `strip` cuts off blanks at both ends, all of them and nothing else. */
  lemma {:induction false} StripExactly(s: string) returns (left: string, right: string)
    ensures s == left + Strip(s) + right && Blank(left) && Blank(right) && Trimmed(Strip(s))
  {
    StripTrims(s);
    left := LeftCut(s);
    right := RightCut(StripLeft(s));
  }

  lemma {:induction false} LeftCut(s: string) returns (cut: string)
    ensures s == cut + StripLeft(s) && Blank(cut)
  {
    cut := "";
    if s != "" && IsSpace(s[0]) {
      cut := LeftCut(s[1..]);
      cut := [s[0]] + cut;
    }
  }

  lemma {:induction false} RightCut(s: string) returns (cut: string)
    ensures s == StripRight(s) + cut && Blank(cut)
  {
    cut := "";
    if s != "" && IsSpace(s[|s| - 1]) {
      cut := RightCut(s[..|s| - 1]);
      cut := cut + [s[|s| - 1]];
    }
  }

  /** `s.split(",")`. */
  function Split(s: string): (parts: seq<string>)
    ensures |parts| > 0
  {
    if s == "" then [""]
    else if s[0] == ',' then [""] + Split(s[1..])
    else
      var rest := Split(s[1..]);
      [[s[0]] + rest[0]] + rest[1..]
  }

  /** `",".join(xs)`. */
  function Join(xs: seq<string>): string {
    if xs == [] then ""
    else if |xs| == 1 then xs[0]
    else xs[0] + "," + Join(xs[1..])
  }

  lemma {:induction false} SplitHasNoComma(s: string)
    ensures forall p, c :: p in Split(s) && c in p ==> c != ',' && c in s
  {
    if s != "" {
      SplitHasNoComma(s[1..]);
    }
  }

  lemma {:induction false} SplitWithoutComma(s: string)
    requires ',' !in s
    ensures Split(s) == [s]
  {
    if s != "" {
      SplitWithoutComma(s[1..]);
      assert s == [s[0]] + s[1..];
    }
  }

  lemma {:induction false} SplitConcat(a: string, b: string)
    ensures Split(a + "," + b) == Split(a) + Split(b)
  {
    var whole := a + "," + b;
    if a == "" {
      assert whole == "," + b;
      assert whole[1..] == b;
    } else {
      assert whole[1..] == a[1..] + "," + b;
      SplitConcat(a[1..], b);
    }
  }
}
