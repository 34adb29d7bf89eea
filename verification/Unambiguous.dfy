/** The printer is unambiguous: from the text one can tell the plain value, and where it ends. */
module Unambiguous {
  import opened Values
  import Sorting

  lemma Cancel(p: string, q: string, x: string, y: string)
    requires p + x == q + y && |p| == |q|
    ensures p == q && x == y
  {
    assert p == (p + x)[..|p|] && q == (q + y)[..|q|];
    assert x == (p + x)[|p|..] && y == (q + y)[|q|..];
  }

  lemma DigitInjective(a: nat, b: nat)
    requires a < 16 && b < 16 && Digit(a) == Digit(b)
    ensures a == b
  {
  }

  predicate IsDecimalDigit(c: char) {
    '0' <= c <= '9'
  }

  // ---- numbers

  function ValueOf(s: string): int {
    if s == "" then 0 else 10 * ValueOf(s[..|s| - 1]) + (s[|s| - 1] as int - '0' as int)
  }

  lemma {:induction false} DecimalReadsBack(n: nat)
    ensures Decimal(n) != "" && ValueOf(Decimal(n)) == n
    ensures forall c :: c in Decimal(n) ==> IsDecimalDigit(c)
  {
    if n < 10 {
      assert Decimal(n)[..0] == "";
    } else {
      DecimalReadsBack(n / 10);
      assert Decimal(n)[..|Decimal(n)| - 1] == Decimal(n / 10);
    }
  }

  /** What may follow a value: nothing, a comma, or a closing bracket. */
  predicate Closed(x: string) {
    x == "" || x[0] == ',' || x[0] == ']' || x[0] == '}'
  }

  lemma TokensUnambiguous(p: string, q: string, x: string, y: string)
    requires p + x == q + y && Closed(x) && Closed(y)
    requires (forall c :: c in p ==> NumberChar(c)) && (forall c :: c in q ==> NumberChar(c))
    ensures p == q && x == y
  {
    var s := p + x;
    assert forall i :: 0 <= i < |p| ==> s[i] in p;
    assert forall i :: 0 <= i < |q| ==> s[i] in q;
    assert |p| < |s| ==> s[|p|] == x[0];
    assert |q| < |s| ==> s[|q|] == y[0];
    Cancel(p, q, x, y);
  }

  /** The text of a number is one token, and only a float's has a point, an exponent or letters in it. */
  lemma NumberShape(v: Value)
    requires v.Int? || v.Float?
    ensures Print(v) != "" && NumberStart(Print(v)[0]) && forall c :: c in Print(v) ==> NumberChar(c)
    ensures v.Int? ==> forall c :: c in Print(v) ==> IsDecimalDigit(c) || c == '-'
    ensures v.Int? && v.n < 0 <==> Print(v)[0] == '-' && v.Int?
  {
    if v.Int? {
      var digits := Decimal(if v.n < 0 then -v.n else v.n);
      DecimalReadsBack(if v.n < 0 then -v.n else v.n);
      assert digits[0] in digits;
    }
  }

  // ---- strings

  lemma HexInjective(m: nat, n: nat)
    requires m < 0x10000 && n < 0x10000 && Hex4(m) == Hex4(n)
    ensures m == n
  {
    var a, b := Hex4(m), Hex4(n);
    assert a[0] == b[0] && a[1] == b[1] && a[2] == b[2] && a[3] == b[3];
    DigitInjective(m / 16 / 16 / 16, n / 16 / 16 / 16);
    DigitInjective(m / 16 / 16 % 16, n / 16 / 16 % 16);
    DigitInjective(m / 16 % 16, n / 16 % 16);
    DigitInjective(m % 16, n % 16);
  }

  lemma UnitUnambiguous(m: nat, n: nat, x: string, y: string)
    requires m < 0x10000 && n < 0x10000 && Unit(m) + x == Unit(n) + y
    ensures m == n && x == y
  {
    Cancel(Unit(m), Unit(n), x, y);
    assert Unit(m)[2..] == Hex4(m) && Unit(n)[2..] == Hex4(n);
    HexInjective(m, n);
  }

  /** The UTF-16 code unit a non-ASCII code point is escaped by, or the first of its two. */
  function FirstUnit(c: nat): nat
    requires c < 0x110000
  {
    if c < 0x10000 then c else 0xD800 + (c - 0x10000) / 0x400
  }

  function AfterFirstUnit(c: nat): string
    requires c < 0x110000
  {
    if c < 0x10000 then "" else Unit(0xDC00 + (c - 0x10000) % 0x400)
  }

  predicate ShortEscape(c: nat) {
    c == 0x22 || c == 0x5C || c == 0x0A || c == 0x0D || c == 0x09 || c == 0x08 || c == 0x0C
  }

  predicate NeedsUnits(c: nat) {
    !ShortEscape(c) && !(0x20 <= c <= 0x7E)
  }

  lemma EscapeShape(c: char)
    ensures Escape(c) != "" && Escape(c)[0] != '"'
    ensures NeedsUnits(c as nat) ==> Escape(c) == Unit(FirstUnit(c as nat)) + AfterFirstUnit(c as nat)
    ensures ShortEscape(c as nat) ==> |Escape(c)| == 2 && Escape(c)[0] == '\\' && Escape(c)[1] != 'u'
    ensures !NeedsUnits(c as nat) && !ShortEscape(c as nat) ==> Escape(c) == [c] && c != '\\'
  {
  }

  /** A code unit in the high-surrogate range is never a scalar value, so one unit tells how many follow. */
  lemma FirstUnitTells(c: char, d: char)
    requires FirstUnit(c as nat) == FirstUnit(d as nat)
    ensures c as nat < 0x10000 <==> d as nat < 0x10000
    ensures c as nat < 0x10000 ==> c == d
    ensures c as nat >= 0x10000 && (c as nat - 0x10000) % 0x400 == (d as nat - 0x10000) % 0x400 ==> c == d
  {
  }

  lemma SecondUnits(c: char, d: char, x: string, y: string)
    requires FirstUnit(c as nat) == FirstUnit(d as nat)
    requires AfterFirstUnit(c as nat) + x == AfterFirstUnit(d as nat) + y
    ensures c == d && x == y
  {
    FirstUnitTells(c, d);
    if c as nat < 0x10000 {
      Cancel("", "", x, y);
    } else {
      UnitUnambiguous(0xDC00 + (c as nat - 0x10000) % 0x400, 0xDC00 + (d as nat - 0x10000) % 0x400, x, y);
    }
  }

  lemma UnitsUnambiguous(c: char, d: char, x: string, y: string)
    requires NeedsUnits(c as nat) && NeedsUnits(d as nat) && Escape(c) + x == Escape(d) + y
    ensures c == d && x == y
  {
    hide Escape, Unit, AfterFirstUnit;
    EscapeShape(c);
    EscapeShape(d);
    var u, v := Unit(FirstUnit(c as nat)), Unit(FirstUnit(d as nat));
    var p, q := AfterFirstUnit(c as nat), AfterFirstUnit(d as nat);
    assert u + p + x == u + (p + x) && v + q + y == v + (q + y);
    UnitUnambiguous(FirstUnit(c as nat), FirstUnit(d as nat), p + x, q + y);
    SecondUnits(c, d, x, y);
  }

  lemma EscapeUnambiguous(c: char, d: char, x: string, y: string)
    requires Escape(c) + x == Escape(d) + y
    ensures c == d && x == y
  {
    EscapeShape(c);
    EscapeShape(d);
    var a, b := Escape(c) + x, Escape(d) + y;
    assert a[0] == b[0];
    if NeedsUnits(c as nat) && NeedsUnits(d as nat) {
      UnitsUnambiguous(c, d, x, y);
    } else {
      assert a[0] == '\\' ==> a[1] == b[1];
      assert Escape(c) == a[..|Escape(c)|] && Escape(d) == b[..|Escape(d)|];
      assert x == a[|Escape(c)|..] && y == b[|Escape(d)|..];
    }
  }

  lemma {:induction false} QuotedUnambiguous(s: string, t: string, x: string, y: string)
    requires Quoted(s) + x == Quoted(t) + y
    ensures s == t && x == y
  {
    hide Escape;
    if s != "" { EscapeShape(s[0]); }
    if t != "" { EscapeShape(t[0]); }
    var a, b := Quoted(s) + x, Quoted(t) + y;
    assert a[0] == b[0];
    if s != "" && t != "" {
      assert a == Escape(s[0]) + (Quoted(s[1..]) + x);
      assert b == Escape(t[0]) + (Quoted(t[1..]) + y);
      EscapeUnambiguous(s[0], t[0], Quoted(s[1..]) + x, Quoted(t[1..]) + y);
      QuotedUnambiguous(s[1..], t[1..], x, y);
      assert s == [s[0]] + s[1..] && t == [t[0]] + t[1..];
    } else {
      assert x == a[1..] && y == b[1..];
    }
  }

  lemma StrUnambiguous(s: string, t: string, x: string, y: string)
    requires PrintStr(s) + x == PrintStr(t) + y
    ensures s == t && x == y
  {
    hide Quoted;
    assert (PrintStr(s) + x)[1..] == Quoted(s) + x;
    assert (PrintStr(t) + y)[1..] == Quoted(t) + y;
    QuotedUnambiguous(s, t, x, y);
  }

  // ---- values

  /** The first character tells the constructor. */
  lemma PrintShape(v: Value)
    requires Plain(v)
    ensures Print(v) != ""
    ensures v.Null? <==> Print(v)[0] == 'n'
    ensures v == Bool(true) <==> Print(v)[0] == 't'
    ensures v == Bool(false) <==> Print(v)[0] == 'f'
    ensures v.Str? <==> Print(v)[0] == '"'
    ensures v.List? <==> Print(v)[0] == '['
    ensures v.Dict? <==> Print(v)[0] == '{'
    ensures v.Int? || v.Float? <==> NumberStart(Print(v)[0])
  {
    if v.Int? || v.Float? { NumberShape(v); }
  }

  lemma Peel(h: string, p: string, q: string, x: string, y: string)
    requires h + p + x == h + q + y
    ensures p + x == q + y
  {
    assert h + p + x == h + (p + x) && h + q + y == h + (q + y);
    Cancel(h, h, p + x, q + y);
  }

  lemma PeelItem(h: string, p: string, q: string, r: string, t: string, x: string, y: string)
    requires h + p + r + x == h + q + t + y
    ensures p + (r + x) == q + (t + y)
  {
    assert h + p + r + x == h + p + (r + x) && h + q + t + y == h + q + (t + y);
    Peel(h, p, q, r + x, t + y);
  }

  lemma PeelField(h: string, k: string, l: string, p: string, q: string, r: string, t: string, x: string, y: string)
    requires h + k + ":" + p + r + x == h + l + ":" + q + t + y
    ensures k + (":" + (p + (r + x))) == l + (":" + (q + (t + y)))
  {
    assert h + k + ":" + p + r + x == h + k + (":" + (p + (r + x)));
    assert h + l + ":" + q + t + y == h + l + (":" + (q + (t + y)));
    Peel(h, k, l, ":" + (p + (r + x)), ":" + (q + (t + y)));
  }

  lemma SameFirst(p: string, q: string, x: string, y: string)
    requires p != "" && q != "" && p + x == q + y
    ensures p[0] == q[0]
  {
    assert p[0] == (p + x)[0] && q[0] == (q + y)[0];
  }

  lemma {:induction false} PrintUnambiguous(a: Value, b: Value, x: string, y: string)
    requires Plain(a) && Plain(b) && Print(a) + x == Print(b) + y && Closed(x) && Closed(y)
    ensures a == b && x == y
    decreases a, 2
  {
    PrintShape(a);
    PrintShape(b);
    SameFirst(Print(a), Print(b), x, y);
    match a
    case Int(_) => NumberUnambiguous(a, b, x, y);
    case Float(_) => NumberUnambiguous(a, b, x, y);
    case Str(_) => StrUnambiguous(a.s, b.s, x, y);
    case List(_) => ListUnambiguous(a, b, x, y);
    case Dict(_) => DictUnambiguous(a, b, x, y);
    case _ => Cancel(Print(a), Print(b), x, y);
  }

  lemma {:induction false} ListUnambiguous(a: Value, b: Value, x: string, y: string)
    requires a.List? && b.List? && Plain(a) && Plain(b) && Print(a) + x == Print(b) + y
    ensures a == b && x == y
    decreases a, 1
  {
    Peel("[", PrintItems(a, 0), PrintItems(b, 0), x, y);
    ItemsUnambiguous(a, b, 0, x, y);
    assert a.items == a.items[0..] && b.items == b.items[0..];
  }

  lemma {:induction false} DictUnambiguous(a: Value, b: Value, x: string, y: string)
    requires a.Dict? && b.Dict? && Plain(a) && Plain(b) && Print(a) + x == Print(b) + y
    ensures a == b && x == y
    decreases a, 1
  {
    var ka, kb := Sorting.SortSet(a.fields.Keys), Sorting.SortSet(b.fields.Keys);
    Peel("{", PrintFields(a, ka, 0), PrintFields(b, kb, 0), x, y);
    FieldsUnambiguous(a, b, ka, kb, 0, x, y);
    assert ka == ka[0..] && kb == kb[0..];
    SameFields(a, b, ka, kb);
  }

  lemma NumberUnambiguous(a: Value, b: Value, x: string, y: string)
    requires (a.Int? || a.Float?) && (b.Int? || b.Float?)
    requires Print(a) + x == Print(b) + y && Closed(x) && Closed(y)
    ensures a == b && x == y
  {
    NumberShape(a);
    NumberShape(b);
    TokensUnambiguous(Print(a), Print(b), x, y);
    SameNumber(a, b);
  }

  lemma SameNumber(a: Value, b: Value)
    requires (a.Int? || a.Float?) && (b.Int? || b.Float?) && Print(a) == Print(b)
    ensures a == b
  {
    NumberShape(a);
    NumberShape(b);
    if a.Int? && b.Int? {
      var m, n := if a.n < 0 then -a.n else a.n, if b.n < 0 then -b.n else b.n;
      DecimalReadsBack(m);
      DecimalReadsBack(n);
      if a.n < 0 {
        assert Decimal(m) == Print(a)[1..] && Decimal(n) == Print(b)[1..];
      }
    }
  }

  lemma SameTails<T>(a: seq<T>, b: seq<T>, i: nat)
    requires i < |a| && i < |b| && a[i] == b[i] && a[i + 1..] == b[i + 1..]
    ensures a[i..] == b[i..]
  {
  }

  /** A list's text after its bracket starts with the bracket's mate, or a comma, or a value. */
  lemma ItemsShape(v: Value, i: nat)
    requires v.List? && Plain(v) && i <= |v.items|
    ensures PrintItems(v, i) != "" && (PrintItems(v, i)[0] == ']' <==> i == |v.items|)
    ensures i > 0 ==> forall x :: Closed(PrintItems(v, i) + x)
  {
    if i < |v.items| { PrintShape(v.items[i]); }
  }

  lemma {:induction false} ItemsUnambiguous(a: Value, b: Value, i: nat, x: string, y: string)
    requires a.List? && b.List? && Plain(a) && Plain(b) && i <= |a.items| && i <= |b.items|
    requires PrintItems(a, i) + x == PrintItems(b, i) + y
    ensures a.items[i..] == b.items[i..] && x == y
    decreases a, 0, |a.items| - i
  {
    ItemsShape(a, i);
    ItemsShape(b, i);
    SameFirst(PrintItems(a, i), PrintItems(b, i), x, y);
    if i < |a.items| {
      var r, t := PrintItems(a, i + 1), PrintItems(b, i + 1);
      var u, v := a.items[i], b.items[i];
      PeelItem(if i == 0 then "" else ",", Print(u), Print(v), r, t, x, y);
      ItemsShape(a, i + 1);
      ItemsShape(b, i + 1);
      PrintUnambiguous(u, v, r + x, t + y);
      ItemsUnambiguous(a, b, i + 1, x, y);
      SameTails(a.items, b.items, i);
    } else {
      Cancel("]", "]", x, y);
    }
  }

  lemma FieldsShape(v: Value, keys: seq<string>, i: nat)
    requires v.Dict? && i <= |keys| && forall k :: k in keys ==> k in v.fields
    ensures PrintFields(v, keys, i) != "" && (PrintFields(v, keys, i)[0] == '}' <==> i == |keys|)
    ensures i > 0 ==> forall x :: Closed(PrintFields(v, keys, i) + x)
  {
  }

  lemma {:induction false} FieldsUnambiguous(a: Value, b: Value, ka: seq<string>, kb: seq<string>, i: nat, x: string,
                                             y: string)
    requires a.Dict? && b.Dict? && Plain(a) && Plain(b) && i <= |ka| && i <= |kb|
    requires (forall k :: k in ka ==> k in a.fields) && (forall k :: k in kb ==> k in b.fields)
    requires PrintFields(a, ka, i) + x == PrintFields(b, kb, i) + y
    ensures ka[i..] == kb[i..] && x == y
    ensures forall j :: i <= j < |ka| && j < |kb| ==> a.fields[ka[j]] == b.fields[kb[j]]
    decreases a, 0, |ka| - i
  {
    FieldsShape(a, ka, i);
    FieldsShape(b, kb, i);
    SameFirst(PrintFields(a, ka, i), PrintFields(b, kb, i), x, y);
    if i < |ka| {
      var va, vb := a.fields[ka[i]], b.fields[kb[i]];
      var r, t := PrintFields(a, ka, i + 1), PrintFields(b, kb, i + 1);
      PeelField(if i == 0 then "" else ",", PrintStr(ka[i]), PrintStr(kb[i]), Print(va), Print(vb), r, t, x, y);
      StrUnambiguous(ka[i], kb[i], ":" + (Print(va) + (r + x)), ":" + (Print(vb) + (t + y)));
      Cancel(":", ":", Print(va) + (r + x), Print(vb) + (t + y));
      FieldsShape(a, ka, i + 1);
      FieldsShape(b, kb, i + 1);
      PrintUnambiguous(va, vb, r + x, t + y);
      FieldsUnambiguous(a, b, ka, kb, i + 1, x, y);
      SameTails(ka, kb, i);
    } else {
      Cancel("}", "}", x, y);
    }
  }

  lemma SameFields(a: Value, b: Value, ka: seq<string>, kb: seq<string>)
    requires a.Dict? && b.Dict? && ka == kb
    requires (forall k :: k in ka <==> k in a.fields) && (forall k :: k in kb <==> k in b.fields)
    requires forall j :: 0 <= j < |ka| ==> a.fields[ka[j]] == b.fields[kb[j]]
    ensures a == b
  {
  }

  /** Two plain values print alike exactly when they are equal. */
  lemma PrintInjective(a: Value, b: Value)
    requires Plain(a) && Plain(b)
    ensures Print(a) == Print(b) <==> a == b
  {
    if Print(a) == Print(b) {
      assert Print(a) + "" == Print(b) + "";
      PrintUnambiguous(a, b, "", "");
    }
  }
}
