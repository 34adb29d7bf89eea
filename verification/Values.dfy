/** Python payload values, the strict encoder, and the compact sorted-key JSON printer (RFC 8259). */
module Values {
  import Sorting

  /** The text of a float: Python's `repr`, which tells any two floats apart, or NaN, Infinity, -Infinity. */
  type FloatText = t: string | IsFloatText(t) witness "0.0"

  predicate IsFloatText(t: string) {
    && t != "" && NumberStart(t[0])
    && (forall c :: c in t ==> NumberChar(c))
    && ('.' in t || 'e' in t || 'N' in t || 'I' in t)
  }

  predicate NumberStart(c: char) {
    '0' <= c <= '9' || c == '-' || c == 'N' || c == 'I'
  }

  predicate NumberChar(c: char) {
    '0' <= c <= '9' || c in "+-.eNaInfity"
  }

  /** `Opaque` is any value that is not plain JSON data. A float is known by its text. */
  datatype Value =
    | Null
    | Bool(b: bool)
    | Int(n: int)
    | Float(text: FloatText)
    | Str(s: string)
    | List(items: seq<Value>)
    | Tuple(items: seq<Value>)
    | Dict(fields: map<string, Value>)
    | Opaque(id: nat)

  /** `_strict_encode` does not raise. */
  predicate Encodable(v: Value) {
    match v
    case Opaque(_) => false
    case List(xs) => forall x :: x in xs ==> Encodable(x)
    case Tuple(xs) => forall x :: x in xs ==> Encodable(x)
    case Dict(m) => forall k :: k in m ==> Encodable(m[k])
    case _ => true
  }

  /** What `_strict_encode` returns when it does not raise: tuples become lists. */
  function Encode(v: Value): Value {
    match v
    case List(xs) => List(seq(|xs|, i requires 0 <= i < |xs| => Encode(xs[i])))
    case Tuple(xs) => List(seq(|xs|, i requires 0 <= i < |xs| => Encode(xs[i])))
    case Dict(m) => Dict(map k | k in m :: Encode(m[k]))
    case _ => v
  }

  /** Plain JSON data: what the strict encoder returns, and what `json.loads` can return. */
  predicate Plain(v: Value) {
    match v
    case Opaque(_) => false
    case Tuple(_) => false
    case List(xs) => forall x :: x in xs ==> Plain(x)
    case Dict(m) => forall k :: k in m ==> Plain(m[k])
    case _ => true
  }

  lemma {:induction false} EncodeIsPlain(v: Value)
    requires Encodable(v)
    ensures Plain(Encode(v))
  {
    match v
    case List(xs) => forall x | x in xs { EncodeIsPlain(x); }
    case Tuple(xs) => forall x | x in xs { EncodeIsPlain(x); }
    case Dict(m) => forall k | k in m { EncodeIsPlain(m[k]); }
    case _ =>
  }

  lemma {:induction false} EncodeKeepsPlain(v: Value)
    requires Plain(v)
    ensures Encodable(v) && Encode(v) == v
  {
    match v
    case List(xs) =>
      forall x | x in xs { EncodeKeepsPlain(x); }
      assert Encode(v).items == xs;
    case Dict(m) =>
      forall k | k in m { EncodeKeepsPlain(m[k]); }
      assert Encode(v).fields == m;
    case _ =>
  }

  /** The same data, but for tuples in place of lists. */
  ghost predicate SameData(v: Value, w: Value) {
    match v
    case List(xs) =>
      (w.List? || w.Tuple?) && |w.items| == |xs| && forall i :: 0 <= i < |xs| ==> SameData(xs[i], w.items[i])
    case Tuple(xs) =>
      (w.List? || w.Tuple?) && |w.items| == |xs| && forall i :: 0 <= i < |xs| ==> SameData(xs[i], w.items[i])
    case Dict(m) => w.Dict? && w.fields.Keys == m.Keys && forall k :: k in m ==> SameData(m[k], w.fields[k])
    case _ => v == w
  }

  lemma {:induction false} SameAsItself(v: Value)
    ensures SameData(v, v)
  {
    match v
    case List(xs) => forall x | x in xs { SameAsItself(x); }
    case Tuple(xs) => forall x | x in xs { SameAsItself(x); }
    case Dict(m) => forall k | k in m { SameAsItself(m[k]); }
    case _ =>
  }

  /** The encoder forgets nothing else: values are encoded alike exactly when they are the same data. */
  lemma {:induction false} EncodedAlikeExactly(v: Value, w: Value)
    ensures Encode(v) == Encode(w) <==> SameData(v, w)
  {
    if (v.List? || v.Tuple?) && (w.List? || w.Tuple?) {
      var xs, ys := v.items, w.items;
      forall i | 0 <= i < |xs| && i < |ys| ensures Encode(xs[i]) == Encode(ys[i]) <==> SameData(xs[i], ys[i]) {
        EncodedAlikeExactly(xs[i], ys[i]);
      }
      assert |Encode(v).items| == |xs| && |Encode(w).items| == |ys|;
      assert forall i :: 0 <= i < |xs| ==> Encode(v).items[i] == Encode(xs[i]);
      assert forall i :: 0 <= i < |ys| ==> Encode(w).items[i] == Encode(ys[i]);
      if SameData(v, w) { assert Encode(v).items == Encode(w).items; }
    } else if v.Dict? && w.Dict? {
      var m, n := v.fields, w.fields;
      forall k | k in m && k in n ensures Encode(m[k]) == Encode(n[k]) <==> SameData(m[k], n[k]) {
        EncodedAlikeExactly(m[k], n[k]);
      }
      assert Encode(v).fields.Keys == m.Keys && Encode(w).fields.Keys == n.Keys;
      assert forall k :: k in m ==> Encode(v).fields[k] == Encode(m[k]);
      assert forall k :: k in n ==> Encode(w).fields[k] == Encode(n[k]);
      if SameData(v, w) { assert Encode(v).fields == Encode(w).fields; }
    }
  }

  /** The encoder changes no data, and what it takes and what it makes of it are plain together. */
  lemma {:induction false} EncodeKeepsData(v: Value)
    ensures SameData(v, Encode(v))
    ensures Encodable(v) <==> Plain(Encode(v))
  {
    match v
    case List(xs) =>
      forall x | x in xs { EncodeKeepsData(x); }
      assert forall i :: 0 <= i < |xs| ==> xs[i] in xs && Encode(v).items[i] in Encode(v).items;
    case Tuple(xs) =>
      forall x | x in xs { EncodeKeepsData(x); }
      assert forall i :: 0 <= i < |xs| ==> xs[i] in xs && Encode(v).items[i] in Encode(v).items;
    case Dict(m) =>
      forall k | k in m { EncodeKeepsData(m[k]); }
    case _ =>
  }

  // ---- printing

  function Digit(d: nat): char
    requires d < 16
  {
    if d < 10 then ('0' as int + d) as char else ('a' as int + d - 10) as char
  }

  function Decimal(n: nat): string {
    if n < 10 then [Digit(n)] else Decimal(n / 10) + [Digit(n % 10)]
  }

  /** Four lower-case hexadecimal digits. */
  function Hex4(n: nat): string
    requires n < 0x10000
  {
    [Digit(n / 16 / 16 / 16), Digit(n / 16 / 16 % 16), Digit(n / 16 % 16), Digit(n % 16)]
  }

  /** `\uXXXX`. */
  function Unit(n: nat): string
    requires n < 0x10000
  {
    ['\\', 'u'] + Hex4(n)
  }

  /** One code point inside a JSON string, with everything outside printable ASCII escaped. */
  function EscapeCode(c: nat): string
    requires c < 0x110000
  {
    if c == 0x22 then ['\\', '"']
    else if c == 0x5C then ['\\', '\\']
    else if c == 0x0A then ['\\', 'n']
    else if c == 0x0D then ['\\', 'r']
    else if c == 0x09 then ['\\', 't']
    else if c == 0x08 then ['\\', 'b']
    else if c == 0x0C then ['\\', 'f']
    else if 0x20 <= c <= 0x7E then [c as char]
    else if c < 0x10000 then Unit(c)
    else Unit(0xD800 + (c - 0x10000) / 0x400) + Unit(0xDC00 + (c - 0x10000) % 0x400)
  }

  function Escape(c: char): string {
    EscapeCode(c as nat)
  }

  /** The body of a JSON string up to and including its closing quote. */
  function Quoted(s: string): string {
    if s == "" then "\"" else Escape(s[0]) + Quoted(s[1..])
  }

  function PrintStr(s: string): string {
    "\"" + Quoted(s)
  }

  /** `json.dumps(v, sort_keys=True, separators=(",", ":"))`. */
  ghost function Print(v: Value): string
    decreases v, 1
  {
    match v
    case Null => "null"
    case Bool(b) => if b then "true" else "false"
    case Int(n) => if n < 0 then "-" + Decimal(-n) else Decimal(n)
    case Float(text) => text
    case Str(s) => PrintStr(s)
    case List(xs) => "[" + PrintItems(v, 0)
    case Tuple(xs) => "[" + PrintItems(v, 0)
    case Dict(m) => "{" + PrintFields(v, Sorting.SortSet(m.Keys), 0)
    case Opaque(_) => ""
  }

  /** The items from position `i` on, with the closing bracket. */
  ghost function PrintItems(v: Value, i: nat): string
    requires (v.List? || v.Tuple?) && i <= |v.items|
    decreases v, 0, |v.items| - i
  {
    if i == |v.items| then "]"
    else (if i == 0 then "" else ",") + Print(v.items[i]) + PrintItems(v, i + 1)
  }

  /** The fields named by `keys` from position `i` on, with the closing brace. */
  ghost function PrintFields(v: Value, keys: seq<string>, i: nat): string
    requires v.Dict? && i <= |keys| && forall k :: k in keys ==> k in v.fields
    decreases v, 0, |keys| - i
  {
    if i == |keys| then "}"
    else (if i == 0 then "" else ",") + PrintStr(keys[i]) + ":" + Print(v.fields[keys[i]]) + PrintFields(v, keys, i + 1)
  }
}
