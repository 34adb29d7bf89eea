/**
 Payload data with any Python strings in it, keys included: what `json.dumps` tells apart, and what it does not.
 A dict is the list of its items in the order they are printed in.
 */
module PythonValues {
  import opened Values
  import opened Unambiguous
  import opened Surrogates
  import Sorting

  type Codes = seq<CodePoint>

  datatype Data =
    | None
    | Truth(b: bool)
    | Whole(n: int)
    | Real(text: FloatText)
    | Text(s: Codes)
    | Array(items: seq<Data>)
    | Object(fields: seq<Field>)

  datatype Field = Field(key: Codes, value: Data)

  /** The compact printer. */
  ghost function Dump(v: Data): string
    decreases v, 1
  {
    match v
    case None => "null"
    case Truth(b) => if b then "true" else "false"
    case Whole(n) => Print(Int(n))
    case Real(text) => text
    case Text(s) => "\"" + QuotedCodes(s)
    case Array(_) => "[" + DumpItems(v, 0)
    case Object(_) => "{" + DumpFields(v, 0)
  }

  ghost function DumpItems(v: Data, i: nat): string
    requires v.Array? && i <= |v.items|
    decreases v, 0, |v.items| - i
  {
    if i == |v.items| then "]" else (if i == 0 then "" else ",") + Dump(v.items[i]) + DumpItems(v, i + 1)
  }

  ghost function DumpFields(v: Data, i: nat): string
    requires v.Object? && i <= |v.fields|
    decreases v, 0, |v.fields| - i
  {
    if i == |v.fields| then "}"
    else
      (if i == 0 then "" else ",") + ("\"" + QuotedCodes(v.fields[i].key)) + ":" + Dump(v.fields[i].value) +
      DumpFields(v, i + 1)
  }

  /** The data with every string, keys included, replaced by its UTF-16 units. */
  function InUnits(v: Data): Data {
    match v
    case Text(s) => Text(Units(s))
    case Array(xs) => Array(seq(|xs|, i requires 0 <= i < |xs| => InUnits(xs[i])))
    case Object(fs) =>
      Object(seq(|fs|, i requires 0 <= i < |fs| => Field(Units(fs[i].key), InUnits(fs[i].value))))
    case _ => v
  }

  lemma SameUnits(s: Codes)
    ensures QuotedCodes(s) == QuotedCodes(Units(s)) && Units(Units(s)) == Units(s)
  {
    UnitsOfUnits(Units(s));
    PrintsItsUnits(s);
    PrintsItsUnits(Units(s));
  }

  lemma {:induction false} UnitsOfUnits(us: seq<Unit16>)
    ensures Units(us) == us
  {
    if us != [] { UnitsOfUnits(us[1..]); }
  }

  // ---- from the text back to the units

  lemma StringUnambiguous(s: Codes, t: Codes, x: string, y: string)
    requires ("\"" + QuotedCodes(s)) + x == ("\"" + QuotedCodes(t)) + y
    ensures Units(s) == Units(t) && x == y
  {
    hide QuotedCodes;
    assert (("\"" + QuotedCodes(s)) + x)[1..] == QuotedCodes(s) + x;
    assert (("\"" + QuotedCodes(t)) + y)[1..] == QuotedCodes(t) + y;
    PrintsItsUnits(s);
    PrintsItsUnits(t);
    UnitSeqUnambiguous(Units(s), Units(t), x, y);
  }

  /** The first character tells the constructor. */
  lemma DumpShape(v: Data)
    ensures Dump(v) != ""
    ensures v.None? <==> Dump(v)[0] == 'n'
    ensures v == Truth(true) <==> Dump(v)[0] == 't'
    ensures v == Truth(false) <==> Dump(v)[0] == 'f'
    ensures v.Text? <==> Dump(v)[0] == '"'
    ensures v.Array? <==> Dump(v)[0] == '['
    ensures v.Object? <==> Dump(v)[0] == '{'
    ensures v.Whole? || v.Real? <==> NumberStart(Dump(v)[0])
  {
    if v.Whole? { NumberShape(Int(v.n)); }
    if v.Real? { NumberShape(Float(v.text)); }
  }

  function AsNumber(v: Data): Value
    requires v.Whole? || v.Real?
  {
    if v.Whole? then Int(v.n) else Float(v.text)
  }

  lemma {:induction false} DumpUnambiguous(a: Data, b: Data, x: string, y: string)
    requires Dump(a) + x == Dump(b) + y && Closed(x) && Closed(y)
    ensures InUnits(a) == InUnits(b) && x == y
    decreases a, 2
  {
    DumpShape(a);
    DumpShape(b);
    SameFirst(Dump(a), Dump(b), x, y);
    match a
    case Whole(_) => NumberUnambiguous(AsNumber(a), AsNumber(b), x, y);
    case Real(_) => NumberUnambiguous(AsNumber(a), AsNumber(b), x, y);
    case Text(_) => StringUnambiguous(a.s, b.s, x, y);
    case Array(_) => ArrayUnambiguous(a, b, x, y);
    case Object(_) => ObjectUnambiguous(a, b, x, y);
    case _ => Cancel(Dump(a), Dump(b), x, y);
  }

  lemma {:induction false} ArrayUnambiguous(a: Data, b: Data, x: string, y: string)
    requires a.Array? && b.Array? && Dump(a) + x == Dump(b) + y
    ensures InUnits(a) == InUnits(b) && x == y
    decreases a, 1
  {
    Peel("[", DumpItems(a, 0), DumpItems(b, 0), x, y);
    ItemsUnambiguous(a, b, 0, x, y);
  }

  lemma {:induction false} ObjectUnambiguous(a: Data, b: Data, x: string, y: string)
    requires a.Object? && b.Object? && Dump(a) + x == Dump(b) + y
    ensures InUnits(a) == InUnits(b) && x == y
    decreases a, 1
  {
    Peel("{", DumpFields(a, 0), DumpFields(b, 0), x, y);
    FieldsUnambiguous(a, b, 0, x, y);
  }

  lemma ItemsShape(v: Data, i: nat)
    requires v.Array? && i <= |v.items|
    ensures DumpItems(v, i) != "" && (DumpItems(v, i)[0] == ']' <==> i == |v.items|)
    ensures i > 0 ==> forall x :: Closed(DumpItems(v, i) + x)
  {
    if i < |v.items| { DumpShape(v.items[i]); }
  }

  lemma {:induction false} ItemsUnambiguous(a: Data, b: Data, i: nat, x: string, y: string)
    requires a.Array? && b.Array? && i <= |a.items| && i <= |b.items|
    requires DumpItems(a, i) + x == DumpItems(b, i) + y
    ensures |a.items| == |b.items| && x == y
    ensures forall j :: i <= j < |a.items| ==> InUnits(a.items[j]) == InUnits(b.items[j])
    decreases a, 0, |a.items| - i
  {
    hide InUnits, Dump;
    ItemsShape(a, i);
    ItemsShape(b, i);
    SameFirst(DumpItems(a, i), DumpItems(b, i), x, y);
    if i < |a.items| {
      var r, t := DumpItems(a, i + 1), DumpItems(b, i + 1);
      PeelItem(if i == 0 then "" else ",", Dump(a.items[i]), Dump(b.items[i]), r, t, x, y);
      ItemsShape(a, i + 1);
      ItemsShape(b, i + 1);
      DumpUnambiguous(a.items[i], b.items[i], r + x, t + y);
      ItemsUnambiguous(a, b, i + 1, x, y);
    } else {
      Cancel("]", "]", x, y);
    }
  }

  lemma FieldsShape(v: Data, i: nat)
    requires v.Object? && i <= |v.fields|
    ensures DumpFields(v, i) != "" && (DumpFields(v, i)[0] == '}' <==> i == |v.fields|)
    ensures i > 0 ==> forall x :: Closed(DumpFields(v, i) + x)
  {
  }

  lemma {:induction false} FieldsUnambiguous(a: Data, b: Data, i: nat, x: string, y: string)
    requires a.Object? && b.Object? && i <= |a.fields| && i <= |b.fields|
    requires DumpFields(a, i) + x == DumpFields(b, i) + y
    ensures |a.fields| == |b.fields| && x == y
    ensures forall j :: i <= j < |a.fields| ==>
              Units(a.fields[j].key) == Units(b.fields[j].key) &&
              InUnits(a.fields[j].value) == InUnits(b.fields[j].value)
    decreases a, 0, |a.fields| - i
  {
    hide InUnits, Units, QuotedCodes, Dump;
    FieldsShape(a, i);
    FieldsShape(b, i);
    SameFirst(DumpFields(a, i), DumpFields(b, i), x, y);
    if i < |a.fields| {
      var r, t := DumpFields(a, i + 1), DumpFields(b, i + 1);
      var f, g := a.fields[i], b.fields[i];
      var h := if i == 0 then "" else ",";
      var k, l := "\"" + QuotedCodes(f.key), "\"" + QuotedCodes(g.key);
      PeelField(h, k, l, Dump(f.value), Dump(g.value), r, t, x, y);
      StringUnambiguous(f.key, g.key, ":" + (Dump(f.value) + (r + x)), ":" + (Dump(g.value) + (t + y)));
      Cancel(":", ":", Dump(f.value) + (r + x), Dump(g.value) + (t + y));
      FieldsShape(a, i + 1);
      FieldsShape(b, i + 1);
      DumpUnambiguous(f.value, g.value, r + x, t + y);
      FieldsUnambiguous(a, b, i + 1, x, y);
    } else {
      Cancel("}", "}", x, y);
    }
  }

  // ---- and forth

  lemma {:induction false} DumpsItsUnits(v: Data)
    ensures Dump(v) == Dump(InUnits(v))
    decreases v, 1
  {
    match v
    case Text(s) => SameUnits(s);
    case Array(_) => ItemsInUnits(v, 0);
    case Object(_) => FieldsInUnits(v, 0);
    case _ =>
  }

  lemma {:induction false} ItemsInUnits(v: Data, i: nat)
    requires v.Array? && i <= |v.items|
    ensures DumpItems(v, i) == DumpItems(InUnits(v), i)
    decreases v, 0, |v.items| - i
  {
    hide Dump;
    if i < |v.items| {
      DumpsItsUnits(v.items[i]);
      ItemsInUnits(v, i + 1);
    }
  }

  lemma {:induction false} FieldsInUnits(v: Data, i: nat)
    requires v.Object? && i <= |v.fields|
    ensures DumpFields(v, i) == DumpFields(InUnits(v), i)
    decreases v, 0, |v.fields| - i
  {
    hide Dump, QuotedCodes, Units;
    if i < |v.fields| {
      SameUnits(v.fields[i].key);
      DumpsItsUnits(v.fields[i].value);
      FieldsInUnits(v, i + 1);
    }
  }

  /** Any two data print alike exactly when they differ at most in strings with the same UTF-16 units. */
  lemma DumpedAlikeExactly(a: Data, b: Data)
    ensures Dump(a) == Dump(b) <==> InUnits(a) == InUnits(b)
  {
    DumpsItsUnits(a);
    DumpsItsUnits(b);
    if Dump(a) == Dump(b) {
      assert Dump(a) + "" == Dump(b) + "";
      DumpUnambiguous(a, b, "", "");
    }
  }

  /** No string in it, keys included, has a high surrogate directly before a low one. */
  ghost predicate AllUnpaired(v: Data) {
    match v
    case Text(s) => Unpaired(s)
    case Array(xs) => forall i :: 0 <= i < |xs| ==> AllUnpaired(xs[i])
    case Object(fs) => forall i :: 0 <= i < |fs| ==> Unpaired(fs[i].key) && AllUnpaired(fs[i].value)
    case _ => true
  }

  lemma SameString(s: Codes, t: Codes)
    requires Unpaired(s) && Unpaired(t) && Units(s) == Units(t)
    ensures s == t
  {
    PrintedAlikeExactly(s, t);
    UnpairedIsInjective(s, t);
  }

  lemma {:induction false} SameData(a: Data, b: Data)
    requires AllUnpaired(a) && AllUnpaired(b) && InUnits(a) == InUnits(b)
    ensures a == b
  {
    match a
    case Text(s) => SameString(s, b.s);
    case Array(xs) =>
      assert |xs| == |InUnits(a).items| == |InUnits(b).items| == |b.items|;
      forall i | 0 <= i < |xs| ensures xs[i] == b.items[i] {
        assert InUnits(a).items[i] == InUnits(b).items[i];
        SameData(xs[i], b.items[i]);
      }
    case Object(fs) =>
      assert |fs| == |InUnits(a).fields| == |InUnits(b).fields| == |b.fields|;
      forall i | 0 <= i < |fs| ensures fs[i] == b.fields[i] {
        assert InUnits(a).fields[i] == InUnits(b).fields[i];
        SameString(fs[i].key, b.fields[i].key);
        SameData(fs[i].value, b.fields[i].value);
      }
    case _ =>
  }

  /** Without such pairs, nested data print alike exactly when they are equal. */
  lemma UnpairedDataIsInjective(a: Data, b: Data)
    requires AllUnpaired(a) && AllUnpaired(b)
    ensures Dump(a) == Dump(b) <==> a == b
  {
    DumpedAlikeExactly(a, b);
    if Dump(a) == Dump(b) { SameData(a, b); }
  }

  lemma SameInside(before: seq<Field>, f: Field, g: Field, after: seq<Field>)
    requires Units(f.key) == Units(g.key) && InUnits(f.value) == InUnits(g.value)
    ensures InUnits(Object(before + [f] + after)) == InUnits(Object(before + [g] + after))
  {
    hide Units;
    var a, b := Object(before + [f] + after), Object(before + [g] + after);
    assert InUnits(a).fields == InUnits(b).fields;
  }

  /** A pair anywhere is where it fails: a dict with such a key or value prints like another dict. */
  lemma PairsCollideInside(before: seq<Field>, f: Field, after: seq<Field>) returns (g: Field)
    requires !Unpaired(f.key) || (f.value.Text? && !Unpaired(f.value.s))
    ensures g != f && Dump(Object(before + [f] + after)) == Dump(Object(before + [g] + after))
  {
    hide Dump, QuotedCodes;
    if !Unpaired(f.key) {
      var key := PairsCollide(f.key);
      PrintedAlikeExactly(f.key, key);
      g := Field(key, f.value);
    } else {
      var s := PairsCollide(f.value.s);
      PrintedAlikeExactly(f.value.s, s);
      g := Field(f.key, Text(s));
    }
    SameInside(before, f, g, after);
    DumpedAlikeExactly(Object(before + [f] + after), Object(before + [g] + after));
  }

  // ---- the payload values are those without surrogates

  function CodesOf(s: string): Codes {
    seq(|s|, i requires 0 <= i < |s| => s[i] as CodePoint)
  }

  ghost function DataOf(v: Value): Data
    requires Plain(v)
  {
    match v
    case Null => None
    case Bool(b) => Truth(b)
    case Int(n) => Whole(n)
    case Float(text) => Real(text)
    case Str(s) => Text(CodesOf(s))
    case List(xs) => Array(seq(|xs|, i requires 0 <= i < |xs| => DataOf(xs[i])))
    case Dict(m) =>
      var keys := Sorting.SortSet(m.Keys);
      Object(seq(|keys|, i requires 0 <= i < |keys| && keys[i] in m => Field(CodesOf(keys[i]), DataOf(m[keys[i]]))))
  }

  lemma {:induction false} DumpsAsPrinted(v: Value)
    requires Plain(v)
    ensures Dump(DataOf(v)) == Print(v)
    decreases v, 1
  {
    hide QuotedCodes, Quoted;
    match v
    case Str(s) => ScalarsPrintTheSame(s);
    case List(_) => ItemsAsPrinted(v, 0);
    case Dict(m) => FieldsAsPrinted(v, Sorting.SortSet(m.Keys), 0);
    case _ =>
  }

  lemma {:induction false} ItemsAsPrinted(v: Value, i: nat)
    requires v.List? && Plain(v) && i <= |v.items|
    ensures DumpItems(DataOf(v), i) == PrintItems(v, i)
    decreases v, 0, |v.items| - i
  {
    hide Dump, Print;
    if i < |v.items| {
      DumpsAsPrinted(v.items[i]);
      ItemsAsPrinted(v, i + 1);
    }
  }

  lemma FieldsOf(v: Value, keys: seq<string>)
    requires v.Dict? && Plain(v) && keys == Sorting.SortSet(v.fields.Keys)
    ensures DataOf(v).Object? && |DataOf(v).fields| == |keys|
    ensures forall i :: 0 <= i < |keys| ==>
              DataOf(v).fields[i] == Field(CodesOf(keys[i]), DataOf(v.fields[keys[i]]))
  {
  }

  lemma {:induction false} FieldsAsPrinted(v: Value, keys: seq<string>, i: nat)
    requires v.Dict? && Plain(v) && keys == Sorting.SortSet(v.fields.Keys) && i <= |keys|
    ensures DumpFields(DataOf(v), i) == PrintFields(v, keys, i)
    decreases v, 0, |keys| - i
  {
    hide Dump, Print, QuotedCodes, Quoted, DataOf;
    FieldsOf(v, keys);
    if i < |keys| {
      ScalarsPrintTheSame(keys[i]);
      DumpsAsPrinted(v.fields[keys[i]]);
      FieldsAsPrinted(v, keys, i + 1);
    }
  }

  // ---- fingerprints over any strings

  /** What a fingerprint is taken of, after defaults and the sorting of the labels; the purpose may be null. */
  datatype Bound = Bound(actor: Codes, capability: Codes, purpose: Data, labels: seq<Codes>, ref: Codes, payload: Data)

  function Labels(ls: seq<Codes>): Data {
    Array(seq(|ls|, i requires 0 <= i < |ls| => Text(ls[i])))
  }

  function AsObject(a: Bound): Data {
    Object([
      Field(CodesOf("action_purpose"), a.purpose),
      Field(CodesOf("action_ref"), Text(a.ref)),
      Field(CodesOf("actor"), Text(a.actor)),
      Field(CodesOf("capability"), Text(a.capability)),
      Field(CodesOf("data_labels"), Labels(a.labels)),
      Field(CodesOf("payload"), a.payload)
    ])
  }

  /** Everything bound agrees up to the UTF-16 units of its strings. */
  ghost predicate SameInUnits(a: Bound, b: Bound) {
    && Units(a.actor) == Units(b.actor) && Units(a.capability) == Units(b.capability)
    && InUnits(a.purpose) == InUnits(b.purpose) && InUnits(Labels(a.labels)) == InUnits(Labels(b.labels))
    && Units(a.ref) == Units(b.ref) && InUnits(a.payload) == InUnits(b.payload)
  }

  function UnitFields(a: Bound): seq<Field> {
    [
      Field(Units(CodesOf("action_purpose")), InUnits(a.purpose)),
      Field(Units(CodesOf("action_ref")), Text(Units(a.ref))),
      Field(Units(CodesOf("actor")), Text(Units(a.actor))),
      Field(Units(CodesOf("capability")), Text(Units(a.capability))),
      Field(Units(CodesOf("data_labels")), InUnits(Labels(a.labels))),
      Field(Units(CodesOf("payload")), InUnits(a.payload))
    ]
  }

  lemma BoundInUnits(a: Bound)
    ensures InUnits(AsObject(a)) == Object(UnitFields(a))
  {
    hide Units, CodesOf, Labels;
    assert InUnits(AsObject(a)).fields == UnitFields(a);
  }

  lemma SameFieldsSameUnits(a: Bound, b: Bound)
    ensures UnitFields(a) == UnitFields(b) <==> SameInUnits(a, b)
  {
    hide Units, CodesOf, Labels, InUnits;
    var x, y := UnitFields(a), UnitFields(b);
    if x == y {
      assert x[0] == y[0] && x[1] == y[1] && x[2] == y[2] && x[3] == y[3] && x[4] == y[4] && x[5] == y[5];
    }
  }

  /** Fingerprints over any strings: the hashed texts are equal exactly when everything bound agrees in units. */
  lemma BoundAlikeExactly(a: Bound, b: Bound)
    ensures Dump(AsObject(a)) == Dump(AsObject(b)) <==> SameInUnits(a, b)
  {
    hide Dump, UnitFields, AsObject, SameInUnits;
    DumpedAlikeExactly(AsObject(a), AsObject(b));
    BoundInUnits(a);
    BoundInUnits(b);
    SameFieldsSameUnits(a, b);
  }
}
