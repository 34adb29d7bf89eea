/** The caveat vocabulary: tool allowlists and absolute expiries. */
module Caveats {
  import opened Basics
  import opened Text
  import Sorting

  /** `Before(t)` stands for the text `time < t`; `Text` is any caveat that is not an expiry. */
  datatype Caveat = Text(text: string) | Before(expiry: int)

  /** The names a comma-separated list denotes: stripped parts, blanks dropped. */
  function Names(list: string): set<string> {
    set p | p in Split(list) && Strip(p) != "" :: Strip(p)
  }

  /** A name that survives being printed in a comma-separated list. */
  predicate WellFormedName(name: string) {
    name != "" && ',' !in name && Trimmed(name)
  }

  function ParseTools(c: Caveat): Option<set<string>> {
    if c.Text? && "tools:" <= c.text then Some(Names(c.text[6..]))
    else if c.Text? && "tool:" <= c.text then Some({c.text[5..]})
    else None
  }

  ghost function PrintTools(names: set<string>): Caveat {
    Text("tools:" + Join(Sorting.SortSet(names)))
  }

  lemma NamesAreWellFormed(list: string)
    ensures forall n :: n in Names(list) ==> WellFormedName(n)
  {
    SplitHasNoComma(list);
    forall p | p in Split(list) && Strip(p) != "" ensures WellFormedName(Strip(p)) {
      StripTrims(p);
    }
  }

  lemma NamesOfOne(name: string)
    requires WellFormedName(name)
    ensures Names(name) == {name}
  {
    SplitWithoutComma(name);
    StripTrims(name);
  }

  lemma {:induction false} NamesOfJoin(xs: seq<string>, n: string)
    ensures n in Names(Join(xs)) <==> exists i :: 0 <= i < |xs| && n in Names(xs[i])
  {
    if |xs| == 0 {
      assert Strip("") == "";
    } else if |xs| > 1 {
      SplitConcat(xs[0], Join(xs[1..]));
      assert xs[0] + "," + Join(xs[1..]) == Join(xs);
      assert n in Names(Join(xs)) <==> n in Names(xs[0]) || n in Names(Join(xs[1..]));
      NamesOfJoin(xs[1..], n);
      if n in Names(Join(xs[1..])) {
        var i :| 0 <= i < |xs[1..]| && n in Names(xs[1..][i]);
        assert n in Names(xs[i + 1]);
      }
      if i :| 0 <= i < |xs| && n in Names(xs[i]) {
        assert i == 0 || xs[i] == xs[1..][i - 1];
      }
    }
  }

  /** What a printed allowlist reads back as, whatever the names are. */
  lemma PrintThenParse(names: set<string>)
    ensures ParseTools(PrintTools(names)).Some?
    ensures forall n :: n in ParseTools(PrintTools(names)).value <==> exists x :: x in names && n in Names(x)
  {
    var sorted := Sorting.SortSet(names);
    var text := "tools:" + Join(sorted);
    assert text[6..] == Join(sorted);
    forall n ensures n in ParseTools(PrintTools(names)).value <==> exists x :: x in names && n in Names(x) {
      NamesOfJoin(sorted, n);
      if x :| x in names && n in Names(x) {
        assert x in sorted;
        var i :| 0 <= i < |sorted| && sorted[i] == x;
      }
    }
  }

  lemma ReadBackMember(names: set<string>, n: string)
    requires forall x :: x in names ==> WellFormedName(x)
    ensures (exists x :: x in names && n in Names(x)) <==> n in names
  {
    if n in names { NamesOfOne(n); }
    if x :| x in names && n in Names(x) { NamesOfOne(x); }
  }

  lemma WellFormedReadsBack(names: set<string>)
    requires forall n :: n in names ==> WellFormedName(n)
    ensures ParseTools(PrintTools(names)) == Some(names)
  {
    PrintThenParse(names);
    var read := ParseTools(PrintTools(names)).value;
    forall n ensures n in read <==> n in names {
      ReadBackMember(names, n);
    }
    assert read == names;
  }

  lemma ReadBackIsWellFormed(names: set<string>, n: string)
    requires ParseTools(PrintTools(names)) == Some(names) && n in names
    ensures WellFormedName(n)
  {
    PrintThenParse(names);
    var x :| x in names && n in Names(x);
    NamesAreWellFormed(x);
  }

  /** The printed list reads back as the same set exactly when every name is well formed. */
  lemma RoundTripExactly(names: set<string>)
    ensures ParseTools(PrintTools(names)) == Some(names) <==> forall n :: n in names ==> WellFormedName(n)
  {
    if forall n :: n in names ==> WellFormedName(n) {
      WellFormedReadsBack(names);
    }
    forall n | n in names && ParseTools(PrintTools(names)) == Some(names) ensures WellFormedName(n) {
      ReadBackIsWellFormed(names, n);
    }
  }

  lemma NamesOfTwo(a: string, b: string)
    requires WellFormedName(a) && WellFormedName(b)
    ensures Names(a + "," + b) == {a, b}
  {
    SplitConcat(a, b);
    SplitWithoutComma(a);
    SplitWithoutComma(b);
    StripTrims(a);
    StripTrims(b);
    var parts := Split(a + "," + b);
    assert parts == [a, b];
    assert parts[0] == a && parts[1] == b;
  }

  /** One tool whose name holds a comma is printed as two: the allowlist grows. */
  lemma CommaAmplifies(a: string, b: string)
    requires WellFormedName(a) && WellFormedName(b)
    ensures ParseTools(PrintTools({a + "," + b})) == Some({a, b})
  {
    var name := a + "," + b;
    PrintThenParse({name});
    NamesOfTwo(a, b);
    var read := ParseTools(PrintTools({name})).value;
    forall n ensures n in read <==> n in {a, b} {
      assert name in {name};
    }
    assert read == {a, b};
  }

  // ---- the effective allowlist and expiry of a caveat list

  /** Intersection, where None is "no allowlist yet". */
  function Narrow(a: Option<set<string>>, b: Option<set<string>>): Option<set<string>> {
    if a.None? then b else if b.None? then a else Some(a.value * b.value)
  }

  function ToolsFrom(cs: seq<Caveat>): Option<set<string>> {
    if cs == [] then None
    else Narrow(ToolsFrom(cs[..|cs| - 1]), ParseTools(cs[|cs| - 1]))
  }

  function Earlier(a: Option<int>, b: Option<int>): Option<int> {
    if a.None? then b
    else if b.None? then a
    else if b.value < a.value then b else a
  }

  function ParseExpiry(c: Caveat): Option<int> {
    if c.Before? then Some(c.expiry) else None
  }

  function ExpiryFrom(cs: seq<Caveat>): Option<int> {
    if cs == [] then None
    else Earlier(ExpiryFrom(cs[..|cs| - 1]), ParseExpiry(cs[|cs| - 1]))
  }

  lemma AppendOne(cs: seq<Caveat>, c: Caveat)
    ensures ToolsFrom(cs + [c]) == Narrow(ToolsFrom(cs), ParseTools(c))
    ensures ExpiryFrom(cs + [c]) == Earlier(ExpiryFrom(cs), ParseExpiry(c))
  {
    assert (cs + [c])[..|cs|] == cs;
  }

  /** Appending `tool:<n>` to any caveats leaves at most `n`: whether it stays allowed is up to the others. */
  lemma AppendTool(cs: seq<Caveat>, n: string)
    ensures ToolsFrom(cs + [Text("tool:" + n)]) ==
            Some(if ToolsFrom(cs).None? then {n} else ToolsFrom(cs).value * {n})
    ensures ExpiryFrom(cs + [Text("tool:" + n)]) == ExpiryFrom(cs)
  {
    var text := "tool:" + n;
    assert text[5..] == n && text[4] != "tools:"[4];
    AppendOne(cs, Text(text));
  }

  /** Appending `tools:<list>` leaves the names between the commas, stripped and without the blank ones. */
  lemma AppendTools(cs: seq<Caveat>, list: string)
    ensures var listed := set p | p in Split(list) && Strip(p) != "" :: Strip(p);
            ToolsFrom(cs + [Text("tools:" + list)]) ==
            Some(if ToolsFrom(cs).None? then listed else ToolsFrom(cs).value * listed)
    ensures ExpiryFrom(cs + [Text("tools:" + list)]) == ExpiryFrom(cs)
  {
    var text := "tools:" + list;
    assert text[6..] == list;
    AppendOne(cs, Text(text));
  }

  /** Any other text restricts nothing. */
  lemma AppendOther(cs: seq<Caveat>, text: string)
    requires !("tools:" <= text) && !("tool:" <= text)
    ensures ToolsFrom(cs + [Text(text)]) == ToolsFrom(cs) && ExpiryFrom(cs + [Text(text)]) == ExpiryFrom(cs)
  {
    AppendOne(cs, Text(text));
  }

  /** An expiry restricts no tools, and the earliest one counts. */
  lemma AppendExpiry(cs: seq<Caveat>, t: int)
    ensures ToolsFrom(cs + [Before(t)]) == ToolsFrom(cs)
    ensures ExpiryFrom(cs + [Before(t)]) ==
            Some(if ExpiryFrom(cs).None? || t < ExpiryFrom(cs).value then t else ExpiryFrom(cs).value)
  {
    AppendOne(cs, Before(t));
  }

  /** The effective expiry is one of those listed and none is earlier; there is none just when none is listed. */
  lemma {:induction false} ExpiryIsEarliest(cs: seq<Caveat>)
    ensures ExpiryFrom(cs).None? <==> forall c :: c in cs ==> !c.Before?
    ensures ExpiryFrom(cs).Some? ==> Before(ExpiryFrom(cs).value) in cs
    ensures forall t :: Before(t) in cs ==> ExpiryFrom(cs).value <= t
  {
    if cs != [] {
      ExpiryIsEarliest(cs[..|cs| - 1]);
      assert forall c :: c in cs <==> c in cs[..|cs| - 1] || c == cs[|cs| - 1];
    }
  }

  /** The effective set is the intersection of the parsed sets. */
  lemma {:induction false} ToolsFromIsIntersection(cs: seq<Caveat>)
    ensures ToolsFrom(cs).Some? <==> exists i :: 0 <= i < |cs| && ParseTools(cs[i]).Some?
    ensures ToolsFrom(cs).Some? ==> forall t :: t in ToolsFrom(cs).value <==>
              forall i :: 0 <= i < |cs| && ParseTools(cs[i]).Some? ==> t in ParseTools(cs[i]).value
  {
    if cs != [] {
      var init, last := cs[..|cs| - 1], |cs| - 1;
      ToolsFromIsIntersection(init);
      assert forall i :: 0 <= i < |init| ==> init[i] == cs[i];
      if ToolsFrom(cs).Some? {
        forall t ensures t in ToolsFrom(cs).value <==>
                   forall i :: 0 <= i < |cs| && ParseTools(cs[i]).Some? ==> t in ParseTools(cs[i]).value
        {
          assert (forall i :: 0 <= i < |cs| && ParseTools(cs[i]).Some? ==> t in ParseTools(cs[i]).value) <==>
            (forall i :: 0 <= i < |init| && ParseTools(init[i]).Some? ==> t in ParseTools(init[i]).value) &&
            (ParseTools(cs[last]).Some? ==> t in ParseTools(cs[last]).value);
        }
      }
    }
  }

  /** Extending a caveat list can only remove tools and only bring the expiry forward. */
  lemma {:induction false} AppendNarrows(cs: seq<Caveat>, longer: seq<Caveat>)
    requires cs <= longer
    ensures ToolsFrom(cs).Some? ==> ToolsFrom(longer).Some? && ToolsFrom(longer).value <= ToolsFrom(cs).value
    ensures ExpiryFrom(cs).Some? ==> ExpiryFrom(longer).Some? && ExpiryFrom(longer).value <= ExpiryFrom(cs).value
    decreases |longer|
  {
    if |longer| > |cs| {
      var init := longer[..|longer| - 1];
      assert cs <= init;
      AppendNarrows(cs, init);
    } else {
      assert cs == longer;
    }
  }

  /** `_tools_from`: collect what parses, then intersect from the first set on. */
  method EffectiveTools(cs: seq<Caveat>) returns (r: Option<set<string>>)
    ensures r == ToolsFrom(cs)
  {
    var sets: seq<set<string>> := [];
    for i := 0 to |cs|
      invariant ToolsFrom(cs[..i]) == Meet(sets)
    {
      assert cs[..i + 1][..i] == cs[..i];
      var parsed := ParseTools(cs[i]);
      if parsed.Some? {
        assert (sets + [parsed.value])[..|sets|] == sets;
        sets := sets + [parsed.value];
      }
    }
    assert cs[..|cs|] == cs;
    if sets == [] { return None; }
    var out := sets[0];
    assert sets[..1][..0] == [];
    for j := 1 to |sets|
      invariant Meet(sets[..j]) == Some(out)
    {
      assert sets[..j + 1][..j] == sets[..j];
      out := out * sets[j];
    }
    assert sets[..|sets|] == sets;
    return Some(out);
  }

  ghost function Meet(sets: seq<set<string>>): Option<set<string>> {
    if sets == [] then None
    else Narrow(Meet(sets[..|sets| - 1]), Some(sets[|sets| - 1]))
  }

  /** `_expiry_from`: the earliest of the expiries, if there is one. */
  method EffectiveExpiry(cs: seq<Caveat>) returns (r: Option<int>)
    ensures r == ExpiryFrom(cs)
  {
    r := None;
    for i := 0 to |cs|
      invariant r == ExpiryFrom(cs[..i])
    {
      assert cs[..i + 1][..i] == cs[..i];
      r := Earlier(r, ParseExpiry(cs[i]));
    }
    assert cs[..|cs|] == cs;
  }
}
