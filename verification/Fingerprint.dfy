/** Actions and the fingerprint that binds a decision to one. */
module Fingerprint {
  import opened Basics
  import opened Values
  import opened Unambiguous
  import Sorting

  /** `action_purpose`: absent, an explicit null, or a text. */
  datatype Purpose = Absent | Nothing | Named(name: string) {
    /** `action.get("action_purpose")`. */
    function Given(): (given: Option<string>)
      ensures forall p :: given == Some(p) <==> this == Named(p)
    {
      if Named? then Some(name) else None
    }
  }

  /** An action dict. A missing text field is "", which the source treats alike, save for the purpose. */
  datatype Action = Action(actor: string, tool: string, capability: string, purpose: Purpose,
                           labels: seq<string>, nonce: string, actionRef: string, payload: map<string, Value>)

  /** `action.get("capability") or f"tool:{action.get('tool', '')}"`. */
  function EffectiveCapability(a: Action): string {
    if a.capability != "" then a.capability else "tool:" + a.tool
  }

  /** `action.get("nonce") or action.get("action_ref") or ""`. */
  function RefOf(a: Action): string {
    if a.nonce != "" then a.nonce else a.actionRef
  }

  /** `action.get("action_purpose", "")`. */
  function PurposeOf(a: Action): Value {
    match a.purpose
    case Absent => Str("")
    case Nothing => Null
    case Named(name) => Str(name)
  }

  function Texts(xs: seq<string>): seq<Value> {
    seq(|xs|, i requires 0 <= i < |xs| => Str(xs[i]))
  }

  predicate Fingerprintable(a: Action) {
    Encodable(Dict(a.payload))
  }

  /** The dict the fingerprint is taken of. */
  function Normalised(a: Action): Value {
    Dict(map[
      "actor" := Str(a.actor),
      "capability" := Str(EffectiveCapability(a)),
      "action_purpose" := PurposeOf(a),
      "data_labels" := List(Texts(Sorting.SortList(a.labels))),
      "action_ref" := Str(RefOf(a)),
      "payload" := Encode(Dict(a.payload))
    ])
  }

  /** The text that is hashed. */
  ghost function Preimage(a: Action): string {
    Print(Normalised(a))
  }

  /** SHA-256 as a free constructor over the printed dict; `PrintInjective` lets the dict stand for its text. */
  datatype Digest = Sha256(content: Value)

  function ActionFingerprint(a: Action): Digest {
    Sha256(Normalised(a))
  }

  /** The capability asked for, or the one the tool implies. */
  ghost predicate SameCapability(a: Action, b: Action) {
    if a.capability == "" && b.capability == "" then a.tool == b.tool
    else if a.capability == "" then b.capability == "tool:" + a.tool
    else if b.capability == "" then a.capability == "tool:" + b.tool
    else a.capability == b.capability
  }

  /** A null purpose is told from an absent one; an empty one is not. */
  ghost predicate SamePurpose(p: Purpose, q: Purpose) {
    p == q || {p, q} == {Absent, Named("")}
  }

  /** The nonce wherever there is one, else the reference. */
  ghost predicate SameReference(a: Action, b: Action) {
    if a.nonce == "" && b.nonce == "" then a.actionRef == b.actionRef
    else if a.nonce == "" then a.actionRef == b.nonce
    else if b.nonce == "" then a.nonce == b.actionRef
    else a.nonce == b.nonce
  }

  /** Everything about an action that its authorization commits to, field by field. */
  ghost predicate SameCommitment(a: Action, b: Action) {
    && a.actor == b.actor
    && SameCapability(a, b)
    && SamePurpose(a.purpose, b.purpose)
    && multiset(a.labels) == multiset(b.labels)
    && SameReference(a, b)
    && SameData(Dict(a.payload), Dict(b.payload))
  }

  lemma TextsInjective(xs: seq<string>, ys: seq<string>)
    requires Texts(xs) == Texts(ys)
    ensures xs == ys
  {
    assert |xs| == |Texts(xs)| == |Texts(ys)| == |ys|;
    forall i | 0 <= i < |xs| ensures xs[i] == ys[i] {
      assert Texts(xs)[i] == Texts(ys)[i];
    }
  }

  lemma NormalisedPlain(a: Action)
    requires Fingerprintable(a)
    ensures Plain(Normalised(a))
  {
    EncodeIsPlain(Dict(a.payload));
  }

  lemma NormalisedFields(a: Action)
    ensures var m := Normalised(a).fields;
            m["actor"] == Str(a.actor) && m["capability"] == Str(EffectiveCapability(a)) &&
            m["action_purpose"] == PurposeOf(a) && m["action_ref"] == Str(RefOf(a)) &&
            m["data_labels"] == List(Texts(Sorting.SortList(a.labels))) && m["payload"] == Encode(Dict(a.payload))
  {
  }

  /** Two actions are bound alike exactly when they agree on everything committed to. */
  lemma FingerprintExactly(a: Action, b: Action)
    ensures ActionFingerprint(a) == ActionFingerprint(b) <==> SameCommitment(a, b)
  {
    hide Encode, SameData;
    Sorting.SameSortExactly(a.labels, b.labels);
    EncodedAlikeExactly(Dict(a.payload), Dict(b.payload));
    DefaultsAgree(a, b);
    NormalisedFields(a);
    NormalisedFields(b);
    if Normalised(a) == Normalised(b) {
      TextsInjective(Sorting.SortList(a.labels), Sorting.SortList(b.labels));
    }
  }

  /** The defaults the kernel fills in agree exactly when the fields given do. */
  lemma DefaultsAgree(a: Action, b: Action)
    ensures EffectiveCapability(a) == EffectiveCapability(b) <==> SameCapability(a, b)
    ensures PurposeOf(a) == PurposeOf(b) <==> SamePurpose(a.purpose, b.purpose)
    ensures RefOf(a) == RefOf(b) <==> SameReference(a, b)
  {
    var x, y := "tool:" + a.tool, "tool:" + b.tool;
    assert x[5..] == a.tool && y[5..] == b.tool;
    assert Absent in {Absent, Named("")} && Named("") in {Absent, Named("")};
    assert a.purpose in {a.purpose, b.purpose} && b.purpose in {a.purpose, b.purpose};
  }

  /**
   The reference is bound: two nonces never share a fingerprint, without nonces two references do not, and beside a
   nonce the reference makes no difference.
   */
  lemma ReferenceIsBound(a: Action, x: string, y: string)
    ensures x != "" && y != "" ==>
              (ActionFingerprint(a.(nonce := x)) == ActionFingerprint(a.(nonce := y)) <==> x == y)
    ensures a.nonce == "" ==>
              (ActionFingerprint(a.(actionRef := x)) == ActionFingerprint(a.(actionRef := y)) <==> x == y)
    ensures a.nonce != "" ==> ActionFingerprint(a.(actionRef := x)) == ActionFingerprint(a.(actionRef := y))
  {
    hide SameData, Normalised;
    SameAsItself(Dict(a.payload));
    FingerprintExactly(a.(nonce := x), a.(nonce := y));
    FingerprintExactly(a.(actionRef := x), a.(actionRef := y));
  }

  /** The same of the hashed text itself: no two different commitments are printed alike. */
  lemma PreimageExactly(a: Action, b: Action)
    requires Fingerprintable(a) && Fingerprintable(b)
    ensures Preimage(a) == Preimage(b) <==> SameCommitment(a, b)
  {
    NormalisedPlain(a);
    NormalisedPlain(b);
    PrintInjective(Normalised(a), Normalised(b));
    FingerprintExactly(a, b);
  }
}
