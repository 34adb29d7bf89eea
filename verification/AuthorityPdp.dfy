/** Policy-decision providers: canonicalising what they return, and the built-in grants-and-purposes provider. */
module AuthorityPdp {
  import opened Basics
  import opened Values
  import opened Fingerprint
  import opened Compose
  import opened Attenuation
  import Macaroons

  datatype AuthorityResult = AuthorityResult(verdict: Verdict, reason: string, provider: string, revision: string)

  /** What evaluating a provider came to; a dict may hold any further keys. */
  datatype PdpOutput =
    | Canonical(verdictText: string, reasonText: string)
    | PdpDict(verdict: Option<Raw>, reason: Option<Raw>, extra: map<string, Value>)
    | PdpText(text: string)
    | PdpMalformed(typeName: string)
    | PdpRaised(message: string)
    | PdpTimedOut

  datatype Provider = Provider(name: string, revision: string)

  const MAX_REASON_CHARS: nat := 1024

  /** `_plain_bounded` on a text. */
  function Bounded(text: string, fallback: string, limit: nat): string {
    var kept := if |text| > limit then text[..limit] else text;
    if kept == "" then fallback else kept
  }

  function Lower(v: Verdict): string {
    match v
    case Allow => "allow"
    case Limit => "limit"
    case Contain => "contain"
    case Defer => "defer"
    case Deny => "deny"
  }

  function RawVerdict(out: PdpOutput): Raw {
    match out
    case Canonical(v, _) => Text(v)
    case PdpDict(v, _, _) => if v.Some? then v.value else Text("DENY")
    case PdpText(t) => Text(t)
    case _ => Text("DENY")
  }

  function RawReason(out: PdpOutput): string {
    match out
    case Canonical(_, r) => r
    case PdpDict(_, r, _) => Shown(r)
    case PdpText(_) => ""
    case PdpMalformed(t) => "malformed authority output: " + t
    case PdpRaised(m) => "authority PDP error (fail-closed): " + m
    case PdpTimedOut => "authority PDP timeout (fail-closed)"
  }

  /** `evaluate_authority` with `canonicalize_authority_output`. */
  function CanonicalResult(p: Provider, out: PdpOutput): AuthorityResult {
    var name := Bounded(p.name, "authority-pdp", 128);
    var revision := Bounded(p.revision, "unknown", 256);
    var raw := RawVerdict(out);
    var verdict := NormalizeRaw(Some(raw));
    var reason := Bounded(RawReason(out), name + ": " + Lower(verdict), MAX_REASON_CHARS);
    var flagged := if verdict == Deny && raw != Text("DENY")
                   then Bounded("unknown/malformed authority verdict (fail-closed): " + reason, "", MAX_REASON_CHARS)
                   else reason;
    AuthorityResult(verdict, flagged, name, revision)
  }

  /** `text`, or as much of it as fits, or `fallback` if there is none. */
  ghost predicate Fits(text: string, shown: string, fallback: string, limit: nat) {
    && (text == "" ==> shown == fallback)
    && (0 < |text| <= limit ==> shown == text)
    && (|text| > limit > 0 ==> shown == text[..limit])
  }

  /**
   Only a provider's verdict and reason get through: the identity is the selected provider's own as far as it fits,
   the reason is non-empty and bounded, and a dict's other keys make no difference.
   */
  lemma ProviderIsBounded(p: Provider, out: PdpOutput, extra: map<string, Value>)
    ensures var r := CanonicalResult(p, out);
            && 0 < |r.reason| <= 1024 && 0 < |r.provider| <= 128 && 0 < |r.revision| <= 256
            && Fits(p.name, r.provider, "authority-pdp", 128) && Fits(p.revision, r.revision, "unknown", 256)
    ensures out.PdpDict? ==> CanonicalResult(p, out.(extra := extra)) == CanonicalResult(p, out)
    ensures out.PdpMalformed? || out.PdpRaised? || out.PdpTimedOut? ==> CanonicalResult(p, out).verdict == Deny
  {
  }

  /** The text a provider gives as its reason, if it gives one. */
  ghost predicate GivesReason(out: PdpOutput, why: string) {
    match out
    case Canonical(_, reason) => reason == why
    case PdpDict(_, reason, _) => reason == Some(Text(why))
    case _ => false
  }

  /** What stands in front of the reason of a denial that was not asked for. */
  const UNKNOWN := "unknown/malformed authority verdict (fail-closed): "

  /** The provider's own reason is the one in the ruling, marked where its verdict was not one and so denies. */
  lemma ReasonIsTheProviders(p: Provider, out: PdpOutput, why: string)
    requires GivesReason(out, why) && 0 < |why| <= 1024 - |UNKNOWN|
    ensures var r := CanonicalResult(p, out);
            r.reason == if r.verdict == Deny && RawVerdict(out) != Text("DENY") then UNKNOWN + why else why
  {
  }

  /** A provider that fails is denied with what went wrong as the reason. */
  lemma FailureIsTold(p: Provider, out: PdpOutput)
    ensures out.PdpRaised? && |out.message| <= 900 ==>
              CanonicalResult(p, out).reason == "authority PDP error (fail-closed): " + out.message
    ensures out.PdpMalformed? && |out.typeName| <= 900 ==>
              CanonicalResult(p, out).reason == "malformed authority output: " + out.typeName
    ensures out.PdpTimedOut? ==> CanonicalResult(p, out).reason == "authority PDP timeout (fail-closed)"
  {
  }

  /** Without a reason, the ruling says who ruled what: the provider's name and the verdict's in lower case. */
  lemma WithoutReasonTheVerdict(p: Provider, out: PdpOutput)
    requires GivesReason(out, "") && RawVerdict(out).Text?
    ensures var r, lower := CanonicalResult(p, out), Lower(CanonicalResult(p, out).verdict);
            && (Name(r.verdict) == RawVerdict(out).s ==> r.reason == r.provider + ": " + lower)
            && |lower| == |Name(r.verdict)|
            && forall i :: 0 <= i < |lower| ==> lower[i] as int == Name(r.verdict)[i] as int + 0x20
  {
    NormalizeExactly(RawVerdict(out).s, Deny);
  }

  /** Fail closed, exactly: a provider rules anything but DENY only by naming it in text. */
  lemma RulesExactly(p: Provider, out: PdpOutput, v: Verdict)
    requires !v.Deny?
    ensures CanonicalResult(p, out).verdict == v <==>
            match out
            case Canonical(text, _) => text == Name(v)
            case PdpDict(said, _, _) => said == Some(Text(Name(v)))
            case PdpText(text) => text == Name(v)
            case _ => false
  {
    NormalizeExactly("DENY", v);
    match RawVerdict(out)
    case Text(text) => NormalizeExactly(text, v);
    case NonText(_) =>
  }

  // ---- the built-in provider

  /** `action["capability"]`, if given with a tool, names that tool. */
  predicate ShapeOk(a: Action) {
    a.capability == "" || a.tool == "" || a.capability == "tool:" + a.tool
  }

  predicate LabelOk(bindings: map<string, seq<string>>, defaultDeny: bool, a: Action, dataLabel: string) {
    if dataLabel in bindings then a.purpose.Named? && a.purpose.name in bindings[dataLabel] else !defaultDeny
  }

  ghost predicate BuiltinAllows(g: Graph, bindings: map<string, seq<string>>, defaultDeny: bool, a: Action, now: int) {
    && ShapeOk(a)
    && Holds(g, a.actor, EffectiveCapability(a), now)
    && forall l :: l in a.labels ==> LabelOk(bindings, defaultDeny, a, l)
  }

  class BuiltinAuthorityPDP {
    var grants: map<string, seq<string>>
    var revisionCounter: nat
    const bindings: map<string, seq<string>>
    const defaultDeny: bool
    const graph: AuthorityGraph

    constructor (grants: map<string, seq<string>>, bindings: map<string, seq<string>>, defaultDeny: bool,
                 graph: AuthorityGraph)
      requires graph.Model().roots == map h | h in grants :: set c | c in grants[h]
      ensures InStep() && this.graph == graph && this.bindings == bindings && this.defaultDeny == defaultDeny
      ensures this.grants == grants
    {
      this.grants, this.bindings, this.defaultDeny, this.graph := grants, bindings, defaultDeny, graph;
      this.revisionCounter := 0;
    }

    function GrantsOf(actor: string): seq<string>
      reads this
    {
      if actor in grants then grants[actor] else []
    }

    /** The flat lists and the graph's root sets agree, holder by holder. */
    ghost predicate InStep()
      reads this, graph
    {
      forall h, c :: c in GrantsOf(h) <==> c in graph.Model().RootsOf(h)
    }

    method Evaluate(a: Action, now: int) returns (out: PdpOutput)
      ensures out.Canonical? && (out.verdictText == "ALLOW" || out.verdictText == "DENY")
      ensures out.verdictText == "ALLOW" <==> BuiltinAllows(graph.Model(), bindings, defaultDeny, a, now)
    {
      var cap := EffectiveCapability(a);
      if a.capability != "" && a.tool != "" && a.capability != "tool:" + a.tool {
        return Canonical("DENY", "ambiguous: capability '" + a.capability + "' != tool '" + a.tool + "'");
      }
      var held := graph.HoldsNow(a.actor, cap, now);
      if !held {
        return Canonical("DENY", "actor '" + a.actor + "' lacks capability '" + cap + "'");
      }
      for i := 0 to |a.labels|
        invariant forall j :: 0 <= j < i ==> LabelOk(bindings, defaultDeny, a, a.labels[j])
      {
        var dataLabel := a.labels[i];
        if dataLabel !in bindings {
          if defaultDeny {
            assert !LabelOk(bindings, defaultDeny, a, dataLabel) && dataLabel in a.labels;
            return Canonical("DENY", "unknown data purpose '" + dataLabel + "' -> default-deny");
          }
        } else if !a.purpose.Named? || a.purpose.name !in bindings[dataLabel] {
          assert !LabelOk(bindings, defaultDeny, a, dataLabel) && dataLabel in a.labels;
          return Canonical("DENY", "purpose mismatch: '" + dataLabel + "'");
        }
      }
      return Canonical("ALLOW", "all checks passed");
    }

    method Grant(actor: string, capability: string)
      requires InStep()
      modifies this, graph
      ensures InStep()
      ensures graph.Model() == old(graph.Model()).WithGrant(actor, capability)
      ensures GrantsOf(actor) == old(GrantsOf(actor)) + if capability in old(GrantsOf(actor)) then [] else [capability]
      ensures forall h :: h != actor ==> GrantsOf(h) == old(GrantsOf(h))
      ensures revisionCounter == old(revisionCounter) + 1
    {
      if actor !in grants {
        grants := grants[actor := []];
      }
      if capability !in grants[actor] {
        grants := grants[actor := grants[actor] + [capability]];
      }
      graph.Grant(actor, capability);
      revisionCounter := revisionCounter + 1;
      forall h, c ensures c in GrantsOf(h) <==> c in graph.Model().RootsOf(h) {
        assert c in old(GrantsOf(h)) <==> c in old(graph.Model()).RootsOf(h);
      }
    }

    method Revoke(actor: string, capability: string)
      requires InStep()
      modifies this, graph
      ensures InStep()
      ensures graph.Model() == old(graph.Model()).WithoutGrant(actor, capability)
      ensures GrantsOf(actor) == Without(old(GrantsOf(actor)), capability)
      ensures forall h :: h != actor ==> GrantsOf(h) == old(GrantsOf(h))
      ensures revisionCounter == old(revisionCounter) + 1
    {
      WithoutMembers(GrantsOf(actor), capability);
      grants := grants[actor := Without(GrantsOf(actor), capability)];
      graph.Revoke(actor, capability);
      revisionCounter := revisionCounter + 1;
      forall h, c ensures c in GrantsOf(h) <==> c in graph.Model().RootsOf(h) {
        assert c in old(GrantsOf(h)) <==> c in old(graph.Model()).RootsOf(h);
      }
    }

    method Delegate(parent: string, child: string, tools: seq<string>, expiresAt: Option<int>, now: int, nonce: string)
      returns (r: Result<Macaroons.Macaroon, AttenuationError>)
      requires InStep()
      modifies this, graph
      ensures InStep() && grants == old(grants)
      ensures r == Delegation(old(graph.Model()), parent, child, tools, expiresAt, now, nonce)
      ensures graph.Model() ==
              if r.Success? then old(graph.Model()).WithMacaroon(child, r.value) else old(graph.Model())
      ensures revisionCounter == old(revisionCounter) + if r.Success? then 1 else 0
    {
      hide Delegation;
      r := graph.Delegate(parent, child, tools, expiresAt, now, nonce);
      if r.Success? {
        revisionCounter := revisionCounter + 1;
      }
      forall h, c ensures c in GrantsOf(h) <==> c in graph.Model().RootsOf(h) {
        assert c in old(GrantsOf(h)) <==> c in old(graph.Model()).RootsOf(h);
      }
    }
  }

  /** Every occurrence of `x` dropped. */
  function Without(xs: seq<string>, x: string): seq<string> {
    if xs == [] then [] else (if xs[0] == x then [] else [xs[0]]) + Without(xs[1..], x)
  }

  lemma {:induction false} WithoutMembers(xs: seq<string>, x: string)
    ensures forall c :: c in Without(xs, x) <==> c in xs && c != x
  {
    if xs != [] { WithoutMembers(xs[1..], x); }
  }
}
