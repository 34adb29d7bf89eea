/** The kernel: host obligations, the evaluator fold, the legitimacy binding, the signature and the one-time mint. */
module Kernel {
  import opened Basics
  import opened Values
  import opened Fingerprint
  import opened Compose
  import opened AuthorityPdp
  import Sorting

  const KERNEL_IDENTITY := "decision-os-min-kernel"
  const TOKEN_TTL_SECONDS := 30

  datatype Rule = Rule(purpose: Option<string>, fields: seq<string>)

  /** `allowedTools` is the containment allowlist; the shipped one is empty. */
  datatype Policy = Policy(redactions: seq<Rule>, containClasses: set<string>, allowedTools: seq<string>)

  type Payload = map<string, Value>

  // ---- data minimisation

  /** `payload.get(f) not in (None, "")`. */
  predicate Redactable(payload: Payload, f: string) {
    f in payload && payload[f] != Null && payload[f] != Str("")
  }

  function HitFields(fields: seq<string>, payload: Payload): seq<string> {
    if fields == [] then []
    else HitFields(fields[..|fields| - 1], payload) +
         if Redactable(payload, fields[|fields| - 1]) then [fields[|fields| - 1]] else []
  }

  lemma {:induction false} HitsArePresent(fields: seq<string>, payload: Payload)
    ensures forall f :: f in HitFields(fields, payload) <==> f in fields && Redactable(payload, f)
  {
    if fields != [] {
      var init := fields[..|fields| - 1];
      HitsArePresent(init, payload);
      assert forall f :: f in fields <==> f in init || f == fields[|fields| - 1];
    }
  }

  /** The hit fields of the first rule for this purpose that hits anything. */
  function FirstHit(rules: seq<Rule>, purpose: Option<string>, payload: Payload): seq<string> {
    if rules == [] then []
    else if rules[0].purpose == purpose && HitFields(rules[0].fields, payload) != [] then
      HitFields(rules[0].fields, payload)
    else FirstHit(rules[1..], purpose, payload)
  }

  function Redact(payload: Payload, fields: seq<string>): Payload {
    map k | k in payload :: if k in fields then Str("[REDACTED]") else payload[k]
  }

  /** The obligation the host owes this action, if any. */
  function Obligation(policy: Policy, a: Action): Option<Payload> {
    var fields := FirstHit(policy.redactions, a.purpose.Given(), a.payload);
    if fields == [] then None else Some(Redact(a.payload, fields))
  }

  // ---- which rule redacts what, on the payload's own values

  /** A rule for this purpose that lists a field which is there and neither null nor the empty text. */
  ghost predicate Hitting(rule: Rule, purpose: Option<string>, payload: Payload) {
    rule.purpose == purpose &&
    exists f :: f in rule.fields && f in payload && payload[f] != Null && payload[f] != Str("")
  }

  /** `i` is the first hitting rule in policy order, or past the last if none hits. */
  ghost predicate FirstHitting(rules: seq<Rule>, purpose: Option<string>, payload: Payload, i: nat) {
    && i <= |rules|
    && (forall j :: 0 <= j < i ==> !Hitting(rules[j], purpose, payload))
    && (i < |rules| ==> Hitting(rules[i], purpose, payload))
  }

  /** Rule `i` lists the field, and there is something in it. */
  ghost predicate Redacts(rules: seq<Rule>, i: nat, payload: Payload, f: string) {
    i < |rules| && f in rules[i].fields && f in payload && payload[f] != Null && payload[f] != Str("")
  }

  /** `out` is `payload` with exactly what the first hitting rule redacts replaced. */
  ghost predicate Minimised(rules: seq<Rule>, purpose: Option<string>, payload: Payload, out: Payload) {
    exists i: nat :: FirstHitting(rules, purpose, payload, i) &&
                out == map f | f in payload :: if Redacts(rules, i, payload, f) then Str("[REDACTED]") else payload[f]
  }

  /** Which fields hit: those the first hitting rule redacts. */
  lemma {:induction false} FirstHitIsFirst(rules: seq<Rule>, purpose: Option<string>, payload: Payload) returns (i: nat)
    ensures FirstHitting(rules, purpose, payload, i)
    ensures forall f :: f in FirstHit(rules, purpose, payload) <==> Redacts(rules, i, payload, f)
    ensures FirstHit(rules, purpose, payload) == [] <==> i == |rules|
  {
    if rules == [] {
      i := 0;
    } else {
      var hits := HitFields(rules[0].fields, payload);
      HitsArePresent(rules[0].fields, payload);
      assert hits != [] ==> hits[0] in hits;
      if rules[0].purpose == purpose && hits != [] {
        i := 0;
      } else {
        var k := FirstHitIsFirst(rules[1..], purpose, payload);
        i := k + 1;
        forall j | 0 <= j < i ensures !Hitting(rules[j], purpose, payload) {
          assert j > 0 ==> rules[j] == rules[1..][j - 1];
        }
      }
    }
  }

  /** An obligation is owed exactly when some rule hits, and it is the minimised payload. */
  lemma OwesExactly(policy: Policy, a: Action)
    ensures var owed := Obligation(policy, a);
            && (owed.Some? <==> exists r :: r in policy.redactions && Hitting(r, a.purpose.Given(), a.payload))
            && Minimised(policy.redactions, a.purpose.Given(), a.payload, if owed.Some? then owed.value else a.payload)
  {
    var i := FirstHitIsFirst(policy.redactions, a.purpose.Given(), a.payload);
    var fields := FirstHit(policy.redactions, a.purpose.Given(), a.payload);
    var out := if fields == [] then a.payload else Redact(a.payload, fields);
    assert out == map f | f in a.payload ::
      if Redacts(policy.redactions, i, a.payload, f) then Str("[REDACTED]") else a.payload[f];
  }

  /** There is one minimised payload. */
  lemma MinimisedOnce(rules: seq<Rule>, purpose: Option<string>, payload: Payload, x: Payload, y: Payload)
    requires Minimised(rules, purpose, payload, x) && Minimised(rules, purpose, payload, y)
    ensures x == y
  {
  }

  /** `f"{xs}"` for a list of strings. */
  function Repr(xs: seq<string>): string {
    "[" + ReprItems(xs) + "]"
  }

  function ReprItems(xs: seq<string>): string {
    if xs == [] then "" else "'" + xs[0] + "'" + (if |xs| == 1 then "" else ", ") + ReprItems(xs[1..])
  }

  // ---- the kernel's own ruling

  /** The shape check comes before any provider is asked. */
  function AuthorityFor(a: Action, p: Provider, out: PdpOutput): AuthorityResult {
    if !ShapeOk(a) then
      AuthorityResult(Deny, "ambiguous: capability '" + a.capability + "' != tool '" + a.tool + "'", "kernel",
                      "action-shape")
    else CanonicalResult(p, out)
  }

  function LocalDecision(policy: Policy, a: Action, threat: Option<string>): Decision {
    var fields := FirstHit(policy.redactions, a.purpose.Given(), a.payload);
    if threat.Some? && threat.value in policy.containClasses then
      Decision(Contain, "threat '" + threat.value + "' -> sandbox" +
               (if fields == [] then "" else "; redacted " + Repr(Sorting.SortList(fields))), RefOf(a))
    else if fields != [] then Decision(Limit, "redacted " + Repr(Sorting.SortList(fields)), RefOf(a))
    else Decision(Allow, "host obligations satisfied", RefOf(a))
  }

  /** `_evaluate`. */
  function OwnRuling(policy: Policy, a: Action, threat: Option<string>, auth: AuthorityResult): Decision {
    var asked := Decision(auth.verdict, auth.reason, RefOf(a),
                          provider := Some(auth.provider), revision := Some(auth.revision));
    if auth.verdict.Deny? || auth.verdict.Defer? then asked
    else
      var owed := Obligation(policy, a);
      var d := MoreRestrictive(asked, LocalDecision(policy, a, threat));
      var stamped := d.(provider := Some(auth.provider), revision := Some(auth.revision));
      if d.verdict.Limit? && owed.None? then
        asked.(verdict := Deny, reason := "authority LIMIT has no host-owned transformation -> fail-closed")
      else if d.verdict.Limit? then stamped.(transformedPayload := owed)
      else if d.verdict.Contain? then stamped.(containment := Some(policy.allowedTools), transformedPayload := owed)
      else stamped
  }

  // ---- legitimacy evidence

  /** The digests and axioms evaluators hand in, whether or not their verdict governs. */
  function Digests(outs: seq<Outcome>): seq<string> {
    if outs == [] then []
    else
      var o := outs[|outs| - 1];
      Digests(outs[..|outs| - 1]) +
      if o.Returned? && o.digest.Some? && o.digest.value.Text? && o.digest.value.s != "" then [o.digest.value.s] else []
  }

  function Axioms(outs: seq<Outcome>): seq<string> {
    if outs == [] then []
    else
      var o := outs[|outs| - 1];
      Axioms(outs[..|outs| - 1]) +
      if o.Returned? && o.axiomIds.Some? && o.axiomIds.value.Ids? then o.axiomIds.value.ids else []
  }

  function LastOr(xs: seq<string>, default: string): string {
    if xs == [] then default else xs[|xs| - 1]
  }

  /** The one-time draws of a mint: a token id and the clock. */
  datatype Draws = Draws(tokenId: string, now: int)

  /** Everything after the fold: kernel-owned fields, evidence, mint. `axioms` is the sorted axiom set. */
  function Stamp(d: Decision, a: Action, auth: AuthorityResult, digests: seq<string>, axioms: seq<string>,
                 draws: Draws): Decision
  {
    var owned := d.(provider := Some(auth.provider), revision := Some(auth.revision),
                    authorityVerdict := Some(auth.verdict), issuedBy := Some(KERNEL_IDENTITY),
                    actionBinding := Some(ActionFingerprint(a)));
    var bound :=
      if digests == [] && axioms == [] then owned
      else owned.(legitimacyDigest := Some(Text(LastOr(digests, ""))), axiomIds := Some(Ids(axioms)),
                  legitimacyBinding := Some(LegitimacyBinding(ActionFingerprint(a), LastOr(digests, ""), axioms,
                                                              d.verdict)));
    if Permitting(d.verdict) then
      bound.(capability := Some(EffectiveCapability(a)), tokenId := Some(draws.tokenId),
             tokenExpiresAt := Some(draws.now + TOKEN_TTL_SECONDS))
    else bound
  }

  ghost function SortedAxioms(outs: seq<Outcome>): seq<string> {
    Sorting.SortSet(set x | x in Axioms(outs))
  }

  /** `decide`, as a function of what the provider and the evaluators answered. */
  ghost function Decided(policy: Policy, a: Action, threat: Option<string>, auth: AuthorityResult,
                         outs: seq<Outcome>, draws: Draws): Decision
  {
    Stamp(Fold(OwnRuling(policy, a, threat, auth), outs, RefOf(a)), a, auth, Digests(outs), SortedAxioms(outs), draws)
  }

  /** Ed25519 as a free constructor: only the holder of `signer` makes `Ed25519(signer, _)`. */
  datatype Signature = Ed25519(signer: string, message: Decision) | OtherBytes(n: nat)

  datatype Signed = Signed(decision: Decision, signature: Signature)

  /** A payload that is not plain data cannot be bound, and `decide` raises. */
  datatype Unfingerprintable = Unfingerprintable

  class DecisionKernel {
    const policy: Policy
    const key: string

    constructor (policy: Policy, key: string)
      ensures this.policy == policy && this.key == key
    {
      this.policy, this.key := policy, key;
    }

    /** The redaction loop of `_evaluate`. */
    method Minimise(a: Action) returns (payload: Payload, hit: seq<string>)
      ensures hit == FirstHit(policy.redactions, a.purpose.Given(), a.payload)
      ensures payload == Redact(a.payload, hit)
      ensures Minimised(policy.redactions, a.purpose.Given(), a.payload, payload)
    {
      OwesExactly(policy, a);
      hide Minimised;
      payload, hit := a.payload, [];
      for i := 0 to |policy.redactions|
        invariant hit == [] && payload == a.payload
        invariant FirstHit(policy.redactions, a.purpose.Given(), a.payload) ==
                  FirstHit(policy.redactions[i..], a.purpose.Given(), a.payload)
      {
        var rule := policy.redactions[i];
        if rule.purpose != a.purpose.Given() { continue; }
        var found := Hits(rule.fields, payload);
        if found != [] {
          HitsArePresent(rule.fields, payload);
          payload := Overwrite(payload, found);
          return payload, found;
        }
      }
      assert Redact(a.payload, []) == a.payload;
    }

    static method Hits(fields: seq<string>, payload: Payload) returns (hit: seq<string>)
      ensures hit == HitFields(fields, payload)
    {
      hit := [];
      for i := 0 to |fields|
        invariant hit == HitFields(fields[..i], payload)
      {
        assert fields[..i + 1][..i] == fields[..i];
        if Redactable(payload, fields[i]) { hit := hit + [fields[i]]; }
      }
      assert fields[..|fields|] == fields;
    }

    static method Overwrite(payload: Payload, hit: seq<string>) returns (out: Payload)
      requires forall f :: f in hit ==> f in payload
      ensures out == Redact(payload, hit)
    {
      out := payload;
      for i := 0 to |hit|
        invariant out == Redact(payload, hit[..i])
      {
        out := out[hit[i] := Str("[REDACTED]")];
        assert hit[..i + 1] == hit[..i] + [hit[i]];
      }
      assert hit[..|hit|] == hit;
    }

    method Evaluate(a: Action, threat: Option<string>, p: Provider, out: PdpOutput)
      returns (d: Decision, auth: AuthorityResult)
      ensures auth == AuthorityFor(a, p, out) && d == OwnRuling(policy, a, threat, auth)
    {
      auth := AuthorityFor(a, p, out);
      var asked := Decision(auth.verdict, auth.reason, RefOf(a),
                            provider := Some(auth.provider), revision := Some(auth.revision));
      if auth.verdict.Deny? || auth.verdict.Defer? { return asked, auth; }
      var payload, hit := Minimise(a);
      d := MoreRestrictive(asked, LocalDecision(policy, a, threat));
      if d.verdict.Limit? {
        if hit == [] {
          d := asked.(verdict := Deny, reason := "authority LIMIT has no host-owned transformation -> fail-closed");
          return d, auth;
        }
        d := d.(transformedPayload := Some(payload));
      } else if d.verdict.Contain? {
        d := d.(containment := Some(policy.allowedTools));
        if hit != [] { d := d.(transformedPayload := Some(payload)); }
      }
      d := d.(provider := Some(auth.provider), revision := Some(auth.revision));
    }

    /** The evaluator loop of `decide`: the running meet, and the evidence each evaluator hands in. */
    static method Hear(own: Decision, outs: seq<Outcome>, ref: string)
      returns (d: Decision, digests: seq<string>, axioms: seq<string>)
      ensures d == Fold(own, outs, ref) && digests == Digests(outs) && axioms == Axioms(outs)
    {
      d, digests, axioms := own, [], [];
      for i := 0 to |outs|
        invariant d == Fold(own, outs[..i], ref)
        invariant digests == Digests(outs[..i]) && axioms == Axioms(outs[..i])
      {
        assert outs[..i + 1][..i] == outs[..i];
        var o := outs[i];
        d := MoreRestrictive(d, Sanitize(AsDecision(o, ref)));
        if o.Returned? {
          if o.digest.Some? && o.digest.value.Text? && o.digest.value.s != "" {
            digests := digests + [o.digest.value.s];
          }
          if o.axiomIds.Some? && o.axiomIds.value.Ids? { axioms := axioms + o.axiomIds.value.ids; }
        }
      }
      assert outs[..|outs|] == outs;
    }

    /** `decide`, given what the provider and each evaluator come to. */
    method Decide(a: Action, threat: Option<string>, p: Provider, out: PdpOutput, outs: seq<Outcome>, draws: Draws)
      returns (r: Result<Signed, Unfingerprintable>)
      ensures r.Success? <==> Fingerprintable(a)
      ensures r.Success? ==>
                r.value.decision == Decided(policy, a, threat, AuthorityFor(a, p, out), outs, draws) &&
                r.value.signature == Ed25519(key, r.value.decision)
    {
      var own, auth := Evaluate(a, threat, p, out);
      var d, digests, axioms := Hear(own, outs, RefOf(a));
      if !Fingerprintable(a) { return Failure(Unfingerprintable); }
      var sorted := Sorting.Sort(set x | x in axioms);
      var decision := Stamp(d, a, auth, digests, sorted, draws);
      return Success(Signed(decision, Ed25519(key, decision)));
    }
  }
}
