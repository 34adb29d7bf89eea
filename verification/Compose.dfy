/** Verdicts, the deny-dominant meet, and the fold of untrusted evaluators over the kernel's own ruling. */
module Compose {
  import opened Basics
  import opened Values
  import opened Fingerprint

  /** The lattice, least restrictive first. */
  datatype Verdict = Allow | Limit | Contain | Defer | Deny

  function Name(v: Verdict): string {
    match v
    case Allow => "ALLOW"
    case Limit => "LIMIT"
    case Contain => "CONTAIN"
    case Defer => "DEFER"
    case Deny => "DENY"
  }

  function Rank(v: Verdict): nat {
    match v
    case Allow => 0
    case Limit => 1
    case Contain => 2
    case Defer => 3
    case Deny => 4
  }

  predicate Permitting(v: Verdict) {
    v.Allow? || v.Limit? || v.Contain?
  }

  /** `normalize`: any text outside the lattice is a denial. */
  function Normalize(text: string): Verdict {
    if text == "ALLOW" then Allow
    else if text == "LIMIT" then Limit
    else if text == "CONTAIN" then Contain
    else if text == "DEFER" then Defer
    else Deny
  }

  function Meet(a: Verdict, b: Verdict): Verdict {
    if Rank(a) >= Rank(b) then a else b
  }

  function ComposeAll(vs: seq<Verdict>): Verdict {
    if vs == [] then Allow else Meet(ComposeAll(vs[..|vs| - 1]), vs[|vs| - 1])
  }

  /** `compose` on the raw texts. */
  method Compose(texts: seq<string>) returns (out: Verdict)
    ensures out == ComposeAll(seq(|texts|, i requires 0 <= i < |texts| => Normalize(texts[i])))
  {
    out := Allow;
    ghost var vs := seq(|texts|, i requires 0 <= i < |texts| => Normalize(texts[i]));
    for i := 0 to |texts|
      invariant out == ComposeAll(vs[..i])
    {
      assert vs[..i + 1][..i] == vs[..i];
      out := Meet(out, Normalize(texts[i]));
    }
    assert vs[..|texts|] == vs;
  }

  /** Each lattice member is named by exactly one text, and every other text denies. */
  lemma NormalizeExactly(text: string, v: Verdict)
    ensures Normalize(text) == v <==>
            if v.Deny? then (forall u: Verdict :: !u.Deny? ==> text != Name(u)) else text == Name(v)
  {
  }

  /** The composition is the most restrictive verdict present, or ALLOW. */
  lemma {:induction false} ComposeIsWorst(vs: seq<Verdict>)
    ensures forall v :: v in vs ==> Rank(v) <= Rank(ComposeAll(vs))
    ensures ComposeAll(vs) == Allow || ComposeAll(vs) in vs
  {
    if vs != [] { ComposeIsWorst(vs[..|vs| - 1]); }
  }

  /** Which of the verdicts present wins: a denial before all, then deferring, containing, limiting, allowing. */
  lemma {:induction false} DenyDominates(vs: seq<Verdict>)
    ensures ComposeAll(vs) ==
            if Deny in vs then Deny
            else if Defer in vs then Defer
            else if Contain in vs then Contain
            else if Limit in vs then Limit
            else Allow
  {
    ComposeIsWorst(vs);
  }

  lemma RankInjective(a: Verdict, b: Verdict)
    requires Rank(a) == Rank(b)
    ensures a == b
  {
  }

  /** Order and repetition carry no meaning: equal verdict sets compose alike. */
  lemma ComposeOrderFree(vs: seq<Verdict>, ws: seq<Verdict>)
    requires forall v :: v in vs <==> v in ws
    ensures ComposeAll(vs) == ComposeAll(ws)
  {
    ComposeIsWorst(vs);
    ComposeIsWorst(ws);
    RankInjective(ComposeAll(vs), ComposeAll(ws));
  }

  // ---- decisions

  /** The evidence hash folded into a decision, as a free constructor over what it covers. */
  datatype LegitimacyBinding =
    LegitimacyBinding(action: Digest, digest: string, axiomIds: seq<string>, verdict: Verdict)

  /** A value an untrusted evaluator returns where text is expected; a non-text one is known by its `str()`. */
  datatype Raw = Text(s: string) | NonText(shown: string)

  datatype RawIds = Ids(ids: seq<string>) | NotAList

  /** A decision dict; every field beyond the first three may be absent. */
  datatype Decision = Decision(
    verdict: Verdict,
    reason: string,
    actionRef: string,
    transformedPayload: Option<map<string, Value>> := None,
    containment: Option<seq<string>> := None,
    provider: Option<string> := None,
    revision: Option<string> := None,
    authorityVerdict: Option<Verdict> := None,
    issuedBy: Option<string> := None,
    actionBinding: Option<Digest> := None,
    legitimacyDigest: Option<Raw> := None,
    axiomIds: Option<RawIds> := None,
    legitimacyBinding: Option<LegitimacyBinding> := None,
    capability: Option<string> := None,
    tokenId: Option<string> := None,
    tokenExpiresAt: Option<int> := None)

  /**
   What calling an evaluator came to. A returned dict may hold any decision field besides its verdict, reason
   and evidence: `injected` is what it holds under the kernel's own keys.
   */
  datatype Outcome =
    | Bare(text: string)
    | Returned(verdict: Option<Raw>, reason: Option<Raw>, digest: Option<Raw>, axiomIds: Option<RawIds>,
               injected: Decision)
    | Malformed(typeName: string)
    | Raised(message: string)
    | TimedOut
    | BaseRaised(message: string)

  function NormalizeRaw(raw: Option<Raw>): Verdict {
    if raw.Some? && raw.value.Text? then Normalize(raw.value.s) else Deny
  }

  function Shown(raw: Option<Raw>): string {
    if raw.None? then "" else if raw.value.Text? then raw.value.s else raw.value.shown
  }

  /** `as_decision`, after the kernel has turned an exception or a timeout into a denial. */
  function AsDecision(out: Outcome, ref: string): Decision {
    match out
    case Bare(text) => Decision(Normalize(text), "", ref)
    case Returned(v, r, digest, ids, injected) =>
      injected.(verdict := NormalizeRaw(v), reason := Shown(r), actionRef := ref, legitimacyDigest := digest,
                axiomIds := ids)
    case Malformed(t) => Decision(Deny, "malformed evaluator output of type " + t + " (fail-closed)", ref)
    case Raised(m) => Decision(Deny, "evaluator error (fail-closed): " + m, ref)
    case TimedOut => Decision(Deny, "evaluator timeout (fail-closed)", ref)
    case BaseRaised(m) => Decision(Deny, "evaluator BaseException (fail-closed): " + m, ref)
  }

  /** `sanitize`: keep only the keys an evaluator may contribute. */
  function Sanitize(d: Decision): Decision {
    Decision(d.verdict, d.reason, d.actionRef, legitimacyDigest := d.legitimacyDigest, axiomIds := d.axiomIds)
  }

  function Said(out: Outcome, ref: string): Decision {
    Sanitize(AsDecision(out, ref))
  }

  function VerdictOf(out: Outcome): Verdict {
    AsDecision(out, "").verdict
  }

  lemma SaidVerdict(out: Outcome, ref: string)
    ensures Said(out, ref).verdict == VerdictOf(out) && Sanitize(Said(out, ref)) == Said(out, ref)
  {
  }

  /** Fail closed, exactly: short of DENY, an evaluator is heard to say a verdict only by naming it in text. */
  lemma SaysExactly(out: Outcome, v: Verdict)
    requires !v.Deny?
    ensures VerdictOf(out) == v <==>
            match out
            case Bare(text) => text == Name(v)
            case Returned(said, _, _, _, _) => said == Some(Text(Name(v)))
            case _ => false
  {
    match out
    case Bare(text) => NormalizeExactly(text, v);
    case Returned(said, _, _, _, _) => if said.Some? && said.value.Text? { NormalizeExactly(said.value.s, v); }
    case _ =>
  }

  /** `more_restrictive`: ties keep the first. */
  function MoreRestrictive(d1: Decision, d2: Decision): Decision {
    if Rank(d2.verdict) > Rank(d1.verdict) then d2 else d1
  }

  /** The evaluator loop of `decide`. */
  function Fold(own: Decision, outs: seq<Outcome>, ref: string): Decision {
    if outs == [] then own
    else MoreRestrictive(Fold(own, outs[..|outs| - 1], ref), Said(outs[|outs| - 1], ref))
  }

  /** The kernel's own ruling followed by what each evaluator is heard to say. */
  function Candidates(own: Decision, outs: seq<Outcome>, ref: string): seq<Decision> {
    [own] + seq(|outs|, i requires 0 <= i < |outs| => Said(outs[i], ref))
  }

  ghost predicate LeftmostWorst(ds: seq<Decision>, i: nat) {
    && i < |ds|
    && (forall j :: 0 <= j < |ds| ==> Rank(ds[j].verdict) <= Rank(ds[i].verdict))
    && (forall j :: 0 <= j < i ==> Rank(ds[j].verdict) < Rank(ds[i].verdict))
  }

  lemma LongerLeftmost(ds: seq<Decision>, d: Decision, i: nat)
    requires LeftmostWorst(ds, i)
    ensures LeftmostWorst(ds + [d], if Rank(d.verdict) > Rank(ds[i].verdict) then |ds| else i)
  {
  }

  lemma CandidatesGrow(own: Decision, outs: seq<Outcome>, ref: string)
    requires outs != []
    ensures Candidates(own, outs, ref) ==
            Candidates(own, outs[..|outs| - 1], ref) + [Said(outs[|outs| - 1], ref)]
  {
  }

  /** The fold returns the leftmost decision of maximal rank. */
  lemma {:induction false} FoldIsLeftmostWorst(own: Decision, outs: seq<Outcome>, ref: string) returns (i: nat)
    ensures LeftmostWorst(Candidates(own, outs, ref), i)
    ensures Fold(own, outs, ref) == Candidates(own, outs, ref)[i]
  {
    if outs == [] {
      i := 0;
    } else {
      var d, shorter := Said(outs[|outs| - 1], ref), Candidates(own, outs[..|outs| - 1], ref);
      i := FoldIsLeftmostWorst(own, outs[..|outs| - 1], ref);
      CandidatesGrow(own, outs, ref);
      LongerLeftmost(shorter, d, i);
      i := if Rank(d.verdict) > Rank(shorter[i].verdict) then |shorter| else i;
    }
  }

  function Verdicts(own: Verdict, outs: seq<Outcome>): seq<Verdict> {
    [own] + seq(|outs|, i requires 0 <= i < |outs| => VerdictOf(outs[i]))
  }

  /** The governing verdict is the composition of all verdicts. */
  lemma {:induction false} FoldComposes(own: Decision, outs: seq<Outcome>, ref: string)
    ensures Fold(own, outs, ref).verdict == ComposeAll(Verdicts(own.verdict, outs))
  {
    var all := Verdicts(own.verdict, outs);
    if outs == [] {
      assert all == [own.verdict] && all[..0] == [];
    } else {
      var init := outs[..|outs| - 1];
      FoldComposes(own, init, ref);
      SaidVerdict(outs[|outs| - 1], ref);
      assert all[..|all| - 1] == Verdicts(own.verdict, init);
    }
  }

  /** No evaluator is more restrictive than the kernel's own verdict. */
  ghost predicate Acquiesce(own: Verdict, outs: seq<Outcome>) {
    forall o :: o in outs ==> Rank(VerdictOf(o)) <= Rank(own)
  }

  /**
   The kernel's own decision survives untouched exactly when every evaluator acquiesces; otherwise a strictly
   more restrictive decision stands that carries no obligation, token, capability or containment.
   */
  lemma {:induction false} FoldKeepsOrStrips(own: Decision, outs: seq<Outcome>, ref: string)
    ensures Acquiesce(own.verdict, outs) ==> Fold(own, outs, ref) == own
    ensures !Acquiesce(own.verdict, outs) ==>
              var d := Fold(own, outs, ref);
              && Rank(d.verdict) > Rank(own.verdict) && Sanitize(d) == d
              && d.transformedPayload.None? && d.containment.None? && d.capability.None? && d.tokenId.None?
              && d.tokenExpiresAt.None? && d.actionBinding.None? && d.issuedBy.None? && d.legitimacyBinding.None?
              && d.provider.None? && d.revision.None? && d.authorityVerdict.None?
  {
    if outs != [] {
      var init, last := outs[..|outs| - 1], outs[|outs| - 1];
      FoldKeepsOrStrips(own, init, ref);
      SaidVerdict(last, ref);
      assert forall o :: o in outs <==> o in init || o == last;
    }
  }

  /** Which verdicts evaluators return, whoever returns them and however often. */
  function VerdictsSaid(outs: seq<Outcome>): set<Verdict> {
    set o | o in outs :: VerdictOf(o)
  }

  /** Only which verdicts are returned matters: not their order, their number, or what comes with them. */
  lemma FoldOrderFree(own: Decision, other: Decision, outs: seq<Outcome>, others: seq<Outcome>, ref: string)
    requires own.verdict == other.verdict && VerdictsSaid(outs) == VerdictsSaid(others)
    ensures Fold(own, outs, ref).verdict == Fold(other, others, ref).verdict
    ensures Acquiesce(own.verdict, outs) <==> Acquiesce(own.verdict, others)
  {
    FoldComposes(own, outs, ref);
    FoldComposes(other, others, ref);
    forall v ensures v in Verdicts(own.verdict, outs) <==> v in Verdicts(own.verdict, others) {
      VerdictMember(own.verdict, outs, v);
      VerdictMember(own.verdict, others, v);
    }
    ComposeOrderFree(Verdicts(own.verdict, outs), Verdicts(own.verdict, others));
    AcquiesceBySet(own.verdict, outs);
    AcquiesceBySet(own.verdict, others);
  }

  lemma AcquiesceBySet(own: Verdict, outs: seq<Outcome>)
    ensures Acquiesce(own, outs) <==> forall v :: v in VerdictsSaid(outs) ==> Rank(v) <= Rank(own)
  {
    assert forall o :: o in outs ==> VerdictOf(o) in VerdictsSaid(outs);
  }

  lemma {:induction false} VerdictMember(own: Verdict, outs: seq<Outcome>, v: Verdict)
    ensures v in Verdicts(own, outs) <==> v == own || v in VerdictsSaid(outs)
  {
    if outs == [] {
      assert Verdicts(own, outs) == [own];
    } else {
      var init, last := outs[..|outs| - 1], outs[|outs| - 1];
      VerdictMember(own, init, v);
      assert Verdicts(own, outs) == Verdicts(own, init) + [VerdictOf(last)];
      assert VerdictsSaid(outs) == VerdictsSaid(init) + {VerdictOf(last)} by {
        assert forall o :: o in outs <==> o in init || o == last;
      }
    }
  }
}
