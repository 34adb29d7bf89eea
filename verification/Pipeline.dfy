/** `decide` followed by `execute`: what reaches a tool, and what evaluators and providers can do about it. */
module Pipeline {
  import opened Basics
  import opened Values
  import opened Fingerprint
  import opened Compose
  import opened AuthorityPdp
  import opened Kernel
  import opened Execute
  import HashChain
  import Sorting
  import SpentStore

  /** Everything besides the evaluators that one pass through the system depends on. */
  datatype Setting = Setting(policy: Policy, key: string, threat: Option<string>, auth: AuthorityResult, draws: Draws,
                             tools: set<string>, now: int, markers: set<string>, health: SpentStore.Health)

  ghost function Ruled(w: Setting, a: Action, outs: seq<Outcome>): Decision {
    Decided(w.policy, a, w.threat, w.auth, outs, w.draws)
  }

  ghost function SignedBy(w: Setting, a: Action, outs: seq<Outcome>): Signed {
    Signed(Ruled(w, a, outs), Ed25519(w.key, Ruled(w, a, outs)))
  }

  /** The tool call `DecisionOS.handle` makes, if it makes one. */
  ghost function Effect(w: Setting, a: Action, outs: seq<Outcome>): Option<ToolCall> {
    var g := Prepared(w.key, a, SignedBy(w, a, outs), w.tools, w.now, w.markers, w.health);
    if g.Passes? then Some(ToolCall(g.tool, g.payload)) else None
  }

  // ---- the kernel's own ruling, at a glance

  function Own(w: Setting, a: Action): Decision {
    OwnRuling(w.policy, a, w.threat, w.auth)
  }

  lemma LocalShape(policy: Policy, a: Action, threat: Option<string>)
    ensures var d, owed := LocalDecision(policy, a, threat), Obligation(policy, a);
            && (d.verdict.Allow? || d.verdict.Limit? || d.verdict.Contain?)
            && (d.verdict.Allow? ==> owed.None?) && (d.verdict.Limit? ==> owed.Some?)
            && d == Decision(d.verdict, d.reason, RefOf(a))
  {
  }

  /** A permitting ruling carries the obligation owed, a containment exactly when it contains, and no token yet. */
  lemma OwnShape(w: Setting, a: Action)
    ensures var d := Own(w, a);
            && (Permitting(d.verdict) ==> d.transformedPayload == Obligation(w.policy, a))
            && (d.verdict.Allow? ==> Obligation(w.policy, a).None?)
            && (d.verdict.Limit? ==> Obligation(w.policy, a).Some?)
            && (d.verdict.Contain? ==> d.containment == Some(w.policy.allowedTools))
            && (d.containment.Some? ==> d.verdict.Contain?)
            && d.actionRef == RefOf(a)
            && (Permitting(d.verdict) ==> Permitting(w.auth.verdict))
            && d.legitimacyDigest.None? && d.axiomIds.None? && d.legitimacyBinding.None?
            && d.tokenId.None? && d.capability.None? && d.tokenExpiresAt.None?
            && d.provider == Some(w.auth.provider) && d.revision == Some(w.auth.revision)
  {
    LocalShape(w.policy, a, w.threat);
    var local := LocalDecision(w.policy, a, w.threat);
    if Rank(local.verdict) > Rank(w.auth.verdict) {
    } else {
    }
  }

  /** `d` is `f` with the kernel-owned fields filled in; grants are there exactly when the verdict permits. */
  ghost predicate FinishedFrom(d: Decision, f: Decision, w: Setting, a: Action) {
    && d.verdict == f.verdict && d.actionRef == f.actionRef
    && d.capability == (if Permitting(f.verdict) then Some(EffectiveCapability(a)) else None)
    && d.tokenId == (if Permitting(f.verdict) then Some(w.draws.tokenId) else None)
    && d.tokenExpiresAt == (if Permitting(f.verdict) then Some(w.draws.now + TOKEN_TTL_SECONDS) else None)
    && d.actionBinding == Some(ActionFingerprint(a)) && d.issuedBy == Some(KERNEL_IDENTITY)
    && d.containment == f.containment && d.transformedPayload == f.transformedPayload
    && d.provider == Some(w.auth.provider) && d.revision == Some(w.auth.revision)
    && d.authorityVerdict == Some(w.auth.verdict)
  }

  lemma StampFinishes(f: Decision, w: Setting, a: Action, digests: seq<string>, axioms: seq<string>)
    requires f.tokenId.None? && f.capability.None? && f.tokenExpiresAt.None?
    ensures FinishedFrom(Stamp(f, a, w.auth, digests, axioms, w.draws), f, w, a)
  {
  }

  lemma RuledFields(w: Setting, a: Action, outs: seq<Outcome>)
    ensures FinishedFrom(Ruled(w, a, outs), Fold(Own(w, a), outs, RefOf(a)), w, a)
    ensures Fold(Own(w, a), outs, RefOf(a)).actionRef == RefOf(a)
  {
    OwnShape(w, a);
    FoldRef(Own(w, a), outs, RefOf(a));
    StampFinishes(Fold(Own(w, a), outs, RefOf(a)), w, a, Digests(outs), SortedAxioms(outs));
  }

  /** What the PEP hands the tool: the redacted payload frozen through JSON if one is owed, else the live one. */
  function Delivered(w: Setting, a: Action): Payload {
    var owed := Obligation(w.policy, a);
    if owed.Some? then Frozen(owed.value) else a.payload
  }

  function ToolRun(a: Action): string {
    LastSegment(EffectiveCapability(a))
  }

  /** Every gate that does not concern evaluators. */
  predicate GatesOpen(w: Setting, a: Action) {
    && Fingerprintable(a)
    && Permitting(Own(w, a).verdict)
    && w.draws.tokenId != ""
    && w.now < w.draws.now + TOKEN_TTL_SECONDS
    && (Own(w, a).verdict.Contain? ==> ToolRun(a) in w.policy.allowedTools)
    && ToolRun(a) in w.tools
    && SpentStore.AnswerOf(w.markers, w.draws.tokenId, w.health) == SpentStore.First
  }

  lemma StampedGates(w: Setting, a: Action, d: Decision, digests: seq<string>, axioms: seq<string>)
    requires d.actionRef == RefOf(a)
    requires d.tokenId.None? && d.capability.None?
    ensures var s := Stamp(d, a, w.auth, digests, axioms, w.draws);
            Gates(w.key, a, Signed(s, Ed25519(w.key, s)), w.tools, w.now) ==
            if !Fingerprintable(a) then Escapes
            else if !Permitting(d.verdict) || w.draws.tokenId == "" then Refuses(NotPermitted(d.verdict))
            else if w.now >= w.draws.now + TOKEN_TTL_SECONDS then Refuses(TokenExpired)
            else if d.verdict.Contain? && (d.containment.None? || ToolRun(a) !in d.containment.value) then
              Refuses(NotAllowlisted(ToolRun(a)))
            else if ToolRun(a) !in w.tools then Refuses(NoSuchTool(ToolRun(a)))
            else if d.verdict.Limit? && d.transformedPayload.None? then Refuses(UndischargedLimit)
            else Passes(ToolRun(a),
                        if d.transformedPayload.Some? then Frozen(d.transformedPayload.value) else a.payload,
                        w.draws.tokenId)
  {
  }

  /**
   The effect, exactly: the tool is called if and only if every gate is open and no evaluator is more restrictive
   than the kernel's own ruling; and then it is always the same tool with the same payload.
   */
  lemma EffectExactly(w: Setting, a: Action, outs: seq<Outcome>)
    ensures Effect(w, a, outs) ==
            if GatesOpen(w, a) && Acquiesce(Own(w, a).verdict, outs)
            then Some(ToolCall(ToolRun(a), Delivered(w, a))) else None
  {
    OwnShape(w, a);
    FoldKeepsOrStrips(Own(w, a), outs, RefOf(a));
    FoldRef(Own(w, a), outs, RefOf(a));
    var d := Fold(Own(w, a), outs, RefOf(a));
    StampedGates(w, a, d, Digests(outs), SortedAxioms(outs));
  }

  lemma {:induction false} FoldRef(own: Decision, outs: seq<Outcome>, ref: string)
    requires own.actionRef == ref && own.tokenId.None? && own.capability.None? && own.tokenExpiresAt.None?
    ensures var d := Fold(own, outs, ref);
            d.actionRef == ref && d.tokenId.None? && d.capability.None? && d.tokenExpiresAt.None?
  {
    if outs != [] { FoldRef(own, outs[..|outs| - 1], ref); }
  }

  /** Evaluators are veto-only: with any of them left out, reordered or repeated, the same call is still made. */
  lemma EvaluatorsOnlyVeto(w: Setting, a: Action, outs: seq<Outcome>, fewer: seq<Outcome>)
    requires forall o :: o in fewer ==> o in outs
    ensures Effect(w, a, outs).Some? ==> Effect(w, a, fewer) == Effect(w, a, outs)
  {
    EffectExactly(w, a, outs);
    EffectExactly(w, a, fewer);
  }

  /**
   What reaches a tool of `payload`: what the first hitting rule for this purpose redacts is replaced; every other
   field is as given, after the round trip through JSON if anything was redacted.
   */
  ghost predicate ToolSees(rules: seq<Rule>, purpose: Option<string>, payload: Payload, seen: Payload) {
    exists i: nat :: FirstHitting(rules, purpose, payload, i) &&
                seen == map f | f in payload :: if Redacts(rules, i, payload, f) then Str("[REDACTED]")
                                                else if i < |rules| then Encode(payload[f]) else payload[f]
  }

  lemma DeliveredIsSeen(w: Setting, a: Action)
    ensures ToolSees(w.policy.redactions, a.purpose.Given(), a.payload, Delivered(w, a))
  {
    var rules, purpose := w.policy.redactions, a.purpose.Given();
    var i := FirstHitIsFirst(rules, purpose, a.payload);
    assert Delivered(w, a) == map f | f in a.payload :: if Redacts(rules, i, a.payload, f) then Str("[REDACTED]")
                                                        else if i < |rules| then Encode(a.payload[f]) else a.payload[f];
  }

  /** Data minimisation end to end, whatever the provider, threat, evaluators and allowlist. */
  lemma ToolSeesRedactedPayload(w: Setting, a: Action, outs: seq<Outcome>)
    requires Effect(w, a, outs).Some?
    ensures ToolSees(w.policy.redactions, a.purpose.Given(), a.payload, Effect(w, a, outs).value.payload)
  {
    hide Effect, Delivered;
    EffectExactly(w, a, outs);
    DeliveredIsSeen(w, a);
  }

  /** A support reply with one field, under a policy that keeps social security numbers from such replies. */
  const SSN_RULE := Rule(Some("support_reply"), ["ssn"])

  function SupportReply(ssn: Value): Action {
    Action("agent:bot", "send_email", "tool:send_email", Named("support_reply"), ["customer_support"], "n-1", "",
           map["ssn" := ssn])
  }

  function SupportSetting(): Setting {
    Setting(Policy([SSN_RULE], {"malicious"}, []), "k", None,
            AuthorityResult(Allow, "all checks passed", "builtin", "1"),
            Draws("tok-1", 0), {"send_email"}, 0, {}, SpentStore.Healthy)
  }

  /** The tool runs on anything but the number, if there was one. */
  lemma SupportReplyIsRedacted(ssn: Value)
    requires Encodable(ssn)
    ensures Effect(SupportSetting(), SupportReply(ssn), []) ==
            Some(ToolCall("send_email",
                          map["ssn" := if ssn == Null || ssn == Str("") then ssn else Str("[REDACTED]")]))
  {
    hide Effect, OwnRuling, Delivered, Obligation, LastSegment;
    var w, a := SupportSetting(), SupportReply(ssn);
    SendEmailRuns();
    OwnVerdict(w, a);
    EffectExactly(w, a, []);
    DeliveredIsSeen(w, a);
    SsnHits(a.payload);
    assert ToolRun(a) == "send_email" && GatesOpen(w, a);
    var seen := if ssn == Null || ssn == Str("") then ssn else Str("[REDACTED]");
    assert Delivered(w, a) == map["ssn" := seen];
  }

  /** In particular, "123" is redacted and an empty number is not. */
  lemma NumberIsRedactedAndBlankIsNot()
    ensures Effect(SupportSetting(), SupportReply(Str("123")), []) ==
            Some(ToolCall("send_email", map["ssn" := Str("[REDACTED]")]))
    ensures Effect(SupportSetting(), SupportReply(Str("")), []) == Some(ToolCall("send_email", map["ssn" := Str("")]))
  {
    hide Effect;
    SupportReplyIsRedacted(Str("123"));
    SupportReplyIsRedacted(Str(""));
  }

  lemma SendEmailRuns()
    ensures LastSegment("tool:send_email") == "send_email"
  {
    hide LastSegment, FindTool, Mentions;
    var name := "send_email";
    assert forall i :: 0 <= i < |name| ==> name[i] != ':';
    NoColonNoMention(name);
    CutExactly(name);
    assert "tool:" + name == "tool:send_email";
  }

  lemma SsnHits(payload: Payload)
    requires payload.Keys == {"ssn"}
    ensures Hitting(SSN_RULE, Some("support_reply"), payload) <==>
            payload["ssn"] != Null && payload["ssn"] != Str("")
    ensures forall i: nat :: FirstHitting([SSN_RULE], Some("support_reply"), payload, i) ==>
              i == if payload["ssn"] != Null && payload["ssn"] != Str("") then 0 else 1
  {
    assert "ssn" in payload && "ssn" in SSN_RULE.fields && [SSN_RULE][0] == SSN_RULE;
  }

  // ---- advice

  predicate Contained(w: Setting) {
    w.threat.Some? && w.threat.value in w.policy.containClasses
  }

  /** The host fails closed on a LIMIT it has no redaction for. */
  predicate BareLimit(w: Setting, a: Action) {
    w.auth.verdict.Limit? && Obligation(w.policy, a).None?
  }

  lemma OwnVerdict(w: Setting, a: Action)
    ensures Own(w, a).verdict ==
            if !Permitting(w.auth.verdict) then w.auth.verdict
            else if Contained(w) || w.auth.verdict.Contain? then Contain
            else if BareLimit(w, a) then Deny
            else if Obligation(w.policy, a).Some? then Limit else Allow
  {
    LocalShape(w.policy, a, w.threat);
    if Contained(w) {
    } else if Obligation(w.policy, a).Some? {
    } else {
    }
  }

  /** The ruling with another threat class in place of the one an advisor gave, `None` for no advice at all. */
  function Instead(w: Setting, given: Option<string>): Setting {
    w.(threat := given)
  }

  /** Advice contains what would not have been contained. */
  predicate Contains(w: Setting, given: Option<string>) {
    Contained(w) && !Contained(Instead(w, given))
  }

  /** Advice replaces a contained threat class by one that is not. */
  predicate Releases(w: Setting, given: Option<string>) {
    !Contained(w) && Contained(Instead(w, given))
  }

  /**
   Advice is meant only to tighten. The kernel's own ruling is loosened exactly in two cases: a contained threat class
   turns the fail-closed denial of a provider's bare LIMIT into a CONTAIN, which permits; and an advisor's answer
   that is not contained takes the place of a given class that is.
   */
  lemma AdviceTightensExactly(w: Setting, given: Option<string>, a: Action)
    ensures Rank(Own(w, a).verdict) < Rank(Own(Instead(w, given), a).verdict) <==>
            (Contains(w, given) && BareLimit(w, a)) ||
            (Releases(w, given) && Permitting(w.auth.verdict) && !w.auth.verdict.Contain? && !BareLimit(w, a))
    ensures Contains(w, given) && BareLimit(w, a) ==>
              Own(w, a).verdict == Contain && Own(Instead(w, given), a).verdict == Deny
  {
    OwnVerdict(w, a);
    OwnVerdict(Instead(w, given), a);
  }

  /** Some evaluator is more restrictive than the kernel would be without the advice. */
  ghost predicate Overruled(w: Setting, given: Option<string>, a: Action, outs: seq<Outcome>) {
    !Acquiesce(Own(Instead(w, given), a).verdict, outs)
  }

  /**
   The signed verdict, after the evaluators: it is loosened exactly when the own ruling is and no evaluator is as
   restrictive as the ruling without the advice.
   */
  lemma AdviceOnTheVerdict(w: Setting, given: Option<string>, a: Action, outs: seq<Outcome>)
    ensures Rank(Ruled(w, a, outs).verdict) < Rank(Ruled(Instead(w, given), a, outs).verdict) <==>
            Rank(Own(w, a).verdict) < Rank(Own(Instead(w, given), a).verdict) &&
            forall o :: o in outs ==> Rank(VerdictOf(o)) < Rank(Own(Instead(w, given), a).verdict)
  {
    hide Own, Fold, Stamp;
    RuledFields(w, a, outs);
    RuledFields(Instead(w, given), a, outs);
    FoldRank(Own(w, a), outs, RefOf(a));
    FoldRank(Own(Instead(w, given), a), outs, RefOf(a));
  }

  /** The folded rank is an upper bound, and it is the ruling's or some evaluator's. */
  lemma FoldRank(own: Decision, outs: seq<Outcome>, ref: string)
    ensures var r := Rank(Fold(own, outs, ref).verdict);
            && Rank(own.verdict) <= r && (forall o :: o in outs ==> Rank(VerdictOf(o)) <= r)
            && (r == Rank(own.verdict) || exists o :: o in outs && Rank(VerdictOf(o)) == r)
  {
    hide Fold;
    var vs := Verdicts(own.verdict, outs);
    FoldComposes(own, outs, ref);
    ComposeIsWorst(vs);
    assert vs[0] == own.verdict && own.verdict in vs;
    forall o | o in outs ensures VerdictOf(o) in vs {
      VerdictMember(own.verdict, outs, VerdictOf(o));
    }
    VerdictMember(own.verdict, outs, Fold(own, outs, ref).verdict);
  }

  /**
   The effect: a tool runs with the advice and not without it exactly when, every gate being open with it,
   containment overrides a bare LIMIT's denial or an evaluator that would have overruled the kernel, or the advice
   releases a tool that the containment allowlist would have kept back.
   */
  lemma AdviceOnTheEffect(w: Setting, given: Option<string>, a: Action, outs: seq<Outcome>)
    ensures (Effect(w, a, outs).Some? && Effect(Instead(w, given), a, outs).None?) <==>
            && GatesOpen(w, a) && Acquiesce(Own(w, a).verdict, outs)
            && ((Contains(w, given) && (BareLimit(w, a) || Overruled(w, given, a, outs))) ||
                (Releases(w, given) && ToolRun(a) !in w.policy.allowedTools))
    ensures Effect(w, a, outs).Some? && Effect(Instead(w, given), a, outs).Some? ==>
              Effect(w, a, outs) == Effect(Instead(w, given), a, outs)
  {
    hide Effect, OwnRuling, Obligation, ToolRun;
    OwnVerdict(w, a);
    OwnVerdict(Instead(w, given), a);
    EffectExactly(w, a, outs);
    EffectExactly(Instead(w, given), a, outs);
  }

  const TRANSFER := Action("bot", "pay", "", Absent, [], "n", "", map["amount" := Int(100)])

  /** `TRANSFER` under a policy without redactions that contains "malicious" and allows `allowed` there. */
  function TransferOf(threat: Option<string>, verdict: Verdict, allowed: seq<string>): Setting {
    Setting(Policy([], {"malicious"}, allowed), "k", threat, AuthorityResult(verdict, "ruled", "pdp", "1"),
            Draws("tok-1", 0), {"pay"}, 0, {}, SpentStore.Healthy)
  }

  lemma TransferRunsPay()
    ensures ToolRun(TRANSFER) == "pay" && Fingerprintable(TRANSFER)
  {
    NoColonNoMention("pay");
    CutExactly("pay");
  }

  lemma TransferOwesNothing(w: Setting)
    requires w.policy.redactions == []
    ensures Obligation(w.policy, TRANSFER) == None && Delivered(w, TRANSFER) == TRANSFER.payload
  {
  }

  /** What runs of the transfer: it is called, on its whole payload, exactly when the own verdict lets it be. */
  lemma TransferEffect(threat: Option<string>, verdict: Verdict, allowed: seq<string>, outs: seq<Outcome>)
    ensures var w := TransferOf(threat, verdict, allowed);
            Effect(w, TRANSFER, outs) ==
            if Permitting(Own(w, TRANSFER).verdict) && (Own(w, TRANSFER).verdict.Contain? ==> "pay" in allowed) &&
               Acquiesce(Own(w, TRANSFER).verdict, outs)
            then Some(ToolCall("pay", TRANSFER.payload)) else None
  {
    hide Effect, OwnRuling, Delivered, Obligation, ToolRun, Fingerprintable;
    TransferRunsPay();
    TransferOwesNothing(TransferOf(threat, verdict, allowed));
    EffectExactly(TransferOf(threat, verdict, allowed), TRANSFER, outs);
  }

  /** A provider's bare LIMIT: without advice nothing runs; called malicious, the transfer runs on its whole payload. */
  lemma AdviceLoosensATransfer()
    ensures Effect(TransferOf(None, Limit, ["pay"]), TRANSFER, []) == None
    ensures Effect(TransferOf(Some("malicious"), Limit, ["pay"]), TRANSFER, []) ==
            Some(ToolCall("pay", TRANSFER.payload))
  {
    hide Effect, OwnRuling, Obligation;
    TransferOwesNothing(TransferOf(None, Limit, ["pay"]));
    OwnVerdict(TransferOf(None, Limit, ["pay"]), TRANSFER);
    OwnVerdict(TransferOf(Some("malicious"), Limit, ["pay"]), TRANSFER);
    TransferEffect(None, Limit, ["pay"], []);
    TransferEffect(Some("malicious"), Limit, ["pay"], []);
  }

  /** An evaluator's LIMIT on an allowed transfer: a veto without advice, and no longer one when called malicious. */
  lemma AdviceUndoesAnEvaluator()
    ensures Effect(TransferOf(None, Allow, ["pay"]), TRANSFER, [Bare("LIMIT")]) == None
    ensures Effect(TransferOf(Some("malicious"), Allow, ["pay"]), TRANSFER, [Bare("LIMIT")]) ==
            Some(ToolCall("pay", TRANSFER.payload))
  {
    hide Effect, OwnRuling, Obligation;
    TransferOwesNothing(TransferOf(None, Allow, ["pay"]));
    OwnVerdict(TransferOf(None, Allow, ["pay"]), TRANSFER);
    OwnVerdict(TransferOf(Some("malicious"), Allow, ["pay"]), TRANSFER);
    NormalizeExactly("LIMIT", Limit);
    assert Bare("LIMIT") in [Bare("LIMIT")] && VerdictOf(Bare("LIMIT")) == Limit;
    TransferEffect(None, Allow, ["pay"], [Bare("LIMIT")]);
    TransferEffect(Some("malicious"), Allow, ["pay"], [Bare("LIMIT")]);
  }

  /** An advisor that sees nothing, asked about a transfer given as malicious: its answer lets the tool run. */
  lemma AdviceReleasesATransfer()
    ensures Effect(TransferOf(Some("malicious"), Allow, []), TRANSFER, []) == None
    ensures Effect(TransferOf(None, Allow, []), TRANSFER, []) == Some(ToolCall("pay", TRANSFER.payload))
  {
    hide Effect, OwnRuling, Obligation;
    TransferOwesNothing(TransferOf(None, Allow, []));
    OwnVerdict(TransferOf(None, Allow, []), TRANSFER);
    OwnVerdict(TransferOf(Some("malicious"), Allow, []), TRANSFER);
    TransferEffect(None, Allow, [], []);
    TransferEffect(Some("malicious"), Allow, [], []);
  }

  // ---- what the signature commits to

  /** A signed decision is worth nothing to another action: whatever passes the gates agrees with what was decided. */
  lemma NoConfusedDeputy(w: Setting, decided: Action, outs: seq<Outcome>, live: Action, tools: set<string>, now: int)
    requires Gates(w.key, live, SignedBy(w, decided, outs), tools, now).Passes?
    ensures SameCommitment(live, decided)
    ensures Gates(w.key, live, SignedBy(w, decided, outs), tools, now).tool == ToolRun(decided)
    ensures Encode(Dict(Gates(w.key, live, SignedBy(w, decided, outs), tools, now).payload)) ==
            Encode(Dict(Delivered(w, decided)))
  {
    hide Stamp, OwnRuling, Fold, Obligation, Normalised, SameData;
    FingerprintExactly(live, decided);
    EncodedAlikeExactly(Dict(live.payload), Dict(decided.payload));
    RuledFields(w, decided, outs);
    OwnShape(w, decided);
    FoldKeepsOrStrips(Own(w, decided), outs, RefOf(decided));
  }

  /** Presented with any other action that can be bound, the decision is refused for just that. */
  lemma OtherActionIsRefused(w: Setting, decided: Action, outs: seq<Outcome>, live: Action, tools: set<string>,
                             now: int)
    requires !SameCommitment(live, decided)
    ensures Gates(w.key, live, SignedBy(w, decided, outs), tools, now) ==
            if Fingerprintable(live) then Refuses(BindingMismatch) else Escapes
  {
    hide Stamp, OwnRuling, Fold, Normalised, SameCommitment;
    FingerprintExactly(live, decided);
    RuledFields(w, decided, outs);
  }

  /** A decision on one nonce authorises no other, the action being the same in all else. */
  lemma OtherNonceIsRefused(w: Setting, decided: Action, outs: seq<Outcome>, nonce: string, tools: set<string>,
                            now: int)
    requires Fingerprintable(decided) && decided.nonce != "" && nonce != "" && nonce != decided.nonce
    ensures Gates(w.key, decided.(nonce := nonce), SignedBy(w, decided, outs), tools, now) == Refuses(BindingMismatch)
  {
    hide Gates, SignedBy;
    OtherActionIsRefused(w, decided, outs, decided.(nonce := nonce), tools, now);
  }

  /** A token lasts thirty seconds from the clock reading it was minted at. */
  lemma TokensLastThirtySeconds(w: Setting, a: Action, outs: seq<Outcome>)
    ensures var expiry := Ruled(w, a, outs).tokenExpiresAt; expiry.Some? ==> expiry.value == w.draws.now + 30
    ensures Effect(w, a, outs).Some? ==> w.now < w.draws.now + 30
  {
    hide Effect, OwnRuling, Stamp;
    RuledFields(w, a, outs);
    EffectExactly(w, a, outs);
  }

  /**
   The shape of an action is the kernel's own concern: one whose capability is not its tool's is denied in the kernel's
   name and runs nothing, whatever the provider says of it.
   */
  lemma MisshapenNeverRuns(w: Setting, a: Action, outs: seq<Outcome>, p: Provider, out: PdpOutput)
    requires w.auth == AuthorityFor(a, p, out)
    requires a.capability != "" && a.tool != "" && a.capability != "tool:" + a.tool
    ensures Effect(w, a, outs) == None
    ensures var d := Ruled(w, a, outs);
            d.verdict == Deny && d.tokenId == None && d.provider == Some("kernel") && d.revision == Some("action-shape")
  {
    hide Effect, Fold, Stamp;
    EffectExactly(w, a, outs);
    RuledFields(w, a, outs);
    FoldRank(Own(w, a), outs, RefOf(a));
  }

  /**
   What the kernel's own reason tells of an action its provider allows: the threat contained, and the fields redacted,
   which are just those the first hitting rule redacts.
   */
  lemma ReasonNamesTheFields(w: Setting, a: Action) returns (i: nat, fields: seq<string>)
    requires w.auth.verdict == Allow
    ensures FirstHitting(w.policy.redactions, a.purpose.Given(), a.payload, i)
    ensures Sorting.Sorted(fields) && forall f :: f in fields <==> Redacts(w.policy.redactions, i, a.payload, f)
    ensures Own(w, a).reason ==
            if Contained(w) then "threat '" + w.threat.value + "' -> sandbox" +
                                 (if i == |w.policy.redactions| then "" else "; redacted " + Repr(fields))
            else if i < |w.policy.redactions| then "redacted " + Repr(fields)
            else w.auth.reason
  {
    hide Redacts, FirstHitting;
    var hit := FirstHit(w.policy.redactions, a.purpose.Given(), a.payload);
    i := FirstHitIsFirst(w.policy.redactions, a.purpose.Given(), a.payload);
    fields := Sorting.SortList(hit);
    Sorting.SortListSorts(hit);
    hide FirstHit, Repr, RefOf;
    assert forall f :: f in hit <==> f in multiset(hit);
    assert forall f :: f in fields <==> f in multiset(fields);
  }

  // ---- what the audit entry tells

  /** Run or refused, the entry names the tool that the action's capability makes the PEP run. */
  lemma EntryNamesTheTool(w: Setting, a: Action, outs: seq<Outcome>)
    ensures AuditTool(a, Ruled(w, a, outs)) == ToolRun(a)
  {
    hide OwnRuling, Stamp, Fold, LastSegment;
    RuledFields(w, a, outs);
    CutPrefix("");
    assert "tool:" + "" == "tool:" && LastSegment("") == "" by { SegmentLength(""); }
  }

  ghost function EntryOf(w: Setting, a: Action, outs: seq<Outcome>): HashChain.Content
    requires Fingerprintable(a)
  {
    SignedEscapesExactly(w, a, outs, a, w.tools, w.now, w.markers, w.health);
    AuditContent(a, Ruled(w, a, outs), Prepared(w.key, a, SignedBy(w, a, outs), w.tools, w.now, w.markers, w.health))
  }

  /** The entry of an effect: who acted, which tool ran on which payload, and the kernel's own verdict and reason. */
  lemma EntryOfAnEffect(w: Setting, a: Action, outs: seq<Outcome>)
    requires Effect(w, a, outs).Some?
    ensures Fingerprintable(a)
    ensures var call := Effect(w, a, outs).value;
            EntryOf(w, a, outs) ==
            HashChain.Content(a.actor, call.tool, Name(Own(w, a).verdict), Own(w, a).reason, Some(true),
                              Some(Sha256(Encode(Dict(call.payload)))))
  {
    hide OwnRuling, Gates, LastSegment, Obligation;
    EffectExactly(w, a, outs);
    EntryNamesTheTool(w, a, outs);
    FoldKeepsOrStrips(Own(w, a), outs, RefOf(a));
  }

  /** The first evaluator to deny, where the kernel itself does not. */
  ghost predicate FirstVeto(w: Setting, a: Action, outs: seq<Outcome>, k: nat) {
    && k < |outs| && VerdictOf(outs[k]).Deny? && !Own(w, a).verdict.Deny?
    && forall j :: 0 <= j < k ==> !VerdictOf(outs[j]).Deny?
  }

  /** Who vetoed, and why, can be read off the log: the first denying evaluator's own words are in the entry. */
  lemma VetoIsAudited(w: Setting, a: Action, outs: seq<Outcome>, k: nat, why: string)
    requires Fingerprintable(a) && k < |outs| && FirstVeto(w, a, outs, k) && why != ""
    requires outs[k].Returned? && outs[k].reason == Some(Text(why))
    ensures EntryOf(w, a, outs) ==
            HashChain.Content(a.actor, ToolRun(a), "DENY",
                              why + " [refused: " + "verdict DENY: no execution" + "]", Some(false), None)
  {
    hide OwnRuling, Fold, Stamp, LastSegment, Gates, Said, EffectiveCapability, AsDecision;
    var f := Fold(Own(w, a), outs, RefOf(a));
    EntryNamesTheTool(w, a, outs);
    VetoGoverns(w, a, outs, k);
    VetoIsSaid(outs[k], RefOf(a), why);
    OwnShape(w, a);
    SaidVerdict(outs[k], RefOf(a));
    FoldRef(Own(w, a), outs, RefOf(a));
    RuledFields(w, a, outs);
    StampedGates(w, a, f, Digests(outs), SortedAxioms(outs));
    StampKeepsReason(f, w, a, Digests(outs), SortedAxioms(outs));
    DenialText();
    hide RefusalText;
  }

  lemma StampKeepsReason(f: Decision, w: Setting, a: Action, digests: seq<string>, axioms: seq<string>)
    ensures Stamp(f, a, w.auth, digests, axioms, w.draws).reason == f.reason
  {
  }

  lemma DenialText()
    ensures RefusalText(NotPermitted(Deny)) == "verdict DENY: no execution"
  {
    assert "verdict " + "DENY" + ": no execution" == "verdict DENY: no execution";
  }

  lemma VetoIsSaid(out: Outcome, ref: string, why: string)
    requires out.Returned? && VerdictOf(out).Deny? && out.reason == Some(Text(why))
    ensures Said(out, ref).verdict == Deny && Said(out, ref).reason == why
  {
  }

  lemma VetoGoverns(w: Setting, a: Action, outs: seq<Outcome>, k: nat)
    requires FirstVeto(w, a, outs, k)
    ensures Fold(Own(w, a), outs, RefOf(a)) == Said(outs[k], RefOf(a))
  {
    hide OwnRuling, Fold, Said, VerdictOf, Sanitize;
    var ds := Candidates(Own(w, a), outs, RefOf(a));
    var i := FoldIsLeftmostWorst(Own(w, a), outs, RefOf(a));
    forall j | 0 <= j < |outs| ensures ds[j + 1] == Said(outs[j], RefOf(a)) && ds[j + 1].verdict == VerdictOf(outs[j]) {
      SaidVerdict(outs[j], RefOf(a));
    }
    assert Rank(ds[k + 1].verdict) <= Rank(ds[i].verdict) && ds[i].verdict == Deny;
    assert i > 0 && VerdictOf(outs[i - 1]) == Deny;
    assert forall j :: 0 <= j < i ==> Rank(ds[j].verdict) < Rank(Deny);
    assert i <= k + 1;
  }

  /**
   A call presented with a decision the kernel signed escapes the gates exactly when its live payload is not plain
   data.
   */
  lemma SignedEscapesExactly(w: Setting, decided: Action, outs: seq<Outcome>, live: Action, tools: set<string>,
                             now: int, markers: set<string>, health: SpentStore.Health)
    ensures Prepared(w.key, live, SignedBy(w, decided, outs), tools, now, markers, health).Escapes? <==>
            !Fingerprintable(live)
  {
    hide Stamp, OwnRuling, Fold;
    RuledFields(w, decided, outs);
    EscapesExactly(w.key, live, SignedBy(w, decided, outs), tools, now, markers, health);
  }

  /** The fields an evaluator or a provider must not touch. */
  ghost predicate SameKernelFields(d: Decision, e: Decision) {
    && d.verdict == e.verdict && d.actionRef == e.actionRef
    && d.capability == e.capability && d.tokenId == e.tokenId && d.tokenExpiresAt == e.tokenExpiresAt
    && d.actionBinding == e.actionBinding && d.issuedBy == e.issuedBy
    && d.containment == e.containment && d.transformedPayload == e.transformedPayload
    && d.provider == e.provider && d.revision == e.revision && d.authorityVerdict == e.authorityVerdict
  }

  /**
   Non-interference: runs whose provider agrees on its verdict, and whose evaluators return the same verdicts in any
   order and number, agree on every kernel-owned field and on the effect, whatever reasons, evidence or forged fields
   they return; and a token exists exactly when the verdict permits.
   */
  lemma OnlyVerdictsMatter(w: Setting, w': Setting, a: Action, outs: seq<Outcome>, others: seq<Outcome>)
    requires w' == w.(auth := w'.auth) && w'.auth == w.auth.(reason := w'.auth.reason)
    requires VerdictsSaid(outs) == VerdictsSaid(others)
    ensures SameKernelFields(Ruled(w, a, outs), Ruled(w', a, others))
    ensures Effect(w, a, outs) == Effect(w', a, others)
    ensures Ruled(w, a, outs).tokenId.Some? <==> Permitting(Ruled(w, a, outs).verdict)
  {
    OwnIgnoresReason(w, w', a);
    SameFolds(w, w', a, outs, others);
    RuledFields(w, a, outs);
    RuledFields(w', a, others);
    EffectExactly(w, a, outs);
    EffectExactly(w', a, others);
  }

  /** The same of what providers return: equal normalised verdicts, whatever reasons and further keys come with them. */
  lemma OnlyNamedVerdictsMatter(w: Setting, a: Action, p: Provider, out: PdpOutput, out': PdpOutput,
                                outs: seq<Outcome>, others: seq<Outcome>)
    requires CanonicalResult(p, out).verdict == CanonicalResult(p, out').verdict
    requires VerdictsSaid(outs) == VerdictsSaid(others)
    ensures var v, v' := w.(auth := AuthorityFor(a, p, out)), w.(auth := AuthorityFor(a, p, out'));
            SameKernelFields(Ruled(v, a, outs), Ruled(v', a, others)) && Effect(v, a, outs) == Effect(v', a, others)
  {
    hide Effect, Decided, VerdictsSaid, RawVerdict, RawReason, SameKernelFields;
    OnlyVerdictsMatter(w.(auth := AuthorityFor(a, p, out)), w.(auth := AuthorityFor(a, p, out')), a, outs, others);
  }

  lemma SameFolds(w: Setting, w': Setting, a: Action, outs: seq<Outcome>, others: seq<Outcome>)
    requires Own(w', a) == Own(w, a).(reason := Own(w', a).reason) && VerdictsSaid(outs) == VerdictsSaid(others)
    ensures Acquiesce(Own(w, a).verdict, outs) <==> Acquiesce(Own(w, a).verdict, others)
    ensures var d, e := Fold(Own(w, a), outs, RefOf(a)), Fold(Own(w', a), others, RefOf(a));
            d.verdict == e.verdict && d.containment == e.containment && d.transformedPayload == e.transformedPayload
  {
    FoldOrderFree(Own(w, a), Own(w', a), outs, others, RefOf(a));
    FoldKeepsOrStrips(Own(w, a), outs, RefOf(a));
    FoldKeepsOrStrips(Own(w', a), others, RefOf(a));
  }

  lemma SamePermutedVerdicts(outs: seq<Outcome>, others: seq<Outcome>)
    requires multiset(outs) == multiset(others)
    ensures VerdictsSaid(outs) == VerdictsSaid(others)
  {
    assert forall o :: o in outs <==> o in multiset(outs);
    assert forall o :: o in others <==> o in multiset(others);
  }

  /** Under any permutation of the evaluators only the reason and the legitimacy evidence may differ. */
  lemma OrderCarriesNoMeaning(w: Setting, a: Action, outs: seq<Outcome>, others: seq<Outcome>)
    requires multiset(outs) == multiset(others)
    ensures Effect(w, a, outs) == Effect(w, a, others)
    ensures SameKernelFields(Ruled(w, a, outs), Ruled(w, a, others))
  {
    SamePermutedVerdicts(outs, others);
    OnlyVerdictsMatter(w, w, a, outs, others);
  }

  lemma OwnIgnoresReason(w: Setting, w': Setting, a: Action)
    requires w' == w.(auth := w'.auth) && w'.auth == w.auth.(reason := w'.auth.reason)
    ensures Own(w', a) == Own(w, a).(reason := Own(w', a).reason)
  {
  }

  // ---- the call itself

  ghost function MarkersLeft(w: Setting, a: Action, outs: seq<Outcome>): set<string> {
    MarkersAfter(w.key, a, SignedBy(w, a, outs), w.tools, w.now, w.markers, w.health)
  }

  /** The log with its one entry: what was committed to, or why it was refused. */
  ghost function LogLeft(w: Setting, a: Action, outs: seq<Outcome>, log: HashChain.LogState,
                         ts: string): HashChain.LogState {
    var g := Prepared(w.key, a, SignedBy(w, a, outs), w.tools, w.now, w.markers, w.health);
    if g.Escapes? then log else HashChain.Recorded(log, ts, AuditContent(a, Ruled(w, a, outs), g))
  }

  /** `DecisionOS.handle`: decide, then execute. A payload that cannot be bound makes `decide` raise. */
  method Handle(kernel: DecisionKernel, pep: Executor, a: Action, threat: Option<string>, p: Provider, out: PdpOutput,
                outs: seq<Outcome>, draws: Draws, tools: set<string>, now: int,
                health: SpentStore.Health, ts: string, auditOk: bool, dies: bool)
    returns (ran: Option<ToolCall>)
    requires kernel.key == pep.key
    modifies pep, pep.store, pep.log, pep.log.file
    ensures var w := Setting(kernel.policy, kernel.key, threat, AuthorityFor(a, p, out), draws, tools, now,
                             old(pep.store.markers), health);
            ran == (if auditOk && !dies then Effect(w, a, outs) else None)
    ensures pep.calls == if ran.Some? then old(pep.calls) + [ran.value] else old(pep.calls)
    ensures var w := Setting(kernel.policy, kernel.key, threat, AuthorityFor(a, p, out), draws, tools, now,
                             old(pep.store.markers), health);
            pep.store.markers == (if Fingerprintable(a) then MarkersLeft(w, a, outs) else old(pep.store.markers)) &&
            pep.log.State() == (if Fingerprintable(a) && auditOk then LogLeft(w, a, outs, old(pep.log.State()), ts)
                                else old(pep.log.State()))
  {
    var r := kernel.Decide(a, threat, p, out, outs, draws);
    if r.Failure? { return None; }
    var g := pep.Execute(a, r.value, tools, now, health, ts, auditOk, dies);
    return if g.Passes? && auditOk && !dies then Some(ToolCall(g.tool, g.payload)) else None;
  }
}
