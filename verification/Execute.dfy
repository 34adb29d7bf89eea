/** The policy enforcement point: ordered gates, a one-time spend, one audit entry, then the effect. */
module Execute {
  import opened Basics
  import opened Values
  import opened Fingerprint
  import opened Compose
  import opened Kernel
  import HashChain
  import SpentStore

  // ---- cutting a capability down to a tool name

  /** Where "tool:" first occurs in `s`, or |s|. */
  function FindTool(s: string): (i: nat)
    ensures i <= |s|
    ensures i < |s| ==> "tool:" <= s[i..]
  {
    if s == "" then 0 else if "tool:" <= s then 0 else
      var i := FindTool(s[1..]);
      assert i < |s[1..]| ==> s[1..][i..] == s[i + 1..];
      i + 1
  }

  /** `s.split("tool:")[-1]`. */
  function LastSegment(s: string): string
    decreases |s|
  {
    var i := FindTool(s);
    if i == |s| then s else LastSegment(s[i + 5..])
  }

  predicate Mentions(s: string) {
    FindTool(s) < |s|
  }

  lemma {:induction false} SegmentLength(s: string)
    ensures |LastSegment(s)| <= |s|
    ensures Mentions(s) ==> |LastSegment(s)| + 5 <= |s|
    ensures !Mentions(s) ==> LastSegment(s) == s
    decreases |s|
  {
    if Mentions(s) { SegmentLength(s[FindTool(s) + 5..]); }
  }

  lemma PrefixHasColon(s: string)
    ensures "tool:" <= s ==> ':' in s
  {
    assert "tool:" <= s ==> s[4] == "tool:"[4];
  }

  /** A name without a colon mentions no prefix. */
  lemma {:induction false} NoColonNoMention(s: string)
    requires ':' !in s
    ensures !Mentions(s)
  {
    if s != "" {
      NoColonNoMention(s[1..]);
      PrefixHasColon(s);
    }
  }

  lemma CutPrefix(s: string)
    ensures LastSegment("tool:" + s) == LastSegment(s)
  {
  }

  /** The PEP runs the tool an action names exactly when the name does not itself contain "tool:". */
  lemma CutExactly(tool: string)
    ensures LastSegment("tool:" + tool) == tool <==> !Mentions(tool)
  {
    CutPrefix(tool);
    SegmentLength(tool);
  }

  // ---- gates

  datatype Refusal =
    | NotAuthenticated | BindingMismatch | RefMismatch | NotPermitted(verdict: Verdict) | BadExpiry | TokenExpired
    | NotAllowlisted(tool: string) | NoSuchTool(tool: string) | UndischargedLimit
    | StoreUnavailable | TokenReplay

  /** `Escapes` is an exception other than a refusal: it leaves `execute` before any audit entry is written. */
  datatype GateAnswer =
    | Passes(tool: string, payload: Payload, tokenId: string)
    | Refuses(why: Refusal)
    | Escapes

  predicate Verifies(s: Signed, key: string) {
    s.decision.issuedBy == Some(KERNEL_IDENTITY) && s.signature == Ed25519(key, s.decision)
  }

  /** A payload after the round trip through canonical JSON that freezes the decision. */
  function Frozen(p: Payload): Payload {
    map k | k in p :: Encode(p[k])
  }

  /** `_prepare` up to the spend, in the source's order. */
  function Gates(key: string, a: Action, s: Signed, tools: set<string>, now: int): GateAnswer {
    var d := s.decision;
    if !Verifies(s, key) then Refuses(NotAuthenticated)
    else if !Fingerprintable(a) then Escapes
    else if d.actionBinding != Some(ActionFingerprint(a)) then Refuses(BindingMismatch)
    else if RefOf(a) != d.actionRef then Refuses(RefMismatch)
    else if !Permitting(d.verdict) || d.tokenId.None? || d.tokenId.value == "" then Refuses(NotPermitted(d.verdict))
    else if d.tokenExpiresAt.None? then Refuses(BadExpiry)
    else if now >= d.tokenExpiresAt.value then Refuses(TokenExpired)
    else if d.capability.None? then Escapes
    else
      var tool := LastSegment(d.capability.value);
      if d.verdict.Contain? && (d.containment.None? || tool !in d.containment.value) then Refuses(NotAllowlisted(tool))
      else if tool !in tools then Refuses(NoSuchTool(tool))
      else if d.verdict.Limit? && d.transformedPayload.None? then Refuses(UndischargedLimit)
      else
        var payload := if d.transformedPayload.Some? then Frozen(d.transformedPayload.value) else a.payload;
        Passes(tool, payload, d.tokenId.value)
  }

  /** What the spend is reached on: every gate at once, whichever comes first. */
  lemma PassesExactly(key: string, a: Action, s: Signed, tools: set<string>, now: int)
    ensures Gates(key, a, s, tools, now).Passes? <==>
            var d := s.decision;
            && d.issuedBy == Some("decision-os-min-kernel") && s.signature == Ed25519(key, d)
            && Encodable(Dict(a.payload)) && d.actionBinding == Some(ActionFingerprint(a))
            && d.actionRef == (if a.nonce != "" then a.nonce else a.actionRef)
            && d.verdict in {Allow, Limit, Contain}
            && d.tokenId.Some? && d.tokenId.value != "" && d.tokenExpiresAt.Some? && now < d.tokenExpiresAt.value
            && d.capability.Some? && LastSegment(d.capability.value) in tools
            && (d.verdict == Contain ==> d.containment.Some? && LastSegment(d.capability.value) in d.containment.value)
            && (d.verdict == Limit ==> d.transformedPayload.Some?)
  {
    hide LastSegment;
  }

  /** The spend is the last gate. */
  function AfterSpend(g: GateAnswer, answer: SpentStore.Answer): GateAnswer {
    if !g.Passes? then g
    else match answer
      case Unavailable => Refuses(StoreUnavailable)
      case Replay => Refuses(TokenReplay)
      case First => g
  }

  /** What one call of `execute` comes to. */
  function Prepared(key: string, a: Action, s: Signed, tools: set<string>, now: int,
                    markers: set<string>, health: SpentStore.Health): GateAnswer
  {
    var g := Gates(key, a, s, tools, now);
    if g.Passes? then AfterSpend(g, SpentStore.AnswerOf(markers, g.tokenId, health)) else g
  }

  function MarkersAfter(key: string, a: Action, s: Signed, tools: set<string>, now: int,
                        markers: set<string>, health: SpentStore.Health): set<string>
  {
    var g := Gates(key, a, s, tools, now);
    if g.Passes? then SpentStore.MarkersAfter(markers, g.tokenId, health) else markers
  }

  // ---- the audit entry

  /** The tool the audit names: the decision's capability, else the action's own. */
  function AuditTool(a: Action, d: Decision): string {
    var cap := if d.capability.Some? && d.capability.value != "" then d.capability.value
               else if a.capability != "" then a.capability
               else if a.tool != "" then "tool:" + a.tool else "";
    LastSegment(cap)
  }

  function RefusalText(why: Refusal): string {
    match why
    case NotAuthenticated => "decision not " + "authenticated by the kernel"
    case BindingMismatch => "action does not match " + "the authorized decision (binding mismatch)"
    case RefMismatch => "action nonce/action_ref " + "does not match the authorized decision"
    case NotPermitted(v) => "verdict " + Name(v) + ": no execution"
    case BadExpiry => "token missing/invalid expiry"
    case TokenExpired => "token expired"
    case NotAllowlisted(t) => "contained: '" + t + "' not in allowlist"
    case NoSuchTool(t) => "no executor registered for tool '" + t + "'"
    case UndischargedLimit => "LIMIT without " + "a transformed_payload: refusing"
    case StoreUnavailable => "spent-store unavailable, " + "refusing (fail-closed)"
    case TokenReplay => "token already spent (replay)"
  }

  /** Three letters that already tell what kind of refusal it is. */
  function Letters(why: Refusal): string {
    match why
    case NotAuthenticated => "don"
    case BindingMismatch => "a d"
    case RefMismatch => "a n"
    case NotPermitted(_) => "vt "
    case BadExpiry => "tmi"
    case TokenExpired => "tex"
    case NotAllowlisted(_) => "cne"
    case NoSuchTool(_) => "ncu"
    case UndischargedLimit => "Lwi"
    case StoreUnavailable => "sst"
    case TokenReplay => "tal"
  }

  lemma FirstLetters(why: Refusal)
    ensures var text, l := RefusalText(why), Letters(why);
            |text| > 7 && |l| == 3 && text[0] == l[0] && text[6] == l[1] && text[7] == l[2]
  {
    var text := RefusalText(why);
    match why
    case NotPermitted(v) => assert text[..8] == "verdict ";
    case NotAllowlisted(t) => StartsLike(text, "contained: '");
    case NoSuchTool(t) => StartsLike(text, "no executor registered for tool '");
    case BindingMismatch => StartsLike(text, "action does not match ");
    case RefMismatch => StartsLike(text, "action nonce/action_ref ");
    case StoreUnavailable => StartsLike(text, "spent-store unavailable, ");
    case UndischargedLimit => StartsLike(text, "LIMIT without ");
    case NotAuthenticated => StartsLike(text, "decision not ");
    case _ =>
  }

  lemma StartsLike(text: string, start: string)
    requires start <= text && |start| > 7
    ensures text[0] == start[0] && text[6] == start[6] && text[7] == start[7]
  {
  }

  /** Refusals for different reasons never read alike. */
  lemma RefusalTextsTellApart(x: Refusal, y: Refusal)
    ensures RefusalText(x) == RefusalText(y) <==> x == y
  {
    var s, t := RefusalText(x), RefusalText(y);
    FirstLetters(x);
    FirstLetters(y);
    if s == t && x.NotPermitted? && y.NotPermitted? {
      NamesTellApart("verdict ", Name(x.verdict), ": no execution", Name(y.verdict));
      NormalizeExactly(Name(x.verdict), x.verdict);
      NormalizeExactly(Name(y.verdict), y.verdict);
    } else if s == t && x.NotAllowlisted? && y.NotAllowlisted? {
      NamesTellApart("contained: '", x.tool, "' not in allowlist", y.tool);
    } else if s == t && x.NoSuchTool? && y.NoSuchTool? {
      NamesTellApart("no executor registered for tool '", x.tool, "'", y.tool);
    }
  }

  lemma NamesTellApart(before: string, x: string, after: string, y: string)
    requires before + x + after == before + y + after
    ensures x == y
  {
    assert (before + x + after)[|before|..|before| + |x|] == x;
    assert (before + y + after)[|before|..|before| + |y|] == y;
  }

  function AuditContent(a: Action, d: Decision, g: GateAnswer): HashChain.Content
    requires !g.Escapes?
  {
    match g
    case Passes(_, payload, _) =>
      HashChain.Content(a.actor, AuditTool(a, d), Name(d.verdict), d.reason, Some(true),
                        Some(Sha256(Encode(Dict(payload)))))
    case Refuses(why) =>
      HashChain.Content(a.actor, AuditTool(a, d), Name(d.verdict),
                        if d.reason != "" then d.reason + " [refused: " + RefusalText(why) + "]"
                        else "refused: " + RefusalText(why),
                        Some(false), None)
  }

  /** One tool call: what ran, on what. */
  datatype ToolCall = ToolCall(tool: string, payload: Payload)

  class Executor {
    const key: string
    const log: HashChain.HashLog
    const store: SpentStore.SharedStore
    /** Every effect this executor has caused, in order. */
    var calls: seq<ToolCall>

    constructor (key: string, log: HashChain.HashLog, store: SpentStore.SharedStore)
      ensures this.key == key && this.log == log && this.store == store && calls == []
    {
      this.key, this.log, this.store, this.calls := key, log, store, [];
    }

    method Prepare(a: Action, s: Signed, tools: set<string>, now: int, health: SpentStore.Health)
      returns (g: GateAnswer)
      modifies store
      ensures g == Prepared(key, a, s, tools, now, old(store.markers), health)
      ensures store.markers == MarkersAfter(key, a, s, tools, now, old(store.markers), health)
    {
      var d := s.decision;
      if !Verifies(s, key) { return Refuses(NotAuthenticated); }
      if !Fingerprintable(a) { return Escapes; }
      if d.actionBinding != Some(ActionFingerprint(a)) { return Refuses(BindingMismatch); }
      if RefOf(a) != d.actionRef { return Refuses(RefMismatch); }
      if !Permitting(d.verdict) || d.tokenId.None? || d.tokenId.value == "" { return Refuses(NotPermitted(d.verdict)); }
      if d.tokenExpiresAt.None? { return Refuses(BadExpiry); }
      if now >= d.tokenExpiresAt.value { return Refuses(TokenExpired); }
      if d.capability.None? { return Escapes; }
      var tool := LastSegment(d.capability.value);
      if d.verdict.Contain? && (d.containment.None? || tool !in d.containment.value) {
        return Refuses(NotAllowlisted(tool));
      }
      if tool !in tools { return Refuses(NoSuchTool(tool)); }
      if d.verdict.Limit? && d.transformedPayload.None? { return Refuses(UndischargedLimit); }
      var payload := a.payload;
      if d.transformedPayload.Some? { payload := Frozen(d.transformedPayload.value); }
      var answer := store.TrySpend(d.tokenId.value, health);
      if answer.Unavailable? { return Refuses(StoreUnavailable); }
      if answer.Replay? { return Refuses(TokenReplay); }
      return Passes(tool, payload, d.tokenId.value);
    }

    /**
     `execute`: prepare, write the one audit entry, and only then run the tool. `auditOk` is whether the audit
     write succeeds; when it fails the exception leaves with the token spent and nothing run. `dies` is whether the
     process is killed once a commitment is written and before the tool is called.
     */
    method Execute(a: Action, s: Signed, tools: set<string>, now: int, health: SpentStore.Health,
                   ts: string, auditOk: bool, dies: bool)
      returns (g: GateAnswer)
      modifies this, store, log, log.file
      ensures g == Prepared(key, a, s, tools, now, old(store.markers), health)
      ensures store.markers == MarkersAfter(key, a, s, tools, now, old(store.markers), health)
      ensures log.State() == if g.Escapes? || !auditOk then old(log.State())
                             else HashChain.Recorded(old(log.State()), ts, AuditContent(a, s.decision, g))
      ensures calls == if g.Passes? && auditOk && !dies then old(calls) + [ToolCall(g.tool, g.payload)] else old(calls)
    {
      g := Prepare(a, s, tools, now, health);
      if g.Escapes? || !auditOk { return; }
      var entry := log.Record(ts, AuditContent(a, s.decision, g));
      if g.Passes? && !dies {
        calls := calls + [ToolCall(g.tool, g.payload)];
      }
    }
  }

  /**
   Which calls leave by an exception that is not a refusal; no kernel signs a permitting decision without a
   capability.
   */
  lemma EscapesExactly(key: string, a: Action, s: Signed, tools: set<string>, now: int,
                       markers: set<string>, health: SpentStore.Health)
    requires s.decision.capability.None? ==> !Permitting(s.decision.verdict)
    ensures Prepared(key, a, s, tools, now, markers, health).Escapes? <==> Verifies(s, key) && !Fingerprintable(a)
  {
  }
}
