/** The sealed surface: signed single-use tickets, tri-state legitimacy, an executor armed once per call. */
module Sealed {
  import opened Basics
  import opened Fingerprint
  import opened Compose
  import opened AuthorityPdp
  import opened Kernel
  import opened AuditDigests
  import opened Execute
  import HashChain
  import SpentStore

  // ---- legitimacy

  type HexDigest = s: string | |s| == 64 witness seq(64, _ => '0')

  /** What asking the legitimacy policy came to; `digest` is the hash of the answer or of the error. */
  datatype LegitimacyAnswer =
    | Answered(ok: Option<bool>, reason: string, axioms: seq<string>, digest: HexDigest)
    | PolicyRaised(message: string, digest: HexDigest)
    | AnswerTimedOut

  function TriStateVerdict(ok: Option<bool>): Verdict {
    if ok.None? then Defer else if ok.value then Allow else Deny
  }

  /** `tri_state_legitimacy`'s evaluator, as the kernel hears it. */
  function TriState(l: LegitimacyAnswer): Outcome {
    match l
    case Answered(ok, reason, axioms, digest) =>
      Returned(Some(Text(Name(TriStateVerdict(ok)))), Some(Text(reason)), Some(Text(digest)), Some(Ids(axioms)),
               Decision(Deny, "", ""))
    case PolicyRaised(m, digest) =>
      Returned(Some(Text("DENY")), Some(Text("legitimacy error (fail-closed): " + m)), Some(Text(digest)),
               Some(Ids([])), Decision(Deny, "", ""))
    case AnswerTimedOut => TimedOut
  }

  predicate Legitimate(l: LegitimacyAnswer) {
    l.Answered? && l.ok == Some(true)
  }

  /** The legitimacy evaluator allows exactly when its policy answered truthy. */
  lemma TriStateAllowsExactly(l: LegitimacyAnswer)
    ensures Permitting(VerdictOf(TriState(l))) <==> Legitimate(l)
    ensures VerdictOf(TriState(l)) ==
            if l.Answered? && l.ok == Some(true) then Allow
            else if l.Answered? && l.ok == None then Defer
            else Deny
  {
  }

  function DigestText(d: Decision): string {
    Shown(d.legitimacyDigest)
  }

  function AxiomList(d: Decision): seq<string> {
    if d.axiomIds.Some? && d.axiomIds.value.Ids? then d.axiomIds.value.ids else []
  }

  /** The binding `invoke` recomputes from the signed decision. */
  predicate BindingMatches(d: Decision) {
    d.legitimacyBinding.Some? ==>
      d.actionBinding.Some? &&
      d.legitimacyBinding.value == LegitimacyBinding(d.actionBinding.value, DigestText(d), AxiomList(d), d.verdict)
  }

  /** `invoke`'s two mandatory-binding checks pass. */
  predicate BindingOk(d: Decision) {
    (Permitting(d.verdict) ==> d.legitimacyBinding.Some?) && BindingMatches(d)
  }

  // ---- tickets

  datatype TicketBody = TicketBody(actor: string, stakeholder: string, agentId: string, expiresAt: int, nonce: string)

  datatype TicketSignature = SignedByOffice(office: string, body: TicketBody) | OtherTicketBytes(n: nat)

  datatype Ticket = Ticket(body: TicketBody, signature: TicketSignature)

  const TICKET_TTL_SECONDS := 300

  predicate TicketVerifies(office: string, t: Ticket, now: int) {
    now < t.body.expiresAt && t.signature == SignedByOffice(office, t.body)
  }

  function Issued(office: string, actor: string, stakeholder: string, agentId: string, now: int,
                  nonce: string): Ticket {
    var body := TicketBody(actor, stakeholder, agentId, now + TICKET_TTL_SECONDS, nonce);
    Ticket(body, SignedByOffice(office, body))
  }

  function TicketKey(t: Ticket): string {
    "adm:" + t.body.nonce
  }

  class AdmissionOffice {
    const secret: string
    const store: SpentStore.SharedStore

    constructor (secret: string, store: SpentStore.SharedStore)
      ensures this.secret == secret && this.store == store
    {
      this.secret, this.store := secret, store;
    }

    /** `consume`: verify, match the agent if one is expected, spend once. */
    method Consume(t: Ticket, expected: Option<string>, now: int, health: SpentStore.Health) returns (ok: bool)
      modifies store
      ensures ok <==> TicketVerifies(secret, t, now) && (expected.Some? ==> t.body.agentId == expected.value) &&
                      SpentStore.AnswerOf(old(store.markers), TicketKey(t), health) == SpentStore.First
      ensures store.markers ==
              if TicketVerifies(secret, t, now) && (expected.Some? ==> t.body.agentId == expected.value)
              then SpentStore.MarkersAfter(old(store.markers), TicketKey(t), health) else old(store.markers)
    {
      if !TicketVerifies(secret, t, now) { return false; }
      if expected.Some? && t.body.agentId != expected.value { return false; }
      var answer := store.TrySpend(TicketKey(t), health);
      return answer.First?;
    }
  }

  // ---- the armed executor

  /** A tool body is known by an opaque id. */
  datatype Arm = Arm(binding: Option<Digest>, tools: map<string, nat>)

  class SealedExecutor {
    const pep: Executor
    var arm: Option<Arm>
    /** Every arming there has been, in order. */
    ghost var armings: seq<Arm>

    constructor (pep: Executor)
      ensures this.pep == pep && arm == None && armings == []
    {
      this.pep, this.arm, this.armings := pep, None, [];
    }

    method ArmOnce(binding: Option<Digest>, tools: map<string, nat>)
      modifies this
      ensures arm == Some(Arm(binding, tools)) && armings == old(armings) + [Arm(binding, tools)]
    {
      arm := Some(Arm(binding, tools));
      armings := armings + [Arm(binding, tools)];
    }

    /** Refuses, touching nothing, unless armed for exactly this decision and these bodies; disarms in any case. */
    method Execute(a: Action, s: Signed, tools: map<string, nat>, now: int,
                   health: SpentStore.Health, ts: string, auditOk: bool, dies: bool)
      returns (g: Option<GateAnswer>)
      modifies this, pep, pep.store, pep.log, pep.log.file
      ensures arm == None && armings == old(armings)
      ensures g.Some? <==> old(arm) == Some(Arm(s.decision.actionBinding, tools))
      ensures g.None? ==> pep.calls == old(pep.calls) && pep.store.markers == old(pep.store.markers) &&
                          pep.log.State() == old(pep.log.State())
      ensures g.Some? ==>
                g.value == Prepared(pep.key, a, s, tools.Keys, now, old(pep.store.markers), health) &&
                pep.store.markers == MarkersAfter(pep.key, a, s, tools.Keys, now, old(pep.store.markers), health) &&
                pep.calls == (if g.value.Passes? && auditOk && !dies
                              then old(pep.calls) + [ToolCall(g.value.tool, g.value.payload)]
                              else old(pep.calls))
      ensures g.Some? ==>
                pep.log.State() == if g.value.Escapes? || !auditOk then old(pep.log.State())
                                   else HashChain.Recorded(old(pep.log.State()), ts,
                                                           AuditContent(a, s.decision, g.value))
    {
      var armed := arm;
      arm := None;
      if armed.None? { return None; }
      if s.decision.actionBinding != armed.value.binding { return None; }
      if tools != armed.value.tools { return None; }
      var answer := pep.Execute(a, s, tools.Keys, now, health, ts, auditOk, dies);
      return Some(answer);
    }
  }

  /** A call of a sealed executor by anyone who has it: any action, any claimed result, any bodies. */
  datatype DirectCall = DirectCall(action: Action, result: Signed, tools: map<string, nat>, now: int,
                                   health: SpentStore.Health, ts: string, auditOk: bool, dies: bool)

  // ---- invoke

  datatype Meta = Meta(actor: string, stakeholder: string)

  /**
   What the world does during one call: clocks, draws, disk, provider, legitimacy, whether the process is killed
   between the PEP's commitment and the tool, whether the tool returns once called, and whether the evidence line that
   follows is written.
   */
  datatype Env = Env(verifiedAt: int, consumedAt: int, admissionHealth: SpentStore.Health,
                     actionNonce: string, pdp: PdpOutput, legitimacy: LegitimacyAnswer, draws: Draws,
                     executedAt: int, spendHealth: SpentStore.Health, ts: string, auditOk: bool,
                     dies: bool, toolReturns: bool, evidenceTs: string, evidenceOk: bool)

  function LabelsFor(purpose: string): seq<string> {
    if purpose == "audit" then ["ops", "public"] else ["ops"]
  }

  function ActionFor(actor: string, tool: string, capability: string, payload: Payload, intent: string,
                     nonce: string): Action {
    var effective := if capability != "" then capability else "tool:" + tool;
    Action(actor, tool, effective, Named(intent), LabelsFor(intent), nonce, "", payload)
  }

  datatype Call = Call(ticket: Ticket, agentId: string, tool: string, payload: Payload, intent: string,
                       capability: string)

  /** The fixed parts of a sealed runtime. */
  datatype Config = Config(policy: Policy, kernelKey: string, officeSecret: string, provider: Provider,
                           bodies: map<string, nat>)

  /** The checks `invoke` makes before it spends the ticket. */
  predicate Admissible(c: Config, agents: map<string, Meta>, call: Call, now: int) {
    && call.agentId in agents
    && TicketVerifies(c.officeSecret, call.ticket, now)
    && call.ticket.body.agentId == call.agentId
    && agents[call.agentId] == Meta(call.ticket.body.actor, call.ticket.body.stakeholder)
  }

  /**
   `Ran` means the tool was called; `ok` that `invoke` then returned its output instead of raising. `Died` is no
   answer: the process was killed with the call committed to and the tool not called.
   */
  datatype InvokeAnswer =
    | Ran(call: ToolCall, ok: bool)
    | Died(call: ToolCall)
    | AdmissionRefused
    | Breach
    | BindingRefused
    | PepRefused(why: Refusal)
    | Raised
  {
    /** The PEP wrote an executed=True entry. */
    predicate Committed() {
      Ran? || Died?
    }
  }

  function SealedAction(call: Call, env: Env): Action {
    ActionFor(call.ticket.body.actor, call.tool, call.capability, call.payload, call.intent, env.actionNonce)
  }

  ghost function SealedDecision(c: Config, call: Call, env: Env): Decision {
    var a := SealedAction(call, env);
    Decided(c.policy, a, None, AuthorityFor(a, c.provider, env.pdp), [TriState(env.legitimacy)], env.draws)
  }

  ghost function SealedSigned(c: Config, call: Call, env: Env): Signed {
    Signed(SealedDecision(c, call, env), Ed25519(c.kernelKey, SealedDecision(c, call, env)))
  }

  /** `invoke`, as the answer and the markers it leaves behind. */
  ghost function Invoked(c: Config, agents: map<string, Meta>, markers: set<string>, call: Call, env: Env)
    : (InvokeAnswer, set<string>)
  {
    var key := TicketKey(call.ticket);
    if !Admissible(c, agents, call, env.verifiedAt) then (AdmissionRefused, markers)
    else if call.tool !in c.bodies then (Breach, markers)
    else if !TicketVerifies(c.officeSecret, call.ticket, env.consumedAt) then (AdmissionRefused, markers)
    else if SpentStore.AnswerOf(markers, key, env.admissionHealth) != SpentStore.First then
      (AdmissionRefused, SpentStore.MarkersAfter(markers, key, env.admissionHealth))
    else AfterAdmission(c, SpentStore.MarkersAfter(markers, key, env.admissionHealth), call, env)
  }

  ghost function AfterAdmission(c: Config, markers: set<string>, call: Call, env: Env): (InvokeAnswer, set<string>)
    requires call.tool in c.bodies
  {
    var a, s := SealedAction(call, env), SealedSigned(c, call, env);
    if !Fingerprintable(a) then (InvokeAnswer.Raised, markers)
    else if !BindingOk(s.decision) then (BindingRefused, markers)
    else
      var g := GateOf(c, markers, call, env);
      var after := MarkersAfter(c.kernelKey, a, s, {call.tool}, env.executedAt, markers, env.spendHealth);
      (if g.Escapes? || !env.auditOk then InvokeAnswer.Raised
       else if g.Passes? && env.dies then Died(ToolCall(g.tool, g.payload))
       else if g.Passes? then Ran(ToolCall(g.tool, g.payload), env.toolReturns && env.evidenceOk)
       else if env.evidenceOk then PepRefused(g.why)
       else InvokeAnswer.Raised, after)
  }

  /** What the PEP answers once the ticket is spent; `markers` includes the ticket's. */
  ghost function GateOf(c: Config, markers: set<string>, call: Call, env: Env): GateAnswer {
    Prepared(c.kernelKey, SealedAction(call, env), SealedSigned(c, call, env), {call.tool}, env.executedAt, markers,
             env.spendHealth)
  }

  /** The ticket gets `invoke` as far as deciding. */
  predicate Admitted(c: Config, agents: map<string, Meta>, markers: set<string>, call: Call, env: Env) {
    && Admissible(c, agents, call, env.verifiedAt) && call.tool in c.bodies
    && TicketVerifies(c.officeSecret, call.ticket, env.consumedAt)
    && SpentStore.AnswerOf(markers, TicketKey(call.ticket), env.admissionHealth) == SpentStore.First
  }

  /** The decision gets an admitted call as far as arming the executor. */
  ghost predicate Armable(c: Config, call: Call, env: Env) {
    Fingerprintable(SealedAction(call, env)) && BindingOk(SealedDecision(c, call, env))
  }

  /** For this decision, and this tool's one body. */
  ghost function ArmFor(c: Config, call: Call, env: Env): Arm
    requires call.tool in c.bodies
  {
    Arm(SealedDecision(c, call, env).actionBinding, map[call.tool := c.bodies[call.tool]])
  }

  /** The arming `invoke` makes, if it gets that far. */
  ghost function ArmingOf(c: Config, agents: map<string, Meta>, markers: set<string>, call: Call,
                          env: Env): Option<Arm> {
    if Admitted(c, agents, markers, call, env) && Armable(c, call, env) then Some(ArmFor(c, call, env)) else None
  }

  function GateNote(g: GateAnswer): string
    requires !g.Escapes?
  {
    if g.Passes? then "PERMIT+execute" else "PEP:" + RefusalText(g.why)
  }

  /** A note tells a commitment from any refusal, and refusals from each other. */
  lemma NotesTellApart(g: GateAnswer, h: GateAnswer)
    requires !g.Escapes? && !h.Escapes?
    ensures GateNote(g) == GateNote(h) <==>
            (g.Passes? && h.Passes?) || (g.Refuses? && h.Refuses? && g.why == h.why)
  {
    hide RefusalText;
    var x, y := GateNote(g), GateNote(h);
    if g.Refuses? && h.Refuses? {
      assert x[4..] == RefusalText(g.why) && y[4..] == RefusalText(h.why);
      RefusalTextsTellApart(g.why, h.why);
    } else {
      assert x[2] == (if g.Passes? then 'R' else 'P') && y[2] == (if h.Passes? then 'R' else 'P');
    }
  }

  /** The line `_emit` writes beside the evidence it keeps. */
  function EvidenceContent(a: Action, d: Decision, g: GateAnswer): HashChain.Content
    requires !g.Escapes?
  {
    var binding := if d.legitimacyBinding.Some? then "<legitimacy binding>" else "None";
    HashChain.Content(a.actor, a.tool, Name(d.verdict),
                      d.reason + "|" + GateNote(g) + "|axioms=" + Repr(AxiomList(d)) + "|bind=" + binding,
                      Some(g.Passes?), Some(PayloadDigest(a.payload)))
  }

  /** So does the line: two of one decision read alike exactly when the PEP answered alike. */
  lemma EvidenceTellsTheGate(a: Action, d: Decision, g: GateAnswer, h: GateAnswer)
    requires !g.Escapes? && !h.Escapes?
    ensures EvidenceContent(a, d, g).reason == EvidenceContent(a, d, h).reason <==>
            (g.Passes? && h.Passes?) || (g.Refuses? && h.Refuses? && g.why == h.why)
  {
    hide GateNote, Repr;
    var before, binding := d.reason + "|", if d.legitimacyBinding.Some? then "<legitimacy binding>" else "None";
    var after := "|axioms=" + Repr(AxiomList(d)) + "|bind=" + binding;
    NotesTellApart(g, h);
    assert EvidenceContent(a, d, g).reason == before + GateNote(g) + after;
    assert EvidenceContent(a, d, h).reason == before + GateNote(h) + after;
    if EvidenceContent(a, d, g).reason == EvidenceContent(a, d, h).reason {
      NamesTellApart(before, GateNote(g), after, GateNote(h));
    }
  }

  /**
   The log after an admitted call: the PEP's entry, then the evidence line unless the process or the tool or the write
   fails.
   */
  ghost function LogAfterAdmission(c: Config, markers: set<string>, log: HashChain.LogState, call: Call,
                                   env: Env): HashChain.LogState {
    var a, d, g := SealedAction(call, env), SealedDecision(c, call, env), GateOf(c, markers, call, env);
    if !Armable(c, call, env) || g.Escapes? || !env.auditOk then log
    else
      var audited := HashChain.Recorded(log, env.ts, AuditContent(a, d, g));
      if (g.Passes? && (env.dies || !env.toolReturns)) || !env.evidenceOk then audited
      else HashChain.Recorded(audited, env.evidenceTs, EvidenceContent(a, d, g))
  }

  ghost function LogAfter(c: Config, agents: map<string, Meta>, markers: set<string>, log: HashChain.LogState,
                          call: Call, env: Env): HashChain.LogState
  {
    if !Admitted(c, agents, markers, call, env) then log
    else LogAfterAdmission(c, SpentStore.MarkersAfter(markers, TicketKey(call.ticket), env.admissionHealth), log, call,
                           env)
  }

  class SealedRuntime {
    const config: Config
    const kernel: DecisionKernel
    const office: AdmissionOffice
    const executor: SealedExecutor
    var agents: map<string, Meta>

    constructor (config: Config, store: SpentStore.SharedStore, log: HashChain.HashLog)
      ensures Valid() && this.config == config && executor.pep.store == store && executor.pep.log == log
      ensures agents == map[] && executor.pep.calls == [] && fresh(executor) && fresh(executor.pep)
      ensures executor.arm == None && executor.armings == []
    {
      this.config := config;
      this.agents := map[];
      var k := new DecisionKernel(config.policy, config.kernelKey);
      var o := new AdmissionOffice(config.officeSecret, store);
      var pep := new Executor(config.kernelKey, log, store);
      var e := new SealedExecutor(pep);
      this.kernel, this.office, this.executor := k, o, e;
    }

    /** The parts agree with the configuration, and tickets and tokens are spent in one store. */
    ghost predicate Valid() {
      && kernel.policy == config.policy && kernel.key == config.kernelKey
      && office.secret == config.officeSecret && office.store == executor.pep.store
      && executor.pep.key == config.kernelKey
    }

    method RegisterAgent(agentId: string, meta: Meta)
      modifies this
      ensures agents == old(agents)[agentId := meta]
    {
      agents := agents[agentId := meta];
    }

    /** `admit`: None stands for the KeyError of an unknown agent. */
    method Admit(agentId: string, now: int, nonce: string) returns (t: Option<Ticket>)
      ensures t == if agentId in agents
                   then Some(Issued(config.officeSecret, agents[agentId].actor, agents[agentId].stakeholder, agentId,
                                    now, nonce))
                   else None
    {
      if agentId !in agents { return None; }
      var meta := agents[agentId];
      return Some(Issued(config.officeSecret, meta.actor, meta.stakeholder, agentId, now, nonce));
    }

    method Invoke(call: Call, env: Env) returns (answer: InvokeAnswer)
      requires Valid()
      modifies executor, executor.pep, executor.pep.store, executor.pep.log, executor.pep.log.file
      ensures (answer, executor.pep.store.markers) ==
              Invoked(config, agents, old(executor.pep.store.markers), call, env)
      ensures executor.pep.calls ==
              if answer.Ran? then old(executor.pep.calls) + [answer.call] else old(executor.pep.calls)
      ensures executor.pep.log.State() ==
              LogAfter(config, agents, old(executor.pep.store.markers), old(executor.pep.log.State()), call, env)
      ensures var arming := ArmingOf(config, agents, old(executor.pep.store.markers), call, env);
              executor.arm == (if arming.Some? then None else old(executor.arm)) &&
              executor.armings == old(executor.armings) + (if arming.Some? then [arming.value] else [])
    {
      hide AfterAdmission, LogAfterAdmission, Armable, ArmFor;
      if !Admissible(config, agents, call, env.verifiedAt) { return AdmissionRefused; }
      if call.tool !in config.bodies { return Breach; }
      var admitted := office.Consume(call.ticket, Some(call.agentId), env.consumedAt, env.admissionHealth);
      if !admitted { return AdmissionRefused; }
      answer := Enforce(call, env);
    }

    /** `invoke` from the consumed ticket on: decide, check the binding, arm, execute. */
    method Enforce(call: Call, env: Env) returns (answer: InvokeAnswer)
      requires Valid() && call.tool in config.bodies
      modifies executor, executor.pep, executor.pep.store, executor.pep.log, executor.pep.log.file
      ensures (answer, executor.pep.store.markers) == AfterAdmission(config, old(executor.pep.store.markers), call, env)
      ensures executor.pep.calls ==
              if answer.Ran? then old(executor.pep.calls) + [answer.call] else old(executor.pep.calls)
      ensures executor.pep.log.State() ==
              LogAfterAdmission(config, old(executor.pep.store.markers), old(executor.pep.log.State()), call, env)
      ensures executor.arm == (if Armable(config, call, env) then None else old(executor.arm))
      ensures executor.armings ==
              old(executor.armings) + (if Armable(config, call, env) then [ArmFor(config, call, env)] else [])
    {
      hide Decided, Prepared, MarkersAfter, HashChain.Recorded, AuditContent, EvidenceContent;
      var a := SealedAction(call, env);
      var decided := kernel.Decide(a, None, config.provider, env.pdp, [TriState(env.legitimacy)], env.draws);
      if decided.Failure? { return InvokeAnswer.Raised; }
      var s := decided.value;
      if Permitting(s.decision.verdict) && s.decision.legitimacyBinding.None? { return BindingRefused; }
      if !BindingMatches(s.decision) { return BindingRefused; }
      assert s == SealedSigned(config, call, env);
      var tools := map[call.tool := config.bodies[call.tool]];
      assert tools.Keys == {call.tool};
      executor.ArmOnce(s.decision.actionBinding, tools);
      var g := executor.Execute(a, s, tools, env.executedAt, env.spendHealth, env.ts, env.auditOk, env.dies);
      assert g == Some(GateOf(config, old(executor.pep.store.markers), call, env));
      if g.value.Escapes? || !env.auditOk { return InvokeAnswer.Raised; }
      if g.value.Passes? && env.dies { return Died(ToolCall(g.value.tool, g.value.payload)); }
      if g.value.Passes? && !env.toolReturns { return Ran(ToolCall(g.value.tool, g.value.payload), false); }
      if env.evidenceOk {
        var line := executor.pep.log.Record(env.evidenceTs, EvidenceContent(a, s.decision, g.value));
      }
      if g.value.Passes? { return Ran(ToolCall(g.value.tool, g.value.payload), env.evidenceOk); }
      return if env.evidenceOk then PepRefused(g.value.why) else InvokeAnswer.Raised;
    }
  }
}
