/** The hosted plane: one intent at a time, each request id spent before anything else happens. */
module Host {
  import opened Basics
  import opened Kernel
  import opened Sealed
  import HashChain
  import SpentStore

  datatype Intent = Intent(agentId: string, tool: string, payload: Payload, intent: string, requestId: string)

  /** What the world does while one intent is handled. */
  datatype HostEnv = HostEnv(requestDraw: string, requestHealth: SpentStore.Health,
                             admittedAt: int, ticketNonce: string, env: Env)

  datatype HostAnswer =
    | ChannelIdentityMismatch
    | RequestStoreUnavailable
    | RequestReplay
    | UnknownAgent            // a KeyError leaves handle_intent
    | HandedOver(answer: InvokeAnswer)

  /** `intent.request_id or uuid4().hex`. */
  function RequestId(i: Intent, e: HostEnv): string {
    if i.requestId != "" then i.requestId else e.requestDraw
  }

  /** `ipc:{bound_agent_id or agent_id}:{request_id}`. */
  function RequestKey(bound: Option<string>, agentId: string, requestId: string): string {
    "ipc:" + (if bound.Some? && bound.value != "" then bound.value else agentId) + ":" + requestId
  }

  function CallOf(c: Config, meta: Meta, i: Intent, e: HostEnv): Call {
    Call(Issued(c.officeSecret, meta.actor, meta.stakeholder, i.agentId, e.admittedAt, e.ticketNonce),
         i.agentId, i.tool, i.payload, i.intent, "")
  }

  /** `handle_intent`: the answer and the markers it leaves behind. */
  ghost function Handled(c: Config, bound: Option<string>, agents: map<string, Meta>, markers: set<string>, i: Intent,
                         e: HostEnv)
    : (HostAnswer, set<string>)
  {
    var key := RequestKey(bound, i.agentId, RequestId(i, e));
    var spent := SpentStore.MarkersAfter(markers, key, e.requestHealth);
    if bound.Some? && i.agentId != bound.value then (ChannelIdentityMismatch, markers)
    else match SpentStore.AnswerOf(markers, key, e.requestHealth)
      case Unavailable => (RequestStoreUnavailable, spent)
      case Replay => (RequestReplay, spent)
      case First =>
        if i.agentId !in agents then (UnknownAgent, spent)
        else
          var r := Invoked(c, agents, spent, CallOf(c, agents[i.agentId], i, e), e.env);
          (HandedOver(r.0), r.1)
  }

  /** The request gets as far as the sealed runtime. */
  predicate Forwarded(bound: Option<string>, agents: map<string, Meta>, markers: set<string>, i: Intent, e: HostEnv) {
    && (bound.Some? ==> i.agentId == bound.value)
    && SpentStore.AnswerOf(markers, RequestKey(bound, i.agentId, RequestId(i, e)), e.requestHealth) == SpentStore.First
    && i.agentId in agents
  }

  ghost function HandledArming(c: Config, bound: Option<string>, agents: map<string, Meta>, markers: set<string>,
                               i: Intent, e: HostEnv): Option<Arm>
  {
    if !Forwarded(bound, agents, markers, i, e) then None
    else
      var spent := markers + {RequestKey(bound, i.agentId, RequestId(i, e))};
      ArmingOf(c, agents, spent, CallOf(c, agents[i.agentId], i, e), e.env)
  }

  ghost function HandledLog(c: Config, bound: Option<string>, agents: map<string, Meta>, markers: set<string>,
                            log: HashChain.LogState, i: Intent, e: HostEnv): HashChain.LogState
  {
    if !Forwarded(bound, agents, markers, i, e) then log
    else
      var spent := markers + {RequestKey(bound, i.agentId, RequestId(i, e))};
      LogAfter(c, agents, spent, log, CallOf(c, agents[i.agentId], i, e), e.env)
  }

  datatype HostedEvidence = HostedEvidence(requestId: string, agentId: string, tool: string, ok: bool)

  /** What the host keeps of one intent: nothing if the agent is unknown or the process is killed. */
  function Kept(i: Intent, e: HostEnv, answer: HostAnswer): seq<HostedEvidence> {
    match answer
    case UnknownAgent => []
    case ChannelIdentityMismatch => [HostedEvidence(i.requestId, i.agentId, i.tool, false)]
    case HandedOver(r) =>
      if r.Died? then [] else [HostedEvidence(RequestId(i, e), i.agentId, i.tool, r.Ran? && r.ok)]
    case _ => [HostedEvidence(RequestId(i, e), i.agentId, i.tool, false)]
  }

  class AgentHost {
    const bound: Option<string>
    const runtime: SealedRuntime
    var evidence: seq<HostedEvidence>

    constructor (bound: Option<string>, runtime: SealedRuntime)
      requires runtime.Valid()
      ensures this.bound == bound && this.runtime == runtime && evidence == []
    {
      this.bound, this.runtime, this.evidence := bound, runtime, [];
    }

    method HandleIntent(i: Intent, e: HostEnv) returns (answer: HostAnswer)
      requires runtime.Valid()
      modifies this, runtime.executor, runtime.executor.pep, runtime.executor.pep.store,
               runtime.executor.pep.log, runtime.executor.pep.log.file
      ensures (answer, runtime.executor.pep.store.markers) ==
              Handled(runtime.config, bound, runtime.agents, old(runtime.executor.pep.store.markers), i, e)
      ensures runtime.executor.pep.calls ==
              if answer.HandedOver? && answer.answer.Ran? then old(runtime.executor.pep.calls) + [answer.answer.call]
              else old(runtime.executor.pep.calls)
      ensures evidence == old(evidence) + Kept(i, e, answer)
      ensures runtime.executor.pep.log.State() ==
              HandledLog(runtime.config, bound, runtime.agents, old(runtime.executor.pep.store.markers),
                         old(runtime.executor.pep.log.State()), i, e)
      ensures var arming := HandledArming(runtime.config, bound, runtime.agents,
                                          old(runtime.executor.pep.store.markers), i, e);
              runtime.executor.arm == (if arming.Some? then None else old(runtime.executor.arm)) &&
              runtime.executor.armings == old(runtime.executor.armings) + (if arming.Some? then [arming.value] else [])
    {
      hide Invoked, LogAfter, ArmingOf;
      if bound.Some? && i.agentId != bound.value {
        evidence := evidence + [HostedEvidence(i.requestId, i.agentId, i.tool, false)];
        return ChannelIdentityMismatch;
      }
      var requestId := RequestId(i, e);
      var first := runtime.office.store.TrySpend(RequestKey(bound, i.agentId, requestId), e.requestHealth);
      if first.Unavailable? {
        evidence := evidence + [HostedEvidence(requestId, i.agentId, i.tool, false)];
        return RequestStoreUnavailable;
      }
      if first.Replay? {
        evidence := evidence + [HostedEvidence(requestId, i.agentId, i.tool, false)];
        return RequestReplay;
      }
      var ticket := runtime.Admit(i.agentId, e.admittedAt, e.ticketNonce);
      if ticket.None? { return UnknownAgent; }
      var call := Call(ticket.value, i.agentId, i.tool, i.payload, i.intent, "");
      assert call == CallOf(runtime.config, runtime.agents[i.agentId], i, e);
      var r := runtime.Invoke(call, e.env);
      if r.Died? { return HandedOver(r); }
      evidence := evidence + [HostedEvidence(requestId, i.agentId, i.tool, r.Ran? && r.ok)];
      return HandedOver(r);
    }
  }
}
