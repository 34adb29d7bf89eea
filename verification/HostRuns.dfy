/**
 Arbitrary runs of any number of hosts on one store: intents, re-registrations, restarts, and callers who go straight
 to a host's sealed executor.
 */
module HostRuns {
  import opened Basics
  import opened Fingerprint
  import opened Compose
  import opened AuditDigests
  import opened Kernel
  import opened Execute
  import opened Pipeline
  import opened Sealed
  import opened SealedTheorems
  import opened Host
  import HashChain
  import SpentStore

  /** One host: whether it runs, whom its channel is bound to, its configuration, registry, arm and own log. */
  datatype HostState = HostState(alive: bool, bound: Option<string>, config: Config, agents: map<string, Meta>,
                                 arm: Option<Arm>, log: HashChain.LogState)

  /** A restart brings new keys, an empty registry and an unarmed executor; the configuration may change with it. */
  datatype Event =
    | Registering(h: nat, agentId: string, meta: Meta)
    | Delivering(h: nat, intent: Intent, env: HostEnv)
    | Restarting(h: nat, bound: Option<string>, config: Config)
    | Intruding(h: nat, call: DirectCall)

  /** One arming of host `h`'s executor, at event `at`. */
  datatype Arming = Arming(h: nat, at: nat, arm: Arm)

  /**
   One commitment of a PEP to an intent's call, at event `at` under arming number `arming`, with everything that was
   used up for it. It is an effect if `ran`; otherwise the host was killed before the tool was called.
   */
  datatype Commitment = Commitment(h: nat, at: nat, arming: nat, bound: Option<string>, config: Config,
                                   registered: Meta, intent: Intent, env: HostEnv, call: ToolCall,
                                   ran: bool, ok: bool)
  {
    ghost function RequestKey(): string {
      Host.RequestKey(bound, intent.agentId, RequestId(intent, env))
    }

    ghost function Asked(): Call {
      CallOf(config, registered, intent, env)
    }

    ghost function TicketKey(): string {
      Sealed.TicketKey(Asked().ticket)
    }

    ghost function TokenId(): string {
      env.env.draws.tokenId
    }
  }

  /** `stray` are the tools called by anything but an intent. */
  datatype State = State(hosts: map<nat, HostState>, markers: set<string>, time: nat, armings: seq<Arming>,
                         commits: seq<Commitment>, stray: seq<ToolCall>)

  ghost function Answered(s: State, h: nat, i: Intent, e: HostEnv): HostAnswer
    requires h in s.hosts
  {
    Handled(s.hosts[h].config, s.hosts[h].bound, s.hosts[h].agents, s.markers, i, e).0
  }

  ghost function RecordFor(s: State, h: nat, i: Intent, e: HostEnv): Commitment
    requires h in s.hosts && i.agentId in s.hosts[h].agents
    requires Answered(s, h, i, e).HandedOver? && Answered(s, h, i, e).answer.Committed()
  {
    var host, answer := s.hosts[h], Answered(s, h, i, e).answer;
    Commitment(h, s.time, |s.armings|, host.bound, host.config, host.agents[i.agentId], i, e,
               answer.call, answer.Ran?, answer.Ran? && answer.ok)
  }

  ghost function CommitsOf(s: State, h: nat, i: Intent, e: HostEnv): seq<Commitment>
    requires h in s.hosts
  {
    var answer := Answered(s, h, i, e);
    if answer.HandedOver? && answer.answer.Committed() && i.agentId in s.hosts[h].agents
    then [RecordFor(s, h, i, e)] else []
  }

  ghost function Delivered(s: State, h: nat, i: Intent, e: HostEnv): State
    requires h in s.hosts
  {
    var host := s.hosts[h];
    var arming := HandledArming(host.config, host.bound, host.agents, s.markers, i, e);
    var log := HandledLog(host.config, host.bound, host.agents, s.markers, host.log, i, e);
    var answer := Answered(s, h, i, e);
    State(s.hosts[h := host.(alive := !(answer.HandedOver? && answer.answer.Died?),
                             arm := if arming.Some? then None else host.arm, log := log)],
          Handled(host.config, host.bound, host.agents, s.markers, i, e).1, s.time,
          s.armings + (if arming.Some? then [Arming(h, s.time, arming.value)] else []),
          s.commits + CommitsOf(s, h, i, e), s.stray)
  }

  /** A direct call: the arm is taken whatever it was, and only the arm's own decision and bodies get through. */
  ghost function Intruded(s: State, h: nat, x: DirectCall): State
    requires h in s.hosts
  {
    var host := s.hosts[h];
    if host.arm != Some(Arm(x.result.decision.actionBinding, x.tools)) then
      s.(hosts := s.hosts[h := host.(arm := None)])
    else
      var g := Prepared(host.config.kernelKey, x.action, x.result, x.tools.Keys, x.now, s.markers, x.health);
      var log := if g.Escapes? || !x.auditOk then host.log
                 else HashChain.Recorded(host.log, x.ts, AuditContent(x.action, x.result.decision, g));
      s.(hosts := s.hosts[h := host.(arm := None, log := log)],
         markers := MarkersAfter(host.config.kernelKey, x.action, x.result, x.tools.Keys, x.now, s.markers, x.health),
         stray := s.stray + if g.Passes? && x.auditOk && !x.dies then [ToolCall(g.tool, g.payload)] else [])
  }

  ghost function Acted(s: State, ev: Event): State {
    if ev.h !in s.hosts || (!s.hosts[ev.h].alive && !ev.Restarting?) then s
    else
      var host := s.hosts[ev.h];
      match ev
      case Registering(h, id, meta) => s.(hosts := s.hosts[h := host.(agents := host.agents[id := meta])])
      case Delivering(h, i, e) => Delivered(s, h, i, e)
      case Restarting(h, bound, c) =>
        s.(hosts := s.hosts[h := HostState(true, bound, c, map[], None, HashChain.Opened(host.log.disk))])
      case Intruding(h, x) => Intruded(s, h, x)
  }

  ghost function Step(s: State, ev: Event): State {
    Acted(s, ev).(time := s.time + 1)
  }

  ghost function Run(start: State, events: seq<Event>): State {
    if events == [] then start else Step(Run(start, events[..|events| - 1]), events[|events| - 1])
  }

  /** Which commitments went on to their effect. */
  function Lived(rs: seq<Commitment>): seq<bool> {
    seq(|rs|, i requires 0 <= i < |rs| => rs[i].ran)
  }

  /** The effects: the commitments whose tool was called, in order. */
  function Effects(s: State): seq<Commitment> {
    Pick(s.commits, Lived(s.commits))
  }

  lemma EffectsAdd(rs: seq<Commitment>, more: seq<Commitment>)
    ensures Pick(rs + more, Lived(rs + more)) == Pick(rs, Lived(rs)) + Pick(more, Lived(more))
  {
    assert Lived(rs + more) == Lived(rs) + Lived(more);
    PickAdds(rs, more, Lived(rs), Lived(more));
  }

  /** Hosts just started, on logs that verify or do not exist yet; the store may hold any markers. */
  ghost predicate Starts(start: State) {
    && start.time == 0 && start.armings == [] && start.commits == [] && start.stray == []
    && forall h :: h in start.hosts ==> start.hosts[h].arm == None && OpenAndSound(start.hosts[h].log)
  }

  /**
   An intent is committed to, and causes an effect unless its host is killed first, exactly when it came over its
   agent's own channel, its request key is spent first here, its agent is registered, and the sealed runtime runs it
   on the ticket just issued.
   */
  lemma IntentRunsExactly(c: Config, bound: Option<string>, agents: map<string, Meta>, markers: set<string>, i: Intent,
                          e: HostEnv)
    ensures var key := "ipc:" + i.agentId + ":" + if i.requestId != "" then i.requestId else e.requestDraw;
            var r := Handled(c, bound, agents, markers, i, e);
            (r.0.HandedOver? && r.0.answer.Committed()) <==>
            && (bound.None? || i.agentId == bound.value)
            && SpentStore.AnswerOf(markers, key, e.requestHealth) == SpentStore.First
            && i.agentId in agents && i.tool in c.bodies
            && e.env.verifiedAt < e.admittedAt + 300 && e.env.consumedAt < e.admittedAt + 300
            && var call := CallOf(c, agents[i.agentId], i, e);
            SpentStore.AnswerOf(markers + {key}, TicketKey(call.ticket), e.env.admissionHealth) == SpentStore.First
            && Legitimate(e.env.legitimacy) && e.env.auditOk
            && GatesOpen(SettingFor(c, call, e.env, markers + {key, TicketKey(call.ticket)}), SealedAction(call, e.env))
    ensures var r := Handled(c, bound, agents, markers, i, e).0;
            (r.HandedOver? && r.answer.Ran?) <==> (r.HandedOver? && r.answer.Committed()) && !e.env.dies
  {
    hide Invoked, GatesOpen, SettingFor, SealedAction;
    var key := RequestKey(bound, i.agentId, RequestId(i, e));
    if i.agentId in agents {
      var call := CallOf(c, agents[i.agentId], i, e);
      RanExactly(c, agents, markers + {key}, call, e.env);
      assert markers + {key} + {TicketKey(call.ticket)} == markers + {key, TicketKey(call.ticket)};
    }
  }

  /**
   What the host keeps tells what happened: nothing for an unknown agent or when the process is killed, else one line
   for this intent, which says ok exactly when its tool was called and the call returned.
   */
  lemma EvidenceTells(s: State, h: nat, i: Intent, e: HostEnv)
    requires h in s.hosts
    ensures var kept, answer, added := Kept(i, e, Answered(s, h, i, e)), Answered(s, h, i, e), CommitsOf(s, h, i, e);
            && |kept| == (if answer.UnknownAgent? || (added != [] && !added[0].ran) then 0 else 1)
            && (kept != [] ==>
                  && kept[0].agentId == i.agentId && kept[0].tool == i.tool
                  && (i.requestId != "" ==> kept[0].requestId == i.requestId)
                  && (kept[0].ok <==> added != [] && added[0].ran && added[0].ok))
  {
    hide Invoked;
    KnownIfHandedOver(s, h, i, e);
  }

  // ---- the classes take these steps

  ghost predicate Mirrors(host: AgentHost, s: State, h: nat)
    reads host, host.runtime, host.runtime.executor, host.runtime.executor.pep, host.runtime.executor.pep.store,
          host.runtime.executor.pep.log, host.runtime.executor.pep.log.file
  {
    && h in s.hosts && s.markers == host.runtime.executor.pep.store.markers
    && s.hosts[h] == HostState(true, host.bound, host.runtime.config, host.runtime.agents, host.runtime.executor.arm,
                               host.runtime.executor.pep.log.State())
  }

  method Deliver(host: AgentHost, ghost s: State, ghost h: nat, i: Intent, e: HostEnv) returns (answer: HostAnswer)
    requires host.runtime.Valid() && Mirrors(host, s, h)
    modifies host, host.runtime.executor, host.runtime.executor.pep, host.runtime.executor.pep.store,
             host.runtime.executor.pep.log, host.runtime.executor.pep.log.file
    ensures answer == Answered(s, h, i, e)
    ensures !(answer.HandedOver? && answer.answer.Died?) ==> Mirrors(host, Delivered(s, h, i, e), h)
    ensures |host.runtime.executor.pep.calls| - |old(host.runtime.executor.pep.calls)| ==
            |Effects(Delivered(s, h, i, e))| - |Effects(s)|
    ensures |host.runtime.executor.armings| - |old(host.runtime.executor.armings)| ==
            |Delivered(s, h, i, e).armings| - |s.armings|
  {
    hide Handled, HandledArming, HandledLog;
    answer := host.HandleIntent(i, e);
    KnownIfHandedOver(s, h, i, e);
    EffectsAdd(s.commits, CommitsOf(s, h, i, e));
  }

  lemma KnownIfHandedOver(s: State, h: nat, i: Intent, e: HostEnv)
    requires h in s.hosts
    ensures Answered(s, h, i, e).HandedOver? ==> i.agentId in s.hosts[h].agents
  {
    hide Invoked;
  }

  method Intrude(host: AgentHost, ghost s: State, ghost h: nat, x: DirectCall) returns (g: Option<GateAnswer>)
    requires host.runtime.Valid() && Mirrors(host, s, h)
    modifies host.runtime.executor, host.runtime.executor.pep, host.runtime.executor.pep.store,
             host.runtime.executor.pep.log, host.runtime.executor.pep.log.file
    ensures Mirrors(host, Intruded(s, h, x), h)
    ensures |host.runtime.executor.pep.calls| - |old(host.runtime.executor.pep.calls)| ==
            |Intruded(s, h, x).stray| - |s.stray|
  {
    hide Prepared, MarkersAfter, AuditContent, HashChain.Recorded;
    g := host.runtime.executor.Execute(x.action, x.result, x.tools, x.now, x.health, x.ts, x.auditOk, x.dies);
  }

  // ---- what one event adds

  /** On what authority `r` happened, and what it was done on: the intent's payload, minimised for its purpose. */
  ghost predicate Warranted(r: Commitment) {
    && (r.bound.Some? ==> r.intent.agentId == r.bound.value)
    && Legitimate(r.env.env.legitimacy)
    && Permitting(AuthorityFor(SealedAction(r.Asked(), r.env.env), r.config.provider, r.env.env.pdp).verdict)
    && Permitting(SealedDecision(r.config, r.Asked(), r.env.env).verdict)
    && r.call.tool == r.intent.tool
    && ToolSees(r.config.policy.redactions, Some(r.intent.intent), r.intent.payload, r.call.payload)
  }

  /** The arm `r` needed: for the fingerprint of the action its registered actor took, and that tool's one body. */
  ghost predicate ArmedFor(r: Commitment, arm: Arm) {
    && r.intent.tool in r.config.bodies
    && arm == Arm(Some(ActionFingerprint(SealedAction(r.Asked(), r.env.env))),
                  map[r.intent.tool := r.config.bodies[r.intent.tool]])
    && SealedAction(r.Asked(), r.env.env).actor == r.registered.actor
  }

  ghost predicate UsedUp(r: Commitment, markers: set<string>) {
    r.RequestKey() in markers && r.TicketKey() in markers && r.TokenId() in markers
  }

  ghost predicate Fresh(r: Commitment, markers: set<string>) {
    r.RequestKey() !in markers && r.TicketKey() !in markers && r.TokenId() !in markers
  }

  lemma IntentSpends(s: State, h: nat, i: Intent, e: HostEnv)
    requires h in s.hosts
    ensures s.markers <= Delivered(s, h, i, e).markers
    ensures forall r :: r in CommitsOf(s, h, i, e) ==> Fresh(r, s.markers) && UsedUp(r, Delivered(s, h, i, e).markers)
  {
    hide Invoked, HandledArming, HandledLog, SealedTheorems.Warranted;
    var host := s.hosts[h];
    if Forwarded(host.bound, host.agents, s.markers, i, e) {
      var key := RequestKey(host.bound, i.agentId, RequestId(i, e));
      var call := CallOf(host.config, host.agents[i.agentId], i, e);
      InvokeOnlyAdds(host.config, host.agents, s.markers + {key}, call, e.env);
      if Answered(s, h, i, e).answer.Committed() {
        ExecutedMeansWarranted(host.config, host.agents, s.markers + {key}, call, e.env);
        TicketAndTokenWereFresh(host.config, host.agents, s.markers + {key}, call, e.env);
      }
    }
  }

  lemma TicketAndTokenWereFresh(c: Config, agents: map<string, Meta>, markers: set<string>, call: Call, env: Env)
    requires Invoked(c, agents, markers, call, env).0.Committed()
    ensures TicketKey(call.ticket) !in markers && env.draws.tokenId !in markers
  {
    hide Invoked;
    ExecutedMeansWarranted(c, agents, markers, call, env);
  }

  lemma IntentWarrants(s: State, h: nat, i: Intent, e: HostEnv)
    requires h in s.hosts
    ensures forall r :: r in CommitsOf(s, h, i, e) ==> Warranted(r)
  {
    hide Invoked, HandledArming, HandledLog, Decided, AuthorityFor, Legitimate, ToolSees, Pipeline.Delivered;
    var host := s.hosts[h];
    if CommitsOf(s, h, i, e) != [] {
      var key := RequestKey(host.bound, i.agentId, RequestId(i, e));
      var call := CallOf(host.config, host.agents[i.agentId], i, e);
      ExecutedMeansWarranted(host.config, host.agents, s.markers + {key}, call, e.env);
      CommittedFromTheCall(host.config, host.agents, s.markers + {key}, call, e.env);
    }
  }

  lemma IntentArms(s: State, h: nat, i: Intent, e: HostEnv)
    requires h in s.hosts
    ensures |s.armings| <= |Delivered(s, h, i, e).armings| <= |s.armings| + 1
    ensures forall r :: r in CommitsOf(s, h, i, e) ==>
              |Delivered(s, h, i, e).armings| == |s.armings| + 1 &&
              Delivered(s, h, i, e).armings[|s.armings|].h == h &&
                Delivered(s, h, i, e).armings[|s.armings|].at == s.time &&
              ArmedFor(r, Delivered(s, h, i, e).armings[|s.armings|].arm)
  {
    hide Invoked, HandledLog, ArmingOf, SealedAction, ArmFor;
    var host := s.hosts[h];
    if CommitsOf(s, h, i, e) != [] {
      var key := RequestKey(host.bound, i.agentId, RequestId(i, e));
      var call := CallOf(host.config, host.agents[i.agentId], i, e);
      RanArms(host.config, host.agents, s.markers + {key}, call, e.env);
      ActsAsTicketHolder(call, e.env);
    }
  }

  lemma ActsAsTicketHolder(call: Call, env: Env)
    ensures SealedAction(call, env).actor == call.ticket.body.actor
  {
  }

  /** What a commitment adds to its host's log: the PEP's entry, then `invoke`'s own if it ran and returned. */
  ghost function DigestsFor(r: Commitment): seq<Digest> {
    [PayloadDigest(r.call.payload)] + if r.ran && r.ok then [PayloadDigest(r.intent.payload)] else []
  }

  lemma IntentLogs(s: State, h: nat, i: Intent, e: HostEnv)
    requires h in s.hosts && OpenAndSound(s.hosts[h].log)
    ensures var host, added := s.hosts[h], CommitsOf(s, h, i, e);
            var log := HandledLog(host.config, host.bound, host.agents, s.markers, host.log, i, e);
            && OpenAndSound(log)
            && LoggedDigests(log) == LoggedDigests(host.log) + (if added == [] then [] else DigestsFor(added[0]))
  {
    hide Invoked, LogAfter, OpenAndSound, LoggedDigests, PayloadDigest;
    var host := s.hosts[h];
    assert LoggedDigests(host.log) + [] == LoggedDigests(host.log);
    if Forwarded(host.bound, host.agents, s.markers, i, e) {
      var key := RequestKey(host.bound, i.agentId, RequestId(i, e));
      InvokedIsLogged(host.config, host.agents, s.markers + {key}, host.log,
                      CallOf(host.config, host.agents[i.agentId], i, e), e.env);
    }
  }

  // ---- what every run keeps

  /** Two commitments, `x` the earlier, share no request key, no ticket, no token and no arming. */
  ghost predicate Apart(x: Commitment, y: Commitment) {
    && x.RequestKey() != y.RequestKey() && x.TicketKey() != y.TicketKey() && x.TokenId() != y.TokenId()
    && x.arming < y.arming && x.at < y.at
  }

  ghost predicate AllApart(rs: seq<Commitment>) {
    forall i, j :: 0 <= i < j < |rs| ==> Apart(rs[i], rs[j])
  }

  ghost predicate Accounted(r: Commitment, markers: set<string>, time: nat, armed: nat) {
    UsedUp(r, markers) && r.at < time && r.arming < armed
  }

  ghost predicate Spending(s: State) {
    && AllApart(s.commits)
    && forall i :: 0 <= i < |s.commits| ==> Accounted(s.commits[i], s.markers, s.time, |s.armings|)
  }

  lemma OneMoreCommitment(rs: seq<Commitment>, markers: set<string>, time: nat, armed: nat, r: Commitment)
    requires AllApart(rs) && forall i :: 0 <= i < |rs| ==> Accounted(rs[i], markers, time, armed)
    requires Fresh(r, markers) && r.at == time && r.arming == armed
    ensures AllApart(rs + [r])
  {
    forall i | 0 <= i < |rs| ensures Apart(rs[i], r) {
      assert Accounted(rs[i], markers, time, armed);
    }
  }

  /** No executor is left armed, so no direct call ever gets through: unarmed calls change nothing. */
  ghost predicate Unarmed(s: State) {
    s.stray == [] && forall h :: h in s.hosts ==> s.hosts[h].arm == None
  }

  lemma StepKeepsUnarmed(s: State, ev: Event)
    requires Unarmed(s)
    ensures Unarmed(Step(s, ev))
    ensures !ev.Delivering? || ev.h !in s.hosts || !s.hosts[ev.h].alive ==>
              Step(s, ev).markers == s.markers && Step(s, ev).armings == s.armings && Step(s, ev).commits == s.commits
  {
    hide Handled, HandledArming, HandledLog, CommitsOf, Prepared, MarkersAfter;
  }

  lemma StepKeepsSpending(s: State, ev: Event)
    requires Spending(s) && Unarmed(s)
    ensures Spending(Step(s, ev))
  {
    hide Delivered, Apart, UsedUp, Fresh, Unarmed, CommitsOf;
    StepKeepsUnarmed(s, ev);
    if ev.Delivering? && ev.h in s.hosts && s.hosts[ev.h].alive {
      IntentSpends(s, ev.h, ev.intent, ev.env);
      IntentArms(s, ev.h, ev.intent, ev.env);
      DeliveredSpends(s, ev.h, ev.intent, ev.env);
    }
  }

  lemma DeliveredSpends(s: State, h: nat, i: Intent, e: HostEnv)
    requires h in s.hosts && Spending(s)
    ensures Spending(Delivered(s, h, i, e).(time := s.time + 1))
  {
    hide Apart, Handled, HandledArming, HandledLog, ArmedFor;
    IntentSpends(s, h, i, e);
    IntentArms(s, h, i, e);
    var t, added := Delivered(s, h, i, e), CommitsOf(s, h, i, e);
    forall k | 0 <= k < |s.commits| ensures Accounted(s.commits[k], t.markers, s.time + 1, |t.armings|) {
      assert Accounted(s.commits[k], s.markers, s.time, |s.armings|);
    }
    if added == [] {
      assert t.commits == s.commits;
    } else {
      assert added[0] in added && added == [added[0]];
      OneMoreCommitment(s.commits, s.markers, s.time, |s.armings|, added[0]);
    }
  }

  lemma {:induction false} RunSpends(start: State, events: seq<Event>)
    requires Starts(start)
    ensures Spending(Run(start, events)) && Unarmed(Run(start, events)) && Run(start, events).time == |events|
  {
    hide Step, Spending, Unarmed;
    if events == [] {
      assert Spending(start) && Unarmed(start) by { StartsSpending(start); }
    } else {
      RunSpends(start, events[..|events| - 1]);
      StepKeepsSpending(Run(start, events[..|events| - 1]), events[|events| - 1]);
      StepKeepsUnarmed(Run(start, events[..|events| - 1]), events[|events| - 1]);
      StepCounts(Run(start, events[..|events| - 1]), events[|events| - 1]);
    }
  }

  lemma StartsSpending(start: State)
    requires Starts(start)
    ensures Spending(start) && Unarmed(start)
  {
  }

  lemma StepCounts(s: State, ev: Event)
    ensures Step(s, ev).time == s.time + 1
  {
    hide Acted;
  }

  // ---- each effect belongs to one event of the run

  /** The event that caused `r`, the host as it was then, and the arming made for it. */
  ghost predicate Grounded(start: State, events: seq<Event>, r: Commitment) {
    && r.at < |events| && events[r.at] == Delivering(r.h, r.intent, r.env)
    && (var before := Run(start, events[..r.at]);
        && r.h in before.hosts && before.hosts[r.h].bound == r.bound && before.hosts[r.h].config == r.config
        && r.intent.agentId in before.hosts[r.h].agents && before.hosts[r.h].agents[r.intent.agentId] == r.registered
        && r.arming == |before.armings|)
    && (var after := Run(start, events[..r.at + 1]).armings;
        r.arming < |after| && after[r.arming].h == r.h && after[r.arming].at == r.at &&
          ArmedFor(r, after[r.arming].arm))
    && Warranted(r)
  }

  lemma GroundedStays(start: State, events: seq<Event>, ev: Event, r: Commitment)
    requires Grounded(start, events, r)
    ensures Grounded(start, events + [ev], r)
  {
    hide Run, ArmedFor, Warranted;
    assert (events + [ev])[..r.at] == events[..r.at] && (events + [ev])[..r.at + 1] == events[..r.at + 1];
  }

  lemma NewIsGrounded(start: State, events: seq<Event>, h: nat, i: Intent, e: HostEnv, r: Commitment)
    requires Run(start, events).time == |events| && h in Run(start, events).hosts && Run(start, events).hosts[h].alive
    requires r in CommitsOf(Run(start, events), h, i, e)
    ensures Grounded(start, events + [Delivering(h, i, e)], r)
  {
    hide ArmedFor, Warranted, Handled, HandledArming, HandledLog;
    var s, all := Run(start, events), events + [Delivering(h, i, e)];
    assert all[..|events|] == events && all[..|events| + 1] == all && all[..|all| - 1] == events;
    assert Run(start, all).armings == Delivered(s, h, i, e).armings;
    IntentArms(s, h, i, e);
    IntentWarrants(s, h, i, e);
  }

  lemma StepCommits(s: State, ev: Event)
    ensures Step(s, ev).commits == s.commits ||
            (ev.Delivering? && ev.h in s.hosts && s.hosts[ev.h].alive && |CommitsOf(s, ev.h, ev.intent, ev.env)| == 1 &&
             Step(s, ev).commits == s.commits + CommitsOf(s, ev.h, ev.intent, ev.env))
  {
    hide Handled, HandledArming, HandledLog, RecordFor, Prepared, MarkersAfter;
  }

  lemma {:induction false} RunGrounds(start: State, events: seq<Event>, k: nat)
    requires Starts(start) && k < |Run(start, events).commits|
    ensures Grounded(start, events, Run(start, events).commits[k])
  {
    hide Step, Grounded, CommitsOf;
    if events != [] {
      var init, last := events[..|events| - 1], events[|events| - 1];
      assert events == init + [last];
      StepCommits(Run(start, init), last);
      RunSpends(start, init);
      if k < |Run(start, init).commits| {
        RunGrounds(start, init, k);
        GroundedStays(start, init, last, Run(start, init).commits[k]);
      } else {
        NewIsGrounded(start, init, last.h, last.intent, last.env, Run(start, events).commits[k]);
      }
    }
  }

  /**
   Over any run of any hosts on one store, with no assumption on the draws: commitments, so effects, map injectively
   to request keys, consumed tickets, token ids and armings. Each comes from one intent of the run, handled as the
   actor registered for its agent at that moment, legitimately, under a permitting verdict, after arming for just
   that action and body.
   */
  lemma EffectsAreWarrantedAndApart(start: State, events: seq<Event>)
    requires Starts(start)
    ensures AllApart(Run(start, events).commits)
    ensures forall k :: 0 <= k < |Run(start, events).commits| ==> Grounded(start, events, Run(start, events).commits[k])
  {
    hide Step, Grounded;
    RunSpends(start, events);
    forall k | 0 <= k < |Run(start, events).commits| ensures Grounded(start, events, Run(start, events).commits[k]) {
      RunGrounds(start, events, k);
    }
  }

  lemma {:induction false} RisingFit(rs: seq<Commitment>, bound: nat)
    requires AllApart(rs) && forall i :: 0 <= i < |rs| ==> rs[i].arming < bound
    ensures |rs| <= bound
  {
    hide Commitment.RequestKey, Commitment.TicketKey, Commitment.TokenId;
    if rs != [] {
      var n := |rs| - 1;
      forall i | 0 <= i < n ensures rs[..n][i].arming < rs[n].arming {
        assert Apart(rs[i], rs[n]);
      }
      forall i, j | 0 <= i < j < n ensures Apart(rs[..n][i], rs[..n][j]) {
        assert Apart(rs[i], rs[j]);
      }
      RisingFit(rs[..n], rs[n].arming);
    }
  }

  /**
   Nothing runs unarmed: commitments, so effects, never outnumber armings, and no call past `invoke` ever reaches a
   tool.
   */
  lemma {:induction false} NothingRunsUnarmed(start: State, events: seq<Event>)
    requires Starts(start)
    ensures var s := Run(start, events); |Effects(s)| <= |s.commits| <= |s.armings| && s.stray == []
    ensures forall h :: h in Run(start, events).hosts ==> Run(start, events).hosts[h].arm == None
  {
    hide Step, AllApart, UsedUp;
    RunSpends(start, events);
    var s := Run(start, events);
    forall i | 0 <= i < |s.commits| ensures s.commits[i].arming < |s.armings| {
      assert Accounted(s.commits[i], s.markers, s.time, |s.armings|);
    }
    RisingFit(s.commits, |s.armings|);
    PickAll(s.commits, Lived(s.commits));
  }

  // ---- every effect has its entry

  /** What the commitments of host `h` add to its log, in order. */
  ghost function DigestsAt(h: nat, rs: seq<Commitment>): seq<Digest> {
    if rs == [] then []
    else DigestsAt(h, rs[..|rs| - 1]) + if rs[|rs| - 1].h == h then DigestsFor(rs[|rs| - 1]) else []
  }

  ghost predicate Logged(start: State, s: State) {
    s.hosts.Keys == start.hosts.Keys &&
    forall h :: h in s.hosts ==>
      OpenAndSound(s.hosts[h].log) &&
        LoggedDigests(s.hosts[h].log) == LoggedDigests(start.hosts[h].log) + DigestsAt(h, s.commits)
  }

  /** What a delivery adds to the log of host `k`, when it is for host `h`. */
  ghost function AddedAt(k: nat, h: nat, added: seq<Commitment>): seq<Digest> {
    if k == h && added != [] then DigestsFor(added[0]) else []
  }

  lemma DigestsGrow(k: nat, h: nat, rs: seq<Commitment>, added: seq<Commitment>)
    requires |added| <= 1 && forall r :: r in added ==> r.h == h
    ensures DigestsAt(k, rs + added) == DigestsAt(k, rs) + AddedAt(k, h, added)
  {
    hide DigestsFor;
    if added == [] {
      assert rs + added == rs && DigestsAt(k, rs) + [] == DigestsAt(k, rs);
    } else {
      assert added[0] in added && (rs + added)[..|rs|] == rs;
    }
  }

  lemma DeliveredIsLogged(start: State, s: State, h: nat, i: Intent, e: HostEnv)
    requires Logged(start, s) && h in s.hosts
    ensures Logged(start, Delivered(s, h, i, e))
  {
    hide Handled, HandledArming, HandledLog, OpenAndSound, LoggedDigests, DigestsFor, DigestsAt;
    var t, added := Delivered(s, h, i, e), CommitsOf(s, h, i, e);
    IntentLogs(s, h, i, e);
    forall k | k in t.hosts
      ensures OpenAndSound(t.hosts[k].log) &&
              LoggedDigests(t.hosts[k].log) == LoggedDigests(start.hosts[k].log) + DigestsAt(k, t.commits)
    {
      DigestsGrow(k, h, s.commits, added);
      var base, had, more := LoggedDigests(start.hosts[k].log), DigestsAt(k, s.commits), AddedAt(k, h, added);
      assert base + had + more == base + (had + more);
    }
  }

  lemma StepIsLogged(start: State, s: State, ev: Event)
    requires Logged(start, s) && Unarmed(s)
    ensures Logged(start, Step(s, ev))
  {
    hide Delivered, LoggedDigests, DigestsAt, HashChain.Opened;
    if ev.h in s.hosts && s.hosts[ev.h].alive && ev.Delivering? {
      DeliveredIsLogged(start, s, ev.h, ev.intent, ev.env);
    }
  }

  lemma {:induction false} RunIsLogged(start: State, events: seq<Event>)
    requires Starts(start)
    ensures Logged(start, Run(start, events))
  {
    hide Step, Unarmed;
    if events == [] {
      assert forall h :: h in start.hosts ==>
        LoggedDigests(start.hosts[h].log) + [] == LoggedDigests(start.hosts[h].log);
    } else {
      RunIsLogged(start, events[..|events| - 1]);
      RunSpends(start, events[..|events| - 1]);
      StepIsLogged(start, Run(start, events[..|events| - 1]), events[|events| - 1]);
    }
  }

  /** Which of those entries are backed by an effect. */
  ghost function BackedAt(h: nat, rs: seq<Commitment>): (kept: seq<bool>)
    ensures |kept| == |DigestsAt(h, rs)|
  {
    if rs == [] then []
    else
      var r := rs[|rs| - 1];
      BackedAt(h, rs[..|rs| - 1]) + if r.h == h then [r.ran] + (if r.ran && r.ok then [true] else []) else []
  }

  lemma BackedDigests(r: Commitment)
    ensures Pick(DigestsFor(r), [r.ran] + if r.ran && r.ok then [true] else []) == if r.ran then DigestsFor(r) else []
  {
    hide PayloadDigest;
    var ds, kept := DigestsFor(r), [r.ran] + if r.ran && r.ok then [true] else [];
    PickAll(ds, kept);
    if !r.ran { assert ds[..0] == []; }
  }

  lemma {:induction false} EffectsAreBacked(h: nat, rs: seq<Commitment>)
    ensures DigestsAt(h, Pick(rs, Lived(rs))) == Pick(DigestsAt(h, rs), BackedAt(h, rs))
    ensures (forall i :: 0 <= i < |BackedAt(h, rs)| ==> BackedAt(h, rs)[i]) <==>
            forall r :: r in rs && r.h == h ==> r.ran
    decreases |rs|
  {
    hide DigestsFor;
    if rs != [] {
      var init, r := rs[..|rs| - 1], rs[|rs| - 1];
      assert rs == init + [r] && Lived([r]) == [r.ran];
      EffectsAreBacked(h, init);
      EffectsAdd(init, [r]);
      OneMoreEffect(h, init, r);
      OneIsBacked(h, init, r);
      assert forall x :: x in rs <==> x in init || x == r;
    }
  }

  lemma OneIsBacked(h: nat, init: seq<Commitment>, r: Commitment)
    ensures var rs := init + [r];
            && Pick(DigestsAt(h, rs), BackedAt(h, rs)) ==
               Pick(DigestsAt(h, init), BackedAt(h, init)) + (if r.h == h && r.ran then DigestsFor(r) else [])
            && ((forall i :: 0 <= i < |BackedAt(h, rs)| ==> BackedAt(h, rs)[i]) <==>
                (forall i :: 0 <= i < |BackedAt(h, init)| ==> BackedAt(h, init)[i]) && (r.h == h ==> r.ran))
  {
    hide Pick, DigestsFor;
    var rs, kept := init + [r], [r.ran] + if r.ran && r.ok then [true] else [];
    assert rs[..|rs| - 1] == init;
    if r.h == h {
      BackedDigests(r);
      SameLengthAsDigests(r);
      PickAdds(DigestsAt(h, init), DigestsFor(r), BackedAt(h, init), kept);
      AllOf(BackedAt(h, init), kept);
      assert kept[0] == r.ran && (r.ran ==> forall i :: 0 <= i < |kept| ==> kept[i]);
    } else {
      assert DigestsAt(h, init) + [] == DigestsAt(h, init) && BackedAt(h, init) + [] == BackedAt(h, init);
      assert Pick(DigestsAt(h, init), BackedAt(h, init)) + [] == Pick(DigestsAt(h, init), BackedAt(h, init));
    }
  }

  lemma SameLengthAsDigests(r: Commitment)
    ensures |DigestsFor(r)| == |[r.ran] + if r.ran && r.ok then [true] else []|
  {
  }

  lemma OneMoreEffect(h: nat, init: seq<Commitment>, r: Commitment)
    ensures DigestsAt(h, Pick(init, Lived(init)) + Pick([r], [r.ran])) ==
            DigestsAt(h, Pick(init, Lived(init))) + (if r.h == h && r.ran then DigestsFor(r) else [])
  {
    hide DigestsFor;
    var effects := Pick(init, Lived(init));
    assert Pick([r], [r.ran]) == if r.ran then [r] else [];
    if r.ran { assert (effects + [r])[..|effects|] == effects; } else { assert effects + [] == effects; }
    assert DigestsAt(h, effects) + [] == DigestsAt(h, effects);
  }

  lemma AllOf(xs: seq<bool>, ys: seq<bool>)
    ensures (forall i :: 0 <= i < |xs + ys| ==> (xs + ys)[i]) <==>
            (forall i :: 0 <= i < |xs| ==> xs[i]) && forall i :: 0 <= i < |ys| ==> ys[i]
  {
    if forall i :: 0 <= i < |xs + ys| ==> (xs + ys)[i] {
      forall i | 0 <= i < |xs| ensures xs[i] { assert (xs + ys)[i]; }
      forall i | 0 <= i < |ys| ensures ys[i] { assert (xs + ys)[|xs| + i]; }
    }
  }

  /**
   No effect without its entry: every host's log stays sound, over kills and restarts too, and the executed=True
   digests added to it are those of its commitments in order. The effects' digests are a subsequence of them, and
   all of them exactly when no commitment of that host was killed on the way from its entry to the tool.
   */
  lemma EveryEffectIsLogged(start: State, events: seq<Event>, h: nat)
    requires Starts(start) && h in start.hosts
    ensures var s := Run(start, events);
            && h in s.hosts && OpenAndSound(s.hosts[h].log)
            && LoggedDigests(s.hosts[h].log) == LoggedDigests(start.hosts[h].log) + DigestsAt(h, s.commits)
            && DigestsAt(h, Effects(s)) == Pick(DigestsAt(h, s.commits), BackedAt(h, s.commits))
            && (DigestsAt(h, Effects(s)) == DigestsAt(h, s.commits) <==>
                forall c :: c in s.commits && c.h == h ==> c.ran)
  {
    hide Step, DigestsAt, BackedAt, OpenAndSound, LoggedDigests;
    RunIsLogged(start, events);
    EffectsAreBacked(h, Run(start, events).commits);
    PickAll(DigestsAt(h, Run(start, events).commits), BackedAt(h, Run(start, events).commits));
  }

  // ---- request ids

  /**
   One agent's request id leads to at most one commitment, so one effect, whichever hosts it is sent to and however
   they restart.
   */
  lemma OneEffectPerRequestId(start: State, events: seq<Event>, i: nat, j: nat)
    requires Starts(start)
    requires var rs := Run(start, events).commits;
             && i < |rs| && j < |rs| && rs[i].intent.agentId == rs[j].intent.agentId
             && RequestId(rs[i].intent, rs[i].env) == RequestId(rs[j].intent, rs[j].env)
    ensures i == j
  {
    hide Step, ArmedFor, Warranted, Commitment.RequestKey;
    EffectsAreWarrantedAndApart(start, events);
    var rs := Run(start, events).commits;
    assert Grounded(start, events, rs[i]) && Grounded(start, events, rs[j]);
    KeyNamesTheAgent(rs[i]);
    KeyNamesTheAgent(rs[j]);
    assert !Apart(rs[i], rs[j]) && !Apart(rs[j], rs[i]);
  }

  lemma KeyNamesTheAgent(r: Commitment)
    requires Warranted(r)
    ensures r.RequestKey() == "ipc:" + r.intent.agentId + ":" + RequestId(r.intent, r.env)
  {
  }

  ghost predicate Consumed(r: Commitment, key: string) {
    r.RequestKey() == key || r.TicketKey() == key || r.TokenId() == key
  }

  lemma StepSparesOld(s: State, ev: Event, key: string)
    requires Unarmed(s) && key in s.markers && forall i :: 0 <= i < |s.commits| ==> !Consumed(s.commits[i], key)
    ensures var t := Step(s, ev); key in t.markers && forall i :: 0 <= i < |t.commits| ==> !Consumed(t.commits[i], key)
  {
    hide Delivered, CommitsOf, Unarmed, Commitment.RequestKey, Commitment.TicketKey, Commitment.TokenId;
    StepKeepsUnarmed(s, ev);
    StepCommits(s, ev);
    if ev.Delivering? && ev.h in s.hosts && s.hosts[ev.h].alive {
      IntentSpends(s, ev.h, ev.intent, ev.env);
      assert forall r :: r in CommitsOf(s, ev.h, ev.intent, ev.env) ==> !Consumed(r, key);
      assert Step(s, ev).markers == Delivered(s, ev.h, ev.intent, ev.env).markers;
    }
  }

  /** A key already in the store before the run never leads to a commitment: restarts do not reopen replays. */
  lemma {:induction false} OldRequestsStaySpent(start: State, events: seq<Event>, key: string)
    requires Starts(start) && key in start.markers
    ensures var s := Run(start, events);
            key in s.markers && forall i :: 0 <= i < |s.commits| ==> !Consumed(s.commits[i], key)
  {
    hide Step, Consumed, Unarmed;
    if events != [] {
      OldRequestsStaySpent(start, events[..|events| - 1], key);
      RunSpends(start, events[..|events| - 1]);
      StepSparesOld(Run(start, events[..|events| - 1]), events[|events| - 1], key);
    }
  }

  lemma {:induction false} SameUpToColon(a: string, b: string, x: string, y: string)
    requires ':' !in a && ':' !in b && a + ":" + x == b + ":" + y
    ensures a == b && x == y
  {
    var s, t := a + ":" + x, b + ":" + y;
    assert s[0] == t[0];
    if a != "" && b != "" {
      assert s[1..] == a[1..] + ":" + x && t[1..] == b[1..] + ":" + y;
      SameUpToColon(a[1..], b[1..], x, y);
      assert a == [a[0]] + a[1..] && b == [b[0]] + b[1..];
    } else {
      assert a == b == "";
      assert s[1..] == x && t[1..] == y;
    }
  }

  /** Hosts that share a store keep their request ids apart when no agent id holds a colon. */
  lemma KeysTellAgentsApart(a: string, b: string, x: string, y: string)
    requires ':' !in a && ':' !in b
    ensures RequestKey(Some(a), a, x) == RequestKey(Some(b), b, y) <==> a == b && x == y
  {
    if RequestKey(Some(a), a, x) == RequestKey(Some(b), b, y) {
      var s, t := a + ":" + x, b + ":" + y;
      assert RequestKey(Some(a), a, x) == "ipc:" + s && RequestKey(Some(b), b, y) == "ipc:" + t;
      assert ("ipc:" + s)[4..] == s && ("ipc:" + t)[4..] == t;
      SameUpToColon(a, b, x, y);
    }
  }

  /** Every agent id with a colon in it shares keys with the agent named before the colon: a false replay. */
  lemma ColonsMakeKeysCollide(before: string, after: string, x: string)
    ensures RequestKey(Some(before + ":" + after), before + ":" + after, x) ==
            RequestKey(Some(before), before, after + ":" + x)
  {
  }

  /** Two agents' keys can collide exactly when one id is the other's up to a colon; then that is a false replay. */
  lemma AgentsCollideExactly(a: string, b: string)
    ensures (exists x, y :: RequestKey(Some(a), a, x) == RequestKey(Some(b), b, y)) <==>
            a == b || a + ":" <= b || b + ":" <= a
  {
    if x, y :| RequestKey(Some(a), a, x) == RequestKey(Some(b), b, y) {
      CollisionMeansPrefix(a, b, x, y);
    }
    if a == b {
      assert RequestKey(Some(a), a, "") == RequestKey(Some(b), b, "");
    } else if a + ":" <= b {
      assert b == a + ":" + b[|a| + 1..];
      ColonsMakeKeysCollide(a, b[|a| + 1..], "");
    } else if b + ":" <= a {
      assert a == b + ":" + a[|b| + 1..];
      ColonsMakeKeysCollide(b, a[|b| + 1..], "");
    }
  }

  lemma CollisionMeansPrefix(a: string, b: string, x: string, y: string)
    requires RequestKey(Some(a), a, x) == RequestKey(Some(b), b, y)
    ensures a == b || a + ":" <= b || b + ":" <= a
  {
    var s, t := a + ":" + x, b + ":" + y;
    assert RequestKey(Some(a), a, x) == "ipc:" + s && RequestKey(Some(b), b, y) == "ipc:" + t;
    assert ("ipc:" + s)[4..] == s && ("ipc:" + t)[4..] == t;
    assert s[..|a| + 1] == a + ":" && t[..|b| + 1] == b + ":";
    if |a| < |b| {
      assert a + ":" == t[..|a| + 1] == b[..|a| + 1];
    } else if |b| < |a| {
      assert b + ":" == s[..|b| + 1] == a[..|b| + 1];
    } else {
      assert a == s[..|a|] && b == t[..|a|];
    }
  }

  /**
   A false replay as it happens: once agent `before` has had a request with such an id handled, the agent named
   `before:after` is told that its own request, never sent before, is a replay.
   */
  lemma FalseReplay(before: string, after: string, x: string, c: Config, agents: map<string, Meta>,
                    markers: set<string>, i: Intent, e: HostEnv,
                    d: Config, others: map<string, Meta>, j: Intent, f: HostEnv)
    requires x != "" && i.agentId == before && i.requestId == after + ":" + x && !e.requestHealth.Unreachable?
    requires j.agentId == before + ":" + after && j.requestId == x && !f.requestHealth.Unreachable?
    ensures Handled(d, Some(j.agentId), others, Handled(c, Some(before), agents, markers, i, e).1, j, f).0 ==
            RequestReplay
  {
    hide Invoked;
    ColonsMakeKeysCollide(before, after, x);
    var key := RequestKey(Some(before), before, i.requestId);
    assert RequestId(i, e) == i.requestId && RequestId(j, f) == x;
    HandlingKeepsItsKey(c, Some(before), agents, markers, i, e);
  }

  lemma HandlingKeepsItsKey(c: Config, bound: Option<string>, agents: map<string, Meta>, markers: set<string>,
                            i: Intent, e: HostEnv)
    requires (bound.Some? ==> i.agentId == bound.value) && !e.requestHealth.Unreachable?
    ensures RequestKey(bound, i.agentId, RequestId(i, e)) in Handled(c, bound, agents, markers, i, e).1
  {
    hide Invoked;
    var key := RequestKey(bound, i.agentId, RequestId(i, e));
    if Forwarded(bound, agents, markers, i, e) {
      InvokeOnlyAdds(c, agents, markers + {key}, CallOf(c, agents[i.agentId], i, e), e.env);
    }
  }
}
