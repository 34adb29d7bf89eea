/**
 One sealed executor under any interleaving of armings and executions, whoever makes them: the steps of several
 calls of `invoke`, and callers in between who go straight to the executor.
 */
module ArmingRuns {
  import opened Basics
  import opened Kernel
  import opened Execute
  import opened Sealed

  datatype Move = Arming(arm: Arm) | Executing(call: DirectCall)

  /** One effect, the number of the arming it used up, and what it was presented with. */
  datatype Fired = Fired(arming: nat, result: Signed, tools: map<string, nat>, call: ToolCall)

  datatype State = State(arm: Option<Arm>, armings: seq<Arm>, markers: set<string>, fired: seq<Fired>)

  function Answer(key: string, s: State, x: DirectCall): GateAnswer {
    Prepared(key, x.action, x.result, x.tools.Keys, x.now, s.markers, x.health)
  }

  function Step(key: string, s: State, m: Move): State {
    match m
    case Arming(arm) => s.(arm := Some(arm), armings := s.armings + [arm])
    case Executing(x) =>
      if s.arm != Some(Arm(x.result.decision.actionBinding, x.tools)) || s.armings == [] then s.(arm := None)
      else
        var g := Answer(key, s, x);
        State(None, s.armings,
              MarkersAfter(key, x.action, x.result, x.tools.Keys, x.now, s.markers, x.health),
              s.fired + if g.Passes? && x.auditOk && !x.dies
                        then [Fired(|s.armings| - 1, x.result, x.tools, ToolCall(g.tool, g.payload))] else [])
  }

  function Run(key: string, markers: set<string>, moves: seq<Move>): State {
    if moves == [] then State(None, [], markers, [])
    else Step(key, Run(key, markers, moves[..|moves| - 1]), moves[|moves| - 1])
  }

  /** How many armings have been used up or replaced. */
  function Spent(s: State): int {
    |s.armings| - if s.arm.Some? then 1 else 0
  }

  /** The effect was armed for: this decision, and these bodies, one of which is the tool's. */
  ghost predicate Armed(f: Fired, armings: seq<Arm>) {
    && f.arming < |armings| && armings[f.arming] == Arm(f.result.decision.actionBinding, f.tools)
    && f.call.tool in f.tools
  }

  ghost predicate Inv(s: State) {
    && (s.arm.Some? ==> s.armings != [] && s.armings[|s.armings| - 1] == s.arm.value)
    && (forall i :: 0 <= i < |s.fired| ==> Armed(s.fired[i], s.armings) && s.fired[i].arming < Spent(s))
    && (forall i, j :: 0 <= i < j < |s.fired| ==> s.fired[i].arming < s.fired[j].arming)
    && |s.fired| <= Spent(s)
  }

  lemma PassIsInTheTable(key: string, s: State, x: DirectCall)
    requires Answer(key, s, x).Passes?
    ensures Answer(key, s, x).tool in x.tools
  {
  }

  lemma StepKeeps(key: string, s: State, m: Move)
    requires Inv(s)
    ensures Inv(Step(key, s, m))
  {
    hide Prepared, MarkersAfter;
    if m.Executing? && Answer(key, s, m.call).Passes? { PassIsInTheTable(key, s, m.call); }
  }

  /**
   However armings and executions interleave: each effect used up an arming of its own, made for just the decision
   and the bodies it was presented with; so effects never outnumber armings.
   */
  lemma {:induction false} EffectsUseTheirArmings(key: string, markers: set<string>, moves: seq<Move>)
    ensures Inv(Run(key, markers, moves))
  {
    hide Step;
    if moves != [] {
      EffectsUseTheirArmings(key, markers, moves[..|moves| - 1]);
      StepKeeps(key, Run(key, markers, moves[..|moves| - 1]), moves[|moves| - 1]);
    }
  }

  // ---- the class takes these steps

  method Arms(executor: SealedExecutor, ghost s: State, arm: Arm)
    requires s.arm == executor.arm && s.armings == executor.armings
    modifies executor
    ensures Step(executor.pep.key, s, Arming(arm)).arm == executor.arm
    ensures Step(executor.pep.key, s, Arming(arm)).armings == executor.armings
  {
    executor.ArmOnce(arm.binding, arm.tools);
  }

  method Executes(executor: SealedExecutor, ghost s: State, x: DirectCall) returns (g: Option<GateAnswer>)
    requires Inv(s) && s.arm == executor.arm && s.armings == executor.armings && s.markers == executor.pep.store.markers
    modifies executor, executor.pep, executor.pep.store, executor.pep.log, executor.pep.log.file
    ensures var t := Step(executor.pep.key, s, Executing(x));
            && t.arm == executor.arm && t.armings == executor.armings && t.markers == executor.pep.store.markers
            && |executor.pep.calls| - |old(executor.pep.calls)| == |t.fired| - |s.fired|
  {
    hide Prepared, MarkersAfter, AuditContent;
    g := executor.Execute(x.action, x.result, x.tools, x.now, x.health, x.ts, x.auditOk, x.dies);
  }
}
