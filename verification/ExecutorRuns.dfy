/** One executor over any sequence of calls, whatever is presented to it: effects, tokens and audit entries agree. */
module ExecutorRuns {
  import opened Basics
  import opened Values
  import opened Fingerprint
  import opened Kernel
  import opened AuditDigests
  import opened Compose
  import opened Execute
  import opened Pipeline
  import HashChain
  import SpendProtocol
  import SpentStore

  /** One call of `execute`: any action, any claimed result, any tool table, any disk behaviour, and a kill. */
  datatype Attempt = Attempt(action: Action, result: Signed, tools: set<string>, now: int,
                             health: SpentStore.Health, ts: string, auditOk: bool, dies: bool)

  /** A call whose executed=True entry was written: what was committed to, what for, and whether the tool was called. */
  datatype Commitment = Commitment(call: ToolCall, token: string, used: Signed, ran: bool)

  datatype State = State(markers: set<string>, log: HashChain.LogState, commits: seq<Commitment>, calls: seq<ToolCall>)

  function Outcome(key: string, s: State, x: Attempt): GateAnswer {
    Prepared(key, x.action, x.result, x.tools, x.now, s.markers, x.health)
  }

  /** After a kill another executor goes on, on the same store and the log it reopens. */
  function Step(key: string, s: State, x: Attempt): State {
    var g := Outcome(key, s, x);
    var markers := MarkersAfter(key, x.action, x.result, x.tools, x.now, s.markers, x.health);
    if g.Escapes? || !x.auditOk then s.(markers := markers)
    else
      var log := HashChain.Recorded(s.log, x.ts, AuditContent(x.action, x.result.decision, g));
      if g.Passes? then
        var call := ToolCall(g.tool, g.payload);
        State(markers, log, s.commits + [Commitment(call, g.tokenId, x.result, !x.dies)],
              s.calls + if x.dies then [] else [call])
      else s.(markers := markers, log := log)
  }

  function Run(key: string, start: State, xs: seq<Attempt>): State {
    if xs == [] then start else Step(key, Run(key, start, xs[..|xs| - 1]), xs[|xs| - 1])
  }

  function Calls(cs: seq<Commitment>): seq<ToolCall> {
    seq(|cs|, i requires 0 <= i < |cs| => cs[i].call)
  }

  function Digests(cs: seq<Commitment>): seq<Digest> {
    seq(|cs|, i requires 0 <= i < |cs| => PayloadDigest(cs[i].call.payload))
  }

  /** Which commitments went on to their effect. */
  function Survived(cs: seq<Commitment>): seq<bool> {
    seq(|cs|, i requires 0 <= i < |cs| => cs[i].ran)
  }

  ghost predicate TokensDiffer(cs: seq<Commitment>) {
    forall i, j :: 0 <= i < j < |cs| ==> cs[i].token != cs[j].token
  }

  ghost predicate Spending(start: State, s: State) {
    && TokensDiffer(s.commits) && start.markers <= s.markers
    && forall i :: 0 <= i < |s.commits| ==> s.commits[i].token in s.markers && s.commits[i].token !in start.markers
  }

  ghost predicate Audited(start: State, s: State) {
    && OpenAndSound(s.log)
    && LoggedDigests(s.log) == LoggedDigests(start.log) + Digests(s.commits)
    && s.calls == Pick(Calls(s.commits), Survived(s.commits))
  }

  lemma TokenOfPass(key: string, s: State, x: Attempt)
    requires Outcome(key, s, x).Passes?
    ensures Outcome(key, s, x).tokenId !in s.markers
    ensures Outcome(key, s, x).tokenId in Step(key, s, x).markers
  {
  }

  lemma StepSpends(key: string, start: State, s: State, x: Attempt)
    requires Spending(start, s)
    ensures Spending(start, Step(key, s, x))
  {
    hide HashChain.Recorded, AuditContent;
    if Outcome(key, s, x).Passes? { TokenOfPass(key, s, x); }
  }

  lemma CommitAdds(cs: seq<Commitment>, c: Commitment)
    ensures Digests(cs + [c]) == Digests(cs) + [PayloadDigest(c.call.payload)]
    ensures Pick(Calls(cs + [c]), Survived(cs + [c])) == Pick(Calls(cs), Survived(cs)) + if c.ran then [c.call] else []
  {
    assert Calls(cs + [c])[..|cs|] == Calls(cs) && Survived(cs + [c])[..|cs|] == Survived(cs);
  }

  /** A call that writes its entry keeps the log sound and records exactly the effect it commits to. */
  lemma StepWrites(key: string, start: State, s: State, x: Attempt)
    requires Audited(start, s) && !Outcome(key, s, x).Escapes? && x.auditOk
    ensures Audited(start, Step(key, s, x))
  {
    hide Prepared, MarkersAfter, HashChain.Sound, HashChain.Opened, LoggedDigests, Digests, Calls, Survived;
    var g := Outcome(key, s, x);
    var content := AuditContent(x.action, x.result.decision, g);
    HashChain.RecordKeeps(s.log, x.ts, content);
    RecordedDigests(s.log, x.ts, content);
    if g.Passes? {
      CommitAdds(s.commits, Commitment(ToolCall(g.tool, g.payload), g.tokenId, x.result, !x.dies));
    }
  }

  lemma StepAudits(key: string, start: State, s: State, x: Attempt)
    requires Audited(start, s)
    ensures Audited(start, Step(key, s, x))
  {
    hide Prepared, MarkersAfter, HashChain.Recorded, OpenAndSound, LoggedDigests, Digests, Calls, Survived, Pick;
    if !Outcome(key, s, x).Escapes? && x.auditOk { StepWrites(key, start, s, x); }
  }

  /** An executor opened on a log that verifies, or on none yet. */
  ghost predicate Starts(start: State) {
    start.commits == [] && start.calls == [] && OpenAndSound(start.log)
  }

  lemma {:induction false} RunKeeps(key: string, start: State, xs: seq<Attempt>)
    requires Starts(start)
    ensures Spending(start, Run(key, start, xs)) && Audited(start, Run(key, start, xs))
  {
    hide Step;
    if xs == [] {
      assert LoggedDigests(start.log) == LoggedDigests(start.log) + Digests([]);
    } else {
      RunKeeps(key, start, xs[..|xs| - 1]);
      StepSpends(key, start, Run(key, start, xs[..|xs| - 1]), xs[|xs| - 1]);
      StepAudits(key, start, Run(key, start, xs[..|xs| - 1]), xs[|xs| - 1]);
    }
  }

  lemma DigestsOfCalls(cs: seq<Commitment>)
    ensures CallDigests(Pick(Calls(cs), Survived(cs))) == Pick(Digests(cs), Survived(cs))
    decreases |cs|
  {
    if cs != [] {
      var init, c := cs[..|cs| - 1], cs[|cs| - 1];
      assert cs == init + [c];
      DigestsOfCalls(init);
      CommitAdds(init, c);
      assert Digests(cs)[..|init|] == Digests(init) && Survived(cs)[..|init|] == Survived(init);
    }
  }

  function CallDigests(cs: seq<ToolCall>): seq<Digest> {
    seq(|cs|, i requires 0 <= i < |cs| => PayloadDigest(cs[i].payload))
  }

  /**
   Over any sequence of calls, hostile ones and kills included: the audit log stays sound; the executed=True entries
   added to it pin the payloads committed to, in order; the effects are those whose process lived on to call the
   tool, so entries and effects agree exactly when none was killed in between; and each used up a token of its own.
   */
  lemma AuditMatchesEffects(key: string, start: State, xs: seq<Attempt>)
    requires Starts(start)
    ensures var s := Run(key, start, xs);
            && OpenAndSound(s.log)
            && LoggedDigests(s.log) == LoggedDigests(start.log) + Digests(s.commits)
            && CallDigests(s.calls) == Pick(Digests(s.commits), Survived(s.commits))
            && (CallDigests(s.calls) == Digests(s.commits) <==> forall c :: c in s.commits ==> c.ran)
    ensures Spending(start, Run(key, start, xs))
  {
    hide Step, CallDigests, Digests, Survived, Calls, Pick;
    RunKeeps(key, start, xs);
    var s := Run(key, start, xs);
    SameLengths(s.commits);
    DigestsOfCalls(s.commits);
    PickAll(Digests(s.commits), Survived(s.commits));
    AllSurvived(s.commits);
  }

  lemma SameLengths(cs: seq<Commitment>)
    ensures |Digests(cs)| == |Survived(cs)| == |Calls(cs)| == |cs|
  {
  }

  lemma AllSurvived(cs: seq<Commitment>)
    ensures (forall i :: 0 <= i < |cs| ==> Survived(cs)[i]) <==> forall c :: c in cs ==> c.ran
  {
    if forall i :: 0 <= i < |cs| ==> Survived(cs)[i] {
      forall i | 0 <= i < |cs| ensures cs[i].ran { assert Survived(cs)[i]; }
    }
  }

  // ---- one decision, at most one effect

  /** One decision of the kernel: the setting it ruled in, the action, and what the evaluators answered. */
  datatype Issue = Issue(setting: Setting, action: Action, outs: seq<Compose.Outcome>)

  ghost function ResultOf(n: Issue): Signed {
    SignedBy(n.setting, n.action, n.outs)
  }

  /** Whatever verifies under the kernel's key is one of the results it issued. */
  ghost predicate OnlyIssued(key: string, issues: seq<Issue>, xs: seq<Attempt>) {
    forall x :: x in xs && Verifies(x.result, key) ==>
      exists n :: n in issues && n.setting.key == key && x.result == ResultOf(n)
  }

  /** The call is the effect that was decided: its tool, on the payload owed. */
  ghost predicate IsDecided(n: Issue, used: Signed, call: ToolCall) {
    && used == ResultOf(n)
    && call.tool == ToolRun(n.action)
    && Encode(Dict(call.payload)) == Encode(Dict(Delivered(n.setting, n.action)))
  }

  lemma PassIsDecided(n: Issue, s: State, x: Attempt)
    requires x.result == ResultOf(n) && Outcome(n.setting.key, s, x).Passes?
    ensures var g := Outcome(n.setting.key, s, x); IsDecided(n, x.result, ToolCall(g.tool, g.payload))
  {
    hide Gates, Delivered, ToolRun, Ruled;
    NoConfusedDeputy(n.setting, n.action, n.outs, x.action, x.tools, x.now);
  }

  /**
   "Exactly one audit entry per call", over anything that is issued by the kernel or does not verify: a call leaves
   the log as it was exactly when the audit write fails, or the result verifies and the live payload it is presented
   with is not plain data; otherwise it appends one line.
   */
  lemma UnauditedExactly(key: string, issues: seq<Issue>, s: State, x: Attempt)
    requires OnlyIssued(key, issues, [x])
    ensures Step(key, s, x).log == s.log <==> !x.auditOk || (Verifies(x.result, key) && !Fingerprintable(x.action))
    ensures Step(key, s, x).log != s.log ==>
              exists e :: Step(key, s, x).log.disk == Some(LogLines(s.log) + [HashChain.Line(e)]) &&
                          e.body.content.actor == x.action.actor &&
                          (e.body.content.executed == Some(true) <==> Outcome(key, s, x).Passes?)
  {
    hide SignedBy, HashChain.Recorded;
    assert x in [x];
    if Verifies(x.result, key) {
      var n :| n in issues && n.setting.key == key && x.result == ResultOf(n);
      SignedEscapesExactly(n.setting, n.action, n.outs, x.action, x.tools, x.now, s.markers, x.health);
    } else {
      assert Outcome(key, s, x) == Refuses(NotAuthenticated);
    }
    EntryIsWritten(key, s, x);
  }

  lemma EntryIsWritten(key: string, s: State, x: Attempt)
    ensures var g := Outcome(key, s, x);
            if g.Escapes? || !x.auditOk then Step(key, s, x).log == s.log
            else
              var e := HashChain.NextEntry(s.log, x.ts, AuditContent(x.action, x.result.decision, g));
              Step(key, s, x).log != s.log && Step(key, s, x).log.disk == Some(LogLines(s.log) + [HashChain.Line(e)])
  {
    hide Prepared, MarkersAfter;
  }

  const OPAQUE_TRANSFER := TRANSFER.(payload := map["amount" := Opaque(0)])

  /** One such call: a decision signed for the transfer, presented with a live amount that is not plain data. */
  lemma OneUnauditedCall(s: State, x: Attempt)
    requires x.result == SignedBy(TransferOf(None, Allow, []), TRANSFER, []) && x.action == OPAQUE_TRANSFER
    ensures Step("k", s, x) == s
  {
    hide SignedBy;
    assert !Fingerprintable(OPAQUE_TRANSFER) by {
      assert "amount" in OPAQUE_TRANSFER.payload && !Encodable(OPAQUE_TRANSFER.payload["amount"]);
    }
    SignedEscapesExactly(TransferOf(None, Allow, []), TRANSFER, [], x.action, x.tools, x.now, s.markers, x.health);
  }

  lemma StepUses(key: string, s: State, x: Attempt)
    ensures var g, s' := Outcome(key, s, x), Step(key, s, x);
            s'.commits == s.commits ||
            (g.Passes? && Verifies(x.result, key) && x.result.decision.tokenId == Some(g.tokenId) &&
             s'.commits == s.commits + [Commitment(ToolCall(g.tool, g.payload), g.tokenId, x.result, !x.dies)])
  {
  }

  /** What each commitment used: the result that names its token, issued and decided for just that call. */
  ghost predicate Traced(issues: seq<Issue>, c: Commitment) {
    && c.used.decision.tokenId == Some(c.token)
    && exists n :: n in issues && IsDecided(n, c.used, c.call)
  }

  lemma {:induction false} EveryEffectWasDecided(key: string, start: State, xs: seq<Attempt>, issues: seq<Issue>)
    requires Starts(start) && OnlyIssued(key, issues, xs)
    ensures forall c :: c in Run(key, start, xs).commits ==> Traced(issues, c)
  {
    hide Step, Prepared, Verifies, IsDecided, ResultOf;
    if xs != [] {
      var init, x := xs[..|xs| - 1], xs[|xs| - 1];
      assert x in xs && forall y :: y in init ==> y in xs;
      EveryEffectWasDecided(key, start, init, issues);
      var s := Run(key, start, init);
      StepUses(key, s, x);
      var g := Outcome(key, s, x);
      if g.Passes? && Verifies(x.result, key) {
        var n :| n in issues && n.setting.key == key && x.result == ResultOf(n);
        PassIsDecided(n, s, x);
      }
    }
  }

  /**
   One decision, at most one effect, and it is the decided one: over any calls that present nothing but what the
   kernel issued and forgeries, no two commitments used the same decision, and each is what its result decided. The
   effects are the commitments that were not killed first.
   */
  lemma OneDecisionOneEffect(key: string, start: State, xs: seq<Attempt>, issues: seq<Issue>)
    requires Starts(start) && OnlyIssued(key, issues, xs)
    ensures var s := Run(key, start, xs);
            && s.calls == Pick(Calls(s.commits), Survived(s.commits))
            && (forall i, j :: 0 <= i < j < |s.commits| ==> s.commits[i].used.decision != s.commits[j].used.decision)
            && forall c :: c in s.commits ==> exists n :: n in issues && IsDecided(n, c.used, c.call)
  {
    hide IsDecided, Step;
    EveryEffectWasDecided(key, start, xs, issues);
    RunKeeps(key, start, xs);
    var s := Run(key, start, xs);
    forall i, j | 0 <= i < j < |s.commits| ensures s.commits[i].used.decision != s.commits[j].used.decision {
      assert s.commits[i].token != s.commits[j].token;
      assert Traced(issues, s.commits[i]) && Traced(issues, s.commits[j]);
    }
  }

  // ---- the interleaved protocol, run by one executor alone

  /** Begin, create, write, audit, act or refuse, one after the other; a kill comes in place of the act. */
  function Solo(w: SpendProtocol.World, e: nat, t: string, x: Attempt): SpendProtocol.World {
    var gated := SpendProtocol.Next(w, SpendProtocol.Begin(e, t));
    var created := SpendProtocol.Next(gated, SpendProtocol.Create(e, !x.health.Unreachable?));
    var written := SpendProtocol.Next(created, SpendProtocol.Write(e, !x.health.WriteFails?));
    AfterTheWrite(written, e, x)
  }

  function AfterTheWrite(written: SpendProtocol.World, e: nat, x: Attempt): SpendProtocol.World {
    AfterTheAudit(SpendProtocol.Next(written, SpendProtocol.Audit(e, x.auditOk)), e, x)
  }

  function AfterTheAudit(audited: SpendProtocol.World, e: nat, x: Attempt): SpendProtocol.World {
    var step := if x.dies && audited.PhaseOf(e).Audited? then SpendProtocol.Crash(e) else SpendProtocol.Act(e);
    SpendProtocol.Next(SpendProtocol.Next(audited, step), SpendProtocol.Refuse(e, x.auditOk))
  }

  /** Before the spend, a refusing call touches neither store nor tools, and the protocol has no step. */
  lemma RefusedBeforeTheSpend(key: string, s: State, x: Attempt)
    requires !Gates(key, x.action, x.result, x.tools, x.now).Passes?
    ensures Step(key, s, x).markers == s.markers && Step(key, s, x).calls == s.calls
  {
  }

  lemma WonAudit(written: SpendProtocol.World, e: nat, t: string, ok: bool)
    requires written.PhaseOf(e) == SpendProtocol.Spent(t)
    ensures var v := SpendProtocol.Next(written, SpendProtocol.Audit(e, ok));
            && v.markers == written.markers
            && v.PhaseOf(e) == (if ok then SpendProtocol.Audited(t) else SpendProtocol.Idle)
            && v.events == written.events + (if ok then multiset{SpendProtocol.AuditExecuted(t)} else multiset{})
  {
  }

  lemma WonAct(audited: SpendProtocol.World, e: nat, t: string, x: Attempt)
    requires audited.PhaseOf(e) == (if x.auditOk then SpendProtocol.Audited(t) else SpendProtocol.Idle)
    ensures var v := AfterTheAudit(audited, e, x);
            && v.markers == audited.markers && v.PhaseOf(e) == SpendProtocol.Idle
            && v.events == audited.events +
               (if x.auditOk && !x.dies then multiset{SpendProtocol.Effect(t)} else multiset{})
  {
  }

  lemma WonTail(written: SpendProtocol.World, e: nat, t: string, x: Attempt)
    requires written.PhaseOf(e) == SpendProtocol.Spent(t)
    ensures var v := AfterTheWrite(written, e, x);
            && v.markers == written.markers && v.PhaseOf(e) == SpendProtocol.Idle
            && v.events == written.events +
                           (if x.auditOk then multiset{SpendProtocol.AuditExecuted(t)} else multiset{}) +
                           (if x.auditOk && !x.dies then multiset{SpendProtocol.Effect(t)} else multiset{})
  {
    hide SpendProtocol.Next, AfterTheAudit;
    WonAudit(written, e, t, x.auditOk);
    WonAct(SpendProtocol.Next(written, SpendProtocol.Audit(e, x.auditOk)), e, t, x);
  }

  lemma LostTail(written: SpendProtocol.World, e: nat, t: string, x: Attempt)
    requires written.PhaseOf(e) == SpendProtocol.Refusing(t)
    ensures var v := AfterTheWrite(written, e, x);
            && v.markers == written.markers && v.PhaseOf(e) == SpendProtocol.Idle
            && v.events == written.events + (if x.auditOk then multiset{SpendProtocol.AuditRefused(t)} else multiset{})
  {
  }

  /** One executor's uninterrupted protocol steps are one call of `execute` that reached the spend. */
  lemma SoloIsExecute(key: string, s: State, x: Attempt, w: SpendProtocol.World, e: nat)
    requires Gates(key, x.action, x.result, x.tools, x.now).Passes?
    requires w.markers == s.markers && w.PhaseOf(e) == SpendProtocol.Idle
    ensures var t, g, s' := Gates(key, x.action, x.result, x.tools, x.now).tokenId, Outcome(key, s, x), Step(key, s, x);
            var v := Solo(w, e, t, x);
            && v.markers == s'.markers && v.PhaseOf(e) == SpendProtocol.Idle
            && SpendProtocol.Spends(v, t) == SpendProtocol.Spends(w, t) + (if g.Passes? then 1 else 0)
            && SpendProtocol.ExecutedAudits(v, t) == SpendProtocol.ExecutedAudits(w, t) + |s'.commits| - |s.commits|
            && SpendProtocol.Effects(v, t) == SpendProtocol.Effects(w, t) + |s'.calls| - |s.calls|
            && v.events[SpendProtocol.AuditRefused(t)] ==
               w.events[SpendProtocol.AuditRefused(t)] + (if g.Refuses? && x.auditOk then 1 else 0)
  {
    hide Gates, AfterTheWrite;
    var t := Gates(key, x.action, x.result, x.tools, x.now).tokenId;
    var gated := SpendProtocol.Next(w, SpendProtocol.Begin(e, t));
    var written := SpendProtocol.Next(SpendProtocol.Next(gated, SpendProtocol.Create(e, !x.health.Unreachable?)),
                                      SpendProtocol.Write(e, !x.health.WriteFails?));
    OnlyTheSpendIsCounted(w, gated, written, e, t, x);
    SpendProtocol.TwoStepsAreTrySpend(gated, e, t, x.health);
    if written.PhaseOf(e) == SpendProtocol.Spent(t) {
      WonTail(written, e, t, x);
    } else {
      LostTail(written, e, t, x);
    }
  }

  lemma OnlyTheSpendIsCounted(w: SpendProtocol.World, gated: SpendProtocol.World, written: SpendProtocol.World,
                              e: nat, t: string, x: Attempt)
    requires w.PhaseOf(e) == SpendProtocol.Idle && gated == SpendProtocol.Next(w, SpendProtocol.Begin(e, t))
    requires written == SpendProtocol.Next(SpendProtocol.Next(gated, SpendProtocol.Create(e, !x.health.Unreachable?)),
                                           SpendProtocol.Write(e, !x.health.WriteFails?))
    ensures gated.markers == w.markers && gated.PhaseOf(e) == SpendProtocol.Gated(t)
    ensures SpendProtocol.Spends(gated, t) == SpendProtocol.Spends(w, t)
    ensures SpendProtocol.ExecutedAudits(written, t) == SpendProtocol.ExecutedAudits(w, t)
    ensures SpendProtocol.Effects(written, t) == SpendProtocol.Effects(w, t)
    ensures written.events[SpendProtocol.AuditRefused(t)] == w.events[SpendProtocol.AuditRefused(t)]
  {
  }

  /** The class takes exactly these steps. */
  method Perform(pep: Executor, x: Attempt, ghost s: State) returns (g: GateAnswer)
    requires s.markers == pep.store.markers && s.log == pep.log.State() && s.calls == pep.calls
    modifies pep, pep.store, pep.log, pep.log.file
    ensures g == Outcome(pep.key, s, x)
    ensures var s' := Step(pep.key, s, x);
            pep.store.markers == s'.markers && pep.log.State() == s'.log && pep.calls == s'.calls
  {
    g := pep.Execute(x.action, x.result, x.tools, x.now, x.health, x.ts, x.auditOk, x.dies);
  }
}
