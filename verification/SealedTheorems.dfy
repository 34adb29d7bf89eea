/** What an effect on the sealed surface implies. */
module SealedTheorems {
  import opened Basics
  import opened Values
  import opened Fingerprint
  import opened Compose
  import opened AuditDigests
  import opened AuthorityPdp
  import opened Kernel
  import opened Execute
  import opened Pipeline
  import opened Sealed
  import HashChain
  import Sorting
  import SpentStore

  // ---- the mandatory legitimacy binding

  lemma {:induction false} FoldHasNoBinding(own: Decision, outs: seq<Outcome>, ref: string)
    requires own.legitimacyBinding.None?
    ensures Fold(own, outs, ref).legitimacyBinding.None?
  {
    if outs != [] { FoldHasNoBinding(own, outs[..|outs| - 1], ref); }
  }

  lemma NoAxiomsNoList(outs: seq<Outcome>)
    ensures SortedAxioms(outs) == [] <==> Axioms(outs) == []
  {
    var listed, named := SortedAxioms(outs), set x | x in Axioms(outs);
    assert Axioms(outs) != [] ==> Axioms(outs)[0] in named;
    assert listed != [] ==> listed[0] in named;
  }

  lemma StampBinds(f: Decision, a: Action, auth: AuthorityResult, digests: seq<string>, axioms: seq<string>,
                   draws: Draws)
    requires f.legitimacyBinding.None?
    ensures BindingMatches(Stamp(f, a, auth, digests, axioms, draws))
    ensures Stamp(f, a, auth, digests, axioms, draws).legitimacyBinding.Some? <==> digests != [] || axioms != []
  {
  }

  /**
   For any evaluators: a binding in a kernel decision is always the one `invoke` recomputes, and there is one
   exactly when some evaluator handed in a digest or an axiom.
   */
  lemma KernelBindingsMatch(w: Setting, a: Action, outs: seq<Outcome>)
    ensures BindingMatches(Ruled(w, a, outs))
    ensures Ruled(w, a, outs).legitimacyBinding.Some? <==> Digests(outs) != [] || Axioms(outs) != []
  {
    OwnShape(w, a);
    FoldHasNoBinding(Own(w, a), outs, RefOf(a));
    StampBinds(Fold(Own(w, a), outs, RefOf(a)), a, w.auth, Digests(outs), SortedAxioms(outs), w.draws);
    NoAxiomsNoList(outs);
  }

  /** The digest an evaluator hands in, if it hands in this one. */
  ghost predicate HandsIn(o: Outcome, digest: string) {
    o.Returned? && o.digest == Some(Text(digest))
  }

  /** The last evaluator of all to hand in a digest is number `k`. */
  ghost predicate LastToHandIn(outs: seq<Outcome>, k: nat, digest: string) {
    && k < |outs| && digest != "" && HandsIn(outs[k], digest)
    && forall j, other :: k < j < |outs| && HandsIn(outs[j], other) ==> other == ""
  }

  lemma {:induction false} LastDigestCounts(outs: seq<Outcome>, k: nat, digest: string)
    requires LastToHandIn(outs, k, digest)
    ensures Digests(outs) != [] && LastOr(Digests(outs), "") == digest
    decreases |outs|
  {
    var n := |outs| - 1;
    if k < n {
      var o := outs[n];
      assert o.Returned? && o.digest.Some? && o.digest.value.Text? ==> HandsIn(outs[n], o.digest.value.s);
      LastDigestCounts(outs[..n], k, digest);
    }
  }

  lemma {:induction false} AxiomMember(outs: seq<Outcome>, x: string)
    ensures x in Axioms(outs) <==>
            exists o :: o in outs && o.Returned? && o.axiomIds.Some? && o.axiomIds.value.Ids? &&
              x in o.axiomIds.value.ids
  {
    if outs != [] {
      var init := outs[..|outs| - 1];
      AxiomMember(init, x);
      assert forall o :: o in outs <==> o in init || o == outs[|outs| - 1];
    }
  }

  /**
   What evidence is signed: the last digest handed in and every axiom named, whichever evaluator governs, with the
   action's fingerprint and the verdict signed with them.
   */
  lemma EvidenceIsBound(w: Setting, a: Action, outs: seq<Outcome>, k: nat, digest: string) returns (ids: seq<string>)
    requires LastToHandIn(outs, k, digest)
    ensures var d := Ruled(w, a, outs);
            && d.legitimacyDigest == Some(Text(digest)) && d.axiomIds == Some(Ids(ids))
            && d.legitimacyBinding == Some(LegitimacyBinding(ActionFingerprint(a), digest, ids, d.verdict))
    ensures Sorting.Sorted(ids) && multiset(ids) == multiset(set x | x in ids)
    ensures forall x :: x in ids <==>
              exists o :: o in outs && o.Returned? && o.axiomIds.Some? && o.axiomIds.value.Ids? &&
                          x in o.axiomIds.value.ids
  {
    hide OwnRuling, Fold, Digests, Axioms, Normalised, LastToHandIn;
    LastDigestCounts(outs, k, digest);
    ids := SortedAxioms(outs);
    assert (set x | x in ids) == set x | x in Axioms(outs) by {
      assert forall x :: x in ids <==> x in multiset(ids);
    }
    forall x ensures x in ids <==>
                     exists o :: o in outs && o.Returned? && o.axiomIds.Some? && o.axiomIds.value.Ids? &&
                                 x in o.axiomIds.value.ids
    {
      AxiomMember(outs, x);
      assert x in ids <==> x in set y | y in Axioms(outs);
    }
  }

  /** What `invoke` lets pass: the binding of the very fields beside it, or none on a decision that permits nothing. */
  lemma BindingOkExactly(d: Decision, fingerprint: Digest, digest: string, ids: seq<string>)
    requires d.actionBinding == Some(fingerprint) && d.legitimacyDigest == Some(Text(digest))
    requires d.axiomIds == Some(Ids(ids))
    ensures BindingOk(d) <==>
            || d.legitimacyBinding == Some(LegitimacyBinding(fingerprint, digest, ids, d.verdict))
            || (d.legitimacyBinding == None && d.verdict in {Defer, Deny})
  {
  }

  lemma TimeoutDenies(own: Decision, ref: string)
    ensures Fold(own, [TriState(AnswerTimedOut)], ref).verdict == Deny
  {
  }

  lemma AnswersLeaveEvidence(l: LegitimacyAnswer)
    requires !l.AnswerTimedOut?
    ensures Digests([TriState(l)]) != []
  {
  }

  /** The two mandatory-binding refusals never fire on what the kernel decides under tri-state legitimacy. */
  lemma BindingNeverRefuses(w: Setting, a: Action, l: LegitimacyAnswer)
    ensures BindingOk(Ruled(w, a, [TriState(l)]))
  {
    hide Stamp, OwnRuling, Fold, Digests, TriState;
    KernelBindingsMatch(w, a, [TriState(l)]);
    RuledFields(w, a, [TriState(l)]);
    if l.AnswerTimedOut? {
      TimeoutDenies(Own(w, a), RefOf(a));
    } else {
      AnswersLeaveEvidence(l);
    }
  }

  // ---- executed implies admitted, legitimate, authorised and enforced

  ghost function SettingFor(c: Config, call: Call, env: Env, markers: set<string>): Setting {
    Setting(c.policy, c.kernelKey, None, AuthorityFor(SealedAction(call, env), c.provider, env.pdp), env.draws,
            {call.tool}, env.executedAt, markers, env.spendHealth)
  }

  /** Everything that stood behind one effect. */
  ghost predicate Warranted(c: Config, agents: map<string, Meta>, markers: set<string>, call: Call, env: Env,
                            ran: ToolCall) {
    var a := SealedAction(call, env);
    var admitted := markers + {TicketKey(call.ticket)};
    && Admissible(c, agents, call, env.verifiedAt) && TicketVerifies(c.officeSecret, call.ticket, env.consumedAt)
    && TicketKey(call.ticket) !in markers
    && Legitimate(env.legitimacy)
    && Permitting(AuthorityFor(a, c.provider, env.pdp).verdict)
    && Permitting(SealedDecision(c, call, env).verdict)
    && env.draws.tokenId !in admitted
    && ran == ToolCall(call.tool, Delivered(SettingFor(c, call, env, admitted), a))
  }

  lemma PassingSpendsItsToken(key: string, a: Action, s: Signed, tools: set<string>, now: int,
                              markers: set<string>, health: SpentStore.Health)
    requires Prepared(key, a, s, tools, now, markers, health).Passes?
    ensures Fingerprintable(a) && s.decision.tokenId.Some? && s.decision.tokenId.value !in markers
    ensures MarkersAfter(key, a, s, tools, now, markers, health) == markers + {s.decision.tokenId.value}
  {
  }

  lemma RanMeansEffect(c: Config, markers: set<string>, call: Call, env: Env)
    requires call.tool in c.bodies && AfterAdmission(c, markers, call, env).0.Committed()
    ensures Fingerprintable(SealedAction(call, env))
    ensures Effect(SettingFor(c, call, env, markers), SealedAction(call, env), [TriState(env.legitimacy)]) ==
            Some(AfterAdmission(c, markers, call, env).0.call)
    ensures AfterAdmission(c, markers, call, env).1 == markers + {env.draws.tokenId}
  {
    var w, a, outs := SettingFor(c, call, env, markers), SealedAction(call, env), [TriState(env.legitimacy)];
    var s := SealedSigned(c, call, env);
    assert s == SignedBy(w, a, outs);
    PassingSpendsItsToken(c.kernelKey, a, s, {call.tool}, env.executedAt, markers, env.spendHealth);
    RuledFields(w, a, outs);
  }

  lemma EffectNeedsLegitimacy(w: Setting, a: Action, l: LegitimacyAnswer)
    requires Effect(w, a, [TriState(l)]).Some?
    ensures Legitimate(l) && GatesOpen(w, a) && Permitting(w.auth.verdict)
    ensures Permitting(Ruled(w, a, [TriState(l)]).verdict)
    ensures Effect(w, a, [TriState(l)]) == Some(ToolCall(ToolRun(a), Delivered(w, a)))
  {
    var outs := [TriState(l)];
    EffectExactly(w, a, outs);
    OwnShape(w, a);
    assert TriState(l) in outs;
    TriStateAllowsExactly(l);
    FoldKeepsOrStrips(Own(w, a), outs, RefOf(a));
    RuledFields(w, a, outs);
  }

  lemma LegitimacyDecides(own: Verdict, l: LegitimacyAnswer)
    requires Permitting(own)
    ensures Acquiesce(own, [TriState(l)]) <==> Legitimate(l)
  {
    TriStateAllowsExactly(l);
    assert TriState(l) in [TriState(l)];
    assert Legitimate(l) ==> VerdictOf(TriState(l)) == Allow;
  }

  lemma AfterAdmissionExactly(c: Config, markers: set<string>, call: Call, env: Env)
    requires call.tool in c.bodies
    ensures AfterAdmission(c, markers, call, env).0.Committed() <==>
            && env.auditOk
            && Effect(SettingFor(c, call, env, markers), SealedAction(call, env), [TriState(env.legitimacy)]).Some?
  {
    hide Stamp, OwnRuling, Fold, Gates;
    var w, a, outs := SettingFor(c, call, env, markers), SealedAction(call, env), [TriState(env.legitimacy)];
    assert SealedSigned(c, call, env) == SignedBy(w, a, outs);
    BindingNeverRefuses(w, a, env.legitimacy);
    EffectExactly(w, a, outs);
  }

  lemma DiedOnlyIfKilled(c: Config, agents: map<string, Meta>, markers: set<string>, call: Call, env: Env)
    ensures Invoked(c, agents, markers, call, env).0.Ran? ==> !env.dies
    ensures Invoked(c, agents, markers, call, env).0.Died? ==> env.dies
  {
    hide GateOf, Admissible, TicketVerifies, Decided, MarkersAfter;
  }

  /**
   `invoke` reaches the tool, or is killed on the way from its audit entry to the tool, exactly when the ticket is
   genuine, unexpired, the agent's own and unspent, the tool is sealed, the payload is plain data, every kernel and PEP
   gate is open, legitimacy answered truthy, and the audit entry is written.
   */
  lemma RanExactly(c: Config, agents: map<string, Meta>, markers: set<string>, call: Call, env: Env)
    ensures Invoked(c, agents, markers, call, env).0.Committed() <==>
            && Admitted(c, agents, markers, call, env)
            && env.auditOk
            && GatesOpen(SettingFor(c, call, env, markers + {TicketKey(call.ticket)}), SealedAction(call, env))
            && Legitimate(env.legitimacy)
    ensures Invoked(c, agents, markers, call, env).0.Ran? <==>
            Invoked(c, agents, markers, call, env).0.Committed() && !env.dies
  {
    DiedOnlyIfKilled(c, agents, markers, call, env);
    hide AfterAdmission, Admissible, TicketVerifies, Effect;
    var admitted := markers + {TicketKey(call.ticket)};
    var w, a := SettingFor(c, call, env, admitted), SealedAction(call, env);
    if call.tool in c.bodies {
      AfterAdmissionExactly(c, admitted, call, env);
      EffectExactly(w, a, [TriState(env.legitimacy)]);
      if Permitting(Own(w, a).verdict) { LegitimacyDecides(Own(w, a).verdict, env.legitimacy); }
    }
  }

  /** Executed implies admitted, legitimate, authorised and enforced; and exactly two fresh markers are consumed. */
  lemma ExecutedMeansWarranted(c: Config, agents: map<string, Meta>, markers: set<string>, call: Call, env: Env)
    requires Invoked(c, agents, markers, call, env).0.Committed()
    ensures Warranted(c, agents, markers, call, env, Invoked(c, agents, markers, call, env).0.call)
    ensures Invoked(c, agents, markers, call, env).1 == markers + {TicketKey(call.ticket), env.draws.tokenId}
  {
    hide AfterAdmission, Decided, OwnRuling, CanonicalResult, Obligation;
    var admitted := markers + {TicketKey(call.ticket)};
    var w, a := SettingFor(c, call, env, admitted), SealedAction(call, env);
    assert SpentStore.MarkersAfter(markers, TicketKey(call.ticket), env.admissionHealth) == admitted;
    RanMeansEffect(c, admitted, call, env);
    EffectNeedsLegitimacy(w, a, env.legitimacy);
    assert ToolRun(a) in w.tools;
    assert SealedDecision(c, call, env) == Ruled(w, a, [TriState(env.legitimacy)]);
  }

  /** A committed call, read off its own fields: a genuine unspent ticket of its agent's, and the redacted payload. */
  lemma CommittedFromTheCall(c: Config, agents: map<string, Meta>, markers: set<string>, call: Call, env: Env)
    requires Invoked(c, agents, markers, call, env).0.Committed()
    ensures var ran, body := Invoked(c, agents, markers, call, env).0.call, call.ticket.body;
            && call.ticket.signature == SignedByOffice(c.officeSecret, body)
            && env.verifiedAt < body.expiresAt && env.consumedAt < body.expiresAt && "adm:" + body.nonce !in markers
            && call.agentId in agents && body.agentId == call.agentId
            && agents[call.agentId] == Meta(body.actor, body.stakeholder)
            && ran.tool == call.tool && call.tool in c.bodies
            && ToolSees(c.policy.redactions, Some(call.intent), call.payload, ran.payload)
  {
    hide Invoked, Delivered, SealedDecision, AuthorityFor;
    ExecutedMeansWarranted(c, agents, markers, call, env);
    RanArms(c, agents, markers, call, env);
    var a := SealedAction(call, env);
    DeliveredIsSeen(SettingFor(c, call, env, markers + {TicketKey(call.ticket)}), a);
    assert a.purpose.Given() == Some(call.intent) && a.payload == call.payload;
  }

  /**
   Both log lines of a committed call tell of the same: its ticket's actor, the tool it called, the signed verdict.
   */
  lemma BothLinesTellOfTheCall(c: Config, agents: map<string, Meta>, markers: set<string>, call: Call, env: Env)
    requires Invoked(c, agents, markers, call, env).0.Committed()
    ensures var a, d := SealedAction(call, env), SealedDecision(c, call, env);
            forall g: GateAnswer :: !g.Escapes? ==>
              && AuditContent(a, d, g).actor == EvidenceContent(a, d, g).actor == call.ticket.body.actor
              && AuditContent(a, d, g).tool == EvidenceContent(a, d, g).tool == call.tool
              && AuditContent(a, d, g).verdict == EvidenceContent(a, d, g).verdict == Name(d.verdict)
  {
    hide Invoked, AuditTool, Delivered, Decided, RefusalText, GateNote, LastSegment;
    var w, a := SettingFor(c, call, env, markers), SealedAction(call, env);
    RanExactly(c, agents, markers, call, env);
    ExecutedMeansWarranted(c, agents, markers, call, env);
    assert ToolRun(a) == call.tool;
    assert SealedDecision(c, call, env) == Ruled(w, a, [TriState(env.legitimacy)]);
    EntryNamesTheTool(w, a, [TriState(env.legitimacy)]);
  }

  /** A ticket that is forged, altered or expired gets nothing done and spends nothing. */
  lemma UngenuineTicketDoesNothing(c: Config, agents: map<string, Meta>, markers: set<string>, call: Call, env: Env)
    requires call.ticket.signature != SignedByOffice(c.officeSecret, call.ticket.body) ||
             env.verifiedAt >= call.ticket.body.expiresAt
    ensures Invoked(c, agents, markers, call, env) == (AdmissionRefused, markers)
  {
  }

  /** The legitimacy answer behind a sealed decision is signed into it: its digest, its axioms and no others. */
  lemma LegitimacyIsBound(c: Config, call: Call, env: Env) returns (ids: seq<string>)
    requires !env.legitimacy.AnswerTimedOut?
    ensures var d, l := SealedDecision(c, call, env), env.legitimacy;
            && d.legitimacyBinding ==
               Some(LegitimacyBinding(ActionFingerprint(SealedAction(call, env)), l.digest, ids, d.verdict))
            && (forall x :: x in ids <==> l.Answered? && x in l.axioms)
  {
    hide Stamp, OwnRuling, Fold, ActionFingerprint, AuthorityFor;
    var w, outs := SettingFor(c, call, env, {}), [TriState(env.legitimacy)];
    assert SealedDecision(c, call, env) == Ruled(w, SealedAction(call, env), outs);
    assert HandsIn(outs[0], env.legitimacy.digest);
    ids := EvidenceIsBound(w, SealedAction(call, env), outs, 0, env.legitimacy.digest);
    assert forall o :: o in outs <==> o == outs[0];
  }

  /** What a sealed call is bound to: its ticket's actor, its capability or tool, its intent, draw and data. */
  lemma SealedFingerprintExactly(x: Call, e: Env, y: Call, f: Env)
    ensures ActionFingerprint(SealedAction(x, e)) == ActionFingerprint(SealedAction(y, f)) <==>
            && x.ticket.body.actor == y.ticket.body.actor
            && (if x.capability != "" then x.capability else "tool:" + x.tool) ==
               (if y.capability != "" then y.capability else "tool:" + y.tool)
            && x.intent == y.intent && e.actionNonce == f.actionNonce
            && SameData(Dict(x.payload), Dict(y.payload))
  {
    hide ActionFingerprint, SameData;
    var a, b := SealedAction(x, e), SealedAction(y, f);
    FingerprintExactly(a, b);
    assert SamePurpose(a.purpose, b.purpose) <==> x.intent == y.intent by {
      assert {a.purpose, b.purpose} == {Absent, Named("")} ==> Absent in {a.purpose, b.purpose};
    }
  }

  /** Markers only grow, whatever the call comes to; and the two binding refusals are never the reason. */
  lemma InvokeOnlyAdds(c: Config, agents: map<string, Meta>, markers: set<string>, call: Call, env: Env)
    ensures markers <= Invoked(c, agents, markers, call, env).1
    ensures !Invoked(c, agents, markers, call, env).0.BindingRefused?
  {
    var admitted := markers + {TicketKey(call.ticket)};
    BindingNeverRefuses(SettingFor(c, call, env, admitted), SealedAction(call, env), env.legitimacy);
  }

  /** Nothing runs without an arming, and it is for the decided action and the called tool's one body. */
  lemma RanArms(c: Config, agents: map<string, Meta>, markers: set<string>, call: Call, env: Env)
    requires Invoked(c, agents, markers, call, env).0.Committed()
    ensures call.tool in c.bodies && ArmingOf(c, agents, markers, call, env) == Some(ArmFor(c, call, env))
    ensures ArmFor(c, call, env) ==
            Arm(Some(ActionFingerprint(SealedAction(call, env))), map[call.tool := c.bodies[call.tool]])
  {
    hide Decided, GatesOpen, Legitimate, Admissible, TicketVerifies, BindingOk;
    RanExactly(c, agents, markers, call, env);
    var w, a := SettingFor(c, call, env, markers), SealedAction(call, env);
    assert Fingerprintable(a) by { RanIsFingerprintable(c, agents, markers, call, env); }
    BindingNeverRefuses(w, a, env.legitimacy);
    RuledFields(w, a, [TriState(env.legitimacy)]);
    assert SealedDecision(c, call, env) == Ruled(w, a, [TriState(env.legitimacy)]);
  }

  lemma RanIsFingerprintable(c: Config, agents: map<string, Meta>, markers: set<string>, call: Call, env: Env)
    requires Invoked(c, agents, markers, call, env).0.Committed()
    ensures Fingerprintable(SealedAction(call, env))
  {
    hide Decided, Prepared, MarkersAfter, BindingOk;
  }

  /** What an answer adds to the log's executed=True digests: the PEP's entry for its effect, then `invoke`'s own. */
  function AnswerDigests(answer: InvokeAnswer, call: Call): seq<Digest> {
    if !answer.Committed() then []
    else [PayloadDigest(answer.call.payload)] + if answer.Ran? && answer.ok then [PayloadDigest(call.payload)] else []
  }

  lemma TwoLines(log: HashChain.LogState, ts: string, first: HashChain.Content, again: string,
                 second: HashChain.Content)
    requires OpenAndSound(log)
    ensures var one := HashChain.Recorded(log, ts, first);
            var two := HashChain.Recorded(one, again, second);
            && OpenAndSound(one) && LoggedDigests(one) == LoggedDigests(log) + DigestsOf(first)
            && OpenAndSound(two) && LoggedDigests(two) == LoggedDigests(log) + (DigestsOf(first) + DigestsOf(second))
  {
    hide HashChain.Recorded, HashChain.Sound, HashChain.Opened, LoggedDigests;
    var one := HashChain.Recorded(log, ts, first);
    HashChain.RecordKeeps(log, ts, first);
    HashChain.RecordKeeps(one, again, second);
    RecordedDigests(log, ts, first);
    RecordedDigests(one, again, second);
    assert LoggedDigests(log) + DigestsOf(first) + DigestsOf(second) ==
      LoggedDigests(log) + (DigestsOf(first) + DigestsOf(second));
  }

  lemma AdmittedIsLogged(c: Config, markers: set<string>, log: HashChain.LogState, call: Call, env: Env)
    requires OpenAndSound(log) && call.tool in c.bodies
    ensures OpenAndSound(LogAfterAdmission(c, markers, log, call, env))
    ensures LoggedDigests(LogAfterAdmission(c, markers, log, call, env)) ==
            LoggedDigests(log) + AnswerDigests(AfterAdmission(c, markers, call, env).0, call)
  {
    hide Decided, Prepared, MarkersAfter, HashChain.Recorded, OpenAndSound, LoggedDigests, BindingOk, PayloadDigest;
    var a, d, g := SealedAction(call, env), SealedDecision(c, call, env), GateOf(c, markers, call, env);
    if Armable(c, call, env) && !g.Escapes? && env.auditOk {
      assert LoggedDigests(log) + [] == LoggedDigests(log);
      TwoLines(log, env.ts, AuditContent(a, d, g), env.evidenceTs, EvidenceContent(a, d, g));
      AuditedDigest(a, d, g);
    } else {
      assert LoggedDigests(log) + [] == LoggedDigests(log);
    }
  }

  lemma AuditedDigest(a: Action, d: Decision, g: GateAnswer)
    requires !g.Escapes?
    ensures DigestsOf(AuditContent(a, d, g)) == if g.Passes? then [PayloadDigest(g.payload)] else []
    ensures DigestsOf(EvidenceContent(a, d, g)) == if g.Passes? then [PayloadDigest(a.payload)] else []
  {
  }

  /** Every effect on the sealed surface has its entry: the log stays sound and gains exactly the answer's digests. */
  lemma InvokedIsLogged(c: Config, agents: map<string, Meta>, markers: set<string>, log: HashChain.LogState,
                        call: Call, env: Env)
    requires OpenAndSound(log)
    ensures OpenAndSound(LogAfter(c, agents, markers, log, call, env))
    ensures LoggedDigests(LogAfter(c, agents, markers, log, call, env)) ==
            LoggedDigests(log) + AnswerDigests(Invoked(c, agents, markers, call, env).0, call)
  {
    hide AfterAdmission, LogAfterAdmission, OpenAndSound, LoggedDigests, Admissible, TicketVerifies;
    if Admitted(c, agents, markers, call, env) {
      AdmittedIsLogged(c, SpentStore.MarkersAfter(markers, TicketKey(call.ticket), env.admissionHealth), log, call,
                       env);
    } else {
      assert LoggedDigests(log) + [] == LoggedDigests(log);
    }
  }
}
