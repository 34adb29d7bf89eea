/** End-to-end consequences of the built-in provider. */
module BuiltinGuarantees {
  import opened Basics
  import opened Fingerprint
  import opened Compose
  import opened AuthorityPdp
  import opened Attenuation
  import opened Kernel
  import opened Execute
  import opened Pipeline
  import SpentStore

  /** The setting's authority result came from the built-in provider evaluating `a` at `evaluatedAt`. */
  ghost predicate RuledByBuiltin(w: Setting, a: Action, p: Provider, out: PdpOutput, g: Graph,
                                 bindings: map<string, seq<string>>, defaultDeny: bool, evaluatedAt: int)
  {
    && w.auth == AuthorityFor(a, p, out)
    && out.Canonical? && (out.verdictText == "ALLOW" || out.verdictText == "DENY")
    && (out.verdictText == "ALLOW" <==> BuiltinAllows(g, bindings, defaultDeny, a, evaluatedAt))
  }

  /** For a name without "tool:" in it, the PEP, the graph and the root-grant reader cut "tool:<name>" alike. */
  lemma CutsAgree(t: string)
    ensures WithoutPrefix("tool:" + t) == t
    ensures RootTools({"tool:" + t}) == {t}
    ensures LastSegment("tool:" + t) == t <==> !Mentions(t)
  {
    var cap := "tool:" + t;
    assert cap[5..] == t;
    CutExactly(t);
    assert RootTools({cap}) == {t} by {
      assert cap in {cap} && "tool:" <= cap;
    }
  }

  /**
   With the built-in provider, an effect means the actor held the capability when it was evaluated and no label
   was refused. The tool that ran is the one the action names just when the name holds no "tool:".
   */
  lemma EffectMeansHeld(w: Setting, a: Action, outs: seq<Outcome>, p: Provider, out: PdpOutput, g: Graph,
                        bindings: map<string, seq<string>>, defaultDeny: bool, evaluatedAt: int)
    requires RuledByBuiltin(w, a, p, out, g, bindings, defaultDeny, evaluatedAt)
    requires Effect(w, a, outs).Some?
    ensures BuiltinAllows(g, bindings, defaultDeny, a, evaluatedAt)
    ensures forall l :: l in a.labels ==>
              if l in bindings then exists p :: a.purpose == Named(p) && p in bindings[l] else !defaultDeny
    ensures Holds(g, a.actor, EffectiveCapability(a), evaluatedAt) && Effect(w, a, outs).value.tool == ToolRun(a)
    ensures EffectiveCapability(a) == "tool:" + ToolRun(a) <==> NamesItsTool(EffectiveCapability(a))
    ensures a.tool != "" ==> Holds(g, a.actor, "tool:" + a.tool, evaluatedAt) &&
                             (Effect(w, a, outs).value.tool == a.tool <==> !Mentions(a.tool))
  {
    hide Effect, OwnRuling, Delivered, Obligation, Holds, NamesItsTool, LastSegment;
    EffectExactly(w, a, outs);
    OwnShape(w, a);
    NormalizeExactly("DENY", Deny);
    CutExactly(a.tool);
    NamesItsToolExactly(EffectiveCapability(a));
  }

  /** A capability of the form "tool:<name>" with no further "tool:" in the name. */
  predicate NamesItsTool(capability: string) {
    "tool:" <= capability && !Mentions(capability[5..])
  }

  /** What the PEP runs is what the capability grants exactly when the capability names its tool. */
  lemma NamesItsToolExactly(capability: string)
    ensures capability == "tool:" + LastSegment(capability) <==> NamesItsTool(capability)
  {
    if "tool:" <= capability {
      assert capability == "tool:" + capability[5..];
      CutPrefix(capability[5..]);
      SegmentLength(capability[5..]);
      assert ("tool:" + LastSegment(capability))[5..] == LastSegment(capability);
    }
  }

  ghost const UNPREFIXED := Action("bot", "", "wire", Absent, [], "n", "", map[])
  ghost const UNPREFIXED_GRAPH := Graph(map["bot" := {"wire"}], map[])

  ghost function UnprefixedSetting(p: Provider): Setting {
    Setting(Policy([], {}, []), "k", None, AuthorityFor(UNPREFIXED, p, SAID_YES), Draws("tok-1", 0),
            {"wire"}, 0, {}, SpentStore.Healthy)
  }

  /** A capability without a prefix is the other input: granted "wire", the actor runs `wire` without "tool:wire". */
  lemma UnprefixedRunsUnheldTool(p: Provider)
    ensures RuledByBuiltin(UnprefixedSetting(p), UNPREFIXED, p, SAID_YES, UNPREFIXED_GRAPH, map[], true, 0)
    ensures Effect(UnprefixedSetting(p), UNPREFIXED, []) == Some(ToolCall("wire", map[]))
    ensures !Holds(UNPREFIXED_GRAPH, "bot", "tool:wire", 0)
  {
    hide Effect, AuthorityFor;
    var root := UNPREFIXED_GRAPH.RootsOf("bot");
    assert root == {"wire"} && UNPREFIXED_GRAPH.MacaroonsOf("bot") == [] && |"*"| != |"wire"|;
    YesIsAllow(UNPREFIXED, p);
    WireIsItself();
    QuietEffect(UnprefixedSetting(p), UNPREFIXED);
  }

  lemma WireIsItself()
    ensures LastSegment("wire") == "wire"
  {
    NoColonNoMention("wire");
    SegmentLength("wire");
  }

  ghost const NESTED := Action("bot", "tool:wire", "", Absent, [], "n", "", map[])
  ghost const NESTED_GRAPH := Graph(map["bot" := {"tool:tool:wire"}], map[])
  ghost const SAID_YES := Canonical("ALLOW", "all checks passed")

  ghost function NestedSetting(p: Provider): Setting {
    Setting(Policy([], {}, []), "k", None, AuthorityFor(NESTED, p, SAID_YES), Draws("tok-1", 0),
            {"wire"}, 0, {}, SpentStore.Healthy)
  }

  /**
   A tool name with "tool:" inside is where the cuts disagree: an actor whose only grant is "tool:tool:wire", for
   a tool called "tool:wire", makes the PEP call "wire", a tool it does not hold.
   */
  lemma NestedNameRunsAnotherTool(p: Provider)
    ensures RuledByBuiltin(NestedSetting(p), NESTED, p, SAID_YES, NESTED_GRAPH, map[], true, 0)
    ensures Effect(NestedSetting(p), NESTED, []) == Some(ToolCall("wire", map[]))
    ensures !Holds(NESTED_GRAPH, "bot", "tool:wire", 0)
  {
    hide Effect, BuiltinAllows, Holds, AuthorityFor, ToolRun;
    NestedHolds();
    NestedCut();
    YesIsAllow(NESTED, p);
    QuietEffect(NestedSetting(p), NESTED);
  }

  lemma NestedHolds()
    ensures BuiltinAllows(NESTED_GRAPH, map[], true, NESTED, 0) && !Holds(NESTED_GRAPH, "bot", "tool:wire", 0)
  {
    var root := NESTED_GRAPH.RootsOf("bot");
    assert "tool:tool:wire" in root && NESTED_GRAPH.MacaroonsOf("bot") == [];
    assert EffectiveCapability(NESTED) == "tool:tool:wire";
    assert "*" !in root && "tool:wire" !in root;
  }

  lemma YesIsAllow(a: Action, p: Provider)
    requires ShapeOk(a)
    ensures AuthorityFor(a, p, SAID_YES).verdict == Allow
  {
  }

  /** Nothing owed, no threat and an allowing provider: the kernel allows and the live payload goes through. */
  lemma QuietAllow(w: Setting, a: Action)
    requires w.auth.verdict.Allow? && w.threat.None? && w.policy.redactions == []
    ensures Own(w, a).verdict == Allow && Delivered(w, a) == a.payload
  {
  }

  lemma QuietEffect(w: Setting, a: Action)
    requires w.auth.verdict.Allow? && w.threat.None? && w.policy.redactions == [] && Fingerprintable(a)
    requires w.draws.tokenId != "" && w.now <= w.draws.now && ToolRun(a) in w.tools
    requires w.markers == {} && w.health.Healthy?
    ensures Effect(w, a, []) == Some(ToolCall(ToolRun(a), a.payload))
  {
    QuietAllow(w, a);
    EffectExactly(w, a, []);
  }

  lemma NestedCut()
    ensures ToolRun(NESTED) == "wire"
  {
  }
}
