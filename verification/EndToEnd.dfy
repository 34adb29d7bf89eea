/** Delegation, decision and enforcement joined: where the authority behind an effect came from. */
module EndToEnd {
  import opened Fingerprint
  import opened Compose
  import opened AuthorityPdp
  import opened Macaroons
  import opened Attenuation
  import opened DelegationRuns
  import opened DelegationTheorems
  import opened Kernel
  import opened Pipeline
  import opened BuiltinGuarantees
  import HostRuns
  import Sealed

  /** A grant of `t` to `h` that rests on a chain of honest mints ending at a root grant. */
  ghost predicate Rooted(mints: seq<MintRecord>, path: seq<nat>, h: string, t: string, i: int) {
    && ChainToRoot(mints, path, t)
    && HolderOf(mints[path[0]].request.child) == h
    && Grants(mints[path[0]].macaroon, h, t, i)
  }

  lemma HoldingIsRooted(grants: map<string, set<string>>, events: seq<Event>, g: Graph, h: string, t: string, i: int)
    returns (path: seq<nat>)
    requires WellFormedRequests(events) && Forged(g, Run(grants, events)) && Holds(g, h, "tool:" + t, i)
    ensures RootHas(g, h, t) || Rooted(Run(grants, events).history, path, h, t, i)
  {
    path := [];
    assert ("tool:" + t)[5..] == t;
    if !RootHas(g, h, t) {
      var m :| m in g.MacaroonsOf(h) && Grants(m, h, t, i);
      var k := GrantComesFromAMint(grants, events, m, h, t, i);
      EveryToolTracesToARoot(grants, events, k, t);
      path :| ChainToRoot(Run(grants, events).history, path, t) && path[0] == k;
      RunKeeps(grants, events);
      var mints := Run(grants, events).history;
      MintHasTools(mints, k);
      HolderOfIdentifier(mints[k].request.child, mints[k].request.nonce);
    }
  }

  /**
   Fill the graph with any macaroons an outsider can build from all the tags ever minted, in a run with
   revocations or without: when the built-in provider rules and an action whose capability names its tool runs, its
   actor has a root grant for that tool, or a minted macaroon names it live, and a chain of mints leads from there to
   a root grant.
   */
  lemma EffectIsRooted(w: Setting, a: Action, outs: seq<Outcome>, p: Provider, out: PdpOutput, g: Graph,
                       grants: map<string, set<string>>, events: seq<Event>,
                       bindings: map<string, seq<string>>, defaultDeny: bool, evaluatedAt: int) returns (path: seq<nat>)
    requires WellFormedRequests(events) && Forged(g, Run(grants, events))
    requires RuledByBuiltin(w, a, p, out, g, bindings, defaultDeny, evaluatedAt)
    requires NamesItsTool(EffectiveCapability(a)) && Effect(w, a, outs).Some?
    ensures EffectiveCapability(a) == "tool:" + Effect(w, a, outs).value.tool
    ensures var t := Effect(w, a, outs).value.tool;
            RootHas(g, a.actor, t) || Rooted(Run(grants, events).history, path, a.actor, t, evaluatedAt)
  {
    hide Rooted;
    EffectMeansHeld(w, a, outs, p, out, g, bindings, defaultDeny, evaluatedAt);
    path := HoldingIsRooted(grants, events, g, a.actor, Effect(w, a, outs).value.tool, evaluatedAt);
  }

  // ---- the hosted plane

  /** The provider's answer to the action behind `r` came from the built-in provider on `g`, at instant `i`. */
  ghost predicate HostedRuling(r: HostRuns.Commitment, g: Graph, bindings: map<string, seq<string>>,
                               defaultDeny: bool, i: int)
  {
    var out := r.env.env.pdp;
    && out.Canonical? && (out.verdictText == "ALLOW" || out.verdictText == "DENY")
    && (out.verdictText == "ALLOW" <==>
        BuiltinAllows(g, bindings, defaultDeny, Sealed.SealedAction(r.Asked(), r.env.env), i))
  }

  lemma HostedActionNamesTheTool(r: HostRuns.Commitment)
    ensures var a := Sealed.SealedAction(r.Asked(), r.env.env);
            a.actor == r.registered.actor && EffectiveCapability(a) == "tool:" + r.intent.tool
  {
  }

  /** A label may be used for a purpose. */
  ghost predicate MayServe(bindings: map<string, seq<string>>, defaultDeny: bool, dataLabel: string, purpose: string) {
    if dataLabel in bindings then purpose in bindings[dataLabel] else !defaultDeny
  }

  /**
   What the built-in provider rules on of a sealed call: its ticket's actor for its capability or tool, and its intent
   for the label "ops", and for "public" too when it is an audit.
   */
  lemma BuiltinJudgesTheCall(call: Sealed.Call, env: Sealed.Env, g: Graph, bindings: map<string, seq<string>>,
                             defaultDeny: bool, i: int)
    ensures BuiltinAllows(g, bindings, defaultDeny, Sealed.SealedAction(call, env), i) <==>
            && (call.capability == "" || call.tool == "" || call.capability == "tool:" + call.tool)
            && Holds(g, call.ticket.body.actor,
                     if call.capability == "" then "tool:" + call.tool else call.capability, i)
            && MayServe(bindings, defaultDeny, "ops", call.intent)
            && (call.intent == "audit" ==> MayServe(bindings, defaultDeny, "public", "audit"))
  {
    hide Holds;
    var labels := Sealed.SealedAction(call, env).labels;
    assert call.intent == "audit" ==> labels == ["ops", "public"] && labels[0] in labels && labels[1] in labels;
    assert call.intent != "audit" ==> labels == ["ops"] && labels[0] in labels;
  }

  lemma PermittedMeansHeld(p: Provider, out: PdpOutput, a: Action, g: Graph,
                           bindings: map<string, seq<string>>, defaultDeny: bool, i: int)
    requires out.Canonical? && (out.verdictText == "ALLOW" || out.verdictText == "DENY")
    requires out.verdictText == "ALLOW" <==> BuiltinAllows(g, bindings, defaultDeny, a, i)
    requires Permitting(AuthorityFor(a, p, out).verdict)
    ensures BuiltinAllows(g, bindings, defaultDeny, a, i) && Holds(g, a.actor, EffectiveCapability(a), i)
  {
    hide Holds;
    NormalizeExactly("DENY", Deny);
  }

  /**
   A commitment of a hosted run ruled by the built-in provider: the registered actor held the tool asked for, and the
   intent is a purpose its data may be used for.
   */
  lemma HostedEffectIsHeld(start: HostRuns.State, events: seq<HostRuns.Event>, k: nat, g: Graph,
                           bindings: map<string, seq<string>>, defaultDeny: bool, i: int)
    requires HostRuns.Starts(start) && k < |HostRuns.Run(start, events).commits|
    requires HostedRuling(HostRuns.Run(start, events).commits[k], g, bindings, defaultDeny, i)
    ensures var r := HostRuns.Run(start, events).commits[k];
            && r.call.tool == r.intent.tool && Holds(g, r.registered.actor, "tool:" + r.call.tool, i)
            && MayServe(bindings, defaultDeny, "ops", r.intent.intent)
            && (r.intent.intent == "audit" ==> MayServe(bindings, defaultDeny, "public", "audit"))
  {
    hide Holds, HostRuns.Run, AuthorityFor, BuiltinAllows, Sealed.SealedAction, EffectiveCapability, MayServe, ToolSees;
    HostRuns.RunGrounds(start, events, k);
    var r := HostRuns.Run(start, events).commits[k];
    HostedActionNamesTheTool(r);
    PermittedMeansHeld(r.config.provider, r.env.env.pdp, Sealed.SealedAction(r.Asked(), r.env.env), g, bindings,
                       defaultDeny, i);
    BuiltinJudgesTheCall(r.Asked(), r.env.env, g, bindings, defaultDeny, i);
  }

  /**
   From the channel to the root: in any run of any hosts, each commitment ruled by the built-in provider on a graph
   filled with derivable macaroons was made for an actor that has a root grant for the very tool the intent named,
   or a live minted macaroon whose chain of mints ends at one.
   */
  lemma HostedEffectIsRooted(start: HostRuns.State, hosted: seq<HostRuns.Event>, k: nat, g: Graph,
                             grants: map<string, set<string>>, events: seq<Event>,
                             bindings: map<string, seq<string>>, defaultDeny: bool, i: int) returns (path: seq<nat>)
    requires HostRuns.Starts(start) && k < |HostRuns.Run(start, hosted).commits|
    requires HostedRuling(HostRuns.Run(start, hosted).commits[k], g, bindings, defaultDeny, i)
    requires WellFormedRequests(events) && Forged(g, Run(grants, events))
    ensures var r := HostRuns.Run(start, hosted).commits[k];
            RootHas(g, r.registered.actor, r.call.tool) ||
            Rooted(Run(grants, events).history, path, r.registered.actor, r.call.tool, i)
  {
    hide Rooted, HostedRuling, HostRuns.Run;
    HostedEffectIsHeld(start, hosted, k, g, bindings, defaultDeny, i);
    var r := HostRuns.Run(start, hosted).commits[k];
    path := HoldingIsRooted(grants, events, g, r.registered.actor, r.call.tool, i);
  }
}
