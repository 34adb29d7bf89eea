/** Over every run: delegation never amplifies, and a bearer of stolen tags gains nothing. */
module DelegationTheorems {
  import opened Basics
  import opened Caveats
  import opened Macaroons
  import opened Attenuation
  import opened DelegationRuns

  // ---- a delegator holds what it delegated

  lemma {:induction false} RootsPersist(grants: map<string, set<string>>, events: seq<Event>, k: nat, h: string)
    requires NoRevocations(events) && k < |Run(grants, events).history|
    ensures Run(grants, events).history[k].before.RootsOf(h) <= Run(grants, events).graph.RootsOf(h)
  {
    if events != [] {
      var init := events[..|events| - 1];
      StepRecords(Run(grants, init), events[|events| - 1]);
      StepKeepsRoots(Run(grants, init), events[|events| - 1], h);
      if k < |Run(grants, init).history| {
        RootsPersist(grants, init, k, h);
      }
    }
  }

  lemma StepKeepsRoots(s: State, e: Event, h: string)
    requires !e.RevokeEvent?
    ensures s.graph.RootsOf(h) <= Step(s, e).graph.RootsOf(h)
    ensures |Step(s, e).history| > |s.history| ==> Step(s, e).history[|s.history|].before == s.graph
  {
  }

  /**
   Without revocations, at every instant, a tool that a delegated macaroon gives its holder is held by the
   delegator at that same instant.
   */
  lemma DelegatorStillHolds(grants: map<string, set<string>>, events: seq<Event>, k: nat, t: string, i: int)
    requires WellFormedRequests(events) && NoRevocations(events) && k < |Run(grants, events).history|
    requires var r := Run(grants, events).history[k]; Grants(r.macaroon, r.request.child, t, i)
    ensures Holds(Run(grants, events).graph, Run(grants, events).history[k].request.parent, "tool:" + t, i)
  {
    var s := Run(grants, events);
    var r, parent := s.history[k], s.history[k].request.parent;
    assert ("tool:" + t)[5..] == t;
    if RootHas(r.before, parent, t) {
      RootsPersist(grants, events, k, parent);
    } else {
      RunKeeps(grants, events);
      RunRecords(grants, events, k);
      var p := CoverOf(s.history, k, t);
      assert Keeps(r.before, s.graph);
      assert Grants(p, parent, t, i) && p in s.graph.MacaroonsOf(parent);
    }
  }

  /**
   A capability named without its prefix is where holding it fails, and exactly here: the delegate's macaroon grants
   bare `t`, and the delegator holds it unless its whole authority over `t` is the root grant `tool:t`.
   */
  lemma BareHoldingExactly(grants: map<string, set<string>>, events: seq<Event>, k: nat, t: string, i: int)
    requires WellFormedRequests(events) && NoRevocations(events) && k < |Run(grants, events).history|
    requires var r := Run(grants, events).history[k]; Grants(r.macaroon, r.request.child, t, i)
    requires !("tool:" <= t)
    ensures var g, r := Run(grants, events).graph, Run(grants, events).history[k];
            && Holds(g, r.request.child, t, i)
            && (Holds(g, r.request.parent, t, i) <==> !OnlyByPrefixedRoot(g, r.request.parent, t, i))
  {
    var s := Run(grants, events);
    var parent := s.history[k].request.parent;
    DelegatorStillHolds(grants, events, k, t, i);
    RunKeeps(grants, events);
    assert s.history[k] in s.history && WithoutPrefix(t) == t;
    assert WithoutPrefix("tool:" + t) == t;
  }

  /** Everything `holder` has for `t` is the root grant `tool:t`. */
  ghost predicate OnlyByPrefixedRoot(g: Graph, holder: string, t: string, i: int) {
    && "tool:" + t in g.RootsOf(holder) && "*" !in g.RootsOf(holder) && t !in g.RootsOf(holder)
    && forall m :: m in g.MacaroonsOf(holder) ==> !Grants(m, holder, t, i)
  }

  /** Without revocations, a tool held through any macaroon is a root grant of somebody, or somebody has `*`. */
  lemma SomebodyHasTheRoot(grants: map<string, set<string>>, events: seq<Event>, k: nat, t: string)
    requires WellFormedRequests(events) && NoRevocations(events) && k < |Run(grants, events).history|
    requires t in ToolsOf(Run(grants, events).history[k].macaroon)
    ensures exists h :: RootHas(Run(grants, events).graph, h, t)
  {
    EveryToolTracesToARoot(grants, events, k, t);
    var mints := Run(grants, events).history;
    var path :| ChainToRoot(mints, path, t) && path[0] == k;
    var last := path[|path| - 1];
    RootsPersist(grants, events, last, mints[last].request.parent);
    assert RootHas(Run(grants, events).graph, mints[last].request.parent, t);
  }

  /** The same, as seen by a caller of `holds`: for a `tool:` capability, no root grant means a delegator holds it. */
  lemma HoldersHaveHoldingDelegators(grants: map<string, set<string>>, events: seq<Event>, h: string, t: string, i: int)
    requires WellFormedRequests(events) && NoRevocations(events)
    requires Holds(Run(grants, events).graph, h, "tool:" + t, i) && !RootHas(Run(grants, events).graph, h, t)
    ensures exists k :: 0 <= k < |Run(grants, events).history| &&
                        Run(grants, events).history[k].request.child == h &&
                        Holds(Run(grants, events).graph, Run(grants, events).history[k].request.parent, "tool:" + t, i)
  {
    var s := Run(grants, events);
    assert ("tool:" + t)[5..] == t;
    var m :| m in s.graph.MacaroonsOf(h) && Grants(m, h, t, i);
    RunKeeps(grants, events);
    assert MintedFor(s.history, h, m);
    var k :| 0 <= k < |s.history| && s.history[k].request.child == h && s.history[k].macaroon == m;
    DelegatorStillHolds(grants, events, k, t, i);
  }

  /** "p" has one root grant, for `tool`. */
  ghost function OnlyGrant(tool: string): map<string, set<string>> {
    map["p" := {"tool:" + tool}]
  }

  /** "p" delegates `tool` to `child`, without an expiry. */
  ghost function AskFor(tool: string, child: string): Request {
    Request("p", child, [tool], None, 0, "n")
  }

  /** The one-delegation run behind the counterexamples. */
  lemma OneDelegation(tool: string, child: string) returns (m: Macaroon)
    requires !("tool:" <= tool)
    ensures Run(OnlyGrant(tool), [DelegateEvent(AskFor(tool, child))]) ==
            State(Graph(OnlyGrant(tool), map[child := [m]]),
                  [MintRecord(Graph(OnlyGrant(tool), map[]), AskFor(tool, child), m)])
    ensures ToolsFrom(m.caveats) == ParseTools(PrintTools({tool})) && ExpiryFrom(m.caveats) == None
    ensures m.signature == Chain(m.identifier, m.caveats) && HolderOf(m.identifier) == HolderOf(child)
  {
    var q, g := AskFor(tool, child), Graph(OnlyGrant(tool), map[]);
    var events := [DelegateEvent(q)];
    assert events[..0] == [];
    assert Run(OnlyGrant(tool), events) == Step(State(g, []), DelegateEvent(q));
    SingleToolTerms(tool);
    m := Minted(child, MintedCaveats({tool}, None), "n");
    assert Answer(g, q) == Success(m);
    assert g.MacaroonsOf(child) + [m] == [m];
    assert g.WithMacaroon(child, m) == Graph(OnlyGrant(tool), map[child := [m]]);
    MintedContents(child, {tool}, None, "n");
    HolderOfIdentifier(child, "n");
  }

  lemma SingleToolTerms(tool: string)
    requires !("tool:" <= tool)
    ensures TermsFor({"tool:" + tool}, [], [tool], None, 0) == Success(Terms({tool}, None))
  {
    var grants: set<string> := {"tool:" + tool};
    assert ("tool:" + tool)[5..] == tool && |"*"| != |"tool:" + tool|;
    assert RootTools(grants) == {tool} by {
      assert "tool:" + tool in grants && "tool:" <= "tool:" + tool;
    }
    assert Requested([tool]) == {tool} by { assert [tool][0] == tool && WithoutPrefix(tool) == tool; }
    assert Allowed(grants, [], [tool]) == {tool};
    assert Remainder(grants, {tool}) == {};
  }

  /** Who holds what after it: "p" its root grant, and the child whatever the printed name reads back as. */
  lemma OneDelegationHolds(tool: string, child: string, h: string, capability: string)
    requires !("tool:" <= tool)
    ensures Holds(Run(OnlyGrant(tool), [DelegateEvent(AskFor(tool, child))]).graph, h, capability, 0) <==>
            (h == "p" && capability == "tool:" + tool) ||
            (h == child && '|' !in child && WithoutPrefix(capability) in ParseTools(PrintTools({tool})).value)
  {
    hide Run, Chain, ToolsFrom, ExpiryFrom, ParseTools, PrintTools, HolderOf;
    var m := OneDelegation(tool, child);
    var g, t := Graph(OnlyGrant(tool), map[child := [m]]), WithoutPrefix(capability);
    PrintThenParse({tool});
    HolderOfIdentifier(child, "n");
    assert |"*"| != |"tool:" + tool|;
    assert g.RootsOf(h) == if h == "p" then {"tool:" + tool} else {};
    assert g.MacaroonsOf(h) == if h == child then [m] else [];
    assert h == child ==> m in g.MacaroonsOf(h);
  }

  /**
   A bare capability is where this fails: a delegate holds "x", while its delegator, granted "tool:x" at the
   root, does not hold "x".
   */
  lemma BareCapabilityAmplifies()
    ensures var g := Run(OnlyGrant("x"), [DelegateEvent(AskFor("x", "c"))]).graph;
            Holds(g, "c", "x", 0) && !Holds(g, "p", "x", 0)
  {
    hide Run, Holds, ParseTools, PrintTools;
    RoundTripExactly({"x"});
    OneDelegationHolds("x", "c", "c", "x");
    OneDelegationHolds("x", "c", "p", "x");
  }

  /** A comma in a tool's name is the other: the delegate of "a,b" holds "tool:a", its delegator does not. */
  lemma CommaNameAmplifies()
    ensures var g := Run(OnlyGrant("a,b"), [DelegateEvent(AskFor("a,b", "c"))]).graph;
            Holds(g, "c", "tool:a", 0) && !Holds(g, "p", "tool:a", 0)
  {
    hide Run, Holds, ParseTools, PrintTools;
    assert "a" + "," + "b" == "a,b" && "tool:a"[5..] == "a";
    assert |"tool:a"| != |"tool:" + "a,b"|;
    CommaAmplifies("a", "b");
    OneDelegationHolds("a,b", "c", "c", "tool:a");
    OneDelegationHolds("a,b", "c", "p", "tool:a");
  }

  lemma MintGrantsExactly(q: Request, terms: Terms, m: Macaroon, t: string, i: int)
    requires forall x :: x in terms.allowed ==> WellFormedName(x)
    requires m == Minted(q.child, MintedCaveats(terms.allowed, terms.expiry), q.nonce)
    ensures Grants(m, q.child, t, i) <==>
            '|' !in q.child && t in terms.allowed && (terms.expiry.None? || i < terms.expiry.value)
  {
    MintedContents(q.child, terms.allowed, terms.expiry, q.nonce);
    RoundTripExactly(terms.allowed);
    HolderOfIdentifier(q.child, q.nonce);
  }

  lemma HoldsWithOneMore(g: Graph, child: string, m: Macaroon, h: string, capability: string, i: int)
    ensures Holds(g.WithMacaroon(child, m), h, capability, i) <==>
            Holds(g, h, capability, i) || (h == child && Grants(m, h, WithoutPrefix(capability), i))
  {
  }

  /**
   What one delegation changes: the child gains the allowed tools until the expiry, and nobody else gains anything.
   */
  lemma DelegationGivesExactly(g: Graph, q: Request, terms: Terms, h: string, capability: string, i: int)
    requires TermsFor(g.RootsOf(q.parent), LiveCredentials(g.MacaroonsOf(q.parent), q.parent, q.now),
                      q.tools, q.expiresAt, q.now) == Success(terms)
    requires forall t :: t in terms.allowed ==> WellFormedName(t)
    ensures Answer(g, q).Success?
    ensures Holds(g.WithMacaroon(q.child, Answer(g, q).value), h, capability, i) <==>
            Holds(g, h, capability, i) ||
            (h == q.child && '|' !in q.child && WithoutPrefix(capability) in terms.allowed &&
             (terms.expiry.None? || i < terms.expiry.value))
  {
    var m := Answer(g, q).value;
    HoldsWithOneMore(g, q.child, m, h, capability, i);
    MintGrantsExactly(q, terms, m, WithoutPrefix(capability), i);
  }

  // ---- bearers

  ghost function Tips(mints: seq<MintRecord>): set<Tag> {
    set r | r in mints :: r.macaroon.signature
  }

  /** A graph filled with whatever macaroons an outsider can build from the tags of all minted ones. */
  ghost predicate Forged(g: Graph, honest: State) {
    g.roots == honest.graph.roots &&
    forall h, m :: m in g.MacaroonsOf(h) ==> Derivable(Tips(honest.history), m.signature)
  }

  /** A derivable macaroon that grants a tool comes from a minted one that grants it too. */
  lemma GrantComesFromAMint(grants: map<string, set<string>>, events: seq<Event>, m: Macaroon, h: string, t: string,
                            i: int)
    returns (k: nat)
    requires Derivable(Tips(Run(grants, events).history), m.signature) && Grants(m, h, t, i)
    ensures k < |Run(grants, events).history|
    ensures var mk := Run(grants, events).history[k].macaroon;
            mk.identifier == m.identifier && mk.caveats <= m.caveats && Grants(mk, h, t, i)
  {
    var mints := Run(grants, events).history;
    RunKeeps(grants, events);
    var minted := seq(|mints|, j requires 0 <= j < |mints| => mints[j].macaroon);
    forall j | 0 <= j < |minted| ensures minted[j].signature == Chain(minted[j].identifier, minted[j].caveats) {
      MintHasTools(mints, j);
    }
    forall tag | tag in Tips(mints) ensures exists j :: 0 <= j < |minted| && minted[j].signature == tag {
      var r :| r in mints && r.macaroon.signature == tag;
      var j :| 0 <= j < |mints| && mints[j] == r;
      assert minted[j].signature == tag;
    }
    k := Unforgeable(minted, Tips(mints), m);
    MintHasTools(mints, k);
    AppendNarrows(mints[k].macaroon.caveats, m.caveats);
  }

  /** A bearer of any minted macaroon can narrow it to one tool, and that is all appending `tool:<n>` does to it. */
  lemma BearerCanNarrow(grants: map<string, set<string>>, events: seq<Event>, k: nat, n: string, h: string, t: string,
                        i: int)
    requires k < |Run(grants, events).history|
    ensures var mints := Run(grants, events).history;
            var narrowed := Appended(mints[k].macaroon, Text("tool:" + n));
            && Derivable(Tips(mints), narrowed.signature)
            && (Grants(narrowed, h, t, i) <==> t == n && Grants(mints[k].macaroon, h, t, i))
  {
    var mints := Run(grants, events).history;
    RunKeeps(grants, events);
    MintHasTools(mints, k);
    assert mints[k] in mints && mints[k].macaroon.signature in Tips(mints);
    AppendedToolGrants(mints[k].macaroon, n, h, t, i);
  }

  /**
   Exactly what all the minted tags together are worth: some forged graph lets `h` hold a capability just when a
   root grant does, or one minted macaroon whose identifier starts with `h` grants it.
   */
  lemma BearerPower(grants: map<string, set<string>>, events: seq<Event>, h: string, capability: string, i: int)
    ensures (exists g :: Forged(g, Run(grants, events)) && Holds(g, h, capability, i)) <==>
            ("*" in Run(grants, events).graph.RootsOf(h) || capability in Run(grants, events).graph.RootsOf(h) ||
             exists r :: r in Run(grants, events).history && Grants(r.macaroon, h, WithoutPrefix(capability), i))
  {
    var s, t := Run(grants, events), WithoutPrefix(capability);
    if g :| Forged(g, s) && Holds(g, h, capability, i) {
      if !("*" in s.graph.RootsOf(h) || capability in s.graph.RootsOf(h)) {
        var m :| m in g.MacaroonsOf(h) && Grants(m, h, t, i);
        var k := GrantComesFromAMint(grants, events, m, h, t, i);
        assert s.history[k] in s.history;
      }
    }
    if r :| r in s.history && Grants(r.macaroon, h, t, i) {
      var g := Graph(s.graph.roots, map[h := [r.macaroon]]);
      assert r.macaroon.signature in Tips(s.history);
      assert Forged(g, s);
      assert r.macaroon in g.MacaroonsOf(h);
      assert Holds(g, h, capability, i);
    } else if "*" in s.graph.RootsOf(h) || capability in s.graph.RootsOf(h) {
      var g := Graph(s.graph.roots, map[]);
      assert Forged(g, s) && Holds(g, h, capability, i);
    }
  }

  /**
   Exactly when forgery gains: `h` gains a capability it does not hold just when some minted macaroon grants it to
   `h`, but every such macaroon was minted for another delegate, whose name has `h` before its first bar.
   */
  lemma ForgeryGainsExactly(grants: map<string, set<string>>, events: seq<Event>, h: string, capability: string, i: int)
    ensures var s := Run(grants, events);
            ((exists g :: Forged(g, s) && Holds(g, h, capability, i)) && !Holds(s.graph, h, capability, i)) <==>
            && "*" !in s.graph.RootsOf(h) && capability !in s.graph.RootsOf(h)
            && (exists r :: r in s.history && Grants(r.macaroon, h, WithoutPrefix(capability), i))
            && (forall r :: r in s.history && Grants(r.macaroon, h, WithoutPrefix(capability), i) ==>
                  r.request.child != h && '|' in r.request.child && HolderOf(r.request.child) == h)
  {
    hide Grants, Run;
    var s, t := Run(grants, events), WithoutPrefix(capability);
    BearerPower(grants, events, h, capability, i);
    RunKeeps(grants, events);
    if !Holds(s.graph, h, capability, i) {
      forall r | r in s.history && Grants(r.macaroon, h, t, i)
        ensures r.request.child != h && '|' in r.request.child && HolderOf(r.request.child) == h
      {
        GrantedThroughBar(s, r, h, t, i);
      }
    }
    if m :| m in s.graph.MacaroonsOf(h) && Grants(m, h, t, i) {
      assert MintedFor(s.history, h, m);
      var j :| 0 <= j < |s.history| && s.history[j].request.child == h && s.history[j].macaroon == m;
      assert s.history[j] in s.history;
    }
  }

  lemma GrantedThroughBar(s: State, r: MintRecord, h: string, t: string, i: int)
    requires Inv(s) && r in s.history && Grants(r.macaroon, h, t, i)
    requires forall m :: m in s.graph.MacaroonsOf(h) ==> !Grants(m, h, t, i)
    ensures r.request.child != h && '|' in r.request.child && HolderOf(r.request.child) == h
  {
    var k :| 0 <= k < |s.history| && s.history[k] == r;
    MintHasTools(s.history, k);
    HolderOfIdentifier(r.request.child, r.request.nonce);
  }

  /** When no delegate's name has a bar in it, a forged graph holds nothing the honest one does not. */
  lemma ForgeryGainsNothing(grants: map<string, set<string>>, events: seq<Event>, g: Graph, h: string,
                            capability: string, i: int)
    requires forall r :: r in Run(grants, events).history ==> '|' !in r.request.child
    requires Forged(g, Run(grants, events)) && Holds(g, h, capability, i)
    ensures Holds(Run(grants, events).graph, h, capability, i)
  {
    var s, t := Run(grants, events), WithoutPrefix(capability);
    if !("*" in s.graph.RootsOf(h) || capability in s.graph.RootsOf(h)) {
      var m :| m in g.MacaroonsOf(h) && Grants(m, h, t, i);
      var k := GrantComesFromAMint(grants, events, m, h, t, i);
      RunKeeps(grants, events);
      MintHasTools(s.history, k);
      var r := s.history[k];
      assert r in s.history;
      HolderOfIdentifier(r.request.child, r.request.nonce);
      assert r.macaroon in s.graph.MacaroonsOf(h);
    }
  }

  /** A bar in a delegate's name is where forgery gains: the name before the bar can use the macaroon. */
  lemma BarLetsThePrefixIn()
    ensures var s := Run(OnlyGrant("x"), [DelegateEvent(AskFor("x", "a|b"))]);
            !Holds(s.graph, "a", "tool:x", 0) && exists g :: Forged(g, s) && Holds(g, "a", "tool:x", 0)
  {
    hide Run, ParseTools, PrintTools;
    RoundTripExactly({"x"});
    var events := [DelegateEvent(AskFor("x", "a|b"))];
    OneDelegationHolds("x", "a|b", "a", "tool:x");
    var m := OneDelegation("x", "a|b");
    assert HolderOf("a|b") == "a" by {
      assert "a|b"[1..] == "|b";
    }
    assert "tool:x"[5..] == "x";
    var s := Run(OnlyGrant("x"), events);
    assert s.history[0] in s.history && Grants(s.history[0].macaroon, "a", "x", 0);
    BearerPower(OnlyGrant("x"), events, "a", "tool:x", 0);
  }
}
