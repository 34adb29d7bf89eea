/** What every run of grants, revocations and delegations keeps. */
module DelegationRuns {
  import opened Basics
  import opened Caveats
  import opened Macaroons
  import opened Attenuation

  datatype Event =
    | GrantEvent(holder: string, capability: string)
    | RevokeEvent(holder: string, capability: string)
    | DelegateEvent(request: Request)

  datatype Request =
    Request(parent: string, child: string, tools: seq<string>, expiresAt: Option<int>, now: int, nonce: string)

  ghost function Answer(g: Graph, q: Request): Result<Macaroon, AttenuationError> {
    Delegation(g, q.parent, q.child, q.tools, q.expiresAt, q.now, q.nonce)
  }

  /** One successful delegation, with the graph it read. */
  datatype MintRecord = MintRecord(before: Graph, request: Request, macaroon: Macaroon)

  datatype State = State(graph: Graph, history: seq<MintRecord>)

  ghost function Step(s: State, e: Event): State {
    match e
    case GrantEvent(h, c) => s.(graph := s.graph.WithGrant(h, c))
    case RevokeEvent(h, c) => s.(graph := s.graph.WithoutGrant(h, c))
    case DelegateEvent(q) =>
      var r := Answer(s.graph, q);
      if r.Failure? then s
      else State(s.graph.WithMacaroon(q.child, r.value), s.history + [MintRecord(s.graph, q, r.value)])
  }

  /** From any root grants and no macaroons. */
  ghost function Run(grants: map<string, set<string>>, events: seq<Event>): State {
    if events == [] then State(Graph(grants, map[]), [])
    else Step(Run(grants, events[..|events| - 1]), events[|events| - 1])
  }

  ghost predicate WellFormedRequest(q: Request) {
    forall t :: t in q.tools ==> WellFormedName(WithoutPrefix(t))
  }

  /** Every tool a delegation asks for has a name that survives the caveat's comma list. */
  ghost predicate WellFormedRequests(events: seq<Event>) {
    forall e :: e in events && e.DelegateEvent? ==> WellFormedRequest(e.request)
  }

  ghost predicate NoRevocations(events: seq<Event>) {
    forall e :: e in events ==> !e.RevokeEvent?
  }

  // ---- one delegation

  ghost function ToolsOf(m: Macaroon): set<string> {
    var ts := ToolsFrom(m.caveats);
    if ts.Some? then ts.value else {}
  }

  ghost predicate RootHas(g: Graph, holder: string, tool: string) {
    "*" in g.RootsOf(holder) || "tool:" + tool in g.RootsOf(holder)
  }

  /** `b` ends no later than `a`. */
  ghost predicate NoLater(b: Option<int>, a: Option<int>) {
    a.None? || (b.Some? && b.value <= a.value)
  }

  /** A live macaroon of the delegator, with an explicit allowlist naming `tool`, that outlives `m`. */
  ghost predicate Covers(p: Macaroon, parent: string, tool: string, now: int, m: Macaroon) {
    Grants(p, parent, tool, now) && NoLater(ExpiryFrom(m.caveats), ExpiryFrom(p.caveats))
  }

  lemma MintedContents(child: string, allowed: set<string>, expiry: Option<int>, nonce: string)
    ensures var m := Minted(child, MintedCaveats(allowed, expiry), nonce);
            ToolsFrom(m.caveats) == ParseTools(PrintTools(allowed)) && ToolsFrom(m.caveats).Some? &&
            ExpiryFrom(m.caveats) == expiry
  {
    PrintThenParse(allowed);
    var list := PrintTools(allowed);
    assert ToolsFrom([list]) == ParseTools(list) by { assert [list][..0] == []; }
    assert ExpiryFrom([list]) == None by { assert [list][..0] == []; }
    if expiry.Some? {
      assert [list, Before(expiry.value)][..1] == [list];
    }
  }

  lemma {:induction false} LiveCredentialFrom(ms: seq<Macaroon>, holder: string, now: int, c: Credential)
    ensures c in LiveCredentials(ms, holder, now) <==>
            exists m :: m in ms && Live(m, holder, now) && c == CredentialOf(m)
  {
    if ms != [] {
      var init, m := ms[..|ms| - 1], ms[|ms| - 1];
      LiveCredentialFrom(init, holder, now, c);
      assert forall x :: x in ms <==> x in init || x == m;
    }
  }

  lemma {:induction false} UnionMember(base: set<string>, creds: seq<Credential>, t: string)
    requires forall c :: c in creds ==> c.tools.Some?
    ensures UnionOfTools(base, creds).Some?
    ensures t in UnionOfTools(base, creds).value <==> t in base || exists c :: c in creds && t in c.tools.value
  {
    if creds != [] {
      var init, last := creds[..|creds| - 1], creds[|creds| - 1];
      UnionMember(base, init, t);
      assert forall c :: c in creds <==> c in init || c == last;
    }
  }

  lemma {:induction false} CeilingBounds(creds: seq<Credential>, remainder: set<string>, c: Credential)
    requires c in creds && Hit(c, remainder) != {}
    ensures NoLater(Ceiling(creds, remainder), c.expiry)
  {
    var init, last := creds[..|creds| - 1], creds[|creds| - 1];
    if c != last {
      assert c in init;
      CeilingBounds(init, remainder, c);
    }
  }

  lemma {:induction false} CoveredMember(creds: seq<Credential>, remainder: set<string>, t: string)
    ensures Covered(creds, remainder) <= remainder
    ensures t in Covered(creds, remainder) <==> exists c :: c in creds && t in Hit(c, remainder)
  {
    if creds != [] {
      var init, last := creds[..|creds| - 1], creds[|creds| - 1];
      CoveredMember(init, remainder, t);
      assert forall c :: c in creds <==> c in init || c == last;
    }
  }

  /** The clamp: no delegated terms outlive a dated credential that covers part of the remainder. */
  lemma TermsClamped(grants: set<string>, creds: seq<Credential>, tools: seq<string>,
                     expiresAt: Option<int>, now: int, c: Credential)
    requires TermsFor(grants, creds, tools, expiresAt, now).Success?
    requires c in creds && Hit(c, Remainder(grants, TermsFor(grants, creds, tools, expiresAt, now).value.allowed)) != {}
    ensures NoLater(TermsFor(grants, creds, tools, expiresAt, now).value.expiry, c.expiry)
  {
    CeilingBounds(creds, Remainder(grants, Allowed(grants, creds, tools)), c);
  }

  lemma RootToolsExactly(grants: set<string>, t: string)
    ensures t in RootTools(grants) <==> "tool:" + t in grants
  {
    var c := "tool:" + t;
    assert c[5..] == t;
    if d :| d in grants && "tool:" <= d && d[5..] == t {
      assert d == "tool:" + d[5..];
    }
  }

  /** AE-4 for one set of terms: each allowed tool is a root tool or some credential covers it. */
  lemma TermsJustified(grants: set<string>, creds: seq<Credential>, tools: seq<string>,
                       expiresAt: Option<int>, now: int, t: string)
    returns (c: Credential)
    requires forall d :: d in creds ==> d.tools.Some?
    requires TermsFor(grants, creds, tools, expiresAt, now).Success?
    requires t in TermsFor(grants, creds, tools, expiresAt, now).value.allowed
    ensures "*" in grants || t in RootTools(grants) ||
            (c in creds && t in c.tools.value &&
             NoLater(TermsFor(grants, creds, tools, expiresAt, now).value.expiry, c.expiry))
  {
    c := Credential(None, None);
    if "*" !in grants && t !in RootTools(grants) {
      UnionMember(RootTools(grants), creds, t);
      c :| c in creds && t in c.tools.value;
      assert t in Hit(c, Remainder(grants, Allowed(grants, creds, tools)));
      TermsClamped(grants, creds, tools, expiresAt, now, c);
    }
  }

  /** The refusal for missing credentials never fires: `allowed` is always covered. */
  lemma AlwaysCovered(grants: set<string>, creds: seq<Credential>, tools: seq<string>)
    ensures Covered(creds, Remainder(grants, Allowed(grants, creds, tools))) ==
            Remainder(grants, Allowed(grants, creds, tools))
  {
    var remainder := Remainder(grants, Allowed(grants, creds, tools));
    forall t ensures t in remainder <==> t in Covered(creds, remainder) {
      CoveredMember(creds, remainder, t);
      if t in remainder {
        if forall c :: c in creds ==> c.tools.Some? {
          UnionMember(RootTools(grants), creds, t);
          var c :| c in creds && t in c.tools.value;
          assert t in Hit(c, remainder);
        } else {
          var c :| c in creds && c.tools.None?;
          assert t in Hit(c, remainder);
        }
      }
    }
  }

  // ---- runs

  ghost predicate MintedFor(mints: seq<MintRecord>, holder: string, m: Macaroon) {
    exists j :: 0 <= j < |mints| && mints[j].request.child == holder && mints[j].macaroon == m
  }

  /** Every macaroon in `g` was minted by an earlier delegation to that holder. */
  ghost predicate FromMints(g: Graph, mints: seq<MintRecord>) {
    forall h, m :: m in g.MacaroonsOf(h) ==> MintedFor(mints, h, m)
  }

  ghost predicate Genuine(mints: seq<MintRecord>, k: nat)
    requires k < |mints|
  {
    && Answer(mints[k].before, mints[k].request) == Success(mints[k].macaroon)
    && FromMints(mints[k].before, mints[..k])
  }

  /** `later` keeps every macaroon of `g`. */
  ghost predicate Keeps(g: Graph, later: Graph) {
    forall h, m :: m in g.MacaroonsOf(h) ==> m in later.MacaroonsOf(h)
  }

  ghost predicate Inv(s: State) {
    && FromMints(s.graph, s.history)
    && (forall k :: 0 <= k < |s.history| ==> Genuine(s.history, k))
    && (forall k :: 0 <= k < |s.history| ==> Keeps(s.history[k].before, s.graph))
    && (forall r :: r in s.history ==> r.macaroon in s.graph.MacaroonsOf(r.request.child))
  }

  lemma FromMoreMints(g: Graph, mints: seq<MintRecord>, r: MintRecord)
    requires FromMints(g, mints)
    ensures FromMints(g, mints + [r])
    ensures forall h, m :: m in g.WithMacaroon(r.request.child, r.macaroon).MacaroonsOf(h) ==>
            MintedFor(mints + [r], h, m)
  {
    var g' := g.WithMacaroon(r.request.child, r.macaroon);
    forall h, m | m in g'.MacaroonsOf(h) ensures MintedFor(mints + [r], h, m) {
      if m in g.MacaroonsOf(h) {
        var j :| 0 <= j < |mints| && mints[j].request.child == h && mints[j].macaroon == m;
        assert (mints + [r])[j] == mints[j];
      } else {
        assert (mints + [r])[|mints|] == r;
      }
    }
  }

  lemma GenuineGrows(mints: seq<MintRecord>, r: MintRecord)
    requires forall k :: 0 <= k < |mints| ==> Genuine(mints, k)
    requires Answer(r.before, r.request) == Success(r.macaroon) && FromMints(r.before, mints)
    ensures forall k :: 0 <= k < |mints + [r]| ==> Genuine(mints + [r], k)
  {
    hide Answer, FromMints;
    var longer := mints + [r];
    forall k | 0 <= k < |longer| ensures Genuine(longer, k) {
      if k < |mints| {
        assert Genuine(mints, k) && longer[..k] == mints[..k];
      } else {
        assert longer[..k] == mints;
      }
    }
  }

  lemma MacaroonsOnlyGrow(g: Graph, child: string, m: Macaroon)
    ensures Keeps(g, g.WithMacaroon(child, m))
    ensures m in g.WithMacaroon(child, m).MacaroonsOf(child)
  {
  }

  lemma MintKeeps(s: State, q: Request, m: Macaroon)
    requires Inv(s) && Answer(s.graph, q) == Success(m)
    ensures Inv(State(s.graph.WithMacaroon(q.child, m), s.history + [MintRecord(s.graph, q, m)]))
  {
    var r := MintRecord(s.graph, q, m);
    var g, mints := s.graph.WithMacaroon(q.child, m), s.history + [r];
    FromMoreMints(s.graph, s.history, r);
    GenuineGrows(s.history, r);
    MacaroonsOnlyGrow(s.graph, q.child, m);
    forall k | 0 <= k < |mints| ensures Keeps(mints[k].before, g) {
      assert k < |s.history| ==> Keeps(s.history[k].before, s.graph);
    }
    forall x | x in mints ensures x.macaroon in g.MacaroonsOf(x.request.child) {
      assert x in s.history || x == r;
    }
  }

  lemma StepKeeps(s: State, e: Event)
    requires Inv(s)
    ensures Inv(Step(s, e))
  {
    if e.DelegateEvent? && Answer(s.graph, e.request).Success? {
      MintKeeps(s, e.request, Answer(s.graph, e.request).value);
    } else {
      assert forall h :: Step(s, e).graph.MacaroonsOf(h) == s.graph.MacaroonsOf(h);
    }
  }

  lemma {:induction false} RunKeeps(grants: map<string, set<string>>, events: seq<Event>)
    ensures Inv(Run(grants, events))
  {
    if events != [] {
      RunKeeps(grants, events[..|events| - 1]);
      StepKeeps(Run(grants, events[..|events| - 1]), events[|events| - 1]);
    }
  }

  lemma StepRecords(s: State, e: Event)
    ensures s.history <= Step(s, e).history
    ensures |Step(s, e).history| > |s.history| ==>
              |Step(s, e).history| == |s.history| + 1 && DelegateEvent(Step(s, e).history[|s.history|].request) == e
  {
  }

  /** Only requests that occur in the run are recorded. */
  lemma {:induction false} RecordedRequests(grants: map<string, set<string>>, events: seq<Event>, k: nat)
    requires k < |Run(grants, events).history|
    ensures DelegateEvent(Run(grants, events).history[k].request) in events
  {
    if events != [] {
      var init := events[..|events| - 1];
      StepRecords(Run(grants, init), events[|events| - 1]);
      if k < |Run(grants, init).history| {
        RecordedRequests(grants, init, k);
      }
    }
  }

  /** All recorded mints of a run with well-formed requests are genuine and well formed. */
  lemma RunRecords(grants: map<string, set<string>>, events: seq<Event>, k: nat)
    requires WellFormedRequests(events) && k < |Run(grants, events).history|
    ensures Genuine(Run(grants, events).history, k) && WellFormedRequest(Run(grants, events).history[k].request)
  {
    RunKeeps(grants, events);
    RecordedRequests(grants, events, k);
  }

  /** Every macaroon a run can reach has an explicit tool set. */
  lemma ReachableAreExplicit(mints: seq<MintRecord>, g: Graph)
    requires FromMints(g, mints) && forall k :: 0 <= k < |mints| ==> Genuine(mints, k)
    ensures forall h, m :: m in g.MacaroonsOf(h) ==> ToolsFrom(m.caveats).Some?
  {
    forall h, m | m in g.MacaroonsOf(h) ensures ToolsFrom(m.caveats).Some? {
      var j :| 0 <= j < |mints| && mints[j].request.child == h && mints[j].macaroon == m;
      MintHasTools(mints, j);
    }
  }

  ghost function TermsOf(r: MintRecord): Result<Terms, AttenuationError>
  {
    var e := r.request;
    TermsFor(r.before.RootsOf(e.parent), LiveCredentials(r.before.MacaroonsOf(e.parent), e.parent, e.now),
             e.tools, e.expiresAt, e.now)
  }

  lemma MintHasTools(mints: seq<MintRecord>, k: nat)
    requires k < |mints| && Genuine(mints, k)
    ensures TermsOf(mints[k]).Success?
    ensures ToolsFrom(mints[k].macaroon.caveats).Some?
    ensures ExpiryFrom(mints[k].macaroon.caveats) == TermsOf(mints[k]).value.expiry
    ensures ToolsFrom(mints[k].macaroon.caveats) == ParseTools(PrintTools(TermsOf(mints[k]).value.allowed))
    ensures mints[k].macaroon.signature == Chain(mints[k].macaroon.identifier, mints[k].macaroon.caveats)
    ensures mints[k].macaroon.identifier == IdentifierFor(mints[k].request.child, mints[k].request.nonce)
  {
    var e, terms := mints[k].request, TermsOf(mints[k]).value;
    MintedContents(e.child, terms.allowed, terms.expiry, e.nonce);
  }

  /** AE-4 exactly: the child's tool set is what was allowed just when every allowed name is well formed. */
  lemma MintsWhatWasAllowed(mints: seq<MintRecord>, k: nat)
    requires k < |mints| && Genuine(mints, k)
    ensures TermsOf(mints[k]).Success?
    ensures ToolsFrom(mints[k].macaroon.caveats) == Some(TermsOf(mints[k]).value.allowed) <==>
            forall t :: t in TermsOf(mints[k]).value.allowed ==> WellFormedName(t)
    ensures WellFormedRequest(mints[k].request) ==>
              ToolsFrom(mints[k].macaroon.caveats) == Some(TermsOf(mints[k]).value.allowed)
  {
    MintHasTools(mints, k);
    RoundTripExactly(TermsOf(mints[k]).value.allowed);
  }

  /** Mint `j` is to the delegator of mint `k`, names `t`, was live then, and outlives mint `k`. */
  ghost predicate Links(mints: seq<MintRecord>, j: nat, k: nat, t: string)
    requires j < |mints| && k < |mints|
  {
    && j < k
    && mints[j].request.child == mints[k].request.parent
    && mints[j].macaroon in mints[k].before.MacaroonsOf(mints[k].request.parent)
    && Covers(mints[j].macaroon, mints[k].request.parent, t, mints[k].request.now, mints[k].macaroon)
  }

  lemma CoverOf(mints: seq<MintRecord>, k: nat, t: string) returns (p: Macaroon)
    requires k < |mints| && forall i :: 0 <= i <= k ==> Genuine(mints, i)
    requires WellFormedRequest(mints[k].request) && t in ToolsOf(mints[k].macaroon)
    requires !RootHas(mints[k].before, mints[k].request.parent, t)
    ensures p in mints[k].before.MacaroonsOf(mints[k].request.parent)
    ensures Covers(p, mints[k].request.parent, t, mints[k].request.now, mints[k].macaroon)
  {
    var r, e := mints[k], mints[k].request;
    var ms := r.before.MacaroonsOf(e.parent);
    var creds := LiveCredentials(ms, e.parent, e.now);
    MintsWhatWasAllowed(mints, k);
    MintHasTools(mints, k);
    ExplicitBefore(mints, k);
    forall c | c in creds ensures c.tools.Some? {
      LiveCredentialFrom(ms, e.parent, e.now, c);
    }
    RootToolsExactly(r.before.RootsOf(e.parent), t);
    var c := TermsJustified(r.before.RootsOf(e.parent), creds, e.tools, e.expiresAt, e.now, t);
    LiveCredentialFrom(ms, e.parent, e.now, c);
    p :| p in ms && Live(p, e.parent, e.now) && c == CredentialOf(p);
  }

  lemma ExplicitBefore(mints: seq<MintRecord>, k: nat)
    requires k < |mints| && forall i :: 0 <= i <= k ==> Genuine(mints, i)
    ensures forall h, m :: m in mints[k].before.MacaroonsOf(h) ==> ToolsFrom(m.caveats).Some?
  {
    forall i | 0 <= i < k ensures Genuine(mints[..k], i) {
      assert mints[..k][..i] == mints[..i] && Genuine(mints, i);
    }
    assert Genuine(mints, k);
    ReachableAreExplicit(mints[..k], mints[k].before);
  }

  /** Each tool of a minted macaroon is a root tool of the delegator or in an earlier mint that outlives it. */
  lemma LinkBack(mints: seq<MintRecord>, k: nat, t: string) returns (j: nat)
    requires k < |mints| && forall i :: 0 <= i <= k ==> Genuine(mints, i)
    requires WellFormedRequest(mints[k].request) && t in ToolsOf(mints[k].macaroon)
    requires !RootHas(mints[k].before, mints[k].request.parent, t)
    ensures j < k && Links(mints, j, k, t)
  {
    var p := CoverOf(mints, k, t);
    assert FromMints(mints[k].before, mints[..k]) by { assert Genuine(mints, k); }
    assert MintedFor(mints[..k], mints[k].request.parent, p);
    j :| 0 <= j < |mints[..k]| && mints[..k][j].request.child == mints[k].request.parent && mints[..k][j].macaroon == p;
  }

  /**
   A chain of ever earlier mints that justifies tool `t` of mint `path[0]`: each link's delegator got the tool
   from the next link, which was live then and outlives it, and the last delegator had a root grant for it.
   */
  ghost predicate ChainToRoot(mints: seq<MintRecord>, path: seq<nat>, t: string) {
    && |path| > 0
    && (forall i :: 0 <= i < |path| ==> path[i] < |mints|)
    && (forall i :: 0 <= i < |path| ==> t in ToolsOf(mints[path[i]].macaroon))
    && (forall i :: 0 < i < |path| ==> Links(mints, path[i], path[i - 1], t))
    && RootHas(mints[path[|path| - 1]].before, mints[path[|path| - 1]].request.parent, t)
  }

  lemma LongerChain(mints: seq<MintRecord>, k: nat, rest: seq<nat>, t: string)
    requires k < |mints| && t in ToolsOf(mints[k].macaroon)
    requires ChainToRoot(mints, rest, t) && Links(mints, rest[0], k, t)
    ensures ChainToRoot(mints, [k] + rest, t)
  {
  }

  lemma {:induction false} Provenance(mints: seq<MintRecord>, k: nat, t: string) returns (path: seq<nat>)
    requires k < |mints| && forall i :: 0 <= i <= k ==> Genuine(mints, i) && WellFormedRequest(mints[i].request)
    requires t in ToolsOf(mints[k].macaroon)
    ensures ChainToRoot(mints, path, t) && path[0] == k
    decreases k
  {
    if RootHas(mints[k].before, mints[k].request.parent, t) {
      path := [k];
    } else {
      var j := LinkBack(mints, k, t);
      var rest := Provenance(mints, j, t);
      path := [k] + rest;
      LongerChain(mints, k, rest, t);
    }
  }

  /** AE-4 over runs with revocations: every tool of every minted macaroon traces back to a root grant. */
  lemma EveryToolTracesToARoot(grants: map<string, set<string>>, events: seq<Event>, k: nat, t: string)
    requires WellFormedRequests(events)
    requires k < |Run(grants, events).history| && t in ToolsOf(Run(grants, events).history[k].macaroon)
    ensures exists path :: ChainToRoot(Run(grants, events).history, path, t) && path[0] == k
  {
    RunKeeps(grants, events);
    var mints := Run(grants, events).history;
    forall i | 0 <= i <= k ensures Genuine(mints, i) && WellFormedRequest(mints[i].request) {
      RunRecords(grants, events, i);
    }
    var path := Provenance(mints, k, t);
  }

  /** AE-5 over runs: a child ends no later than any live parent macaroon that covers a non-root tool of it. */
  lemma NeverOutlivesACover(grants: map<string, set<string>>, events: seq<Event>, k: nat, p: Macaroon)
    requires WellFormedRequests(events) && k < |Run(grants, events).history|
    requires var r := Run(grants, events).history[k];
             p in r.before.MacaroonsOf(r.request.parent) && Live(p, r.request.parent, r.request.now) &&
             ToolsOf(p) * Remainder(r.before.RootsOf(r.request.parent), ToolsOf(r.macaroon)) != {}
    ensures NoLater(ExpiryFrom(Run(grants, events).history[k].macaroon.caveats), ExpiryFrom(p.caveats))
  {
    RunRecords(grants, events, k);
    var mints := Run(grants, events).history;
    var r, e := mints[k], mints[k].request;
    MintsWhatWasAllowed(mints, k);
    MintHasTools(mints, k);
    var creds := LiveCredentials(r.before.MacaroonsOf(e.parent), e.parent, e.now);
    LiveCredentialFrom(r.before.MacaroonsOf(e.parent), e.parent, e.now, CredentialOf(p));
    TermsClamped(r.before.RootsOf(e.parent), creds, e.tools, e.expiresAt, e.now, CredentialOf(p));
  }
}
