/** `delegate` against `holds`: two different algorithms over the same credentials, and exactly when they agree. */
module DelegationTerms {
  import opened Basics
  import opened Caveats
  import opened Macaroons
  import opened Attenuation
  import opened DelegationRuns

  ghost predicate Explicit(g: Graph, holder: string) {
    forall m :: m in g.MacaroonsOf(holder) ==> ToolsFrom(m.caveats).Some?
  }

  lemma CredentialsOfExplicit(g: Graph, holder: string, now: int)
    requires Explicit(g, holder)
    ensures forall c :: c in LiveCredentials(g.MacaroonsOf(holder), holder, now) ==>
              c.tools.Some? && (c.expiry.None? || now < c.expiry.value)
  {
    forall c | c in LiveCredentials(g.MacaroonsOf(holder), holder, now)
      ensures c.tools.Some? && (c.expiry.None? || now < c.expiry.value)
    {
      LiveCredentialFrom(g.MacaroonsOf(holder), holder, now, c);
    }
  }

  lemma LiveToolIsGranted(ms: seq<Macaroon>, holder: string, now: int, t: string)
    requires forall m :: m in ms ==> ToolsFrom(m.caveats).Some?
    ensures (exists c :: c in LiveCredentials(ms, holder, now) && c.tools.Some? && t in c.tools.value) <==>
            exists m :: m in ms && Grants(m, holder, t, now)
  {
    if c :| c in LiveCredentials(ms, holder, now) && c.tools.Some? && t in c.tools.value {
      LiveCredentialFrom(ms, holder, now, c);
      var m :| m in ms && Live(m, holder, now) && c == CredentialOf(m);
      assert Grants(m, holder, t, now);
    }
    if m :| m in ms && Grants(m, holder, t, now) {
      assert Live(m, holder, now);
      LiveCredentialFrom(ms, holder, now, CredentialOf(m));
    }
  }

  /** Of what is asked for, `delegate` allows exactly what `holds` says the parent holds at that instant. */
  lemma AllowedIsHeld(g: Graph, parent: string, tools: seq<string>, now: int, t: string)
    requires Explicit(g, parent)
    ensures t in Allowed(g.RootsOf(parent), LiveCredentials(g.MacaroonsOf(parent), parent, now), tools) <==>
            t in Requested(tools) && Holds(g, parent, "tool:" + t, now)
  {
    var creds := LiveCredentials(g.MacaroonsOf(parent), parent, now);
    CredentialsOfExplicit(g, parent, now);
    UnionMember(RootTools(g.RootsOf(parent)), creds, t);
    RootToolsExactly(g.RootsOf(parent), t);
    LiveToolIsGranted(g.MacaroonsOf(parent), parent, now, t);
    assert WithoutPrefix("tool:" + t) == t;
  }

  lemma {:induction false} CeilingIsSomeones(creds: seq<Credential>, remainder: set<string>)
    ensures Ceiling(creds, remainder).Some? ==>
              exists c :: c in creds && Hit(c, remainder) != {} && c.expiry == Ceiling(creds, remainder)
  {
    if creds != [] {
      var init, last := creds[..|creds| - 1], creds[|creds| - 1];
      CeilingIsSomeones(init, remainder);
      assert last in creds && forall c :: c in init ==> c in creds;
    }
  }

  /** The granted expiry is the earliest of the one asked for and those of the credentials that cover the remainder. */
  lemma ExpiryExactly(grants: set<string>, creds: seq<Credential>, tools: seq<string>, expiresAt: Option<int>, now: int)
    requires TermsFor(grants, creds, tools, expiresAt, now).Success?
    ensures var terms := TermsFor(grants, creds, tools, expiresAt, now).value;
            && NoLater(terms.expiry, expiresAt)
            && (forall c :: c in creds && Hit(c, Remainder(grants, terms.allowed)) != {} ==>
                NoLater(terms.expiry, c.expiry))
            && (terms.expiry == expiresAt ||
                exists c :: c in creds && Hit(c, Remainder(grants, terms.allowed)) != {} && c.expiry == terms.expiry)
  {
    var terms := TermsFor(grants, creds, tools, expiresAt, now).value;
    forall c | c in creds && Hit(c, Remainder(grants, terms.allowed)) != {} ensures NoLater(terms.expiry, c.expiry) {
      TermsClamped(grants, creds, tools, expiresAt, now, c);
    }
    CeilingIsSomeones(creds, Remainder(grants, terms.allowed));
  }

  ghost predicate HoldsSome(g: Graph, parent: string, tools: seq<string>, now: int) {
    exists t :: t in Requested(tools) && Holds(g, parent, "tool:" + t, now)
  }

  ghost predicate Past(expiresAt: Option<int>, now: int) {
    expiresAt.Some? && now >= expiresAt.value
  }

  lemma CeilingIsAhead(creds: seq<Credential>, remainder: set<string>, now: int)
    requires forall c :: c in creds ==> c.expiry.None? || now < c.expiry.value
    ensures !Past(Ceiling(creds, remainder), now)
  {
    CeilingIsSomeones(creds, remainder);
  }

  lemma AllowedSome(g: Graph, parent: string, tools: seq<string>, now: int)
    requires Explicit(g, parent)
    ensures Allowed(g.RootsOf(parent), LiveCredentials(g.MacaroonsOf(parent), parent, now), tools) != {} <==>
            HoldsSome(g, parent, tools, now)
  {
    var allowed := Allowed(g.RootsOf(parent), LiveCredentials(g.MacaroonsOf(parent), parent, now), tools);
    forall t ensures t in allowed <==> t in Requested(tools) && Holds(g, parent, "tool:" + t, now) {
      AllowedIsHeld(g, parent, tools, now, t);
    }
  }

  /** How a delegation ends, given a graph without unrestricted macaroons. */
  lemma AnswerExactly(g: Graph, q: Request)
    requires Explicit(g, q.parent)
    ensures !HoldsSome(g, q.parent, q.tools, q.now) ==> Answer(g, q) == Failure(GrantsNothing)
    ensures HoldsSome(g, q.parent, q.tools, q.now) ==>
              if Past(q.expiresAt, q.now) then Answer(g, q) == Failure(WouldBeExpired) else Answer(g, q).Success?
  {
    hide Allowed, LiveCredentials, Remainder, Covered, Ceiling, HoldsSome;
    var creds := LiveCredentials(g.MacaroonsOf(q.parent), q.parent, q.now);
    var remainder := Remainder(g.RootsOf(q.parent), Allowed(g.RootsOf(q.parent), creds, q.tools));
    AllowedSome(g, q.parent, q.tools, q.now);
    AlwaysCovered(g.RootsOf(q.parent), creds, q.tools);
    CredentialsOfExplicit(g, q.parent, q.now);
    CeilingIsAhead(creds, remainder, q.now);
  }

  /**
   In every run, a delegation succeeds exactly when the parent holds, at that instant, some tool asked for and the
   expiry asked for is not past; otherwise the refusal says which of the two failed. It mints for exactly the
   tools that were asked for and are held.
   */
  lemma DelegateExactly(grants: map<string, set<string>>, events: seq<Event>, q: Request)
    ensures var g := Run(grants, events).graph;
            && (Answer(g, q).Success? <==> HoldsSome(g, q.parent, q.tools, q.now) && !Past(q.expiresAt, q.now))
            && (Answer(g, q).Failure? ==>
                  Answer(g, q).error ==
                  if HoldsSome(g, q.parent, q.tools, q.now) then WouldBeExpired else GrantsNothing)
    ensures var g := Run(grants, events).graph;
            forall t :: t in Allowed(g.RootsOf(q.parent), LiveCredentials(g.MacaroonsOf(q.parent), q.parent, q.now),
                                     q.tools) <==>
                        t in Requested(q.tools) && Holds(g, q.parent, "tool:" + t, q.now)
  {
    hide Answer, Allowed, LiveCredentials, Holds, HoldsSome, Requested;
    var g := Run(grants, events).graph;
    RunKeeps(grants, events);
    ReachableAreExplicit(Run(grants, events).history, g);
    AnswerExactly(g, q);
    forall t ensures t in Allowed(g.RootsOf(q.parent), LiveCredentials(g.MacaroonsOf(q.parent), q.parent, q.now),
                                  q.tools) <==>
                     t in Requested(q.tools) && Holds(g, q.parent, "tool:" + t, q.now)
    {
      AllowedIsHeld(g, q.parent, q.tools, q.now, t);
    }
  }

  /** "The child's tools are a subset of the parent's", at the instant of the delegation. */
  ghost predicate ChildWithinParent(g: Graph, q: Request, m: Macaroon) {
    forall n :: n in ToolsOf(m) ==> Holds(g, q.parent, "tool:" + n, q.now)
  }

  /** The parent holds every name that a requested tool it holds reads back as once printed in a comma list. */
  ghost predicate ReadBackHeld(g: Graph, q: Request) {
    forall x, n :: x in Requested(q.tools) && Holds(g, q.parent, "tool:" + x, q.now) && n in Names(x) ==>
      Holds(g, q.parent, "tool:" + n, q.now)
  }

  lemma MintedToolsAre(g: Graph, q: Request, n: string)
    requires Explicit(g, q.parent) && Answer(g, q).Success?
    ensures n in ToolsOf(Answer(g, q).value) <==>
            exists x :: x in Requested(q.tools) && Holds(g, q.parent, "tool:" + x, q.now) && n in Names(x)
  {
    hide Holds, LiveCredentials, Requested, Allowed;
    var creds := LiveCredentials(g.MacaroonsOf(q.parent), q.parent, q.now);
    var terms := TermsFor(g.RootsOf(q.parent), creds, q.tools, q.expiresAt, q.now).value;
    MintedContents(q.child, terms.allowed, terms.expiry, q.nonce);
    PrintThenParse(terms.allowed);
    forall x ensures x in terms.allowed <==> x in Requested(q.tools) && Holds(g, q.parent, "tool:" + x, q.now) {
      AllowedIsHeld(g, q.parent, q.tools, q.now, x);
    }
  }

  /**
   AE-4 exactly: a delegation stays within its parent's tools if and only if the parent also holds whatever the
   requested tools it holds read back as. Names without commas and outer blanks read back as themselves.
   */
  lemma SubsetExactly(g: Graph, q: Request)
    requires Explicit(g, q.parent) && Answer(g, q).Success?
    ensures ChildWithinParent(g, q, Answer(g, q).value) <==> ReadBackHeld(g, q)
    ensures WellFormedRequest(q) ==> ReadBackHeld(g, q)
  {
    hide Answer, Holds;
    forall n ensures n in ToolsOf(Answer(g, q).value) <==>
                     exists x :: x in Requested(q.tools) && Holds(g, q.parent, "tool:" + x, q.now) && n in Names(x)
    {
      MintedToolsAre(g, q, n);
    }
    if WellFormedRequest(q) {
      forall x | x in Requested(q.tools) ensures Names(x) == {x} {
        NamesOfOne(x);
      }
    }
  }

  /** The same in every run, for any names. */
  lemma SubsetInRunsExactly(grants: map<string, set<string>>, events: seq<Event>, q: Request)
    requires Answer(Run(grants, events).graph, q).Success?
    ensures ChildWithinParent(Run(grants, events).graph, q, Answer(Run(grants, events).graph, q).value) <==>
            ReadBackHeld(Run(grants, events).graph, q)
  {
    hide Answer, ReadBackHeld, ChildWithinParent;
    RunKeeps(grants, events);
    ReachableAreExplicit(Run(grants, events).history, Run(grants, events).graph);
    SubsetExactly(Run(grants, events).graph, q);
  }
}
