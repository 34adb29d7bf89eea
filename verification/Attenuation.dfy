/** Root grants and macaroon delegations: what `delegate` mints and what `holds` accepts. */
module Attenuation {
  import opened Basics
  import opened Caveats
  import opened Macaroons
  import Sorting
  import Text

  /** The graph's state as a value: flat root grants, and each holder's macaroons in order of arrival. */
  datatype Graph = Graph(roots: map<string, set<string>>, macaroons: map<string, seq<Macaroon>>) {
    function RootsOf(holder: string): set<string> {
      if holder in roots then roots[holder] else {}
    }

    function MacaroonsOf(holder: string): seq<Macaroon> {
      if holder in macaroons then macaroons[holder] else []
    }

    function WithMacaroon(holder: string, m: Macaroon): Graph {
      this.(macaroons := macaroons[holder := MacaroonsOf(holder) + [m]])
    }

    function WithGrant(holder: string, capability: string): Graph {
      this.(roots := roots[holder := RootsOf(holder) + {capability}])
    }

    function WithoutGrant(holder: string, capability: string): Graph {
      if holder in roots then this.(roots := roots[holder := roots[holder] - {capability}]) else this
    }
  }

  /** `s.removeprefix("tool:")`. */
  function WithoutPrefix(s: string): string {
    if "tool:" <= s then s[5..] else s
  }

  ghost predicate Holds(g: Graph, holder: string, capability: string, now: int) {
    || "*" in g.RootsOf(holder)
    || capability in g.RootsOf(holder)
    || exists m :: m in g.MacaroonsOf(holder) && Grants(m, holder, WithoutPrefix(capability), now)
  }

  /**
   A bearer that appends `tool:<n>` to one of its macaroons, all of which list tools, gives up every other tool of
   that one and gains nothing: besides its root grants and other macaroons it holds `n` at most.
   */
  lemma AppendingNarrowsHolds(g: Graph, h: string, k: nat, n: string, t: string, now: int)
    requires k < |g.MacaroonsOf(h)| && ToolsFrom(g.MacaroonsOf(h)[k].caveats).Some?
    ensures var ms := g.MacaroonsOf(h);
            var narrowed := g.(macaroons := g.macaroons[h := ms[k := Appended(ms[k], Text("tool:" + n))]]);
            Holds(narrowed, h, "tool:" + t, now) <==>
            || "*" in g.RootsOf(h) || "tool:" + t in g.RootsOf(h)
            || (exists j :: 0 <= j < |ms| && j != k && Grants(ms[j], h, t, now))
            || (t == n && Grants(ms[k], h, t, now))
  {
    var ms, m := g.MacaroonsOf(h), Appended(g.MacaroonsOf(h)[k], Text("tool:" + n));
    var narrowed := g.(macaroons := g.macaroons[h := ms[k := m]]);
    assert narrowed.MacaroonsOf(h) == ms[k := m] && narrowed.RootsOf(h) == g.RootsOf(h);
    assert ("tool:" + t)[5..] == t;
    AppendedToolGrants(ms[k], n, h, t, now);
    assert ms[k := m][k] == m && m in ms[k := m];
    if j :| 0 <= j < |ms| && j != k && Grants(ms[j], h, t, now) {
      assert ms[k := m][j] == ms[j] && ms[j] in ms[k := m];
    }
    if x :| x in ms[k := m] && Grants(x, h, t, now) {
      var j :| 0 <= j < |ms| && ms[k := m][j] == x;
      assert j != k ==> Grants(ms[j], h, t, now);
    }
  }

  // ---- delegation

  datatype AttenuationError = GrantsNothing | LacksCredentials(missing: set<string>) | WouldBeExpired

  /** What a live macaroon is worth to a delegator: its tools (None is "unrestricted") and its expiry. */
  datatype Credential = Credential(tools: Option<set<string>>, expiry: Option<int>)

  function CredentialOf(m: Macaroon): Credential {
    Credential(ToolsFrom(m.caveats), ExpiryFrom(m.caveats))
  }

  predicate Live(m: Macaroon, holder: string, now: int) {
    UsableBy(m, holder) && !Expired(m, now) && ToolsFrom(m.caveats) != Some({})
  }

  function LiveCredentials(ms: seq<Macaroon>, holder: string, now: int): seq<Credential> {
    if ms == [] then []
    else
      var m := ms[|ms| - 1];
      LiveCredentials(ms[..|ms| - 1], holder, now) + if Live(m, holder, now) then [CredentialOf(m)] else []
  }

  /** The tool names of the `tool:<name>` root grants. */
  function RootTools(grants: set<string>): set<string> {
    set c | c in grants && "tool:" <= c :: c[5..]
  }

  /** Everything the credentials allow on top of `base`; None as soon as one is unrestricted. */
  function UnionOfTools(base: set<string>, creds: seq<Credential>): Option<set<string>> {
    if creds == [] then Some(base)
    else
      var before, last := UnionOfTools(base, creds[..|creds| - 1]), creds[|creds| - 1];
      if before.None? || last.tools.None? then None else Some(before.value + last.tools.value)
  }

  function ParentTools(grants: set<string>, creds: seq<Credential>): Option<set<string>> {
    if "*" in grants then None else UnionOfTools(RootTools(grants), creds)
  }

  function Hit(c: Credential, remainder: set<string>): set<string> {
    if c.tools.None? then remainder else c.tools.value * remainder
  }

  function Covered(creds: seq<Credential>, remainder: set<string>): set<string> {
    if creds == [] then {}
    else Covered(creds[..|creds| - 1], remainder) + Hit(creds[|creds| - 1], remainder)
  }

  /** The earliest expiry among the credentials that cover some of `remainder`. */
  function Ceiling(creds: seq<Credential>, remainder: set<string>): Option<int> {
    if creds == [] then None
    else
      var before, last := Ceiling(creds[..|creds| - 1], remainder), creds[|creds| - 1];
      if Hit(last, remainder) == {} then before else Earlier(before, last.expiry)
  }

  function Requested(tools: seq<string>): set<string> {
    set t | t in tools :: WithoutPrefix(t)
  }

  /** Asking for a tool with or without its prefix is asking for the same. */
  lemma RequestedExactly(tools: seq<string>, t: string)
    ensures t in Requested(tools) <==> "tool:" + t in tools || (t in tools && !("tool:" <= t))
  {
    var prefixed := "tool:" + t;
    assert prefixed[5..] == t && WithoutPrefix(prefixed) == t;
    if x :| x in tools && WithoutPrefix(x) == t {
      assert "tool:" <= x ==> x == prefixed;
    }
  }

  function Allowed(grants: set<string>, creds: seq<Credential>, tools: seq<string>): set<string> {
    var parentTools := ParentTools(grants, creds);
    if parentTools.None? then Requested(tools) else Requested(tools) * parentTools.value
  }

  function Remainder(grants: set<string>, allowed: set<string>): set<string> {
    if "*" in grants then {} else allowed - RootTools(grants)
  }

  ghost function MintedCaveats(allowed: set<string>, expiry: Option<int>): seq<Caveat> {
    [PrintTools(allowed)] + if expiry.Some? then [Before(expiry.value)] else []
  }

  /** What a delegation is worth before it is minted. */
  datatype Terms = Terms(allowed: set<string>, expiry: Option<int>)

  function TermsFor(grants: set<string>, creds: seq<Credential>, tools: seq<string>, expiresAt: Option<int>, now: int)
    : Result<Terms, AttenuationError>
  {
    var allowed := Allowed(grants, creds, tools);
    var remainder := Remainder(grants, allowed);
    var expiry := if remainder == {} then expiresAt else Earlier(expiresAt, Ceiling(creds, remainder));
    if allowed == {} then Failure(GrantsNothing)
    else if Covered(creds, remainder) < remainder then
      Failure(LacksCredentials(remainder - Covered(creds, remainder)))
    else if expiry.Some? && now >= expiry.value then Failure(WouldBeExpired)
    else Success(Terms(allowed, expiry))
  }

  /** `delegate` as a function of the graph it reads. The nonce is the caller's fresh draw. */
  ghost function Delegation(g: Graph, parent: string, child: string, tools: seq<string>,
                            expiresAt: Option<int>, now: int, nonce: string): Result<Macaroon, AttenuationError>
  {
    match TermsFor(g.RootsOf(parent), LiveCredentials(g.MacaroonsOf(parent), parent, now), tools, expiresAt, now)
    case Failure(e) => Failure(e)
    case Success(terms) => Success(Minted(child, MintedCaveats(terms.allowed, terms.expiry), nonce))
  }

  class AuthorityGraph {
    var rootGrants: map<string, set<string>>
    var macaroons: map<string, seq<Macaroon>>

    function Model(): Graph
      reads this
    {
      Graph(rootGrants, macaroons)
    }

    constructor (grants: map<string, set<string>>)
      ensures Model() == Graph(grants, map[])
    {
      rootGrants, macaroons := grants, map[];
    }

    method Grant(holder: string, capability: string)
      modifies this
      ensures Model() == old(Model()).WithGrant(holder, capability)
    {
      if holder !in rootGrants {
        rootGrants := rootGrants[holder := {}];
      }
      rootGrants := rootGrants[holder := rootGrants[holder] + {capability}];
    }

    method Revoke(holder: string, capability: string)
      modifies this
      ensures Model() == old(Model()).WithoutGrant(holder, capability)
    {
      if holder in rootGrants {
        rootGrants := rootGrants[holder := rootGrants[holder] - {capability}];
      }
    }

    /** `_live_credentials`, the macaroon half. */
    method CollectLive(parent: string, now: int) returns (creds: seq<Credential>)
      ensures creds == LiveCredentials(Model().MacaroonsOf(parent), parent, now)
    {
      var ms := Model().MacaroonsOf(parent);
      creds := [];
      for i := 0 to |ms|
        invariant creds == LiveCredentials(ms[..i], parent, now)
      {
        assert ms[..i + 1][..i] == ms[..i];
        var m := ms[i];
        var verified := VerifySig(m);
        if HolderOf(m.identifier) == parent && verified {
          var exp := EffectiveExpiry(m.caveats);
          if exp.None? || now < exp.value {
            var ts := EffectiveTools(m.caveats);
            if ts != Some({}) {
              creds := creds + [Credential(ts, exp)];
            }
          }
        }
      }
      assert ms[..|ms|] == ms;
    }

    /** `_parent_authority`. */
    method ParentAuthority(parent: string, now: int) returns (tools: Option<set<string>>, creds: seq<Credential>)
      ensures creds == LiveCredentials(Model().MacaroonsOf(parent), parent, now)
      ensures tools == ParentTools(Model().RootsOf(parent), creds)
    {
      creds := CollectLive(parent, now);
      var root := Model().RootsOf(parent);
      if "*" in root { return None, creds; }
      tools := Some(RootTools(root));
      for i := 0 to |creds|
        invariant tools == UnionOfTools(RootTools(root), creds[..i])
      {
        assert creds[..i + 1][..i] == creds[..i];
        tools := if tools.None? || creds[i].tools.None? then None else Some(tools.value + creds[i].tools.value);
      }
      assert creds[..|creds|] == creds;
    }

    /** The coverage loop of `delegate`: what the credentials cover, and the ceiling they set. */
    static method Coverage(creds: seq<Credential>, remainder: set<string>)
      returns (covered: set<string>, ceiling: Option<int>)
      ensures covered == Covered(creds, remainder) && ceiling == Ceiling(creds, remainder)
    {
      covered, ceiling := {}, None;
      for i := 0 to |creds|
        invariant covered == Covered(creds[..i], remainder) && ceiling == Ceiling(creds[..i], remainder)
      {
        assert creds[..i + 1][..i] == creds[..i];
        var hit := Hit(creds[i], remainder);
        if hit != {} {
          covered := covered + hit;
          ceiling := Earlier(ceiling, creds[i].expiry);
        }
      }
      assert creds[..|creds|] == creds;
    }

    /** `delegate` up to the mint. */
    method Negotiate(parent: string, tools: seq<string>, expiresAt: Option<int>, now: int)
      returns (r: Result<Terms, AttenuationError>)
      ensures r == TermsFor(Model().RootsOf(parent), LiveCredentials(Model().MacaroonsOf(parent), parent, now),
                            tools, expiresAt, now)
    {
      var parentTools, creds := ParentAuthority(parent, now);
      var requested := Requested(tools);
      var allowed := if parentTools.Some? then requested * parentTools.value else requested;
      if allowed == {} { return Failure(GrantsNothing); }
      var remainder := Remainder(Model().RootsOf(parent), allowed);
      var expiry := expiresAt;
      if remainder != {} {
        var covered, ceiling := Coverage(creds, remainder);
        if covered < remainder {
          return Failure(LacksCredentials(remainder - covered));
        }
        if ceiling.Some? && (expiry.None? || expiry.value > ceiling.value) {
          expiry := ceiling;
        }
      }
      if expiry.Some? && now >= expiry.value { return Failure(WouldBeExpired); }
      return Success(Terms(allowed, expiry));
    }

    method Delegate(parent: string, child: string, tools: seq<string>,
                    expiresAt: Option<int>, now: int, nonce: string)
      returns (r: Result<Macaroon, AttenuationError>)
      modifies this
      ensures r == Delegation(old(Model()), parent, child, tools, expiresAt, now, nonce)
      ensures Model() == if r.Success? then old(Model()).WithMacaroon(child, r.value) else old(Model())
    {
      var terms := Negotiate(parent, tools, expiresAt, now);
      if terms.Failure? { return Failure(terms.error); }
      var names := Sorting.Sort(terms.value.allowed);
      var caveats := [Caveat.Text("tools:" + Text.Join(names))];
      if terms.value.expiry.Some? {
        caveats := caveats + [Before(terms.value.expiry.value)];
      }
      assert caveats == MintedCaveats(terms.value.allowed, terms.value.expiry);
      var m := Mint(child, caveats, nonce);
      macaroons := macaroons[child := Model().MacaroonsOf(child) + [m]];
      return Success(m);
    }

    method HoldsNow(holder: string, capability: string, now: int) returns (ok: bool)
      ensures ok <==> Holds(Model(), holder, capability, now)
    {
      var root := Model().RootsOf(holder);
      if "*" in root || capability in root { return true; }
      var tool := WithoutPrefix(capability);
      var ms := Model().MacaroonsOf(holder);
      for i := 0 to |ms|
        invariant forall j :: 0 <= j < i ==> !Grants(ms[j], holder, tool, now)
      {
        var m := ms[i];
        var verified := VerifySig(m);
        if HolderOf(m.identifier) == holder && verified {
          var exp := EffectiveExpiry(m.caveats);
          if exp.None? || now < exp.value {
            var ts := EffectiveTools(m.caveats);
            if ts.Some? && tool in ts.value {
              assert Grants(ms[i], holder, tool, now) && ms[i] in Model().MacaroonsOf(holder);
              return true;
            }
          }
        }
      }
      return false;
    }
  }
}
