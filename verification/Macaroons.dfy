/**
 HMAC-chained macaroons. HMAC-SHA256 is a free constructor: `H(key, msg)` equals nothing but itself, and
 yields nothing about its key. The message texts `id|...` and `caveat|...` never coincide.
 */
module Macaroons {
  import opened Caveats

  datatype Msg = IdMsg(identifier: string) | CaveatMsg(caveat: Caveat)

  /** `RootKey` is the graph's secret; `Public(n)` is any byte string an outsider can make up. */
  datatype Tag = RootKey | Public(n: nat) | H(key: Tag, msg: Msg)

  datatype Macaroon = Macaroon(identifier: string, caveats: seq<Caveat>, signature: Tag)

  function Chain(identifier: string, caveats: seq<Caveat>): Tag
    decreases |caveats|
  {
    if caveats == [] then H(RootKey, IdMsg(identifier))
    else H(Chain(identifier, caveats[..|caveats| - 1]), CaveatMsg(caveats[|caveats| - 1]))
  }

  /** `identifier.split("|", 1)[0]`. */
  function HolderOf(identifier: string): string {
    if identifier == "" || identifier[0] == '|' then "" else [identifier[0]] + HolderOf(identifier[1..])
  }

  function IdentifierFor(holder: string, nonce: string): string {
    holder + "|" + nonce
  }

  function Minted(holder: string, caveats: seq<Caveat>, nonce: string): Macaroon {
    Macaroon(IdentifierFor(holder, nonce), caveats, Chain(IdentifierFor(holder, nonce), caveats))
  }

  predicate UsableBy(m: Macaroon, holder: string) {
    HolderOf(m.identifier) == holder && m.signature == Chain(m.identifier, m.caveats)
  }

  predicate Expired(m: Macaroon, now: int) {
    ExpiryFrom(m.caveats).Some? && now >= ExpiryFrom(m.caveats).value
  }

  /** `m` lets `holder` use `tool` at `now`. */
  predicate Grants(m: Macaroon, holder: string, tool: string, now: int) {
    UsableBy(m, holder) && !Expired(m, now) && ToolsFrom(m.caveats).Some? && tool in ToolsFrom(m.caveats).value
  }

  /** An identifier names its holder back exactly when the holder's name has no bar in it. */
  lemma {:induction false} HolderOfIdentifier(holder: string, nonce: string)
    ensures HolderOf(IdentifierFor(holder, nonce)) == HolderOf(holder)
    ensures HolderOf(holder) == holder <==> '|' !in holder
  {
    var id := IdentifierFor(holder, nonce);
    if holder == "" {
      assert id[0] == '|';
    } else if holder[0] == '|' {
    } else {
      assert id[1..] == IdentifierFor(holder[1..], nonce);
      HolderOfIdentifier(holder[1..], nonce);
      assert holder == [holder[0]] + holder[1..];
    }
  }

  lemma {:induction false} ChainInjective(id1: string, cs1: seq<Caveat>, id2: string, cs2: seq<Caveat>)
    requires Chain(id1, cs1) == Chain(id2, cs2)
    ensures id1 == id2 && cs1 == cs2
    decreases |cs1|
  {
    if cs1 != [] && cs2 != [] {
      ChainInjective(id1, cs1[..|cs1| - 1], id2, cs2[..|cs2| - 1]);
      assert cs1 == cs1[..|cs1| - 1] + [cs1[|cs1| - 1]];
      assert cs2 == cs2[..|cs2| - 1] + [cs2[|cs2| - 1]];
    }
  }

  /** What an outsider can compute from the tags it has seen: made-up bytes, and H under any key it has. */
  ghost predicate Derivable(known: set<Tag>, t: Tag) {
    t in known || t.Public? || (t.H? && Derivable(known, t.key))
  }

  /**
   Append-only unforgeability: a derivable tag that verifies extends the caveats of a macaroon that was minted,
   under the same identifier.
   */
  lemma {:induction false} Unforgeable(minted: seq<Macaroon>, known: set<Tag>, m: Macaroon) returns (k: nat)
    requires forall i :: 0 <= i < |minted| ==> minted[i].signature == Chain(minted[i].identifier, minted[i].caveats)
    requires forall t :: t in known ==> exists i :: 0 <= i < |minted| && minted[i].signature == t
    requires m.signature == Chain(m.identifier, m.caveats) && Derivable(known, m.signature)
    ensures k < |minted| && minted[k].identifier == m.identifier && minted[k].caveats <= m.caveats
    decreases |m.caveats|
  {
    if m.signature in known {
      k :| 0 <= k < |minted| && minted[k].signature == m.signature;
      ChainInjective(m.identifier, m.caveats, minted[k].identifier, minted[k].caveats);
    } else if m.caveats == [] {
      assert false; // the root key itself is neither known nor made up
    } else {
      var shorter := m.caveats[..|m.caveats| - 1];
      k := Unforgeable(minted, known, Macaroon(m.identifier, shorter, m.signature.key));
      assert shorter <= m.caveats;
    }
  }

  // ---- appending under the tip, as any bearer can

  function Appended(m: Macaroon, c: Caveat): Macaroon {
    Macaroon(m.identifier, m.caveats + [c], H(m.signature, CaveatMsg(c)))
  }

  /** Appending needs nothing but the tip, and neither makes a macaroon usable nor spoils it. */
  lemma AppendingKeepsUse(m: Macaroon, c: Caveat, holder: string)
    ensures UsableBy(Appended(m, c), holder) <==> UsableBy(m, holder)
    ensures Derivable({m.signature}, Appended(m, c).signature)
  {
    assert (m.caveats + [c])[..|m.caveats|] == m.caveats;
  }

  /** A macaroon has expired from the first of its listed instants on. */
  lemma ExpiredExactly(m: Macaroon, now: int)
    ensures Expired(m, now) <==> exists t :: Before(t) in m.caveats && t <= now
  {
    ExpiryIsEarliest(m.caveats);
    assert Expired(m, now) ==> Before(ExpiryFrom(m.caveats).value) in m.caveats;
  }

  /** With `tool:<n>` appended, a macaroon with an allowlist grants `n` alone, and only what it granted before. */
  lemma AppendedToolGrants(m: Macaroon, n: string, holder: string, t: string, now: int)
    requires ToolsFrom(m.caveats).Some?
    ensures Grants(Appended(m, Text("tool:" + n)), holder, t, now) <==> t == n && Grants(m, holder, t, now)
  {
    AppendTool(m.caveats, n);
    AppendingKeepsUse(m, Text("tool:" + n), holder);
  }

  // ---- the loops of `_mint` and `_verify_sig`

  method Mint(holder: string, caveats: seq<Caveat>, nonce: string) returns (m: Macaroon)
    ensures m == Minted(holder, caveats, nonce)
  {
    var sig := ChainLoop(IdentifierFor(holder, nonce), caveats);
    m := Macaroon(IdentifierFor(holder, nonce), caveats, sig);
  }

  method VerifySig(m: Macaroon) returns (ok: bool)
    ensures ok <==> m.signature == Chain(m.identifier, m.caveats)
  {
    var sig := ChainLoop(m.identifier, m.caveats);
    ok := sig == m.signature;
  }

  method ChainLoop(identifier: string, caveats: seq<Caveat>) returns (sig: Tag)
    ensures sig == Chain(identifier, caveats)
  {
    sig := H(RootKey, IdMsg(identifier));
    for i := 0 to |caveats|
      invariant sig == Chain(identifier, caveats[..i])
    {
      assert caveats[..i + 1][..i] == caveats[..i];
      sig := H(sig, CaveatMsg(caveats[i]));
    }
    assert caveats[..|caveats|] == caveats;
  }
}
