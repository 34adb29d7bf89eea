# Decision OS (minimal): a verified model of the authority kernel

`decision_os_min` decides whether an agent's action may run, signs that ruling together with a one-time token, and
runs the effect only at a policy enforcement point (PEP) that checks the signature, the action, the token and the
obligations, spends the token, writes one audit entry, and then calls the tool. This project models those parts in
Dafny and proves what the repository's documents promise of them, over every input and every run.

| file | what it models |
|---|---|
| `Basics.dfy`, `Sorting.dfy`, `Text.dfy` | Option, Result, Python's string order and `sorted`, `strip`/`split`/`join` |
| `Caveats.dfy`, `Macaroons.dfy` | the caveat vocabulary; HMAC chains over a free constructor `H(key, msg)`, and what an outsider can derive |
| `Attenuation.dfy` | `AuthorityGraph`: grants, revocations, `delegate`, `holds` |
| `DelegationRuns.dfy`, `DelegationTerms.dfy`, `DelegationTheorems.dfy` | arbitrary runs of the graph: provenance, `delegate` against `holds`, when delegation amplifies, forged macaroons |
| `Values.dfy`, `Unambiguous.dfy`, `Fingerprint.dfy` | payload values, the canonical JSON printer, the action fingerprint |
| `Surrogates.dfy`, `PythonValues.dfy` | the same printer on any Python strings, lone surrogates included |
| `Compose.dfy`, `AuthorityPdp.dfy`, `Kernel.dfy` | the verdict lattice, providers, `decide` |
| `HashChain.dfy`, `AuditDigests.dfy` | the hash-chained log, and what it says was executed |
| `SpentStore.dfy`, `SpendProtocol.dfy` | the one-time store, and executors interleaved on it |
| `Execute.dfy`, `ExecutorRuns.dfy` | the PEP, and its runs |
| `Pipeline.dfy`, `BuiltinGuarantees.dfy`, `EndToEnd.dfy` | `decide` followed by `execute`; the built-in provider; delegation joined to enforcement |
| `Sealed.dfy`, `SealedTheorems.dfy`, `ArmingRuns.dfy`, `ArmingRaces.dfy` | tickets, `invoke`, the armed executor and its interleavings |
| `Host.dfy`, `HostRuns.dfy`, `Framing.dfy` | the hosted plane, runs of any number of hosts on one store, the bounded-read stdio loop |

Objects the program updates in place (`AuthorityGraph`, `BuiltinAuthorityPDP`, `HashLog`, the spent stores,
`Executor`, the armed executor, `AdmissionOffice`, `SealedRuntime`, `AgentHost`, standard input) are classes whose
methods follow the source branch by branch. Each is proved equal to a specification function of the old state, and
the theorems are about those functions.

## Assumptions

SHA-256, HMAC and Ed25519 are free constructors (injective, never GENESIS, unforgeable without the key), and
the kernel's, the graph's and the ticket office's keys are secret. Instants are integers. A `string` is a sequence of Unicode scalar
values. Clocks, random draws, disk failures, and what providers, evaluators and legitimacy policies return are
parameters of the calls that consume them, so every theorem holds for all of them.

## Where the code and its documents differ

The model follows the code; each difference is a lemma that says exactly when it shows.

- `docs/AUTHORITY_MODEL.md:62-68` says advice can only tighten and cannot turn a DENY into a CONTAIN. Three senses differ.
  The kernel's own ruling is loosened exactly when a contained threat class meets a provider's LIMIT without a redaction,
  or an advisor's answer takes the place of a given class that is contained (`Pipeline.AdviceTightensExactly`). The signed
  verdict is loosened exactly when, besides, no evaluator is as restrictive as that ruling was
  (`Pipeline.AdviceOnTheVerdict`). A tool runs that would not have run, exactly when every gate is open and containment
  overrides such a LIMIT or an evaluator that would have overruled the kernel, or the advice releases a tool off the
  containment allowlist (`Pipeline.AdviceOnTheEffect`; `AdviceLoosensATransfer`, `AdviceUndoesAnEvaluator` and
  `AdviceReleasesATransfer` are one input each).
- `decision_os_min/attenuation.py:240` says a delegation is a subset of its parent's tools. It is, exactly when the
  parent also holds whatever the requested names read back as from the comma list
  (`DelegationTerms.SubsetInRunsExactly`; `DelegationTheorems.CommaNameAmplifies` is one run). A capability named without
  its `tool:` prefix is held by a delegate and not by its delegator exactly when the delegator has nothing for it but the
  prefixed root grant (`DelegationTheorems.BareHoldingExactly`; `DelegationTheorems.BareCapabilityAmplifies` is one run).
- `decision_os_min/attenuation.py:91-93` binds a macaroon to its holder, which names the holder back exactly when the
  name has no bar (`Macaroons.HolderOfIdentifier`). Outsiders gain exactly through macaroons minted for a name that has
  theirs before its first bar (`DelegationTheorems.ForgeryGainsExactly`; `DelegationTheorems.BarLetsThePrefixIn` is one run).
- `decision_os_min/execute.py:4-7` promises one audit entry per `execute` call. A call leaves none exactly when the
  write fails, or the decision is authentic and the live payload is not plain data (`ExecutorRuns.UnauditedExactly`;
  `ExecutorRuns.OneUnauditedCall` is one input).
- `decision_os_min/sealed.py:60` says an executor is armed once per call. Reading and clearing the arm are two statements:
  an arming serves two effects only if two threads read it before either clears it (`ArmingRaces.OneReadOneEffect`,
  `ArmingRaces.SerialReadsOnce`; `ArmingRaces.TwoEffectsOnOneArming` is one run). Each effect still spends its own token.
- `decision_os_min/execute.py:113` and `:210` keep what follows the last `tool:`, while the graph drops one
  prefix: what runs is what the capability held grants exactly when the capability is `tool:` and a name without another
  `tool:` in it (`BuiltinGuarantees.NamesItsToolExactly`, `BuiltinGuarantees.EffectMeansHeld`;
  `BuiltinGuarantees.NestedNameRunsAnotherTool` and `BuiltinGuarantees.UnprefixedRunsUnheldTool` are one input each).
- `decision_os_min/host.py:164` keys replays by agent and request id joined with colons. Two agents' keys can collide
  exactly when one agent's id is the other's up to a colon (`HostRuns.AgentsCollideExactly`;
  `HostRuns.FalseReplay` is what the second agent is then told).
- `decision_os_min/kernel.py:141-142` prints lone surrogates like the code points they would encode: two strings
  print alike exactly when they have the same UTF-16 units, and so do nested payloads and what fingerprints are taken of
  (`Surrogates.PrintedAlikeExactly`, `PythonValues.DumpedAlikeExactly`, `PythonValues.BoundAlikeExactly`).
- `decision_os_min/audit.py:113-121` raises, rather than answering, exactly until the first record creates the file, and
  blank lines do not show (`HashChain.RunsStaySound`, `HashChain.VerifiesExactly`).

## Model

| member | source | states |
|---|---|---|
| `Caveats.RoundTripExactly` | decision_os_min/attenuation.py:51-56 | a printed `tools:` list parses back to the same set if and only if every name is non-empty, trimmed and free of commas |
| `Caveats.PrintThenParse` | decision_os_min/attenuation.py:302-304 | what a printed list reads back as for arbitrary names |
| `Caveats.CommaAmplifies` | decision_os_min/attenuation.py:302-304 | any two well-formed names joined by a comma into one tool name are read back as two tools |
| `Caveats.ToolsFromIsIntersection` | decision_os_min/attenuation.py:62-83 | the effective tool set is the intersection of the parsed sets, and absent exactly when no caveat is a tool caveat |
| `Caveats.AppendTool` | decision_os_min/attenuation.py:51-83 | appending the text `tool:` and a name intersects any effective set with that name, or sets it to the name if there was none |
| `Caveats.AppendTools` | decision_os_min/attenuation.py:51-83 | appending `tools:` and a list intersects with the stripped, non-blank parts between its commas |
| `Caveats.AppendOther` | decision_os_min/attenuation.py:51-60 | any other text restricts nothing |
| `Caveats.AppendExpiry` | decision_os_min/attenuation.py:37-48 | an expiry restricts no tools, and the earliest counts |
| `Caveats.ExpiryIsEarliest` | decision_os_min/attenuation.py:86-88 | the effective expiry is one of those listed and none is earlier; there is none if and only if none is listed |
| `Caveats.AppendNarrows` | decision_os_min/attenuation.py:68-71 | extending a caveat list only removes tools and only brings the expiry forward |
| `Caveats.EffectiveTools` | decision_os_min/attenuation.py:73-83 | the collecting and intersecting loops compute that set |
| `Caveats.EffectiveExpiry` | decision_os_min/attenuation.py:86-88 | the expiry is the earliest of those present |
| `Macaroons.HolderOfIdentifier` | decision_os_min/attenuation.py:91-93 | an identifier names its holder back if and only if the holder's name has no bar |
| `Macaroons.ChainInjective` | decision_os_min/attenuation.py:157-161 | equal chain tips mean equal identifiers and equal caveats, in order |
| `Macaroons.Unforgeable` | decision_os_min/attenuation.py:17-20 | a derivable tag that verifies extends the caveats of a minted macaroon under its identifier |
| `Macaroons.AppendingKeepsUse` | decision_os_min/attenuation.py:17-20 | anyone with the tip can append, and a macaroon is usable by a holder after it if and only if it was before |
| `Macaroons.ExpiredExactly` | decision_os_min/attenuation.py:326-328 | a macaroon has expired if and only if one of its listed instants is reached |
| `Macaroons.AppendedToolGrants` | decision_os_min/attenuation.py:62-83 | with `tool:n` appended a macaroon grants a tool if and only if the tool is `n` and it was granted before |
| `Macaroons.Mint` | decision_os_min/attenuation.py:145-155 | the signing loop yields the chain of its caveats |
| `Macaroons.VerifySig` | decision_os_min/attenuation.py:157-161 | verification accepts exactly the recomputed chain |
| `Attenuation.AuthorityGraph.Grant` | decision_os_min/attenuation.py:133-134 | the new graph differs by one root grant |
| `Attenuation.AuthorityGraph.Revoke` | decision_os_min/attenuation.py:136-139 | the new graph lacks that root grant and keeps everything else, delegations included |
| `Attenuation.AuthorityGraph.CollectLive` | decision_os_min/attenuation.py:169-196 | exactly the usable, unexpired, non-empty macaroons are live, in order |
| `Attenuation.AuthorityGraph.ParentAuthority` | decision_os_min/attenuation.py:198-227 | the parent's tools are the union of its root tools and live allowlists, or unrestricted |
| `Attenuation.AuthorityGraph.Coverage` | decision_os_min/attenuation.py:271-290 | what the live macaroons cover of the remainder, and the earliest expiry among those that cover |
| `Attenuation.AuthorityGraph.Negotiate` | decision_os_min/attenuation.py:249-300 | the allowed tools and clamped expiry, or which of the three refusals applies |
| `Attenuation.RequestedExactly` | decision_os_min/attenuation.py:250 | a tool is asked for if and only if it is listed with its prefix, or without one |
| `Attenuation.AuthorityGraph.Delegate` | decision_os_min/attenuation.py:229-310 | a refusal changes nothing; a success adds exactly the minted macaroon to the child |
| `Attenuation.AuthorityGraph.HoldsNow` | decision_os_min/attenuation.py:312-332 | the holding loop answers whether a root grant or some granting macaroon exists |
| `Attenuation.AppendingNarrowsHolds` | decision_os_min/attenuation.py:312-332 | once `tool:n` is appended to one macaroon of a holder, it holds a tool if and only if a root grant or another macaroon gives it, or the tool is `n` and that one gave it |
| `DelegationRuns.TermsClamped` | decision_os_min/attenuation.py:262-292 | delegated terms never outlive a dated credential that covers part of the remainder |
| `DelegationRuns.TermsJustified` | decision_os_min/attenuation.py:240-243 | every allowed tool is a root tool or named by a credential the terms do not outlive |
| `DelegationRuns.AlwaysCovered` | decision_os_min/attenuation.py:284-288 | the allowed remainder is always covered, so the missing-credentials refusal never fires |
| `DelegationTerms.AllowedIsHeld` | decision_os_min/attenuation.py:198-255 | of the tools asked for, `delegate` allows exactly those `holds` says the parent holds at that instant |
| `DelegationTerms.ExpiryExactly` | decision_os_min/attenuation.py:262-292 | the granted expiry is the earliest of the one asked for and those of the credentials covering the remainder |
| `DelegationTerms.DelegateExactly` | decision_os_min/attenuation.py:229-310 | in every run a delegation succeeds if and only if the parent holds some requested tool and the requested expiry is not past, and which refusal follows otherwise |
| `DelegationTerms.SubsetExactly` | decision_os_min/attenuation.py:240-310 | a delegation stays within its parent's tools if and only if the parent holds whatever the requested names it holds read back as; well-formed names always do |
| `DelegationTerms.SubsetInRunsExactly` | decision_os_min/attenuation.py:240-310 | the same of every delegation in every run, for any names |
| `DelegationRuns.MintsWhatWasAllowed` | decision_os_min/attenuation.py:302-310 | a minted macaroon carries the allowed set if and only if its names survive the comma list |
| `DelegationRuns.ReachableAreExplicit` | decision_os_min/attenuation.py:222-225 | no reachable macaroon is unrestricted |
| `DelegationRuns.RunKeeps` | decision_os_min/attenuation.py:229-310 | in every run each macaroon in the graph was minted for its holder by an earlier delegation, and none is lost |
| `DelegationRuns.LinkBack` | decision_os_min/attenuation.py:249-292 | each minted tool is a root tool of the delegator, or in an earlier macaroon of the delegator that was live and outlives the child |
| `DelegationRuns.EveryToolTracesToARoot` | decision_os_min/attenuation.py:240-243 | revocations included, each tool of each minted macaroon has a chain of ever earlier mints, expiries never later, back to a root grant |
| `DelegationRuns.NeverOutlivesACover` | decision_os_min/attenuation.py:241-243 | a child ends no later than any live parent macaroon that covers a non-root tool of it |
| `DelegationTheorems.DelegatorStillHolds` | decision_os_min/attenuation.py:312-332 | without revocations, at every instant, whoever delegated a tool holds it whenever the delegated macaroon grants it |
| `DelegationTheorems.BareHoldingExactly` | decision_os_min/attenuation.py:318-332 | named without its prefix, a delegated capability is held by its delegator if and only if the prefixed root grant is not all it has for it |
| `DelegationTheorems.HoldersHaveHoldingDelegators` | decision_os_min/attenuation.py:312-332 | without revocations, who holds a tool without a root grant has a delegator who holds it at the same instant |
| `DelegationTheorems.SomebodyHasTheRoot` | decision_os_min/attenuation.py:116-123 | without revocations, each delegated tool is somebody's root grant, or somebody has `*` |
| `DelegationTheorems.DelegationGivesExactly` | decision_os_min/attenuation.py:229-332 | one delegation adds to `holds` exactly the allowed tools, for the child, until the expiry |
| `DelegationTheorems.BareCapabilityAmplifies` | decision_os_min/attenuation.py:318-322 | a delegate can hold `x` while its delegator, granted `tool:x`, does not |
| `DelegationTheorems.CommaNameAmplifies` | decision_os_min/attenuation.py:302-304 | the delegate of `a,b` holds `tool:a`, which its delegator does not |
| `DelegationTheorems.GrantComesFromAMint` | decision_os_min/attenuation.py:157-167 | a derivable macaroon that grants a tool extends a minted one that grants it too |
| `DelegationTheorems.BearerCanNarrow` | decision_os_min/attenuation.py:17-20 | in any run a bearer can derive any minted macaroon with `tool:n` appended, which grants `n` to whom it was granted and nothing else |
| `DelegationTheorems.BearerPower` | decision_os_min/attenuation.py:163-167 | some graph filled with derivable macaroons lets a holder hold a capability if and only if a root grant or one minted macaroon under its name does |
| `DelegationTheorems.ForgeryGainsNothing` | decision_os_min/attenuation.py:17-20 | when no delegate's name has a bar, forged graphs hold nothing the honest graph does not |
| `DelegationTheorems.ForgeryGainsExactly` | decision_os_min/attenuation.py:91-93 | forged graphs give a holder what it does not hold if and only if minted macaroons grant it, all of them minted for names with the holder's before their first bar |
| `DelegationTheorems.BarLetsThePrefixIn` | decision_os_min/attenuation.py:91-93 | a delegate named `a\|b` lets `a` use its macaroon |
| `Values.EncodeIsPlain` | decision_os_min/kernel.py:84-113 | what the strict encoder accepts it turns into plain JSON data |
| `Values.EncodeKeepsPlain` | decision_os_min/kernel.py:84-95 | plain data is accepted unchanged |
| `Values.EncodedAlikeExactly` | decision_os_min/kernel.py:84-113 | two values are encoded alike if and only if they are the same data but for tuples in place of lists |
| `Values.EncodeKeepsData` | decision_os_min/kernel.py:84-113 | encoding changes no data, and a value is accepted if and only if what it is encoded to is plain |
| `Unambiguous.PrintUnambiguous` | decision_os_min/kernel.py:141-142 | from the printed text one can tell the plain value and where its text ends |
| `Unambiguous.PrintInjective` | decision_os_min/kernel.py:141-142 | two plain values print alike if and only if they are equal |
| `Surrogates.PrintedAlikeExactly` | decision_os_min/kernel.py:141-142 | strings of any code points print alike if and only if they have the same UTF-16 units |
| `Surrogates.UnpairedIsInjective` | decision_os_min/kernel.py:141-142 | strings without a high surrogate directly before a low one print alike if and only if they are equal |
| `Surrogates.PairsCollide` | decision_os_min/kernel.py:141-142 | every string with such a pair prints like another one, with the pair joined |
| `Surrogates.LoneSurrogatesCollide` | decision_os_min/kernel.py:141-142 | one such pair |
| `PythonValues.DumpedAlikeExactly` | decision_os_min/kernel.py:141-142 | nested data with any strings, keys included, print alike if and only if they differ at most in strings of the same UTF-16 units |
| `PythonValues.UnpairedDataIsInjective` | decision_os_min/kernel.py:141-142 | without a high surrogate before a low one in any string, if and only if they are equal |
| `PythonValues.PairsCollideInside` | decision_os_min/kernel.py:141-142 | a dict with such a pair in a key or text prints like another dict |
| `PythonValues.DumpsAsPrinted` | decision_os_min/kernel.py:141-142 | on strings without surrogates this is the printer of the payload values |
| `PythonValues.BoundAlikeExactly` | decision_os_min/kernel.py:129-143 | over any strings and a null purpose, the hashed texts are equal if and only if everything bound agrees in UTF-16 units |
| `Fingerprint.FingerprintExactly` | decision_os_min/kernel.py:116-143 | equal fingerprints if and only if the actors, the capabilities given or implied by the tools, the purposes, the label multisets, the nonces or else references, and the payload data agree |
| `Fingerprint.PreimageExactly` | decision_os_min/kernel.py:129-143 | the same of the hashed text itself |
| `Fingerprint.ReferenceIsBound` | decision_os_min/kernel.py:136-139 | two nonces never share a fingerprint, nor two references without nonces, and beside a nonce the reference makes no difference |
| `Compose.NormalizeExactly` | decision_os_min/compose.py:61-87 | each lattice member has exactly one text and every other text denies |
| `Compose.Compose` | decision_os_min/compose.py:99-105 | the loop folds the normalised verdicts |
| `Compose.ComposeIsWorst` | decision_os_min/compose.py:90-105 | the composition is the most restrictive verdict present, or ALLOW |
| `Compose.DenyDominates` | decision_os_min/compose.py:33-38 | a DENY among the verdicts wins, else a DEFER, else a CONTAIN, else a LIMIT, else it is ALLOW |
| `Compose.ComposeOrderFree` | decision_os_min/compose.py:90-105 | order and repetition of verdicts carry no meaning |
| `Compose.FoldIsLeftmostWorst` | decision_os_min/compose.py:174-181 | the evaluator fold returns the leftmost decision of maximal rank |
| `Compose.SaysExactly` | decision_os_min/compose.py:108-132 | short of DENY, an evaluator is heard to say a verdict if and only if it names it in text: exceptions, timeouts and malformed values deny |
| `Compose.FoldComposes` | decision_os_min/kernel.py:412-418 | its verdict is the composition of all verdicts |
| `Compose.FoldKeepsOrStrips` | decision_os_min/compose.py:145-181 | the kernel's ruling survives whole, or a stricter decision without obligation, token, capability or containment stands |
| `Compose.FoldOrderFree` | decision_os_min/kernel.py:417-418 | the governing verdict depends only on the set of verdicts returned, not on order, number or what comes with them |
| `AuthorityPdp.ProviderIsBounded` | decision_os_min/authority_pdp.py:66-126 | provider and revision are the selected provider's own, cut to size or replaced when empty; the reason is bounded and other keys of a dict make no difference |
| `AuthorityPdp.ReasonIsTheProviders` | decision_os_min/authority_pdp.py:100-126 | the reason a provider gives is the one in the ruling, marked when its verdict was not one of the lattice |
| `AuthorityPdp.WithoutReasonTheVerdict` | decision_os_min/authority_pdp.py:118-122 | a ruling given without a reason is explained by the provider's name and the verdict in lower case |
| `AuthorityPdp.FailureIsTold` | decision_os_min/authority_pdp.py:114-177 | a provider that raises, times out or returns nothing usable is denied with that as the reason |
| `AuthorityPdp.RulesExactly` | decision_os_min/authority_pdp.py:91-177 | a provider rules anything but DENY if and only if it names it in text |
| `AuthorityPdp.BuiltinAuthorityPDP.Evaluate` | decision_os_min/authority_pdp.py:214-252 | ALLOW exactly when the shape fits, the actor holds the capability and no label is refused |
| `AuthorityPdp.BuiltinAuthorityPDP.Grant` | decision_os_min/authority_pdp.py:254-259 | the flat lists and the graph's root sets stay in step |
| `AuthorityPdp.BuiltinAuthorityPDP.Revoke` | decision_os_min/authority_pdp.py:261-266 | every copy of the grant goes, in both, and they stay in step |
| `AuthorityPdp.BuiltinAuthorityPDP.Delegate` | decision_os_min/authority_pdp.py:268-280 | the graph delegates, the flat lists stay, and the revision moves only on success |
| `Kernel.DecisionKernel.Minimise` | decision_os_min/kernel.py:342-353 | the redaction loop yields the payload with exactly the filled fields that the first hitting rule lists replaced |
| `Kernel.FirstHitIsFirst` | decision_os_min/kernel.py:344-352 | the fields hit are those of the first rule for the purpose listing a field that is present and neither null nor empty, and of them those that are |
| `Kernel.OwesExactly` | decision_os_min/kernel.py:342-353 | an obligation is owed if and only if some rule hits, and it is the minimised payload |
| `Kernel.DecisionKernel.Evaluate` | decision_os_min/kernel.py:290-383 | the kernel's own ruling from provider, threat class and obligation |
| `Kernel.DecisionKernel.Decide` | decision_os_min/kernel.py:385-553 | the signed decision, or the refusal to bind a payload that is not plain data |
| `Execute.CutExactly` | decision_os_min/execute.py:210 | the PEP runs the tool an action names if and only if the name has no `tool:` in it |
| `Execute.PassesExactly` | decision_os_min/execute.py:153-254 | the spend is reached if and only if signature, identity, data, binding, reference, verdict, token, expiry, tool, allowlist and obligation are all in order |
| `Execute.RefusalTextsTellApart` | decision_os_min/execute.py:153-254 | refusals for different reasons never read alike |
| `Execute.Executor.Prepare` | decision_os_min/execute.py:153-254 | which gate refuses, or tool and payload; the token is spent only after every other gate |
| `Execute.Executor.Execute` | decision_os_min/execute.py:95-151 | one audit entry per refusal or commitment, and the effect only after its entry is written |
| `ExecutorRuns.UnauditedExactly` | decision_os_min/execute.py:117-151 | for anything issued or forged, a call leaves the log as it was if and only if the write fails, or the result verifies and the live payload is not plain data; otherwise it appends one line, executed exactly when the gates pass |
| `ExecutorRuns.OneUnauditedCall` | decision_os_min/execute.py:117-151 | one decision and live payload with which a call changes nothing at all |
| `ExecutorRuns.AuditMatchesEffects` | decision_os_min/execute.py:117-151 | over any calls, hostile ones and kills included, on a new or reopened log: the log stays sound, the executed entries added pin what was committed to in order, the effects are a subsequence and all of them if and only if none was killed before its tool, each with a token of its own |
| `ExecutorRuns.OneDecisionOneEffect` | decision_os_min/execute.py:178-254 | over calls that present only issued results and forgeries, no decision is committed to twice, each commitment is the decided tool on the payload owed, and the effects are those not killed first |
| `ExecutorRuns.RefusedBeforeTheSpend` | decision_os_min/execute.py:243-245 | a call refused by an earlier gate touches neither the store nor a tool |
| `ExecutorRuns.SoloIsExecute` | decision_os_min/execute.py:117-151 | one executor's uninterrupted protocol steps, or steps up to a kill before the tool, are one call of `execute`: same markers, spends, audits, refusals and effects |
| `ExecutorRuns.Perform` | decision_os_min/execute.py:95-151 | the PEP class takes exactly the steps of those runs |
| `SpentStore.SharedStore.TrySpend` | decision_os_min/spentstore.py:97-113 | first, replay or unavailable, and a marker that stays even when the write after its creation fails |
| `SpentStore.InMemorySpentStore.TrySpend` | decision_os_min/spentstore.py:160-165 | the answers of the shared store on a disk that never fails |
| `SpendProtocol.OneTimeUnderInterleaving` | decision_os_min/spentstore.py:97-113 | for every interleaving with crashes and failures: effects ≤ executed audits ≤ won spends ≤ 1 per token |
| `SpendProtocol.TwoStepsAreTrySpend` | decision_os_min/spentstore.py:97-113 | the interleaved create and write steps together do what `try_spend` does |
| `SpendProtocol.OldMarkersNeverWin` | decision_os_min/spentstore.py:100-103 | a token marked before the run is never won in it |
| `SpendProtocol.BurntStaysBurnt` | decision_os_min/execute.py:240-254 | a token no executor is in the middle of, once marked, brings no further spend, audit or effect |
| `SpendProtocol.KilledAfterItsEntry` | decision_os_min/execute.py:136-151 | an executor killed between its entry and the tool leaves one executed entry, no effect, and a settled token |
| `HashChain.VerifiesExactly` | decision_os_min/audit.py:113-121 | `verify` answers true if and only if the file reads back as one unbroken chain from GENESIS |
| `HashChain.SameHeadSameChain` | decision_os_min/audit.py:32-37 | two chains with the same head hash are equal entry for entry |
| `HashChain.AnchorPinsTheLog` | decision_os_min/audit.py:123-148 | against an anchored head and any expected sequence number or none, the check passes if and only if the file holds exactly the anchored entries and the number, if given, is theirs; and which refusal follows otherwise |
| `HashChain.RaisesExactly` | decision_os_min/audit.py:113-121 | `verify` raises on a file if and only if an unreadable line comes before any broken link |
| `HashChain.RunsStaySound` | decision_os_min/audit.py:41-111 | any run of records and reopenings keeps `verify` true and `head()` equal to the head on disk |
| `HashChain.TruncationIsCaught` | decision_os_min/audit.py:7-17 | every prefix still verifies, and one that lost an entry diverges from the full log's anchor |
| `HashChain.HashLog.Open` | decision_os_min/audit.py:41-62 | reopening reads back the head of the file, or raises on an unreadable line |
| `HashChain.HashLog.Record` | decision_os_min/audit.py:72-111 | one chained line is appended, the head moves, and the head is published when an anchor is set |
| `HashChain.HashLog.Verify` | decision_os_min/audit.py:113-121 | the verification loop answers for the first bad line |
| `HashChain.HashLog.CurrentHeadOnDisk` | decision_os_min/audit.py:150-161 | the head of what is on disk now, or the exception of an unreadable line |
| `HashChain.HashLog.VerifyAgainstAnchor` | decision_os_min/audit.py:123-148 | which of the divergences is reported, or ok |
| `Pipeline.EffectExactly` | decision_os_min/__init__.py:212-230 | the tool is called if and only if every gate is open and no evaluator is stricter than the kernel, and then always the same tool with the same payload |
| `Pipeline.EvaluatorsOnlyVeto` | decision_os_min/kernel.py:444-458 | leaving out, reordering or repeating evaluators never changes a call that was made |
| `Pipeline.OrderCarriesNoMeaning` | decision_os_min/kernel.py:417-418 | under any permutation of evaluators the effect and every kernel-owned field are the same: only reason and legitimacy evidence may differ |
| `Pipeline.ToolSeesRedactedPayload` | decision_os_min/execute.py:219-236 | a tool that runs sees `[REDACTED]` in exactly the fields of the first hitting rule that are present and neither null nor empty, and every other field as in the action, unchanged if no rule hits |
| `Pipeline.SupportReplyIsRedacted` | decision_os_min/kernel.py:347-350 | one support reply runs for every value of its `ssn` field: the tool sees the value if it is null or empty and `[REDACTED]` otherwise |
| `Pipeline.NumberIsRedactedAndBlankIsNot` | decision_os_min/kernel.py:347-350 | in particular "123" is redacted and an empty text is not |
| `Pipeline.OwnVerdict` | decision_os_min/kernel.py:331-383 | the kernel's verdict as a table of provider verdict, threat class and obligation |
| `Pipeline.AdviceTightensExactly` | decision_os_min/kernel.py:355-378 | advice loosens the kernel's own ruling if and only if it contains a provider's LIMIT without a redaction, or replaces a contained class by one that is not |
| `Pipeline.AdviceOnTheVerdict` | decision_os_min/kernel.py:355-508 | it loosens the signed verdict if and only if it loosens that ruling and every evaluator is less restrictive than the ruling was |
| `Pipeline.AdviceOnTheEffect` | decision_os_min/__init__.py:212-230 | a tool runs with the advice and not without it if and only if the gates are open and containment overrides a bare LIMIT or an overruling evaluator, or the advice releases a tool off the allowlist; two effects are the same effect |
| `Pipeline.AdviceLoosensATransfer` | decision_os_min/kernel.py:355-378 | a bare LIMIT refused without advice, run on its whole payload with it |
| `Pipeline.AdviceUndoesAnEvaluator` | decision_os_min/execute.py:218-227 | an evaluator's LIMIT that vetoes without advice and no longer does with it |
| `Pipeline.AdviceReleasesATransfer` | decision_os_min/kernel.py:424-427 | a transfer given as malicious that runs because an advisor saw nothing |
| `Pipeline.NoConfusedDeputy` | decision_os_min/execute.py:178-191 | a signed decision passes the gates only for an action that agrees with the decided one field by field on everything committed to, and runs the decided tool and payload |
| `Pipeline.OtherActionIsRefused` | decision_os_min/execute.py:178-183 | presented with any other action that can be bound, a decision is refused with a binding mismatch |
| `Pipeline.OtherNonceIsRefused` | decision_os_min/execute.py:178-191 | a decision on one nonce never authorises another |
| `Pipeline.TokensLastThirtySeconds` | decision_os_min/kernel.py:540 | a token expires thirty seconds after it is minted and nothing runs on it from then on |
| `Pipeline.MisshapenNeverRuns` | decision_os_min/kernel.py:302-320 | an action whose capability is not its tool's is denied in the kernel's own name and runs nothing, whatever the provider and the evaluators say |
| `Pipeline.ReasonNamesTheFields` | decision_os_min/kernel.py:355-363 | the kernel's reason names the threat contained and the fields redacted, sorted, which are just those of the first hitting rule |
| `Pipeline.EntryNamesTheTool` | decision_os_min/execute.py:104-113 | run or refused, the audit entry names the tool that the action's capability makes the PEP run |
| `Pipeline.EntryOfAnEffect` | decision_os_min/execute.py:136-150 | the entry of an effect holds the actor, the tool run, the kernel's own verdict and reason, and the digest of the payload delivered |
| `Pipeline.VetoIsAudited` | decision_os_min/execute.py:119-135 | the entry of a vetoed action holds the first denying evaluator's own reason |
| `Pipeline.RuledFields` | decision_os_min/kernel.py:509-552 | the kernel-owned fields of a decision are the kernel's, and grants are there exactly when the verdict permits |
| `Pipeline.OnlyVerdictsMatter` | decision_os_min/kernel.py:498-552 | equal provider verdicts and equal sets of evaluator verdicts give the same effect and kernel-owned fields, whatever else is returned; a token is there exactly when the verdict permits |
| `Pipeline.OnlyNamedVerdictsMatter` | decision_os_min/authority_pdp.py:91-126 | the same over provider outputs with equal normalised verdicts, whatever else they return |
| `Pipeline.Handle` | decision_os_min/__init__.py:196-230 | one pass through kernel and PEP makes exactly the effect, spends exactly the token, and leaves exactly the one entry |
| `BuiltinGuarantees.CutsAgree` | decision_os_min/attenuation.py:180-183 | graph and root-grant reader cut `tool:<name>` to the name, and the PEP does if and only if the name has no `tool:` in it |
| `BuiltinGuarantees.EffectMeansHeld` | decision_os_min/authority_pdp.py:214-252 | an effect under the built-in provider means the actor held the action's capability and no label was refused, and the tool run is what that capability grants if and only if it names its tool |
| `BuiltinGuarantees.NamesItsToolExactly` | decision_os_min/execute.py:210 | the PEP's cut of a capability is its tool if and only if it is `tool:` and a name without another `tool:` |
| `BuiltinGuarantees.NestedNameRunsAnotherTool` | decision_os_min/execute.py:210 | an actor whose one grant is `tool:tool:wire` makes the PEP run `wire`, which it does not hold |
| `BuiltinGuarantees.UnprefixedRunsUnheldTool` | decision_os_min/execute.py:210 | an actor whose one grant is `wire` runs `wire` without holding `tool:wire` |
| `EndToEnd.EffectIsRooted` | decision_os_min/attenuation.py:163-332 | whatever derivable macaroons fill the graph, an effect of a capability that names its tool has an actor with a root grant for it or a live minted macaroon whose chain of mints ends at one |
| `EndToEnd.BuiltinJudgesTheCall` | decision_os_min/sealed.py:443-466 | the built-in provider allows a sealed call if and only if its ticket's actor holds the capability or tool and the call's intent is a purpose that "ops", and "public" for an audit, may serve |
| `EndToEnd.HostedEffectIsHeld` | decision_os_min/sealed.py:443-466 | in any run of hosts, a commitment ruled by the built-in provider was made for a registered actor who held the very tool the intent named, and for a purpose the intent's labels may serve |
| `EndToEnd.HostedEffectIsRooted` | decision_os_min/host.py:151-220 | and that holding rests on a root grant or a live minted macaroon whose chain of mints ends at one, whatever derivable macaroons fill the graph |
| `Sealed.TriStateAllowsExactly` | decision_os_min/sealed.py:250-279 | the legitimacy evaluator allows if and only if its policy answered truthy, defers if it answered nothing, and denies otherwise |
| `Sealed.EvidenceTellsTheGate` | decision_os_min/sealed.py:498-577 | `invoke`'s log lines for one decision read alike if and only if the PEP answered alike |
| `Sealed.AdmissionOffice.Consume` | decision_os_min/sealed.py:226-247 | a ticket is consumed exactly when genuine, unexpired, the expected agent's own if one is given, and spent first here |
| `Sealed.SealedExecutor.Execute` | decision_os_min/sealed.py:69-88 | runs only if armed for exactly this decision and these bodies, touches nothing otherwise, and is disarmed in any case |
| `Sealed.SealedRuntime.RegisterAgent` | decision_os_min/sealed.py:358-359 | one agent's registration is replaced |
| `Sealed.SealedRuntime.Admit` | decision_os_min/sealed.py:361-363 | a ticket for the registered actor, or none for an unknown agent |
| `Sealed.SealedRuntime.Invoke` | decision_os_min/sealed.py:416-531 | the answer, markers, log, arm and armings left, and a tool call exactly when the answer says so |
| `Sealed.SealedRuntime.Enforce` | decision_os_min/sealed.py:443-531 | the same from the consumed ticket on: decide, check the binding, arm, execute, keep evidence |
| `SealedTheorems.KernelBindingsMatch` | decision_os_min/kernel.py:516-529 | a binding in a kernel decision is the one `invoke` recomputes, and is there if and only if evidence was handed in |
| `SealedTheorems.EvidenceIsBound` | decision_os_min/kernel.py:499-529 | the last digest handed in and the sorted set of all axioms named are signed, whichever evaluator governs, bound to the action's fingerprint and the verdict |
| `SealedTheorems.LegitimacyIsBound` | decision_os_min/sealed.py:250-279 | on the sealed surface these are the digest and the axioms of the legitimacy answer |
| `SealedTheorems.BindingOkExactly` | decision_os_min/sealed.py:470-489 | the binding checks pass if and only if the binding is that of the fields beside it, or is missing where nothing is permitted |
| `SealedTheorems.BindingNeverRefuses` | decision_os_min/sealed.py:470-489 | the two mandatory-binding refusals never fire on what the kernel decides |
| `SealedTheorems.RanExactly` | decision_os_min/sealed.py:427-531 | `invoke` commits to the tool if and only if every listed check passes, from ticket to audit write, and reaches it unless the process is killed in between |
| `SealedTheorems.RanArms` | decision_os_min/sealed.py:496-499 | nothing runs without an arming for the fingerprint of the action taken and the called tool's one body |
| `SealedTheorems.InvokedIsLogged` | decision_os_min/sealed.py:498-577 | the log stays sound and gains exactly the effect's executed entry, and `invoke`'s own line when it returned |
| `SealedTheorems.ExecutedMeansWarranted` | decision_os_min/sealed.py:3-7 | executed implies admitted, legitimate, authorised and enforced, and exactly the ticket and the token are used up |
| `SealedTheorems.CommittedFromTheCall` | decision_os_min/sealed.py:427-466 | read off the call: a genuine, unexpired, unspent ticket of its agent's, the tool called, and the call's payload with what the first hitting rule for its intent redacts replaced |
| `SealedTheorems.BothLinesTellOfTheCall` | decision_os_min/sealed.py:498-577 | both log lines of a committed call name its ticket's actor, the tool called and the signed verdict |
| `SealedTheorems.UngenuineTicketDoesNothing` | decision_os_min/sealed.py:208-224 | a forged, altered or expired ticket is refused and spends nothing |
| `SealedTheorems.SealedFingerprintExactly` | decision_os_min/sealed.py:443-464 | two sealed calls are bound alike if and only if ticket actor, capability or tool, intent, nonce and payload data agree |
| `SealedTheorems.InvokeOnlyAdds` | decision_os_min/sealed.py:416-531 | no call removes a marker |
| `ArmingRuns.EffectsUseTheirArmings` | decision_os_min/sealed.py:59-88 | however armings and whole executions interleave, an execution being one step, each effect used up an arming of its own, made for its decision and bodies |
| `ArmingRaces.EffectsUseTheirReads` | decision_os_min/sealed.py:75-88 | with threads interleaved statement by statement, each effect used up a read of its own, of an arming made for its decision and bodies |
| `ArmingRaces.OneReadOneEffect` | decision_os_min/sealed.py:75-76 | where no arming was read twice, no two effects share one |
| `ArmingRaces.SerialReadsOnce` | decision_os_min/sealed.py:75-76 | a clear right after every read leaves no arming read twice |
| `ArmingRaces.TwoEffectsOnOneArming` | decision_os_min/sealed.py:75-76 | one race in which two decisions on one action run on one arming |
| `ArmingRuns.Arms` | decision_os_min/sealed.py:66-67 | arming is a step of those runs |
| `ArmingRuns.Executes` | decision_os_min/sealed.py:69-88 | executing is a step of those runs |
| `Host.AgentHost.HandleIntent` | decision_os_min/host.py:151-220 | the answer, markers, evidence, log, arm and tool calls of one intent; a tool that raises after it was called counts as an effect and not as a success |
| `HostRuns.Deliver` | decision_os_min/host.py:151-220 | the class takes the delivering step of the runs below |
| `HostRuns.Intrude` | decision_os_min/sealed.py:69-88 | a direct call of the sealed executor takes the intruding step |
| `HostRuns.IntentSpends` | decision_os_min/host.py:163-196 | one effect uses up a request key, a ticket and a token that were not used before |
| `HostRuns.IntentRunsExactly` | decision_os_min/host.py:151-220 | an intent is committed to if and only if channel, request key, registration, ticket, legitimacy, every gate and the audit write all pass, and reaches its tool unless the host is killed first |
| `HostRuns.EvidenceTells` | decision_os_min/host.py:151-220 | the host keeps one line for an intent, unless the agent is unknown or it is killed, and it says ok if and only if the tool was called and the call returned |
| `HostRuns.EffectsAreWarrantedAndApart` | decision_os_min/host.py:151-220 | over any run of hosts on one store, kills and restarts included, commitments, so effects, map injectively to request keys, tickets, tokens and armings; each comes from one intent of the run, as the actor registered for its agent at that moment, legitimately, under a permitting verdict, armed for just its action and body, on the intent's payload minimised for the intent's purpose |
| `HostRuns.NothingRunsUnarmed` | decision_os_min/sealed.py:59-88 | effects never outnumber commitments, nor these armings; no executor is left armed, and no direct call of one between intents ever reaches a tool |
| `HostRuns.EveryEffectIsLogged` | decision_os_min/sealed.py:498-577 | every host's log stays sound over kills and restarts, and the executed digests added are those of its commitments in order; the effects' are a subsequence of them, and all of them if and only if no commitment was killed before its tool |
| `HostRuns.OneEffectPerRequestId` | decision_os_min/host.py:163-186 | one agent's request id leads to at most one commitment, so one effect, whichever hosts of the store it is sent to, restarts included |
| `HostRuns.OldRequestsStaySpent` | decision_os_min/host.py:166-186 | a key in the store before the run never causes an effect |
| `HostRuns.KeysTellAgentsApart` | decision_os_min/host.py:164 | agent ids without colons never share a request key |
| `HostRuns.AgentsCollideExactly` | decision_os_min/host.py:164 | two agents' keys can collide if and only if one id is the other's up to a colon |
| `HostRuns.ColonsMakeKeysCollide` | decision_os_min/host.py:164 | every agent id with a colon shares keys with the agent named before it |
| `HostRuns.FalseReplay` | decision_os_min/host.py:163-186 | once the one agent's request with such an id is handled, the other's own first request is answered as a replay |
| `Framing.LinesPartition` | decision_os_min/host.py:268-285 | the reference splitting partitions the stream at its newlines |
| `Framing.Utf8ReadsBack` | decision_os_min/host.py:246 | the bytes a line is measured in decode to its characters |
| `Framing.Utf8Counts` | decision_os_min/host.py:246 | there is one byte a character and one more for each of the three size thresholds it is past |
| `Framing.WideLine` | decision_os_min/host.py:271-278 | a line of characters past ASCII is refused as soon as twice its length is over the limit |
| `Framing.AccentedFrameIsInvalid` | decision_os_min/host.py:36 | 40,000 times `é` is an invalid frame, though fewer characters than the limit |
| `Framing.BoundedReadDecides` | decision_os_min/host.py:271-274 | one bounded read tells a line of too many UTF-8 bytes from the others and reads the others whole |
| `Framing.ServeStdio` | decision_os_min/host.py:268-285 | for every stream the replies are those of plain line splitting: one invalid frame per line of more UTF-8 bytes than the limit, none per blank line, one handling per other line |
| `Framing.ServeOne` | decision_os_min/host.py:270-285 | one turn answers one whole line and leaves the stream at the next |
| `Framing.Drain` | decision_os_min/host.py:275-277 | draining stops at the end of the oversized line |
| `Framing.StrippedFits` | decision_os_min/host.py:243-248 | stripping never makes an accepted line too long to handle |
| `Text.StripExactly` | decision_os_min/host.py:281 | `strip` cuts off all the blanks at both ends and nothing else |

## Left out

- Attenuation.AuthorityGraph.Delegate: expiry text and time zones are integers, so malformed expiry caveats, which raise, do not occur; the constant `location` field is dropped.
- AuthorityPdp.BuiltinAuthorityPDP.Evaluate: the purpose-mismatch text omits the action's purpose, and the policy revision hash is a parameter.
- Kernel.DecisionKernel.Decide: the advisor call is its result, the threat class; texts of timeouts omit the number of seconds; a label or capability of another type than text is not modelled.
- Execute.Executor.Execute: a failed audit write leaves the file as it was, a torn line being outside the model; the tool's own result or exception comes after the modelled effect, and the type checks on the payload and the token id never fail on typed data.
- HashChain.HashLog.Record: an anchor sink that raises is not modelled, and entries have exactly the fields `record` writes.
- Sealed.SealedRuntime.Invoke: leaves out the evidence object (its log line is kept, with the binding hash shown by name), the re-check of the kernel's own fresh signature, and the registry integrity checks, which guard against Python object tricks.
- Sealed.SealedExecutor.Execute: tool bodies are opaque ids compared for equality, in place of callables compared for identity.
- Host.AgentHost.HandleIntent: the evidence keeps ids and success only; the lock makes a host's calls sequential, so hosts on one store interleave intent by intent, and step by step only in `SpendProtocol`, `ArmingRuns` and `ArmingRaces`.
- HostRuns.NothingRunsUnarmed: direct calls come between intents; one that races an intent is in `ArmingRaces`.
- Framing.ServeStdio: what the JSON inside an accepted frame says, and `Intent` field validation, are left to the handled reply; universal newline translation happens before the modelled stream.
- Unambiguous.PrintInjective: payload strings hold no lone surrogates; a float is known by its `repr`. `PythonValues` lifts the first limit for printing and fingerprints, not for the rest of the pipeline.
- Fingerprint.PreimageExactly: fields other than the purpose are texts, so an explicit null actor, label or reference does not occur.
- Threads, wall-clock timeouts and exceptions of arbitrary type inside providers and evaluators: a call's outcome is a value.
- Python object tricks (`str` subclasses, poisoned callables, frame walking) have no counterpart here.
- The OPA and Cedar providers, the HTTP service, SQLite, the sandbox, `AgentClient` and process spawning: foreign processes and I/O.
- Several writers to one log: it has no lock, and each executor has its own here; a re-registration in the middle of one intent is not modelled (`register_agent` takes no lock; `invoke` refuses a ticket that no longer matches).
- `Kernel.grant`, `revoke` and `delegate` only forward to the built-in provider or refuse when there is none; `set_root_grants` is the initial state of a run.
- Context plugins, the governor wrapper and the pipeline helper: thin callers of what is modelled.
