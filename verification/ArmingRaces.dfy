/**
 The armed executor statement by statement, under threads: `execute` reads the arm, clears it and only then goes on,
 so an arming can be read again before it is cleared.
 */
module ArmingRaces {
  import opened Basics
  import opened Fingerprint
  import opened Compose
  import opened Kernel
  import opened Execute
  import opened Pipeline
  import opened Sealed
  import SpentStore

  datatype Move =
    | Arming(arm: Arm)
    | Reading(t: nat)
    | Clearing(t: nat)
    | Finishing(t: nat, call: DirectCall)

  /** Where a thread in `execute` has got to, and the number of the read that found an arm, if one did. */
  datatype Thread = Outside | Seen(read: Option<nat>) | Cleared(read: Option<nat>)

  /** One effect, the read it used up, and what it was presented with. */
  datatype Fired = Fired(read: nat, result: Signed, tools: map<string, nat>, call: ToolCall)

  /** `found` holds the number of the arming each successful read found. */
  datatype State = State(arm: Option<Arm>, armings: seq<Arm>, found: seq<nat>, threads: map<nat, Thread>,
                         markers: set<string>, fired: seq<Fired>)
  {
    function ThreadOf(t: nat): Thread {
      if t in threads then threads[t] else Outside
    }

    function Moved(t: nat, to: Thread): State {
      this.(threads := threads[t := to])
    }
  }

  function Answer(key: string, s: State, x: DirectCall): GateAnswer {
    Prepared(key, x.action, x.result, x.tools.Keys, x.now, s.markers, x.health)
  }

  /** The rest of `execute`, for the read `r`: the checks against the arm it found, then the PEP. */
  function Finished(key: string, s: State, r: nat, x: DirectCall): State
    requires r < |s.found| && s.found[r] < |s.armings|
  {
    if s.armings[s.found[r]] != Arm(x.result.decision.actionBinding, x.tools) then s
    else
      var g := Answer(key, s, x);
      s.(markers := MarkersAfter(key, x.action, x.result, x.tools.Keys, x.now, s.markers, x.health),
         fired := s.fired + if g.Passes? && x.auditOk && !x.dies
                            then [Fired(r, x.result, x.tools, ToolCall(g.tool, g.payload))] else [])
  }

  function Step(key: string, s: State, m: Move): State {
    match m
    case Arming(arm) => s.(arm := Some(arm), armings := s.armings + [arm])
    case Reading(t) =>
      if !s.ThreadOf(t).Outside? then s
      else if s.arm.None? || s.armings == [] then s.Moved(t, Seen(None))
      else s.(found := s.found + [|s.armings| - 1]).Moved(t, Seen(Some(|s.found|)))
    case Clearing(t) => if s.ThreadOf(t).Seen? then s.(arm := None).Moved(t, Cleared(s.ThreadOf(t).read)) else s
    case Finishing(t, x) =>
      if !s.ThreadOf(t).Cleared? then s
      else
        var out, read := s.Moved(t, Outside), s.ThreadOf(t).read;
        if read.None? || read.value >= |s.found| || s.found[read.value] >= |s.armings| then out
        else Finished(key, out, read.value, x)
  }

  function Run(key: string, markers: set<string>, moves: seq<Move>): State {
    if moves == [] then State(None, [], [], map[], markers, [])
    else Step(key, Run(key, markers, moves[..|moves| - 1]), moves[|moves| - 1])
  }

  /** The effect was armed for: the arming its read found is for this decision and these bodies. */
  ghost predicate Armed(s: State, f: Fired) {
    && f.read < |s.found| && s.found[f.read] < |s.armings|
    && s.armings[s.found[f.read]] == Arm(f.result.decision.actionBinding, f.tools)
    && f.call.tool in f.tools
  }

  /** Thread `t` still has read `r` to use. */
  predicate Pending(s: State, t: nat, r: nat) {
    (s.ThreadOf(t).Seen? || s.ThreadOf(t).Cleared?) && s.ThreadOf(t).read == Some(r)
  }

  ghost predicate Inv(s: State) {
    && (s.arm.Some? ==> s.armings != [] && s.armings[|s.armings| - 1] == s.arm.value)
    && (forall r :: 0 <= r < |s.found| ==> s.found[r] < |s.armings|)
    && (forall t: nat, r: nat :: Pending(s, t, r) ==> r < |s.found|)
    && (forall t: nat, u: nat, r: nat :: Pending(s, t, r) && Pending(s, u, r) ==> t == u)
    && (forall i :: 0 <= i < |s.fired| ==> Armed(s, s.fired[i]))
    && (forall i, t: nat :: 0 <= i < |s.fired| ==> !Pending(s, t, s.fired[i].read))
    && (forall i, j :: 0 <= i < j < |s.fired| ==> s.fired[i].read != s.fired[j].read)
  }

  lemma PassIsInTheTable(key: string, s: State, x: DirectCall)
    requires Answer(key, s, x).Passes?
    ensures Answer(key, s, x).tool in x.tools
  {
  }

  lemma PendingAfter(key: string, s: State, m: Move, t: nat, r: nat)
    requires Pending(Step(key, s, m), t, r)
    ensures Pending(s, t, r) || (m == Reading(t) && r == |s.found| && |Step(key, s, m).found| == |s.found| + 1)
    ensures m.Finishing? ==> t != m.t || !s.ThreadOf(m.t).Cleared?
  {
    hide Prepared, MarkersAfter;
  }

  lemma ReadKeeps(key: string, s: State, t: nat)
    requires Inv(s)
    ensures Inv(Step(key, s, Reading(t)))
  {
    var n := Step(key, s, Reading(t));
    forall u, r | Pending(n, u, r)
      ensures Pending(s, u, r) || (u == t && r == |s.found| && |n.found| == |s.found| + 1)
    {
      PendingAfter(key, s, Reading(t), u, r);
    }
    assert forall i :: 0 <= i < |s.fired| ==> Armed(s, s.fired[i]);
  }

  lemma FinishKeeps(key: string, s: State, t: nat, x: DirectCall)
    requires Inv(s)
    ensures Inv(Step(key, s, Finishing(t, x)))
  {
    hide Prepared, MarkersAfter;
    var n := Step(key, s, Finishing(t, x));
    forall u, r | Pending(n, u, r) ensures Pending(s, u, r) && (u != t || !s.ThreadOf(t).Cleared?) {
      PendingAfter(key, s, Finishing(t, x), u, r);
    }
    assert forall i :: 0 <= i < |s.fired| ==> Armed(s, s.fired[i]);
    if s.ThreadOf(t).Cleared? && s.ThreadOf(t).read.Some? {
      assert Pending(s, t, s.ThreadOf(t).read.value);
      if Answer(key, s.Moved(t, Outside), x).Passes? { PassIsInTheTable(key, s.Moved(t, Outside), x); }
    }
  }

  lemma OtherKeeps(key: string, s: State, m: Move)
    requires Inv(s) && (m.Arming? || m.Clearing?)
    ensures Inv(Step(key, s, m))
  {
    var n := Step(key, s, m);
    forall u, r | Pending(n, u, r) ensures Pending(s, u, r) {
      PendingAfter(key, s, m, u, r);
    }
    assert forall i :: 0 <= i < |s.fired| ==> Armed(s, s.fired[i]);
  }

  /**
   However threads interleave in `execute`: each effect used up a read of its own, and the arming that read found
   was for just the decision and the bodies the effect was presented with.
   */
  lemma {:induction false} EffectsUseTheirReads(key: string, markers: set<string>, moves: seq<Move>)
    ensures Inv(Run(key, markers, moves))
  {
    hide Step;
    if moves != [] {
      var s, m := Run(key, markers, moves[..|moves| - 1]), moves[|moves| - 1];
      EffectsUseTheirReads(key, markers, moves[..|moves| - 1]);
      match m
      case Reading(t) => ReadKeeps(key, s, t);
      case Finishing(t, x) => FinishKeeps(key, s, t, x);
      case _ => OtherKeeps(key, s, m);
    }
  }

  ghost predicate ReadOnce(s: State) {
    forall i, j :: 0 <= i < j < |s.found| ==> s.found[i] != s.found[j]
  }

  /** Two effects share an arming only through two reads of it; where each was read once, each effect has its own. */
  lemma OneReadOneEffect(key: string, markers: set<string>, moves: seq<Move>)
    requires ReadOnce(Run(key, markers, moves))
    ensures var s := Run(key, markers, moves);
            forall i, j :: 0 <= i < j < |s.fired| ==>
              s.fired[i].read < |s.found| && s.fired[j].read < |s.found| &&
                s.found[s.fired[i].read] != s.found[s.fired[j].read]
  {
    hide Run;
    EffectsUseTheirReads(key, markers, moves);
    var s := Run(key, markers, moves);
    assert forall i :: 0 <= i < |s.fired| ==> Armed(s, s.fired[i]);
  }

  /** No thread clears later than it reads: every read is followed at once by its own thread's clear. */
  ghost predicate ClearsAtOnce(moves: seq<Move>) {
    forall i :: 0 <= i < |moves| && moves[i].Reading? ==> i + 1 < |moves| && moves[i + 1] == Clearing(moves[i].t)
  }

  /** Between reads an arm that is still set has not been read. */
  ghost predicate Unread(s: State) {
    ReadOnce(s) && forall i :: 0 <= i < |s.found| ==> s.found[i] < |s.armings| - if s.arm.Some? then 1 else 0
  }

  lemma ReadThenClear(key: string, s: State, t: nat)
    requires Inv(s) && Unread(s)
    ensures Unread(Step(key, Step(key, s, Reading(t)), Clearing(t)))
  {
    var r := Step(key, s, Reading(t));
    assert s.ThreadOf(t).Outside? ==> r.ThreadOf(t).Seen?;
    if !s.ThreadOf(t).Outside? { assert r == s; }
  }

  lemma OtherStaysUnread(key: string, s: State, m: Move)
    requires Inv(s) && Unread(s) && !m.Reading?
    ensures Unread(Step(key, s, m))
  {
    hide Prepared, MarkersAfter;
  }

  lemma ShorterClearsAtOnce(moves: seq<Move>, n: nat)
    requires ClearsAtOnce(moves) && n <= |moves| && (n > 0 ==> !moves[n - 1].Reading?)
    ensures ClearsAtOnce(moves[..n])
  {
    forall i | 0 <= i < n && moves[..n][i].Reading?
      ensures i + 1 < n && moves[..n][i + 1] == Clearing(moves[..n][i].t)
    {
      assert moves[i].Reading?;
    }
  }

  /** With a clear after every read, as when executions are serialised, no arming is read twice. */
  lemma {:induction false} SerialReadsOnce(key: string, markers: set<string>, moves: seq<Move>)
    requires ClearsAtOnce(moves)
    ensures Unread(Run(key, markers, moves))
    decreases |moves|
  {
    hide Step;
    var n := |moves|;
    if n > 0 {
      assert !moves[n - 1].Reading?;
      if n > 1 && moves[n - 2].Reading? {
        assert n > 2 ==> !moves[n - 3].Reading?;
        ShorterClearsAtOnce(moves, n - 2);
        SerialReadsOnce(key, markers, moves[..n - 2]);
        EffectsUseTheirReads(key, markers, moves[..n - 2]);
        assert moves[..n - 1][..n - 2] == moves[..n - 2];
        ReadThenClear(key, Run(key, markers, moves[..n - 2]), moves[n - 2].t);
      } else {
        ShorterClearsAtOnce(moves, n - 1);
        SerialReadsOnce(key, markers, moves[..n - 1]);
        EffectsUseTheirReads(key, markers, moves[..n - 1]);
        OtherStaysUnread(key, Run(key, markers, moves[..n - 1]), moves[n - 1]);
      }
    }
  }

  // ---- a race that shares one arming

  /** The transfer decided twice, with tokens of their own. */
  function DecidedAs(token: string, markers: set<string>): Setting {
    TransferOf(None, Allow, []).(draws := Draws(token, 0), markers := markers)
  }

  ghost function CallAs(token: string): DirectCall {
    DirectCall(TRANSFER, SignedBy(DecidedAs(token, {}), TRANSFER, []), map["pay" := 0], 0, SpentStore.Healthy, "",
               true, false)
  }

  ghost const ARM := Arm(Some(ActionFingerprint(TRANSFER)), map["pay" := 0])

  lemma CallPasses(token: string, markers: set<string>)
    requires token != "" && token !in markers
    ensures CallAs(token).result.decision.actionBinding == Some(ActionFingerprint(TRANSFER))
    ensures Prepared("k", TRANSFER, CallAs(token).result, {"pay"}, 0, markers, SpentStore.Healthy) ==
            Passes("pay", TRANSFER.payload, token)
    ensures MarkersAfter("k", TRANSFER, CallAs(token).result, {"pay"}, 0, markers, SpentStore.Healthy) ==
            markers + {token}
  {
    hide Stamp, OwnRuling, Delivered, Obligation, ToolRun, Fingerprintable, Gates;
    var w := DecidedAs(token, markers);
    assert Ruled(w, TRANSFER, []) == Ruled(DecidedAs(token, {}), TRANSFER, []);
    TransferRunsPay();
    TransferOwesNothing(w);
    OwnVerdict(w, TRANSFER);
    EffectExactly(w, TRANSFER, []);
    RuledFields(w, TRANSFER, []);
    TokenIsSpent(w, markers);
  }

  lemma TokenIsSpent(w: Setting, markers: set<string>)
    requires Prepared(w.key, TRANSFER, SignedBy(w, TRANSFER, []), w.tools, w.now, markers, w.health).Passes?
    ensures var g := Prepared(w.key, TRANSFER, SignedBy(w, TRANSFER, []), w.tools, w.now, markers, w.health);
            Ruled(w, TRANSFER, []).tokenId == Some(g.tokenId) &&
            MarkersAfter(w.key, TRANSFER, SignedBy(w, TRANSFER, []), w.tools, w.now, markers, w.health) ==
              markers + {g.tokenId}
  {
    hide Stamp, OwnRuling, Fold;
  }

  lemma RunOneMore(moves: seq<Move>, m: Move)
    ensures Run("k", {}, moves + [m]) == Step("k", Run("k", {}, moves), m)
  {
    assert (moves + [m])[..|moves|] == moves;
  }

  /** One arming, read by two threads before either clears it. */
  ghost function BothRead(): seq<Move> {
    [] + [Arming(ARM)] + [Reading(1)] + [Reading(2)]
  }

  ghost function BothCleared(): seq<Move> {
    BothRead() + [Clearing(1)] + [Clearing(2)]
  }

  lemma AfterBothRead()
    ensures Run("k", {}, BothRead()) ==
            State(Some(ARM), [ARM], [0, 0], map[1 := Seen(Some(0)), 2 := Seen(Some(1))], {}, [])
  {
    hide Run;
    assert Run("k", {}, []) == State(None, [], [], map[], {}, []) by { NothingYet(); }
    RunOneMore([], Arming(ARM));
    RunOneMore([] + [Arming(ARM)], Reading(1));
    RunOneMore([] + [Arming(ARM)] + [Reading(1)], Reading(2));
    assert map[1 := Seen(Some(0))][2 := Seen(Some(1))] == map[1 := Seen(Some(0)), 2 := Seen(Some(1))];
    assert [0] + [0] == [0, 0];
  }

  lemma NothingYet()
    ensures Run("k", {}, []) == State(None, [], [], map[], {}, [])
  {
  }

  lemma AfterBothCleared()
    ensures var s := Run("k", {}, BothCleared());
            && s == State(None, [ARM], [0, 0], s.threads, {}, [])
            && s.ThreadOf(1) == Cleared(Some(0)) && s.ThreadOf(2) == Cleared(Some(1))
  {
    hide Run, BothRead;
    AfterBothRead();
    RunOneMore(BothRead(), Clearing(1));
    RunOneMore(BothRead() + [Clearing(1)], Clearing(2));
  }

  /** One arming and two effects: two decisions on one action, presented by two threads that both read the arm first. */
  lemma TwoEffectsOnOneArming()
    ensures var s := Run("k", {}, BothCleared() + [Finishing(1, CallAs("a"))] + [Finishing(2, CallAs("b"))]);
            |s.fired| == 2 && |s.armings| == 1
  {
    hide Run, BothCleared, Finished, CallAs;
    AfterBothCleared();
    var s := Run("k", {}, BothCleared());
    RunOneMore(BothCleared(), Finishing(1, CallAs("a")));
    RunOneMore(BothCleared() + [Finishing(1, CallAs("a"))], Finishing(2, CallAs("b")));
    FinishesAs(s);
  }

  lemma FinishesAs(s: State)
    requires s == State(None, [ARM], [0, 0], s.threads, {}, [])
    requires s.ThreadOf(1) == Cleared(Some(0)) && s.ThreadOf(2) == Cleared(Some(1))
    ensures var t := Step("k", Step("k", s, Finishing(1, CallAs("a"))), Finishing(2, CallAs("b")));
            |t.fired| == 2 && |t.armings| == 1
  {
    hide Prepared, MarkersAfter, SignedBy;
    CallPasses("a", {});
    CallPasses("b", {"a"});
    assert map["pay" := 0].Keys == {"pay"} && {} + {"a"} == {"a"};
    var one := Step("k", s, Finishing(1, CallAs("a")));
    assert |one.fired| == 1 && one.markers == {"a"} && one.ThreadOf(2) == Cleared(Some(1));
    assert one.armings == [ARM] && one.found == [0, 0];
  }
}
