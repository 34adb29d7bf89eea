/**
 Any number of executors sharing one store, each step of `execute` interleaved with the others' and cut short by
 a crash anywhere: gates, atomic create, write, audit, effect.
 */
module SpendProtocol {
  import SpentStore

  datatype Phase =
    | Idle
    | Gated(token: string)     // every gate before the spend passed
    | Created(token: string)   // the marker exists, its write is pending
    | Spent(token: string)     // try_spend returned True
    | Audited(token: string)   // the executed=True record is durable
    | Refusing(token: string)  // an executed=False record is due

  datatype Event =
    | SpendWon(token: string)
    | AuditExecuted(token: string)
    | AuditRefused(token: string)
    | Effect(token: string)

  datatype World = World(markers: set<string>, procs: map<nat, Phase>, events: multiset<Event>) {
    function PhaseOf(e: nat): Phase {
      if e in procs then procs[e] else Idle
    }

    function Moved(e: nat, p: Phase): World {
      this.(procs := procs[e := p])
    }

    function Happened(ev: Event): World {
      this.(events := events + multiset{ev})
    }
  }

  /** One step of executor `e`. `ok` is what the disk does, where it matters. */
  datatype Step =
    | Begin(e: nat, token: string)
    | Create(e: nat, ok: bool)
    | Write(e: nat, ok: bool)
    | Audit(e: nat, ok: bool)
    | Act(e: nat)
    | Refuse(e: nat, ok: bool)
    | Crash(e: nat)

  /** A step that its executor is not ready for changes nothing. */
  function Next(w: World, s: Step): World {
    match s
    case Begin(e, t) => if w.PhaseOf(e) == Idle then w.Moved(e, Gated(t)) else w
    case Create(e, ok) =>
      (match w.PhaseOf(e)
       case Gated(t) =>
         if !ok || t in w.markers then w.Moved(e, Refusing(t))
         else w.(markers := w.markers + {t}).Moved(e, Created(t))
       case _ => w)
    case Write(e, ok) =>
      (match w.PhaseOf(e)
       case Created(t) => if ok then w.Happened(SpendWon(t)).Moved(e, Spent(t)) else w.Moved(e, Refusing(t))
       case _ => w)
    case Audit(e, ok) =>
      (match w.PhaseOf(e)
       case Spent(t) => if ok then w.Happened(AuditExecuted(t)).Moved(e, Audited(t)) else w.Moved(e, Idle)
       case _ => w)
    case Act(e) =>
      (match w.PhaseOf(e)
       case Audited(t) => w.Happened(Effect(t)).Moved(e, Idle)
       case _ => w)
    case Refuse(e, ok) =>
      (match w.PhaseOf(e)
       case Refusing(t) => (if ok then w.Happened(AuditRefused(t)) else w).Moved(e, Idle)
       case _ => w)
    case Crash(e) => w.Moved(e, Idle)
  }

  function Run(markers: set<string>, steps: seq<Step>): World {
    if steps == [] then World(markers, map[], multiset{})
    else Next(Run(markers, steps[..|steps| - 1]), steps[|steps| - 1])
  }

  /** The create and write steps, taken together, are the store's `TrySpend`. */
  lemma TwoStepsAreTrySpend(w: World, e: nat, t: string, health: SpentStore.Health)
    requires w.PhaseOf(e) == Gated(t)
    ensures var v := Next(Next(w, Create(e, !health.Unreachable?)), Write(e, !health.WriteFails?));
            && v.markers == SpentStore.MarkersAfter(w.markers, t, health)
            && v.PhaseOf(e) ==
               (if SpentStore.AnswerOf(w.markers, t, health) == SpentStore.First then Spent(t) else Refusing(t))
            && Spends(v, t) == Spends(w, t) +
               (if SpentStore.AnswerOf(w.markers, t, health) == SpentStore.First then 1 else 0)
  {
    assert t in w.markers ==> w.markers + {t} == w.markers;
  }

  function Spends(w: World, t: string): nat { w.events[SpendWon(t)] }

  function ExecutedAudits(w: World, t: string): nat { w.events[AuditExecuted(t)] }

  function Effects(w: World, t: string): nat { w.events[Effect(t)] }

  /** `e` created the marker of `t` and has not finished with it. */
  predicate Owns(w: World, e: nat, t: string) {
    var p := w.PhaseOf(e);
    p == Created(t) || p == Spent(t) || p == Audited(t)
  }

  /** What one token has been through so far agrees with where its owner, if any, has got to. */
  ghost predicate TokenInv(w: World, t: string) {
    && Effects(w, t) <= ExecutedAudits(w, t) <= Spends(w, t) <= (if t in w.markers then 1 else 0)
    && (forall e, f :: Owns(w, e, t) && Owns(w, f, t) ==> e == f)
    && (forall e :: Owns(w, e, t) ==>
          && t in w.markers
          && Spends(w, t) == (if w.PhaseOf(e) == Created(t) then 0 else 1)
          && ExecutedAudits(w, t) == (if w.PhaseOf(e) == Audited(t) then 1 else 0)
          && Effects(w, t) == 0)
  }

  lemma CreateKeeps(w: World, s: Step, t: string)
    requires TokenInv(w, t) && s.Create?
    ensures TokenInv(Next(w, s), t)
  {
    OthersUntouched(w, s, t);
    assert w.PhaseOf(s.e) == Gated(t) && s.ok && t !in w.markers ==> Owns(Next(w, s), s.e, t);
  }

  lemma WriteKeeps(w: World, s: Step, t: string)
    requires TokenInv(w, t) && s.Write?
    ensures TokenInv(Next(w, s), t)
  {
    OthersUntouched(w, s, t);
    assert w.PhaseOf(s.e) == Created(t) ==> Owns(w, s.e, t);
  }

  lemma AuditKeeps(w: World, s: Step, t: string)
    requires TokenInv(w, t) && s.Audit?
    ensures TokenInv(Next(w, s), t)
  {
    OthersUntouched(w, s, t);
    assert w.PhaseOf(s.e) == Spent(t) ==> Owns(w, s.e, t);
  }

  lemma ActKeeps(w: World, s: Step, t: string)
    requires TokenInv(w, t) && s.Act?
    ensures TokenInv(Next(w, s), t)
  {
    OthersUntouched(w, s, t);
    assert w.PhaseOf(s.e) == Audited(t) ==> Owns(w, s.e, t);
  }

  lemma QuietStepKeeps(w: World, s: Step, t: string)
    requires TokenInv(w, t) && (s.Begin? || s.Refuse? || s.Crash?)
    ensures TokenInv(Next(w, s), t)
  {
    OthersUntouched(w, s, t);
    assert !Owns(Next(w, s), s.e, t) || Owns(w, s.e, t);
  }

  lemma NextKeeps(w: World, s: Step, t: string)
    requires TokenInv(w, t)
    ensures TokenInv(Next(w, s), t)
  {
    match s {
      case Create(_, _) => CreateKeeps(w, s, t);
      case Write(_, _) => WriteKeeps(w, s, t);
      case Audit(_, _) => AuditKeeps(w, s, t);
      case Act(_) => ActKeeps(w, s, t);
      case _ => QuietStepKeeps(w, s, t);
    }
  }

  lemma OthersUntouched(w: World, s: Step, t: string)
    ensures forall e :: e != s.e ==> Next(w, s).PhaseOf(e) == w.PhaseOf(e)
    ensures forall e :: e != s.e ==> (Owns(Next(w, s), e, t) <==> Owns(w, e, t))
  {
  }

  lemma {:induction false} RunKeeps(markers: set<string>, steps: seq<Step>, t: string)
    ensures TokenInv(Run(markers, steps), t)
  {
    if steps != [] {
      RunKeeps(markers, steps[..|steps| - 1], t);
      NextKeeps(Run(markers, steps[..|steps| - 1]), steps[|steps| - 1], t);
    }
  }

  /** For every interleaving: effects <= executed audits <= won spends <= 1, token by token. */
  lemma OneTimeUnderInterleaving(markers: set<string>, steps: seq<Step>, t: string)
    ensures var w := Run(markers, steps);
            Effects(w, t) <= ExecutedAudits(w, t) <= Spends(w, t) <= 1
    ensures t in markers ==> Spends(Run(markers, steps), t) == 0
  {
    RunKeeps(markers, steps, t);
    if t in markers {
      OldMarkersNeverWin(markers, steps, t);
    }
  }

  lemma RunOneMore(markers: set<string>, steps: seq<Step>, s: Step)
    ensures Run(markers, steps + [s]) == Next(Run(markers, steps), s)
  {
    assert (steps + [s])[..|steps|] == steps;
  }

  /** What an executor does up to its entry. */
  function UpToTheEntry(e: nat, t: string): seq<Step> {
    [] + [Begin(e, t)] + [Create(e, true)] + [Write(e, true)] + [Audit(e, true)]
  }

  /** Executor `e` alone, at `p`. */
  function Alone(markers: set<string>, e: nat, p: Phase, events: multiset<Event>): World {
    World(markers, map[e := p], events)
  }

  lemma StepsToTheEntry(e: nat, t: string)
    ensures Next(World({}, map[], multiset{}), Begin(e, t)) == Alone({}, e, Gated(t), multiset{})
    ensures Next(Alone({}, e, Gated(t), multiset{}), Create(e, true)) == Alone({t}, e, Created(t), multiset{})
    ensures Next(Alone({t}, e, Created(t), multiset{}), Write(e, true)) ==
            Alone({t}, e, Spent(t), multiset{SpendWon(t)})
  {
  }

  lemma WritesTheEntry(e: nat, t: string)
    ensures Next(Alone({t}, e, Spent(t), multiset{SpendWon(t)}), Audit(e, true)) ==
            Alone({t}, e, Audited(t), multiset{SpendWon(t), AuditExecuted(t)})
  {
    assert multiset{SpendWon(t)} + multiset{AuditExecuted(t)} == multiset{SpendWon(t), AuditExecuted(t)};
  }

  lemma AtItsEntry(e: nat, t: string)
    ensures Run({}, UpToTheEntry(e, t)) == Alone({t}, e, Audited(t), multiset{SpendWon(t), AuditExecuted(t)})
  {
    hide Run, Next, Alone;
    NothingYet();
    StepsToTheEntry(e, t);
    WritesTheEntry(e, t);
    RunOneMore({}, [], Begin(e, t));
    RunOneMore({}, [] + [Begin(e, t)], Create(e, true));
    RunOneMore({}, [] + [Begin(e, t)] + [Create(e, true)], Write(e, true));
    RunOneMore({}, [] + [Begin(e, t)] + [Create(e, true)] + [Write(e, true)], Audit(e, true));
  }

  lemma NothingYet()
    ensures Run({}, []) == World({}, map[], multiset{})
  {
  }

  /** The one window between an entry and its effect: killed there, an executor leaves the entry and a settled token. */
  lemma KilledAfterItsEntry(e: nat, t: string)
    ensures var w := Run({}, UpToTheEntry(e, t) + [Crash(e)]);
            Spends(w, t) == 1 && ExecutedAudits(w, t) == 1 && Effects(w, t) == 0 && Settled(w, t)
  {
    hide Run, UpToTheEntry;
    AtItsEntry(e, t);
    RunOneMore({}, UpToTheEntry(e, t), Crash(e));
  }

  /** The token is marked, and no executor is between its marker and its effect. */
  ghost predicate Settled(w: World, t: string) {
    t in w.markers && forall e :: !Owns(w, e, t)
  }

  /** The same spends, executed audits and effects of `t`. */
  ghost predicate SameTally(w: World, v: World, t: string) {
    Spends(w, t) == Spends(v, t) && ExecutedAudits(w, t) == ExecutedAudits(v, t) && Effects(w, t) == Effects(v, t)
  }

  lemma TallyStays(w: World, s: Step, t: string)
    requires !Owns(w, s.e, t)
    ensures SameTally(Next(w, s), w, t)
  {
  }

  lemma StaysUnowned(w: World, s: Step, t: string)
    requires t in w.markers && !Owns(w, s.e, t)
    ensures !Owns(Next(w, s), s.e, t) && t in Next(w, s).markers
  {
  }

  lemma SettledStays(w: World, s: Step, t: string)
    requires Settled(w, t)
    ensures Settled(Next(w, s), t) && SameTally(Next(w, s), w, t)
  {
    hide Next, Owns, SameTally;
    TallyStays(w, s, t);
    StaysUnowned(w, s, t);
    OthersUntouched(w, s, t);
  }

  lemma {:induction false} OldMarkersNeverWin(markers: set<string>, steps: seq<Step>, t: string)
    requires t in markers
    ensures Settled(Run(markers, steps), t) && Spends(Run(markers, steps), t) == 0
  {
    if steps != [] {
      OldMarkersNeverWin(markers, steps[..|steps| - 1], t);
      SettledStays(Run(markers, steps[..|steps| - 1]), steps[|steps| - 1], t);
    }
  }

  /**
   Fail closed for good: once a token is settled, whether it ran, crashed or lost its write, no further run brings
   another spend, executed audit or effect.
   */
  lemma {:induction false} BurntStaysBurnt(markers: set<string>, steps: seq<Step>, more: seq<Step>, t: string)
    requires Settled(Run(markers, steps), t)
    ensures Settled(Run(markers, steps + more), t)
    ensures SameTally(Run(markers, steps + more), Run(markers, steps), t)
    decreases |more|
  {
    hide Next;
    if more == [] {
      assert steps + more == steps;
    } else {
      var init := more[..|more| - 1];
      BurntStaysBurnt(markers, steps, init, t);
      assert (steps + more)[..|steps + more| - 1] == steps + init;
      SettledStays(Run(markers, steps + init), more[|more| - 1], t);
    }
  }
}
