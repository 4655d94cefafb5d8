/**
  What each operation does, whoever runs beside it: the events of its own steps from its start to its
  return, and the state it leaves. The monitor says what may come next; this says what does come.
*/
module LifecycleEffects {
  import opened LifecycleTrace
  import opened LifecycleModel
  import opened LifecycleInvariant
  import opened LifecycleSteps
  import opened LifecycleSafety

  // ---------------------------------------------------------------------------
  // One thread's part in a run

  /** The thread whose action it is, or the heartbeat worker. */
  function Actor(a: Action): Owner {
    match a
    case Start(i, _) => i
    case Step(i, _) => i
    case SpuriousWake(i) => i
    case _ => BEATER
  }

  function Added(s: State, s': State): seq<Event> {
    if |s.trace| <= |s'.trace| then s'.trace[|s.trace|..] else []
  }

  /** The events of its own steps, in order. */
  ghost function Own(s: State, run: seq<Action>, o: Owner): seq<Event>
    requires IsRun(s, run)
    decreases |run|
  {
    if run == [] then []
    else
      var s' := Apply(s, run[0]);
      (if Actor(run[0]) == o then Added(s, s') else []) + Own(s', run[1..], o)
  }

  /** The state in which it makes its first move. */
  ghost function AtFirst(s: State, run: seq<Action>, o: Owner): State
    requires IsRun(s, run)
    decreases |run|
  {
    if run == [] || Actor(run[0]) == o then s else AtFirst(Apply(s, run[0]), run[1..], o)
  }

  /** From here the thread goes on without starting anything else, until one last step makes it idle. */
  ghost predicate Returns(s: State, run: seq<Action>, i: nat) {
    && IsRun(s, run) && run != [] && i < |s.threads|
    && (forall op :: Start(i, op) !in run)
    && run[|run| - 1].Step? && run[|run| - 1].i == i
    && i < |Final(s, run).threads| && Final(s, run).threads[i].pc == Idle
  }

  /** One whole operation: the thread starts it, and the run ends with its return. */
  ghost predicate IsCall(s: State, run: seq<Action>, i: nat, op: Op) {
    run != [] && run[0] == Start(i, op) && IsRun(s, run) && Returns(Apply(s, run[0]), run[1..], i)
  }

  lemma CallUnfolds(s: State, run: seq<Action>, i: nat, op: Op)
    requires Inv(s) && IsCall(s, run, i, op)
    ensures
      var s' := Apply(s, run[0]);
      && Inv(s') && s'.threads[i] == StartOp(op) && Own(s, run, i) == Own(s', run[1..], i)
      && Final(s, run) == Final(s', run[1..]) && SameFlags(s, s')
  {
    hide Inv, Apply;
    StepKeepsInv(s, run[0]);
    RunUnfolds(s, run, i);
    StartAddsNothing(s, i, op);
    assert [] + Own(Apply(s, run[0]), run[1..], i) == Own(Apply(s, run[0]), run[1..], i);
  }

  lemma StartAddsNothing(s: State, i: nat, op: Op)
    requires CanStart(s, i)
    ensures
      var s' := Apply(s, Start(i, op));
      Added(s, s') == [] && SameFlags(s, s') && s'.threads[i] == StartOp(op)
  {
  }

  /** An idle thread that starts nothing makes no step. */
  lemma {:induction false} IdleStays(s: State, run: seq<Action>, i: nat)
    requires Inv(s) && IsRun(s, run) && i < |s.threads| && s.threads[i].pc == Idle
    requires forall op :: Start(i, op) !in run
    ensures forall a :: a in run ==> Actor(a) != i
    decreases |run|
  {
    hide Inv, Apply;
    if run != [] {
      var a := run[0];
      assert a in run && run == [a] + run[1..];
      assert Actor(a) != i;
      StepKeepsInv(s, a);
      OtherKeepsThread(s, a, i);
      IdleStays(Apply(s, a), run[1..], i);
    }
  }

  /** On the way to its return a thread only steps, or is woken for no reason. */
  lemma TurnIsAStep(s: State, run: seq<Action>, i: nat)
    requires Returns(s, run, i) && Actor(run[0]) == i
    ensures run[0].i == i && (run[0].Step? || run[0].SpuriousWake?)
    ensures s.threads[i].pc != Drain(DrainSleep) ==> run[0].Step?
  {
    assert run[0] in run;
  }

  lemma NothingFollows(s: State, i: nat)
    ensures Own(s, [], i) == [] && Final(s, []) == s
  {
  }

  lemma SameTwice(a: State, b: State, c: State)
    requires SameFlags(a, b) && SameFlags(b, c)
    ensures SameFlags(a, c)
  {
  }

  lemma ReturnGoesOn(s: State, run: seq<Action>, i: nat)
    requires Returns(s, run, i) && Apply(s, run[0]).threads[i].pc != Idle
    ensures Returns(Apply(s, run[0]), run[1..], i)
  {
    hide Apply;
    RunUnfolds(s, run, i);
    NothingFollows(Apply(s, run[0]), i);
  }

  lemma ReturnEnds(s: State, run: seq<Action>, i: nat)
    requires Inv(s) && Returns(s, run, i) && Apply(s, run[0]).threads[i].pc == Idle
    ensures run[1..] == []
  {
    hide Apply, Inv;
    StepKeepsInv(s, run[0]);
    if run[1..] != [] {
      assert run[|run| - 1] == run[1..][|run| - 2] && run[|run| - 1] in run[1..];
      assert Actor(run[|run| - 1]) == i;
      IdleStays(Apply(s, run[0]), run[1..], i);
    }
  }

  /** The first action of a run, and what remains of it. */
  lemma RunUnfolds(s: State, run: seq<Action>, i: nat)
    requires IsRun(s, run) && run != []
    ensures Enabled(s, run[0]) && IsRun(Apply(s, run[0]), run[1..])
    ensures Final(s, run) == Final(Apply(s, run[0]), run[1..])
    ensures
      var s' := Apply(s, run[0]);
      Own(s, run, i) == (if Actor(run[0]) == i then Added(s, s') else []) + Own(s', run[1..], i)
    ensures AtFirst(s, run, i) == if Actor(run[0]) == i then s else AtFirst(Apply(s, run[0]), run[1..], i)
  {
    hide Apply, Added;
  }

  /** The invariant of a step, for every kind of action. */
  lemma ActionMoves(s: State, a: Action) returns (m': Monitor)
    requires Inv(s) && Enabled(s, a)
    ensures Moves(s, Apply(s, a), Actor(a))
    ensures Respects(s, Observe(s.trace).m, Apply(s, a), m', Actor(a))
  {
    hide Shared, BeatInv, LocksOf, PortOf, Moves, Respects;
    var m := Observe(s.trace).m;
    m' := m;
    match a
    case Start(i, op) =>
      assert LocksOf(s, i) && PortOf(s, m, i);
      StartIsOk(s, m, i, op);
      NothingRespects(s, m, Apply(s, a), i);
    case Step(i, choice) => m' := ClientStepIsOk(s, i, choice);
    case SpuriousWake(i) =>
      assert LocksOf(s, i) && PortOf(s, m, i);
      WakeIsOk(s, m, i);
      NothingRespects(s, m, Apply(s, a), i);
    case BeatStep =>
      BeatMoves(s, m);
      BeatRespects(s, m);
      m' := Watch(m, BeatEmits(s), BeatEvent(s));
    case BeatTick => NapMoves(s, m, true);
    case BeatSpuriousWake => NapMoves(s, m, false);
  }

  lemma NothingRespects(s: State, m: Monitor, s': State, o: Owner)
    requires InvFor(s, m) && s' == s.(threads := s'.threads)
    ensures Respects(s, m, s', m, o)
  {
    if 0 <= s.closer < |s.threads| {
      assert PortOf(s, m, s.closer) && LocksOf(s, s.closer);
    }
  }

  lemma NapMoves(s: State, m: Monitor, timedOut: bool)
    requires InvFor(s, m) && s.worker.Worker? && s.worker.pc == BeatSleep
    ensures Moves(s, BeatGoto(s, BeatWait(timedOut)), BEATER)
    ensures Respects(s, m, BeatGoto(s, BeatWait(timedOut)), m, BEATER)
  {
    if 0 <= s.closer < |s.threads| {
      assert PortOf(s, m, s.closer) && LocksOf(s, s.closer);
    }
  }

  /** What another's action leaves of a thread. */
  lemma OtherKeepsThread(s: State, a: Action, i: nat)
    requires Inv(s) && Enabled(s, a) && Actor(a) != i && i < |s.threads|
    ensures Apply(s, a).threads[i] == s.threads[i].(notified := Apply(s, a).threads[i].notified)
  {
    hide Apply, Inv;
    var m' := ActionMoves(s, a);
  }

  /** Whose turn it is. */
  predicate Another(s: State, a: Action, i: nat) {
    i < |s.threads| && Enabled(s, a) && Actor(a) != i
  }

  /** While a thread holds the state lock nobody else touches the flags or starts a worker. */
  lemma BehindTheStateLock(s: State, a: Action, i: nat)
    requires Inv(s) && Another(s, a, i) && s.stateLock == i
    ensures SameFlags(s, Apply(s, a)) && Apply(s, a).stateLock == i
    ensures s.worker.NoWorker? ==> Apply(s, a).worker.NoWorker?
  {
    hide Apply, Inv;
    var m' := ActionMoves(s, a);
    FlagsBehindTheStateLock(s, a, i);
  }

  lemma FlagsBehindTheStateLock(s: State, a: Action, i: nat)
    requires Inv(s) && Another(s, a, i) && s.stateLock == i
    ensures SameFlags(s, Apply(s, a))
    ensures s.worker.NoWorker? ==> Apply(s, a).worker.NoWorker?
  {
    if a.Step? {
      assert LocksOf(s, a.i);
      OtherBehindTheStateLock(s, a.i, a.choice, i);
    }
  }

  lemma OtherBehindTheStateLock(s: State, j: nat, choice: Choice, i: nat)
    requires CanStep(s, j) && StateLockOf(s, j) && s.stateLock == i && i != j
    ensures SameFlags(s, StepOf(s, j, choice))
    ensures s.worker.NoWorker? ==> StepOf(s, j, choice).worker.NoWorker?
  {
    hide SameFlags, GenStep, ScriptStep, EnterStep, ExchangeStep, LeaveStep, HushStep, StopStep, DrainStep, ShutStep;
    hide OpenStep, SpawnStep, ClaimStep;
    match s.threads[j].pc
    case Shut(h) => ShutKeepsFlags(s, j, h);
    case Hush(_) => HushAndJoin(s, j);
    case Drain(_) => HushAndJoin(s, j);
    case _ => MostLeaveWorker(s, j, choice);
  }

  lemma ShutKeepsFlags(s: State, i: nat, h: ShutPc)
    requires i < |s.threads| && h != EndHeld
    ensures SameFlags(s, ShutStep(s, i, h)) && ShutStep(s, i, h).worker == s.worker
  {
  }

  lemma HushAndJoin(s: State, i: nat)
    requires i < |s.threads|
    ensures forall u :: s.worker.NoWorker? ==> HushStep(s, i, u).worker.NoWorker?
    ensures forall u :: s.worker.Worker? ==>
      HushStep(s, i, u).worker.Worker? && HushStep(s, i, u).worker.gen == s.worker.gen
    ensures forall d :: s.worker.NoWorker? ==> DrainStep(s, i, d).worker.NoWorker?
  {
  }

  lemma GenLeavesWorker(s: State, i: nat)
    requires i < |s.threads|
    ensures GenStep(s, i).worker == s.worker
  {
  }

  lemma ScriptLeavesWorker(s: State, i: nat, r: ScriptPc, choice: Choice)
    requires i < |s.threads|
    ensures ScriptStep(s, i, r, choice).worker == s.worker
  {
  }

  lemma EnterLeavesWorker(s: State, i: nat, e: EnterPc, choice: Choice)
    requires i < |s.threads|
    ensures EnterStep(s, i, e, choice).worker == s.worker
  {
  }

  lemma ExchangeLeavesWorker(s: State, i: nat, x: ExchangePc, choice: Choice)
    requires i < |s.threads|
    ensures ExchangeStep(s, i, x, choice).worker == s.worker
  {
    hide ExchangeNext;
  }

  lemma LeaveLeavesWorker(s: State, i: nat, f: LeavePc)
    requires i < |s.threads|
    ensures LeaveStep(s, i, f).worker == s.worker
  {
  }

  lemma CloseLeavesWorker(s: State, i: nat, q: StopPc, c: ClaimPc)
    requires i < |s.threads|
    ensures StopStep(s, i, q).worker == s.worker && ClaimStep(s, i, c).worker == s.worker
  {
  }

  lemma MostLeaveWorker(s: State, j: nat, choice: Choice)
    requires CanStep(s, j)
    requires var pc := s.threads[j].pc; !pc.Open? && !pc.Spawn? && !pc.Hush? && !pc.Drain? && !pc.Shut?
    ensures StepOf(s, j, choice).worker == s.worker
  {
    hide SameFlags, GenStep, ScriptStep, EnterStep, ExchangeStep, LeaveStep, StopStep, ClaimStep;
    hide OpenStep, SpawnStep, ShutStep, HushStep, DrainStep;
    match s.threads[j].pc
    case Script(r) => ScriptLeavesWorker(s, j, r, choice);
    case Enter(e) => EnterLeavesWorker(s, j, e, choice);
    case Exchange(x) => ExchangeLeavesWorker(s, j, x, choice);
    case Leave(f) => LeaveLeavesWorker(s, j, f);
    case Claim(c) => CloseLeavesWorker(s, j, StopExit, c);
    case Stop(q) => CloseLeavesWorker(s, j, q, CloseWait);
    case _ => GenLeavesWorker(s, j);
  }

  /** A worker is joined by a closing thread only, and keeps its generation till then. */
  lemma WorkerStays(s: State, a: Action, i: nat)
    requires Inv(s) && Another(s, a, i) && s.stateLock == i && !s.closing && s.worker.Worker?
    ensures Apply(s, a).worker.Worker? && Apply(s, a).worker.gen == s.worker.gen
  {
    if a.Step? {
      assert LocksOf(s, a.i);
      OtherKeepsWorker(s, a.i, a.choice, i);
    }
  }

  lemma OtherKeepsWorker(s: State, j: nat, choice: Choice, i: nat)
    requires CanStep(s, j) && StateLockOf(s, j) && RolesOf(s, j) && s.closer == FREE
    requires s.stateLock == i && i != j && s.worker.Worker?
    ensures StepOf(s, j, choice).worker.Worker? && StepOf(s, j, choice).worker.gen == s.worker.gen
  {
    hide SameFlags, GenStep, ScriptStep, EnterStep, ExchangeStep, LeaveStep, HushStep, StopStep, DrainStep, ShutStep;
    hide OpenStep, SpawnStep, ClaimStep;
    MostLeaveWorker(s, j, choice);
  }

  lemma GenerationGrows(s: State, a: Action)
    requires Inv(s) && Enabled(s, a)
    ensures s.generation <= Apply(s, a).generation
  {
    hide Apply, Inv;
    StepNoRevival(s, a);
  }

  lemma CurrentBefore(s: State, run: seq<Action>, g: nat)
    requires Inv(s) && IsRun(s, run) && g <= s.generation && Current(Final(s, run), g)
    ensures Current(s, g)
  {
    hide Inv, Current;
    if !Current(s, g) {
      StaleStaysStale(s, run, g);
    }
  }

  lemma StaleAfter(s: State, a: Action, g: nat)
    requires Inv(s) && Enabled(s, a) && g <= s.generation && !Current(s, g)
    ensures !Current(Apply(s, a), g)
  {
    hide Inv, Apply;
    StepNoRevival(s, a);
  }

  lemma AddedIs(s: State, s': State, happens: bool, e: Event)
    requires s'.trace == if happens then s.trace + [e] else s.trace
    ensures Added(s, s') == if happens then [e] else []
  {
  }
}
