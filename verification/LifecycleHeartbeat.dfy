/** What the heartbeat worker does between two naps, serial.hpp:692-706. */
module LifecycleHeartbeat {
  import opened LifecycleTrace
  import opened LifecycleModel
  import opened LifecycleInvariant
  import opened LifecycleSafety
  import opened LifecycleEffects

  // ---------------------------------------------------------------------------
  // The worker is told to stop by a close only

  predicate NotStopped(s: State) {
    && (s.isOpen && s.opener == FREE ==> !s.stop)
    && forall i :: 0 <= i < |s.threads| && s.threads[i].pc == Spawn(SpawnThread) ==> !s.stop
  }

  lemma NobodyStopped(n: nat)
    ensures NotStopped(Initial(n))
  {
  }

  /** The flag is touched in one place of open and in one of close. */
  lemma StopIsKept(s: State, j: nat, choice: Choice)
    requires CanStep(s, j)
    requires s.threads[j].pc != Spawn(SpawnBeatHeld) && s.threads[j].pc != Hush(HushBeatHeld)
    ensures StepOf(s, j, choice).stop == s.stop && StepOf(s, j, choice).threads[j].pc != Spawn(SpawnThread)
  {
    hide SameFlags, GenStep, ScriptStep, EnterStep, ExchangeStep, LeaveStep, HushStep, StopStep, DrainStep, ShutStep;
    hide OpenStep, SpawnStep, ClaimStep;
    match s.threads[j].pc
    case Script(r) => ScriptKeepsStop(s, j, r, choice);
    case Enter(e) => EnterKeepsStop(s, j, e, choice);
    case Exchange(x) => ExchangeKeepsStop(s, j, x, choice);
    case Leave(f) => LeaveKeepsStop(s, j, f);
    case Open(o) => OpenKeepsStop(s, j, o, choice);
    case Spawn(w) => SpawnKeepsStop(s, j, w, choice);
    case Claim(c) => ClaimKeepsStop(s, j, c);
    case Hush(u) => HushKeepsStop(s, j, u);
    case Stop(q) => ShutdownKeepsStop(s, j, q);
    case Drain(d) => DrainKeepsStop(s, j, d);
    case Shut(h) => ShutKeepsStop(s, j, h);
    case _ => GenKeepsStop(s, j);
  }

  lemma GenKeepsStop(s: State, j: nat)
    requires j < |s.threads|
    ensures GenStep(s, j).stop == s.stop && GenStep(s, j).threads[j].pc != Spawn(SpawnThread)
  {
  }

  lemma ScriptKeepsStop(s: State, j: nat, r: ScriptPc, choice: Choice)
    requires j < |s.threads|
    ensures ScriptStep(s, j, r, choice).stop == s.stop &&
      ScriptStep(s, j, r, choice).threads[j].pc != Spawn(SpawnThread)
  {
  }

  lemma EnterKeepsStop(s: State, j: nat, e: EnterPc, choice: Choice)
    requires j < |s.threads|
    ensures EnterStep(s, j, e, choice).stop == s.stop && EnterStep(s, j, e, choice).threads[j].pc != Spawn(SpawnThread)
  {
  }

  lemma ExchangeKeepsStop(s: State, j: nat, x: ExchangePc, choice: Choice)
    requires j < |s.threads|
    ensures ExchangeStep(s, j, x, choice).stop == s.stop &&
      ExchangeStep(s, j, x, choice).threads[j].pc != Spawn(SpawnThread)
  {
  }

  lemma LeaveKeepsStop(s: State, j: nat, f: LeavePc)
    requires j < |s.threads|
    ensures LeaveStep(s, j, f).stop == s.stop && LeaveStep(s, j, f).threads[j].pc != Spawn(SpawnThread)
  {
  }

  lemma OpenKeepsStop(s: State, j: nat, o: OpenPc, choice: Choice)
    requires j < |s.threads|
    ensures OpenStep(s, j, o, choice).stop == s.stop && OpenStep(s, j, o, choice).threads[j].pc != Spawn(SpawnThread)
  {
  }

  lemma SpawnKeepsStop(s: State, j: nat, w: SpawnPc, choice: Choice)
    requires j < |s.threads| && w != SpawnBeatHeld
    ensures SpawnStep(s, j, w, choice).stop == s.stop && SpawnStep(s, j, w, choice).threads[j].pc != Spawn(SpawnThread)
  {
  }

  lemma ClaimKeepsStop(s: State, j: nat, c: ClaimPc)
    requires j < |s.threads|
    ensures ClaimStep(s, j, c).stop == s.stop && ClaimStep(s, j, c).threads[j].pc != Spawn(SpawnThread)
  {
  }

  lemma HushKeepsStop(s: State, j: nat, u: HushPc)
    requires j < |s.threads| && u != HushBeatHeld
    ensures HushStep(s, j, u).stop == s.stop && HushStep(s, j, u).threads[j].pc != Spawn(SpawnThread)
  {
  }

  lemma ShutdownKeepsStop(s: State, j: nat, q: StopPc)
    requires j < |s.threads|
    ensures StopStep(s, j, q).stop == s.stop && StopStep(s, j, q).threads[j].pc != Spawn(SpawnThread)
  {
  }

  lemma DrainKeepsStop(s: State, j: nat, d: DrainPc)
    requires j < |s.threads|
    ensures DrainStep(s, j, d).stop == s.stop && DrainStep(s, j, d).threads[j].pc != Spawn(SpawnThread)
  {
  }

  lemma ShutKeepsStop(s: State, j: nat, h: ShutPc)
    requires j < |s.threads|
    ensures ShutStep(s, j, h).stop == s.stop && ShutStep(s, j, h).threads[j].pc != Spawn(SpawnThread)
  {
  }

  lemma BeatKeepsStop(s: State)
    requires CanBeat(s)
    ensures BeatStepOf(s).stop == s.stop && BeatStepOf(s).opener == s.opener
  {
  }

  lemma StepKeepsNotStopped(s: State, a: Action)
    requires Inv(s) && NotStopped(s) && Enabled(s, a)
    ensures NotStopped(Apply(s, a))
  {
    hide Inv, StepOf, BeatStepOf, SameFlags;
    match a
    case Step(j, choice) => ClientKeepsNotStopped(s, j, choice);
    case BeatStep => BeatLeavesNotStopped(s);
    case _ =>
  }

  lemma BeatLeavesNotStopped(s: State)
    requires NotStopped(s) && CanBeat(s)
    ensures NotStopped(BeatStepOf(s))
  {
    hide BeatStepOf;
    BeatKeepsStop(s);
    BeatLeavesThreads(s);
  }

  lemma ClientKeepsNotStopped(s: State, j: nat, choice: Choice)
    requires Inv(s) && NotStopped(s) && CanStep(s, j)
    ensures NotStopped(StepOf(s, j, choice))
  {
    hide Inv, StepOf, MutexesOf, TenureOf, PortOf, Respects, Shared, BeatInv;
    var s' := StepOf(s, j, choice);
    if s.threads[j].pc == Spawn(SpawnBeatHeld) {
      StopIsCleared(s, j, choice);
    } else if s.threads[j].pc == Hush(HushBeatHeld) {
      StopIsSet(s, j, choice);
    } else {
      StopIsKept(s, j, choice);
      OtherThreadsPlaces(s, j, choice);
      OpenAfterwards(s, j, choice);
    }
  }

  lemma StopIsCleared(s: State, j: nat, choice: Choice)
    requires CanStep(s, j) && s.threads[j].pc == Spawn(SpawnBeatHeld)
    ensures !StepOf(s, j, choice).stop
  {
  }

  lemma StopIsSet(s: State, j: nat, choice: Choice)
    requires Inv(s) && CanStep(s, j) && s.threads[j].pc == Hush(HushBeatHeld)
    ensures NotStopped(StepOf(s, j, choice))
  {
    hide MutexesOf, TenureOf, PortOf, BeatInv;
    assert LocksOf(s, j);
    OpenMeansSession(s);
    OtherThreadsPlaces(s, j, choice);
    NobodyOpensBesideAClose(s);
    HushLeavesFlags(s, j);
  }

  lemma HushLeavesFlags(s: State, j: nat)
    requires j < |s.threads|
    ensures HushStep(s, j, HushBeatHeld).isOpen == s.isOpen
    ensures HushStep(s, j, HushBeatHeld).threads[j].pc == Hush(HushNotify)
  {
  }

  lemma NobodyOpensBesideAClose(s: State)
    requires Inv(s) && s.closing
    ensures forall i :: 0 <= i < |s.threads| ==> !s.threads[i].pc.Spawn?
  {
    hide MutexesOf, TenureOf, PortOf, BeatInv;
    forall i | 0 <= i < |s.threads| ensures !s.threads[i].pc.Spawn? {
      assert LocksOf(s, i);
    }
  }

  lemma OtherThreadsPlaces(s: State, j: nat, choice: Choice)
    requires Inv(s) && CanStep(s, j)
    ensures forall i :: 0 <= i < |s.threads| && i != j ==> StepOf(s, j, choice).threads[i].pc == s.threads[i].pc
  {
    hide Inv, StepOf;
    forall i | 0 <= i < |s.threads| && i != j ensures StepOf(s, j, choice).threads[i].pc == s.threads[i].pc {
      OtherKeepsThread(s, Step(j, choice), i);
    }
  }

  /** Open and at rest after a step, the core was so before, unless a thread has just started the worker. */
  lemma OpenAfterwards(s: State, j: nat, choice: Choice)
    requires Inv(s) && CanStep(s, j) && s.threads[j].pc != Spawn(SpawnBeatHeld)
    ensures
      var s' := StepOf(s, j, choice);
      s'.isOpen && s'.opener == FREE ==>
        (s.isOpen && s.opener == FREE) || s.threads[j].pc == Spawn(SpawnThread)
  {
    hide Inv, StepOf, MutexesOf, TenureOf, PortOf, Respects, Shared, BeatInv, OthersKept;
    var m' := ClientStepIsOk(s, j, choice);
    RolesHold(s, j);
    match s.threads[j].pc
    case Open(o) => OpenLeavesClosed(s, j, o, choice);
    case Spawn(w) => SpawnLeavesClosed(s, j, w, choice);
    case _ => MostNeverOpen(s, j, choice);
  }

  lemma RolesHold(s: State, j: nat)
    requires Inv(s) && j < |s.threads|
    ensures RolesOf(s, j) && Observe(s.trace).Accepted? && PortOf(s, Observe(s.trace).m, j)
  {
    hide MutexesOf, TenureOf, RolesOf, PortOf;
    assert LocksOf(s, j);
  }

  lemma OpenLeavesClosed(s: State, j: nat, o: OpenPc, choice: Choice)
    requires CanStep(s, j) && s.threads[j].pc == Open(o) && RolesOf(s, j)
    ensures
      var s' := StepOf(s, j, choice);
      s'.isOpen && s'.opener == FREE ==> s.isOpen && s.opener == FREE
  {
  }

  lemma SpawnLeavesClosed(s: State, j: nat, w: SpawnPc, choice: Choice)
    requires CanStep(s, j) && s.threads[j].pc == Spawn(w) && RolesOf(s, j)
    requires Observe(s.trace).Accepted? && PortOf(s, Observe(s.trace).m, j)
    ensures
      var s' := StepOf(s, j, choice);
      s'.isOpen && s'.opener == FREE ==> (s.isOpen && s.opener == FREE) || w == SpawnThread
  {
    hide UsesOf;
  }

  lemma MostNeverOpen(s: State, j: nat, choice: Choice)
    requires CanStep(s, j) && !s.threads[j].pc.Open? && !s.threads[j].pc.Spawn?
    ensures StepOf(s, j, choice).isOpen ==> s.isOpen
  {
    hide GenStep, ScriptStep, EnterStep, ExchangeStep, LeaveStep, HushStep, StopStep, DrainStep, OpenStep, SpawnStep;
    hide ClaimStep, ShutStep;
    match s.threads[j].pc
    case Claim(c) => ClaimNeverOpens(s, j, c);
    case Shut(h) => ShutNeverOpens(s, j, h);
    case _ =>
  }

  lemma ClaimNeverOpens(s: State, j: nat, c: ClaimPc)
    requires j < |s.threads|
    ensures ClaimStep(s, j, c).isOpen ==> s.isOpen
  {
  }

  lemma ShutNeverOpens(s: State, j: nat, h: ShutPc)
    requires j < |s.threads|
    ensures ShutStep(s, j, h).isOpen ==> s.isOpen
  {
  }

  lemma {:induction false} RunKeepsNotStopped(s: State, run: seq<Action>)
    requires Inv(s) && NotStopped(s) && IsRun(s, run)
    ensures NotStopped(Final(s, run))
    decreases |run|
  {
    hide Inv, NotStopped, Apply;
    if run != [] {
      StepKeepsInv(s, run[0]);
      StepKeepsNotStopped(s, run[0]);
      RunKeepsNotStopped(Apply(s, run[0]), run[1..]);
    }
  }

  /** In every run the flag is down while the core is open and at rest. */
  lemma OnlyACloseStops(n: nat, run: seq<Action>)
    requires IsRun(Initial(n), run)
    ensures NotStopped(Final(Initial(n), run))
  {
    hide Inv, NotStopped;
    InitialInv(n);
    NobodyStopped(n);
    RunKeepsNotStopped(Initial(n), run);
  }

  // ---------------------------------------------------------------------------
  // From one nap to the next

  function Beats(g: nat): seq<Event> {
    [WriteStart(Beat, g), WriteEnd]
  }

  /** What the worker has done since it was woken, by its program point. */
  predicate Beating(s: State, own: seq<Event>, g: nat) {
    && s.worker.Worker? && s.worker.gen == g <= s.generation
    && match s.worker.pc
       case BeatWait(timedOut) => own == [] || (!timedOut && own == Beats(g))
       case BeatHeld(timedOut) => own == [] || (!timedOut && own == Beats(g))
       case BeatSleep => own == [] || own == Beats(g)
       case BeatWriteExit => own == [] || own == Beats(g)
       case BeatCall => own == [WriteStart(Beat, g)]
       case BeatDone => own == [WorkerExit] || own == Beats(g) + [WorkerExit]
       case _ => own == []
  }

  /** The same as long as the session lasts. */
  predicate BeatingWell(w: Worker, own: seq<Event>, g: nat) {
    w.Worker? &&
    match w.pc
    case BeatWait(timedOut) => timedOut || own == Beats(g)
    case BeatHeld(timedOut) => timedOut || own == Beats(g)
    case BeatSleep => own == Beats(g)
    case BeatWriteExit => own == Beats(g)
    case BeatDone => false
    case _ => true
  }

  /** The worker does not go back to sleep, nor end, before the run does. */
  ghost predicate Awake(s: State, run: seq<Action>)
    requires IsRun(s, run)
    decreases |run|
  {
    run == []
    || (s.worker.Worker? && s.worker.pc != BeatSleep && s.worker.pc != BeatDone && Awake(Apply(s, run[0]), run[1..]))
  }

  lemma BeatTurn(s: State, own: seq<Event>, g: nat)
    requires CanBeat(s) && Beating(s, own, g) && s.worker.pc != BeatSleep
    ensures
      var s' := BeatStepOf(s);
      && Beating(s', own + Added(s, s'), g)
      && (BeatingWell(s.worker, own, g) && Current(s, g) && !s.stop ==>
            BeatingWell(s'.worker, own + Added(s, s'), g))
  {
    hide Current;
    BeatAdds(s);
    BeatKeepsStop(s);
  }

  lemma BeatAdds(s: State)
    requires CanBeat(s)
    ensures Added(s, BeatStepOf(s)) == if BeatEmits(s) then [BeatEvent(s)] else []
  {
    hide SameFlags, Current, Added;
    AddedIs(s, BeatStepOf(s), BeatEmits(s), BeatEvent(s));
  }

  /** While it is awake nobody else touches the worker. */
  lemma OthersLeaveWorker(s: State, a: Action)
    requires Inv(s) && Enabled(s, a) && Actor(a) != BEATER
    requires s.worker.Worker? && s.worker.pc != BeatSleep && s.worker.pc != BeatDone
    ensures Apply(s, a).worker == s.worker
  {
    hide Inv, StepOf, RolesOf, PortOf;
    if a.Step? {
      RolesHold(s, a.i);
      BooksHold(s);
      ClientLeavesWorker(s, a.i, a.choice);
    }
  }

  lemma BooksHold(s: State)
    requires Inv(s)
    ensures Bookkeeping(s)
  {
  }

  lemma ClientLeavesWorker(s: State, j: nat, choice: Choice)
    requires CanStep(s, j) && RolesOf(s, j) && Bookkeeping(s)
    requires s.worker.Worker? && s.worker.pc != BeatSleep && s.worker.pc != BeatDone
    ensures StepOf(s, j, choice).worker == s.worker
  {
    hide SameFlags, GenStep, ScriptStep, EnterStep, ExchangeStep, LeaveStep, HushStep, StopStep, DrainStep, ShutStep;
    hide OpenStep, SpawnStep, ClaimStep;
    match s.threads[j].pc
    case Open(o) => OpenLeavesWorker(s, j, o, choice);
    case Hush(u) => HushLeavesWorker(s, j, u);
    case Drain(d) => DrainLeavesWorker(s, j, d);
    case Shut(h) => ShutLeavesWorker(s, j, h);
    case _ => MostLeaveWorker(s, j, choice);
  }

  lemma OpenLeavesWorker(s: State, j: nat, o: OpenPc, choice: Choice)
    requires j < |s.threads|
    ensures OpenStep(s, j, o, choice).worker == s.worker
  {
  }

  lemma HushLeavesWorker(s: State, j: nat, u: HushPc)
    requires j < |s.threads| && s.worker.Worker? && s.worker.pc != BeatSleep
    ensures HushStep(s, j, u).worker == s.worker
  {
  }

  lemma DrainLeavesWorker(s: State, j: nat, d: DrainPc)
    requires j < |s.threads| && d != Join
    ensures DrainStep(s, j, d).worker == s.worker
  {
  }

  lemma ShutLeavesWorker(s: State, j: nat, h: ShutPc)
    requires j < |s.threads|
    ensures ShutStep(s, j, h).worker == s.worker
  {
  }

  lemma NotToldToStop(s: State, g: nat)
    requires Inv(s) && NotStopped(s) && Current(s, g) && s.worker.Worker?
    ensures !s.stop
  {
    BooksHold(s);
  }

  lemma SameWorkerSameBeat(s: State, s': State, own: seq<Event>, g: nat)
    requires Beating(s, own, g) && s'.worker == s.worker && s.generation <= s'.generation
    ensures Beating(s', own, g)
  {
  }

  lemma {:induction false} BeatRuns(s: State, run: seq<Action>, own: seq<Event>, g: nat)
    requires Inv(s) && NotStopped(s) && IsRun(s, run) && Awake(s, run) && Beating(s, own, g)
    requires Current(Final(s, run), g) ==> BeatingWell(s.worker, own, g)
    ensures
      var end, all := Final(s, run), own + Own(s, run, BEATER);
      Beating(end, all, g) && (Current(end, g) ==> BeatingWell(end.worker, all, g))
    decreases |run|
  {
    hide Inv, NotStopped, Apply, Beating, BeatingWell, Own, Added, Current;
    if run == [] {
      assert own + [] == own;
      NothingFollows(s, 0);
      NothingBeats(s);
    } else {
      var a := run[0];
      var s', rest := Apply(s, a), run[1..];
      StepKeepsInv(s, a);
      StepKeepsNotStopped(s, a);
      BeatUnfolds(s, run);
      GenerationGrows(s, a);
      BeatingSince(s, own, g);
      if Current(Final(s, run), g) {
        CurrentBefore(s, run, g);
        NotToldToStop(s, g);
      }
      if Actor(a) != BEATER {
        OthersLeaveWorker(s, a);
        SameWorkerSameBeat(s, s', own, g);
        BeatRuns(s', rest, own, g);
        assert own + ([] + Own(s', rest, BEATER)) == own + Own(s', rest, BEATER);
      } else {
        AwakeSteps(s, a);
        BeatTurn(s, own, g);
        BeatRuns(s', rest, own + Added(s, s'), g);
        assert own + (Added(s, s') + Own(s', rest, BEATER)) == own + Added(s, s') + Own(s', rest, BEATER);
      }
    }
  }

  lemma NothingBeats(s: State)
    ensures Own(s, [], BEATER) == []
  {
  }

  lemma BeatingSince(s: State, own: seq<Event>, g: nat)
    requires Beating(s, own, g)
    ensures g <= s.generation && s.worker.Worker? && s.worker.gen == g
  {
  }

  lemma AwakeSteps(s: State, a: Action)
    requires Enabled(s, a) && Actor(a) == BEATER && s.worker.Worker? && s.worker.pc != BeatSleep
    ensures a == BeatStep && CanBeat(s) && Apply(s, a) == BeatStepOf(s)
  {
  }

  lemma BeatUnfolds(s: State, run: seq<Action>)
    requires IsRun(s, run) && run != []
    ensures Enabled(s, run[0]) && IsRun(Apply(s, run[0]), run[1..])
    ensures Final(s, run) == Final(Apply(s, run[0]), run[1..])
    ensures
      var s' := Apply(s, run[0]);
      Own(s, run, BEATER) == (if Actor(run[0]) == BEATER then Added(s, s') else []) + Own(s', run[1..], BEATER)
  {
    hide Apply, Added;
  }

  /**
    What the worker does when its interval has passed, whoever runs beside it, until it sleeps again or
    ends: if its session lasts, it writes exactly one heartbeat of its generation and sleeps again;
    otherwise it writes one or none, and if it ends its exit is the last thing it does.
  */
  lemma IntervalBringsOneBeat(s: State, run: seq<Action>)
    requires Inv(s) && NotStopped(s) && Enabled(s, BeatTick)
    requires IsRun(Apply(s, BeatTick), run) && Awake(Apply(s, BeatTick), run)
    requires
      var end := Final(Apply(s, BeatTick), run);
      end.worker.Worker? && (end.worker.pc == BeatSleep || end.worker.pc == BeatDone)
    ensures
      var end, own, g := Final(Apply(s, BeatTick), run), Own(Apply(s, BeatTick), run, BEATER), s.worker.gen;
      if Current(end, g) then end.worker.pc == BeatSleep && own == [WriteStart(Beat, g), WriteEnd]
      else
        var exit := if end.worker.pc == BeatDone then [WorkerExit] else [];
        own == exit || own == [WriteStart(Beat, g), WriteEnd] + exit
  {
    hide Inv, NotStopped, Own, Current, Final, IsRun, Awake;
    var woken := Apply(s, BeatTick);
    StepKeepsInv(s, BeatTick);
    StepKeepsNotStopped(s, BeatTick);
    WorkerIsNoNewer(s);
    BeatRuns(woken, run, [], s.worker.gen);
    assert [] + Own(woken, run, BEATER) == Own(woken, run, BEATER);
    assert Beats(s.worker.gen) + [] == Beats(s.worker.gen);
  }

  lemma WorkerIsNoNewer(s: State)
    requires Inv(s) && s.worker.Worker?
    ensures s.worker.gen <= s.generation
  {
    BooksHold(s);
  }
}
