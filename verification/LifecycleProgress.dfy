/**
  The locking never gets stuck.

  A step is productive unless it starts a new operation, is a timer tick of the heartbeat
  worker or a spurious wake-up. The main theorem finds a productive step in every reachable
  state with an unfinished operation; in particular no wake-up of the two condition variables
  is ever lost.
*/
module LifecycleProgress {
  import opened LifecycleModel
  import opened LifecycleInvariant
  import opened LifecycleSafety

  // ---------------------------------------------------------------------------
  // Lock order

  datatype Lock = CommandLock | WriteLock | SequenceLock | StateLock | BeatLock

  function Level(l: Lock): nat {
    match l
    case CommandLock => 0
    case WriteLock => 1
    case SequenceLock => 2
    case StateLock => 3
    case BeatLock => 4
  }

  predicate Waits(t: Thread, l: Lock) {
    match l
    case CommandLock => t.pc == Script(ScriptWait) || t.pc == Enter(SendWait)
    case WriteLock => t.pc == Exchange(WriteWait) || t.pc == Stop(StopWriteWait) || t.pc == Shut(PortWait)
    case SequenceLock => t.pc == Enter(SeqWait) || t.pc == Stop(StopSeqWait)
    case StateLock =>
      (match t.pc
       case GenWait => true
       case Script(r) => r == EntryWait
       case Enter(e) => e == BeginWait
       case Exchange(x) => x.CheckWait?
       case Leave(f) => f.FinishWait?
       case Open(o) => o == OpenWait
       case Claim(c) => c == CloseWait
       case Drain(d) => d == DrainWait
       case Shut(h) => h == EndWait
       case _ => false)
    case BeatLock => t.pc == Spawn(SpawnBeatWait) || t.pc == Hush(HushBeatWait)
  }

  predicate Holds(t: Thread, l: Lock) {
    match l
    case CommandLock => HoldsCommand(t)
    case WriteLock => HoldsWrite(t.pc)
    case SequenceLock => HoldsSequence(t.pc)
    case StateLock => HoldsState(t.pc)
    case BeatLock => HoldsBeat(t.pc)
  }

  /** Locks are taken in one order. The command lock may be taken again by its own holder. */
  lemma LocksAreOrdered(t: Thread, held: Lock, wanted: Lock)
    requires Holds(t, held) && Waits(t, wanted)
    ensures Level(held) < Level(wanted) || held == wanted == CommandLock
  {
  }

  predicate BeatWaits(w: Worker, l: Lock) {
    w.Worker? &&
    match l
    case WriteLock => w.pc == BeatWriteWait
    case StateLock => w.pc == BeatCheckWait
    case BeatLock => w.pc.BeatWait?
    case _ => false
  }

  predicate BeatHolds(w: Worker, l: Lock) {
    w.Worker? &&
    match l
    case WriteLock => BeatHoldsWrite(w)
    case StateLock => w.pc == BeatCheckHeld
    case BeatLock => w.pc.BeatHeld?
    case _ => false
  }

  /** The heartbeat worker keeps to the same order: it waits for the state lock under the write lock. */
  lemma WorkerKeepsTheOrder(w: Worker, held: Lock, wanted: Lock)
    requires BeatHolds(w, held) && BeatWaits(w, wanted)
    ensures Level(held) < Level(wanted)
  {
  }

  /** These are the locks the worker owns, and the ones that keep it from stepping. */
  lemma WorkerLocksAreItsOwn(s: State)
    requires Inv(s) && s.worker.Worker?
    ensures s.writeLock == BEATER <==> BeatHolds(s.worker, WriteLock)
    ensures s.stateLock == BEATER <==> BeatHolds(s.worker, StateLock)
    ensures s.beatLock == BEATER <==> BeatHolds(s.worker, BeatLock)
    ensures s.commandLock != BEATER && s.sequenceLock != BEATER
    ensures !CanBeat(s) && s.worker.pc != BeatDone ==>
      || (BeatWaits(s.worker, WriteLock) && s.writeLock != FREE)
      || (BeatWaits(s.worker, StateLock) && s.stateLock != FREE)
      || (BeatWaits(s.worker, BeatLock) && s.beatLock != FREE)
      || (s.worker.pc == BeatSleep && !s.worker.notified)
  {
  }

  /** A thread that cannot step waits for a lock of somebody else, for the worker or to be woken. */
  lemma WhyBlocked(s: State, i: nat)
    requires Inv(s) && i < |s.threads| && s.threads[i].pc != Idle && !CanStep(s, i)
    ensures var t := s.threads[i];
            || (Waits(t, CommandLock) && s.commandLock != FREE && s.commandLock != i)
            || (Waits(t, WriteLock) && s.writeLock != FREE)
            || (Waits(t, SequenceLock) && s.sequenceLock != FREE)
            || (Waits(t, StateLock) && s.stateLock != FREE)
            || (Waits(t, BeatLock) && s.beatLock != FREE)
            || (t.pc == Drain(Join) && s.worker.Worker? && s.worker.pc != BeatDone)
            || (t.pc == Drain(DrainSleep) && !t.notified)
  {
  }

  // ---------------------------------------------------------------------------
  // No wake-up is lost

  predicate StopSet(pc: Pc) {
    pc == Hush(HushNotify) || pc == Hush(HushCancel) || pc.Stop? || pc == Drain(Join)
  }

  /** Once the worker has been told to stop it stops; once the last command has ended, the
      sleeper has been or is about to be told. */
  predicate WakesAt(s: State, i: nat)
    requires i < |s.threads|
  {
    var t := s.threads[i];
    && (StopSet(t.pc) ==> s.stop)
    && (StopSet(t.pc) && t.pc != Hush(HushNotify) && s.worker.Worker? && s.worker.pc == BeatSleep ==>
          s.worker.notified)
    && (t.pc == Drain(DrainSleep) && !t.notified ==> s.active == 1 || Notifying(s))
  }

  /** The holder of the command lock has just ended its command. */
  predicate Notifying(s: State) {
    0 <= s.commandLock < |s.threads| && s.threads[s.commandLock].pc.Leave?
    && s.threads[s.commandLock].pc.f.FinishNotify?
  }

  predicate Wakes(s: State) {
    0 <= s.closer < |s.threads| ==> WakesAt(s, s.closer)
  }

  predicate Alive(s: State) {
    Inv(s) && Wakes(s)
  }

  lemma InitialAlive(n: nat)
    ensures Alive(Initial(n))
  {
    InitialInv(n);
  }

  /** A step that leaves the closing thread, the worker and the stop flag alone. */
  predicate Undisturbed(s: State, s': State) {
    && |s'.threads| == |s.threads|
    && s'.closer == s.closer && s'.stop == s.stop && s'.worker == s.worker
    && (0 <= s.closer < |s.threads| ==>
          && s'.threads[s.closer].pc == s.threads[s.closer].pc
          && (s.threads[s.closer].notified ==> s'.threads[s.closer].notified)
          && (s.threads[s.closer].pc == Drain(DrainSleep) && !s'.threads[s.closer].notified
              && (s.active == 1 || Notifying(s)) ==>
                s'.active == 1 || Notifying(s')))
  }

  lemma UndisturbedKeepsWakes(s: State, s': State)
    requires Wakes(s) && Undisturbed(s, s')
    ensures Wakes(s')
  {
  }

  /** A thread outside a close, next to the closing one. */
  predicate Beside(s: State, i: nat) {
    && i < |s.threads| && CanStep(s, i) && Bookkeeping(s) && LocksOf(s, i) && s.closer != i
    && (s.runner != FREE <==> s.active == 1)
  }

  lemma EntryUndisturbed(s: State, i: nat, e: EnterPc, choice: Choice)
    requires Beside(s, i) && s.threads[i].pc == Enter(e)
    ensures Undisturbed(s, EnterStep(s, i, e, choice))
  {
    hide SameFlags, TenureOf, MutexesOf;
  }

  lemma ScriptUndisturbed(s: State, i: nat, r: ScriptPc, choice: Choice)
    requires Beside(s, i) && s.threads[i].pc == Script(r)
    ensures Undisturbed(s, ScriptStep(s, i, r, choice))
  {
    hide SameFlags;
  }

  lemma ExchangeUndisturbed(s: State, i: nat, x: ExchangePc, choice: Choice)
    requires Beside(s, i) && s.threads[i].pc == Exchange(x)
    ensures Undisturbed(s, ExchangeStep(s, i, x, choice))
  {
    hide SameFlags, TenureOf, MutexesOf;
  }

  lemma GenUndisturbed(s: State, i: nat)
    requires Beside(s, i) && (s.threads[i].pc == GenWait || s.threads[i].pc == GenHeld)
    ensures Undisturbed(s, GenStep(s, i))
  {
    hide SameFlags, TenureOf, MutexesOf;
  }

  lemma LeaveWakes(s: State, i: nat, f: LeavePc)
    requires Wakes(s) && Beside(s, i) && s.threads[i].pc == Leave(f)
    ensures Wakes(LeaveStep(s, i, f))
  {
    hide SameFlags, MutexesOf, HoldsState;
    UndisturbedKeepsWakes(s, LeaveStep(s, i, f));
  }

  lemma OpenUndisturbed(s: State, i: nat, o: OpenPc, choice: Choice)
    requires Beside(s, i) && s.threads[i].pc == Open(o)
    ensures Undisturbed(s, OpenStep(s, i, o, choice))
  {
    hide SameFlags, TenureOf, MutexesOf;
  }

  lemma CloserIsItself(s: State, i: nat)
    requires i < |s.threads| && LocksOf(s, i) && InClosing(s.threads[i].pc)
    ensures s.closer == i
  {
  }

  lemma CommandKeepsWakes(s: State, i: nat, choice: Choice)
    requires Alive(s) && CanStep(s, i) && s.closer != i
    requires var pc := s.threads[i].pc; !pc.Spawn? && !pc.Claim?
    ensures Wakes(StepOf(s, i, choice))
  {
    hide LocksOf, Undisturbed, Wakes, OwnersExist, BeatInv, FlagsAtRest, PortOf, SameFlags;
    assert LocksOf(s, i);
    match s.threads[i].pc
    case Script(r) => ScriptUndisturbed(s, i, r, choice); UndisturbedKeepsWakes(s, StepOf(s, i, choice));
    case Enter(e) => EntryUndisturbed(s, i, e, choice); UndisturbedKeepsWakes(s, StepOf(s, i, choice));
    case Exchange(x) => ExchangeUndisturbed(s, i, x, choice); UndisturbedKeepsWakes(s, StepOf(s, i, choice));
    case Leave(f) => LeaveWakes(s, i, f);
    case Open(o) => OpenUndisturbed(s, i, o, choice); UndisturbedKeepsWakes(s, StepOf(s, i, choice));
    case Claim(_) | Spawn(_) => assert false;
    case GenWait | GenHeld => GenUndisturbed(s, i); UndisturbedKeepsWakes(s, StepOf(s, i, choice));
    case _ => CloserIsItself(s, i);
  }

  lemma SpawnWakes(s: State, i: nat, w: SpawnPc, choice: Choice)
    requires Beside(s, i) && s.threads[i].pc == Spawn(w)
    ensures Wakes(SpawnStep(s, i, w, choice))
  {
  }

  lemma ClaimWakes(s: State, i: nat, c: ClaimPc)
    requires Wakes(s) && Beside(s, i) && s.threads[i].pc == Claim(c)
    ensures Wakes(ClaimStep(s, i, c))
  {
  }

  lemma HushWakes(s: State, i: nat, u: HushPc)
    requires Wakes(s) && CanStep(s, i) && s.closer == i && s.threads[i].pc == Hush(u)
    ensures Wakes(HushStep(s, i, u))
  {
  }

  lemma StopWakes(s: State, i: nat, q: StopPc)
    requires Wakes(s) && CanStep(s, i) && s.closer == i && s.threads[i].pc == Stop(q)
    ensures Wakes(StopStep(s, i, q))
  {
  }

  lemma DrainWakes(s: State, i: nat, d: DrainPc)
    requires Wakes(s) && CanStep(s, i) && s.closer == i && s.threads[i].pc == Drain(d) && s.active <= 1
    ensures Wakes(DrainStep(s, i, d))
  {
  }

  lemma ShutWakes(s: State, i: nat, h: ShutPc)
    requires Wakes(s) && CanStep(s, i) && s.closer == i && s.threads[i].pc == Shut(h)
    ensures Wakes(ShutStep(s, i, h))
  {
    hide SameFlags, CanStep;
  }

  lemma ClosingKeepsWakes(s: State, i: nat, choice: Choice)
    requires Alive(s) && CanStep(s, i)
    requires var pc := s.threads[i].pc; s.closer == i || pc.Spawn? || pc.Claim?
    ensures Wakes(StepOf(s, i, choice))
  {
    assert LocksOf(s, i);
    match s.threads[i].pc
    case Spawn(w) => SpawnWakes(s, i, w, choice);
    case Claim(c) => ClaimWakes(s, i, c);
    case Hush(u) => HushWakes(s, i, u);
    case Stop(q) => StopWakes(s, i, q);
    case Drain(d) => DrainWakes(s, i, d);
    case Shut(h) => ShutWakes(s, i, h);
  }

  lemma NappingKeepsWakes(s: State)
    requires Alive(s) && CanBeat(s) && Napping(s.worker)
    ensures Wakes(BeatStepOf(s))
  {
    hide SameFlags, Shared, LocksOf, PortOf, BeatInv;
  }

  lemma BeatingKeepsWakes(s: State)
    requires Wakes(s) && CanBeat(s) && !Napping(s.worker)
    ensures Wakes(BeatStepOf(s))
  {
    hide SameFlags, BeatStepOf, CanBeat;
    BeatLeavesThreads(s);
    BeatingStaysAwake(s);
  }

  lemma BeatingStaysAwake(s: State)
    requires CanBeat(s) && !Napping(s.worker)
    ensures
      var s' := BeatStepOf(s);
      && s'.closer == s.closer && s'.stop == s.stop && s'.active == s.active && s'.commandLock == s.commandLock
      && (s'.worker.Worker? ==> s'.worker.pc != BeatSleep)
  {
    hide SameFlags, WorkerAfter;
    assert WorkerAfter(s).pc != BeatSleep by { BeatingGoesOn(s); }
  }

  lemma BeatingGoesOn(s: State)
    requires CanBeat(s) && !Napping(s.worker)
    ensures WorkerAfter(s).pc != BeatSleep
  {
    hide Current;
  }

  lemma StartKeepsWakes(s: State, i: nat, op: Op)
    requires Wakes(s) && CanStart(s, i) && LocksOf(s, i)
    ensures Wakes(Put(s, i, StartOp(op)))
  {
    hide SameFlags, WakesAt, MutexesOf, TenureOf;
    UndisturbedKeepsWakes(s, Put(s, i, StartOp(op)));
  }

  lemma SpuriousKeepsWakes(s: State, i: nat)
    requires Wakes(s) && i < |s.threads| && s.threads[i].pc == Drain(DrainSleep) && LocksOf(s, i)
    ensures Wakes(Goto(s, i, Drain(DrainWait)))
  {
    hide SameFlags;
  }

  lemma TickKeepsWakes(s: State, timedOut: bool)
    requires Wakes(s) && s.worker.Worker? && s.worker.pc == BeatSleep
    ensures Wakes(BeatGoto(s, BeatWait(timedOut)))
  {
    hide SameFlags;
  }

  lemma StepKeepsAlive(s: State, a: Action)
    requires Alive(s) && Enabled(s, a)
    ensures Alive(Apply(s, a))
  {
    hide LocksOf, Wakes, OwnersExist, Shared, BeatInv, PortOf, SameFlags;
    StepKeepsInv(s, a);
    match a
    case Start(i, op) => StartKeepsWakes(s, i, op);
    case Step(i, choice) =>
      var pc := s.threads[i].pc;
      if s.closer == i || pc.Spawn? || pc.Claim? {
        ClosingKeepsWakes(s, i, choice);
      } else {
        CommandKeepsWakes(s, i, choice);
      }
    case SpuriousWake(i) => SpuriousKeepsWakes(s, i);
    case BeatStep => if Napping(s.worker) { NappingKeepsWakes(s); } else { BeatingKeepsWakes(s); }
    case BeatTick => TickKeepsWakes(s, true);
    case BeatSpuriousWake => TickKeepsWakes(s, false);
  }

  lemma {:induction false} RunKeepsAlive(s: State, run: seq<Action>)
    requires Alive(s) && IsRun(s, run)
    ensures Alive(Final(s, run))
    decreases |run|
  {
    if run != [] {
      StepKeepsAlive(s, run[0]);
      RunKeepsAlive(Apply(s, run[0]), run[1..]);
    }
  }

  // ---------------------------------------------------------------------------
  // Somebody can always step

  predicate Productive(a: Action) {
    a.Step? || a.BeatStep?
  }

  ghost predicate SomeoneCan(s: State) {
    CanBeat(s) || exists j: nat :: CanStep(s, j)
  }

  lemma BeatLockMoves(s: State)
    requires Inv(s) && s.beatLock != FREE
    ensures SomeoneCan(s)
  {
    if s.beatLock != BEATER {
      assert LocksOf(s, s.beatLock);
      assert CanStep(s, s.beatLock);
    }
  }

  lemma StateLockMoves(s: State)
    requires Inv(s) && s.beatLock == FREE && s.stateLock != FREE
    ensures SomeoneCan(s)
  {
    if s.stateLock != BEATER {
      assert LocksOf(s, s.stateLock);
      assert CanStep(s, s.stateLock);
    }
  }

  lemma SequenceLockMoves(s: State)
    requires Inv(s) && s.sequenceLock != FREE
    ensures SomeoneCan(s)
  {
    assert LocksOf(s, s.sequenceLock);
    assert CanStep(s, s.sequenceLock);
  }

  lemma WriteLockMoves(s: State)
    requires Inv(s) && s.stateLock == FREE && s.sequenceLock == FREE && s.writeLock != FREE
    ensures SomeoneCan(s)
  {
    if s.writeLock != BEATER {
      assert LocksOf(s, s.writeLock);
      assert CanStep(s, s.writeLock);
    }
  }

  lemma CommandLockMoves(s: State)
    requires Inv(s) && s.stateLock == FREE && s.sequenceLock == FREE && s.writeLock == FREE
    requires s.commandLock != FREE
    ensures SomeoneCan(s)
  {
    assert LocksOf(s, s.commandLock);
    assert CanStep(s, s.commandLock);
  }

  lemma FreeLocksMove(s: State, i: nat)
    requires Alive(s) && i < |s.threads| && s.threads[i].pc != Idle
    requires s.stateLock == FREE && s.sequenceLock == FREE && s.writeLock == FREE && s.beatLock == FREE
    requires s.commandLock == FREE
    ensures SomeoneCan(s)
  {
    assert LocksOf(s, i);
    if !CanStep(s, i) {
      WhyBlocked(s, i);
    }
  }

  /** In every live state with an unfinished operation a productive step is enabled: the
      locking does not deadlock, not even while close waits for the worker or the command. */
  lemma NeverStuck(s: State, i: nat)
    requires Alive(s) && i < |s.threads| && s.threads[i].pc != Idle
    ensures exists a: Action :: Productive(a) && Enabled(s, a)
  {
    if s.beatLock != FREE {
      BeatLockMoves(s);
    } else if s.stateLock != FREE {
      StateLockMoves(s);
    } else if s.sequenceLock != FREE {
      SequenceLockMoves(s);
    } else if s.writeLock != FREE {
      WriteLockMoves(s);
    } else if s.commandLock != FREE {
      CommandLockMoves(s);
    } else {
      FreeLocksMove(s, i);
    }
    if CanBeat(s) {
      assert Productive(BeatStep) && Enabled(s, BeatStep);
    } else {
      var j: nat :| CanStep(s, j);
      assert Productive(Step(j, Done)) && Enabled(s, Step(j, Done));
    }
  }

  /** The same for runs: after any run, if an operation is unfinished, somebody can step. */
  lemma NoRunGetsStuck(n: nat, run: seq<Action>, i: nat)
    requires IsRun(Initial(n), run)
    requires var s := Final(Initial(n), run); i < |s.threads| && s.threads[i].pc != Idle
    ensures exists a: Action :: Productive(a) && Enabled(Final(Initial(n), run), a)
  {
    InitialAlive(n);
    RunKeepsAlive(Initial(n), run);
    NeverStuck(Final(Initial(n), run), i);
  }
}
