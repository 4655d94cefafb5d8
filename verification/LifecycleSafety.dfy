/**
  Safety of whole runs. However the threads are scheduled and whatever the environment
  answers, the trace of a run is accepted by the monitor of `LifecycleTrace`.
*/
module LifecycleSafety {
  import opened LifecycleTrace
  import opened LifecyclePromises
  import opened LifecycleDtr
  import opened LifecycleModel
  import opened LifecycleInvariant
  import opened LifecycleSteps

  lemma InitialInv(n: nat)
    ensures Inv(Initial(n))
  {
  }

  lemma StepOkKeepsInv(s: State, m: Monitor, s': State, m': Monitor, i: nat)
    requires InvFor(s, m) && i < |s.threads| && |s'.threads| == |s.threads|
    requires StepOk(s, m, s', m', i)
    ensures Inv(s')
  {
    OtherThreadsKeep(s, m, s', m', i);
  }

  lemma EntryIsOk(s: State, m: Monitor, i: nat, choice: Choice) returns (m': Monitor)
    requires Observe(s.trace) == Accepted(m) && CanStep(s, i) && Here(s, m, i)
    requires var pc := s.threads[i].pc; pc == GenWait || pc == GenHeld || pc.Script? || pc.Enter?
    ensures StepOk(s, m, StepOf(s, i, choice), m', i)
  {
    m' := m;
    match s.threads[i].pc
    case Script(r) => ScriptIsOk(s, m, i, r, choice);
    case Enter(e) => EnterIsOk(s, m, i, e, choice); m' := EnterMonitor(s, m, i, e, choice);
    case _ => GenIsOk(s, m, i);
  }

  lemma CommandIsOk(s: State, m: Monitor, i: nat, choice: Choice) returns (m': Monitor)
    requires Observe(s.trace) == Accepted(m) && CanStep(s, i) && Here(s, m, i)
    requires var pc := s.threads[i].pc; pc.Exchange? || pc.Leave?
    ensures StepOk(s, m, StepOf(s, i, choice), m', i)
  {
    match s.threads[i].pc
    case Exchange(x) => ExchangeIsOk(s, m, i, x, choice); m' := ExchangeMonitor(s, m, i, x, choice);
    case Leave(f) => LeaveIsOk(s, m, i, f); m' := LeaveMonitor(s, m, i, f);
  }

  lemma OpeningIsOk(s: State, m: Monitor, i: nat, choice: Choice) returns (m': Monitor)
    requires Observe(s.trace) == Accepted(m) && CanStep(s, i) && Here(s, m, i)
    requires var pc := s.threads[i].pc; pc.Open? || pc.Spawn? || pc.Claim?
    ensures StepOk(s, m, StepOf(s, i, choice), m', i)
  {
    m' := m;
    match s.threads[i].pc
    case Open(o) => OpenIsOk(s, m, i, o, choice); m' := OpenMonitor(s, m, i, o, choice);
    case Spawn(w) => SpawnIsOk(s, m, i, w, choice); m' := SpawnMonitor(s, m, i, w, choice);
    case Claim(c) => ClaimIsOk(s, m, i, c);
  }

  lemma ClosingIsOk(s: State, m: Monitor, i: nat, choice: Choice) returns (m': Monitor)
    requires Observe(s.trace) == Accepted(m) && CanStep(s, i) && Here(s, m, i)
    requires InClosing(s.threads[i].pc)
    ensures StepOk(s, m, StepOf(s, i, choice), m', i)
  {
    m' := m;
    match s.threads[i].pc
    case Hush(u) => HushIsOk(s, m, i, u); m' := HushMonitor(s, m, i, u);
    case Stop(q) => StopIsOk(s, m, i, q); m' := StopMonitor(s, m, i, q);
    case Drain(d) => DrainIsOk(s, m, i, d);
    case Shut(h) => ShutIsOk(s, m, i, h); m' := ShutMonitor(s, m, i, h);
  }

  lemma ClientStepIsOk(s: State, i: nat, choice: Choice) returns (m': Monitor)
    requires Inv(s) && CanStep(s, i)
    ensures StepOk(s, Observe(s.trace).m, StepOf(s, i, choice), m', i)
  {
    hide LocksOf, PortOf, Shared, BeatInv, StepOf, StepOk;
    var m := Observe(s.trace).m;
    assert LocksOf(s, i) && PortOf(s, m, i);
    var pc := s.threads[i].pc;
    if pc.Exchange? || pc.Leave? {
      m' := CommandIsOk(s, m, i, choice);
    } else if pc.Open? || pc.Spawn? || pc.Claim? {
      m' := OpeningIsOk(s, m, i, choice);
    } else if InClosing(pc) {
      m' := ClosingIsOk(s, m, i, choice);
    } else {
      m' := EntryIsOk(s, m, i, choice);
    }
  }

  lemma ClientKeepsInv(s: State, i: nat, choice: Choice)
    requires Inv(s) && CanStep(s, i)
    ensures Inv(StepOf(s, i, choice))
  {
    hide LocksOf, PortOf, Shared, BeatInv, StepOf, StepOk;
    var m' := ClientStepIsOk(s, i, choice);
    StepOkKeepsInv(s, Observe(s.trace).m, StepOf(s, i, choice), m', i);
  }

  lemma StartIsOk(s: State, m: Monitor, i: nat, op: Op)
    requires Here(s, m, i) && CanStart(s, i)
    ensures var s' := Put(s, i, StartOp(op));
            Moves(s, s', i) && LocksOf(s', i) && PortOf(s', m, i)
  {
  }

  lemma WakeIsOk(s: State, m: Monitor, i: nat)
    requires Here(s, m, i) && s.threads[i].pc == Drain(DrainSleep)
    ensures var s' := Goto(s, i, Drain(DrainWait));
            Moves(s, s', i) && LocksOf(s', i) && PortOf(s', m, i)
  {
  }

  /** Steps that touch nothing but their own program point. */
  lemma QuietStepKeepsInv(s: State, i: nat, t: Thread)
    requires Inv(s) && i < |s.threads|
    requires var m := Observe(s.trace).m;
             var s' := Put(s, i, t);
             Moves(s, s', i) && LocksOf(s', i) && PortOf(s', m, i)
    ensures Inv(Put(s, i, t))
  {
    var m := Observe(s.trace).m;
    OtherThreadsKeep(s, m, Put(s, i, t), m, i);
  }

  lemma StartKeepsInv(s: State, i: nat, op: Op)
    requires Inv(s) && CanStart(s, i)
    ensures Inv(Put(s, i, StartOp(op)))
  {
    var m := Observe(s.trace).m;
    assert LocksOf(s, i) && PortOf(s, m, i);
    StartIsOk(s, m, i, op);
    QuietStepKeepsInv(s, i, StartOp(op));
  }

  lemma SpuriousKeepsInv(s: State, i: nat)
    requires Inv(s) && i < |s.threads| && s.threads[i].pc == Drain(DrainSleep)
    ensures Inv(Goto(s, i, Drain(DrainWait)))
  {
    var m := Observe(s.trace).m;
    assert LocksOf(s, i) && PortOf(s, m, i);
    WakeIsOk(s, m, i);
    QuietStepKeepsInv(s, i, s.threads[i].(pc := Drain(DrainWait)));
  }

  // ---------------------------------------------------------------------------
  // The heartbeat worker

  predicate BeatEmits(s: State) {
    s.worker.Worker? &&
    (s.worker.pc == BeatWrite || s.worker.pc == BeatCall || (s.worker.pc.BeatHeld? && s.stop))
  }

  function BeatEvent(s: State): Event
    requires s.worker.Worker?
  {
    if s.worker.pc == BeatWrite then WriteStart(Beat, s.worker.gen)
    else if s.worker.pc == BeatCall then WriteEnd else WorkerExit
  }

  predicate BeatHere(s: State, m: Monitor) {
    Shared(s, m) && BeatInv(s, m) && s.worker.Worker?
  }

  lemma BeatLeavesThreads(s: State)
    requires CanBeat(s)
    ensures BeatStepOf(s).threads == s.threads
  {
  }

  lemma BeatMoves(s: State, m: Monitor)
    requires BeatHere(s, m) && CanBeat(s)
    ensures Moves(s, BeatStepOf(s), BEATER)
  {
    hide SameFlags;
    BeatLeavesThreads(s);
  }

  lemma BeatWatched(s: State, m: Monitor)
    requires BeatHere(s, m) && CanBeat(s)
    ensures Watched(s, m, BeatStepOf(s), BeatEmits(s), BeatEvent(s))
  {
  }

  lemma BeatRespects(s: State, m: Monitor)
    requires BeatHere(s, m) && CanBeat(s)
    ensures Respects(s, m, BeatStepOf(s), Watch(m, BeatEmits(s), BeatEvent(s)), BEATER)
  {
  }

  predicate Napping(w: Worker) {
    w.Worker? && (w.pc.BeatWait? || w.pc.BeatHeld? || w.pc == BeatSleep)
  }

  lemma BeatNapGlobal(s: State, m: Monitor)
    requires BeatHere(s, m) && CanBeat(s) && Napping(s.worker)
    ensures Shared(BeatStepOf(s), Watch(m, BeatEmits(s), BeatEvent(s)))
  {
  }

  lemma BeatWriteGlobal(s: State, m: Monitor)
    requires BeatHere(s, m) && CanBeat(s) && !Napping(s.worker)
    ensures Shared(BeatStepOf(s), Watch(m, BeatEmits(s), BeatEvent(s)))
  {
  }

  lemma BeatNapSelf(s: State, m: Monitor)
    requires BeatInv(s, m) && CanBeat(s) && Napping(s.worker)
    ensures BeatInv(BeatStepOf(s), Watch(m, BeatEmits(s), BeatEvent(s)))
  {
  }

  predicate Checking(w: Worker) {
    w.Worker? && (w.pc == BeatWriteWait || w.pc == BeatCheckWait || w.pc == BeatCheckHeld)
  }

  lemma BeatCheckSelf(s: State, m: Monitor)
    requires BeatHere(s, m) && CanBeat(s) && Checking(s.worker)
    ensures BeatInv(BeatStepOf(s), Watch(m, BeatEmits(s), BeatEvent(s)))
  {
  }

  lemma BeatWriteSelf(s: State, m: Monitor)
    requires BeatHere(s, m) && CanBeat(s) && !Napping(s.worker) && !Checking(s.worker)
    ensures BeatInv(BeatStepOf(s), Watch(m, BeatEmits(s), BeatEvent(s)))
  {
  }

  lemma BeatKeepsInv(s: State)
    requires Inv(s) && CanBeat(s)
    ensures Inv(BeatStepOf(s))
  {
    hide Watched, BeatEmits, BeatEvent, Watch, BeatStepOf, Respects, Shared, BeatInv, LocksOf, PortOf;
    hide OthersKept, LocksMove, OwnersExist, Napping, Checking;
    var m := Observe(s.trace).m;
    var m' := Watch(m, BeatEmits(s), BeatEvent(s));
    BeatMoves(s, m);
    BeatWatched(s, m);
    BeatRespects(s, m);
    if Napping(s.worker) {
      BeatNapGlobal(s, m);
      BeatNapSelf(s, m);
    } else {
      BeatWriteGlobal(s, m);
      if Checking(s.worker) { BeatCheckSelf(s, m); } else { BeatWriteSelf(s, m); }
    }
    Accept(s, m, BeatStepOf(s), BeatEmits(s), BeatEvent(s));
    OtherThreadsKeep(s, m, BeatStepOf(s), m', BEATER);
    OwnersStay(s, BeatStepOf(s), BEATER);
  }

  lemma TickKeepsInv(s: State, timedOut: bool)
    requires Inv(s) && s.worker.Worker? && s.worker.pc == BeatSleep
    ensures Inv(BeatGoto(s, BeatWait(timedOut)))
  {
    var m := Observe(s.trace).m;
    OtherThreadsKeep(s, m, BeatGoto(s, BeatWait(timedOut)), m, BEATER);
  }

  // ---------------------------------------------------------------------------
  // Runs

  /** The invariant is inductive. */
  lemma StepKeepsInv(s: State, a: Action)
    requires Inv(s) && Enabled(s, a)
    ensures Inv(Apply(s, a))
  {
    match a
    case Start(i, op) => StartKeepsInv(s, i, op);
    case Step(i, choice) => ClientKeepsInv(s, i, choice);
    case SpuriousWake(i) => SpuriousKeepsInv(s, i);
    case BeatStep => BeatKeepsInv(s);
    case BeatTick => TickKeepsInv(s, true);
    case BeatSpuriousWake => TickKeepsInv(s, false);
  }

  lemma {:induction false} RunKeepsInv(s: State, run: seq<Action>)
    requires Inv(s) && IsRun(s, run)
    ensures Inv(Final(s, run))
    decreases |run|
  {
    if run != [] {
      StepKeepsInv(s, run[0]);
      RunKeepsInv(Apply(s, run[0]), run[1..]);
    }
  }

  /** The trace of every run, with any number of threads, is accepted by the monitor. */
  lemma EveryRunIsAccepted(n: nat, run: seq<Action>)
    requires IsRun(Initial(n), run)
    ensures Observe(Final(Initial(n), run).trace).Accepted?
  {
    InitialInv(n);
    RunKeepsInv(Initial(n), run);
  }

  /** In every run, a frame built for generation g is written only on the transport that was
      opened and published as g, before anything of that session was taken down. */
  lemma FramesStayInTheirSession(n: nat, run: seq<Action>, w: nat) returns (open: nat, publish: nat)
    requires IsRun(Initial(n), run)
    requires w < |Final(Initial(n), run).trace| && Final(Initial(n), run).trace[w].WriteStart?
    ensures var trace := Final(Initial(n), run).trace;
            && PublishedAt(trace, open, publish, w) && trace[publish] == Publish(trace[w].gen)
            && (forall j :: open < j < w ==>
                  trace[j] != TransportClose && trace[j] != DtrOff
                  && !(trace[j].WriteStart? && trace[j].source == Shutdown))
  {
    EveryRunIsAccepted(n, run);
    open, publish := FrameOnItsOwnPort(Final(Initial(n), run).trace, w);
  }

  /** In every run, a session that came up had DTR raised once after its opening and is taken
      down in order: one attempted StopAll, no frame after it, DTR lowered once, and the port
      closed; at the last two no command, read, write or worker is left. */
  lemma SessionsEndInOrder(n: nat, run: seq<Action>, open: nat, up: nat, down: nat)
    returns (raise: nat, stop: nat, lower: nat)
    requires IsRun(Initial(n), run)
    requires open < up < down < |Final(Initial(n), run).trace|
    requires var trace := Final(Initial(n), run).trace;
             trace[down] == TransportClose && OpenedAt(trace, open, down) && trace[up].WorkerStart?
    ensures var trace := Final(Initial(n), run).trace;
            && open < raise < up < stop < lower < down
            && trace[raise] == DtrOn(true) && trace[lower] == DtrOff
            && trace[stop].WriteStart? && trace[stop].source == Shutdown
            && At(trace, lower).Accepted? && Quiet(At(trace, lower).m)
            && At(trace, down).Accepted? && Quiet(At(trace, down).m)
            && (forall j :: open < j < down && trace[j].DtrOn? ==> j == raise)
            && (forall j :: open < j < down && trace[j] == DtrOff ==> j == lower)
            && (forall j :: up < j < down && trace[j].WriteStart? && trace[j].source == Shutdown ==> j == stop)
            && (forall j :: stop < j < down ==> !trace[j].WriteStart?)
  {
    hide At, Quiet, Observe;
    EveryRunIsAccepted(n, run);
    var trace := Final(Initial(n), run).trace;
    stop := CloseComesLast(trace, open, up, down);
    raise, lower := DtrFramesTheSession(trace, open, up, down);
    LoweredAfterStop(trace, stop, lower);
  }

  /** In every run, the frames of one tenure of the command lock, a whole script say, are
      interleaved with heartbeats of the same session and nothing else. */
  lemma ScriptsAreIsolated(n: nat, run: seq<Action>, i: nat, j: nat, k: nat)
    requires IsRun(Initial(n), run) && i < j < k < |Final(Initial(n), run).trace|
    requires var trace := Final(Initial(n), run).trace;
             && trace[i].WriteStart? && trace[j].WriteStart? && trace[k].WriteStart?
             && trace[i].source.Command? && trace[k].source == trace[i].source
    ensures var trace := Final(Initial(n), run).trace;
            && (trace[j].source == trace[i].source || trace[j].source == Beat)
            && trace[i].gen == trace[j].gen == trace[k].gen
  {
    EveryRunIsAccepted(n, run);
    TenureIsIsolated(Final(Initial(n), run).trace, i, j, k);
  }

  /** In every reachable state at most one command is active, its thread holds the command
      lock, and only that thread is at a point that touches the receive buffer or the batch
      duration; the count of active commands never underflows. */
  lemma OneCommandAtATime(s: State, i: nat, j: nat)
    requires Inv(s) && i < |s.threads| && j < |s.threads|
    requires InActive(s.threads[i].pc)
    ensures s.active == 1 && s.commandLock == i
    ensures InActive(s.threads[j].pc) ==> i == j
  {
    assert LocksOf(s, i);
    assert LocksOf(s, j);
  }

  /** The refusal "previous heartbeat worker is still stopping" cannot happen: whoever holds
      the state lock in `open` and finds the core neither open nor closing finds no worker. */
  lemma WorkerIsAlwaysJoined(s: State, i: nat)
    requires Inv(s) && i < |s.threads| && s.threads[i].pc == Open(OpenHeld)
    requires !s.isOpen && !s.closing
    ensures s.worker.NoWorker?
  {
    assert LocksOf(s, i);
  }

  /** No step makes a session current again under the generation it had before. */
  predicate NoRevival(s: State, s': State) {
    && s.generation <= s'.generation
    && (s'.generation == s.generation && s'.isOpen && !s'.closing && s'.session ==>
          s.isOpen && !s.closing && s.session)
  }

  lemma SpawnNoRevival(s: State, m: Monitor, i: nat, w: SpawnPc, choice: Choice)
    requires CanStep(s, i) && s.threads[i].pc == Spawn(w) && LocksOf(s, i) && PortOf(s, m, i)
    ensures NoRevival(s, SpawnStep(s, i, w, choice))
  {
  }

  lemma OpenNoRevival(s: State, i: nat, o: OpenPc, choice: Choice)
    requires CanStep(s, i) && s.threads[i].pc == Open(o)
    ensures NoRevival(s, OpenStep(s, i, o, choice))
  {
  }

  lemma ShutNoRevival(s: State, i: nat, h: ShutPc)
    requires CanStep(s, i) && s.threads[i].pc == Shut(h)
    requires s.isOpen ==> s.session && !s.closing
    ensures NoRevival(s, ShutStep(s, i, h))
  {
  }

  lemma ClaimNoRevival(s: State, i: nat, c: ClaimPc)
    requires CanStep(s, i) && s.threads[i].pc == Claim(c)
    ensures NoRevival(s, ClaimStep(s, i, c))
  {
  }

  lemma ClientNoRevival(s: State, i: nat, choice: Choice)
    requires Observe(s.trace).Accepted? && CanStep(s, i) && LocksOf(s, i) && PortOf(s, Observe(s.trace).m, i)
    requires s.isOpen ==> s.session && !s.closing
    ensures NoRevival(s, StepOf(s, i, choice))
  {
    hide LocksOf, PortOf;
    match s.threads[i].pc
    case Open(o) => OpenNoRevival(s, i, o, choice);
    case Spawn(w) => SpawnNoRevival(s, Observe(s.trace).m, i, w, choice);
    case Claim(c) => ClaimNoRevival(s, i, c);
    case Shut(h) => ShutNoRevival(s, i, h);
    case _ =>
  }

  lemma OpenMeansSession(s: State)
    requires Inv(s)
    ensures s.isOpen ==> s.session && !s.closing
  {
    var m := Observe(s.trace).m;
    if s.opener != FREE {
      assert PortOf(s, m, s.opener);
    }
  }

  lemma OtherNoRevival(s: State, a: Action)
    requires Enabled(s, a) && !a.Step?
    ensures SameFlags(s, Apply(s, a))
  {
  }

  lemma StepNoRevival(s: State, a: Action)
    requires Inv(s) && Enabled(s, a)
    ensures NoRevival(s, Apply(s, a))
  {
    if a.Step? {
      OpenMeansSession(s);
      assert LocksOf(s, a.i) && PortOf(s, Observe(s.trace).m, a.i);
      ClientNoRevival(s, a.i, a.choice);
    } else {
      OtherNoRevival(s, a);
    }
  }

  /** A generation that is not current, because it was closed or was captured while closed,
      is never current again: whoever captured it fails every later check. */
  lemma {:induction false} StaleStaysStale(s: State, run: seq<Action>, gen: nat)
    requires Inv(s) && IsRun(s, run) && gen <= s.generation && !Current(s, gen)
    ensures !Current(Final(s, run), gen)
    decreases |run|
  {
    if run != [] {
      StepNoRevival(s, run[0]);
      StepKeepsInv(s, run[0]);
      StaleStaysStale(Apply(s, run[0]), run[1..], gen);
    }
  }
}
