/**
  The invariant of the session protocol, and the frame that lets one thread step without
  disturbing what the others rely on.
*/
module LifecycleInvariant {
  import opened LifecycleTrace
  import opened LifecycleModel

  // ---------------------------------------------------------------------------
  // Which program points hold which lock

  predicate HoldsState(pc: Pc) {
    match pc
    case GenHeld => true
    case Script(r) => r == EntryHeld
    case Enter(e) => e == BeginHeld
    case Exchange(x) => x.CheckHeld?
    case Leave(f) => f.FinishHeld?
    case Open(o) => o != OpenWait
    case Spawn(_) => true
    case Claim(c) => c == CloseHeld
    case Drain(d) => d == DrainHeld
    case Shut(h) => h == EndHeld
    case _ => false
  }

  predicate HoldsWrite(pc: Pc) {
    match pc
    case Exchange(x) =>
      (match x
       case CheckWait(at) => at == BeforeWrite
       case CheckHeld(at) => at == BeforeWrite
       case Write | WriteCall | WriteExit(_) => true
       case _ => false)
    case Stop(q) => q != StopWriteWait
    case Shut(h) => h == DropDtr || h == ClosePort || h == PortExit
    case _ => false
  }

  predicate HoldsSequence(pc: Pc) {
    pc == Enter(SeqHeld) || pc == Stop(StopSeqHeld)
  }

  predicate HoldsBeat(pc: Pc) {
    pc == Spawn(SpawnBeatHeld) || pc == Hush(HushBeatHeld)
  }

  /** Between `begin_active_command` and `finish_active_command`. */
  predicate InActive(pc: Pc) {
    match pc
    case Enter(e) => e == SeqWait || e == SeqHeld || e == Encode
    case Exchange(_) => true
    case Leave(f) => f.FinishWait? || f.FinishHeld?
    case _ => false
  }

  /** Inside the lock guard of `send_command_for_generation`. */
  predicate InSend(pc: Pc) {
    match pc
    case Enter(e) => e != SendWait
    case Exchange(_) | Leave(_) => true
    case _ => false
  }

  /** Inside the lock guard of `run_script`, but not inside a command. */
  predicate InScript(t: Thread) {
    match t.pc
    case Script(r) => r != ScriptWait
    case Enter(e) => e == SendWait && t.script
    case _ => false
  }

  predicate HoldsCommand(t: Thread) {
    InSend(t.pc) || InScript(t)
  }

  function Depth(t: Thread): nat {
    (if t.script then 1 else 0) + (if InSend(t.pc) then 1 else 0)
  }

  /** Between the decision to open the transport and its success or undoing. */
  predicate InOpening(pc: Pc) {
    pc == Open(OpenDtr) || pc == Open(OpenPublish) || pc.Spawn?
  }

  /** Past the point where `close` has claimed the session. */
  predicate InClosing(pc: Pc) {
    pc.Hush? || pc.Stop? || pc.Drain? || pc.Shut?
  }

  predicate BeatHoldsWrite(w: Worker) {
    w.Worker? &&
    match w.pc
    case BeatCheckWait | BeatCheckHeld | BeatWrite | BeatCall | BeatWriteExit => true
    case _ => false
  }

  // ---------------------------------------------------------------------------
  // The invariant

  predicate UsesPort(m: Monitor) {
    m.phase == Live || m.phase == Stopped
  }

  predicate StateLockOf(s: State, i: nat)
    requires i < |s.threads|
  {
    s.stateLock == i <==> HoldsState(s.threads[i].pc)
  }

  predicate WriteLockOf(s: State, i: nat)
    requires i < |s.threads|
  {
    s.writeLock == i <==> HoldsWrite(s.threads[i].pc)
  }

  predicate SmallLocksOf(s: State, i: nat)
    requires i < |s.threads|
  {
    && (s.sequenceLock == i <==> HoldsSequence(s.threads[i].pc))
    && (s.beatLock == i <==> HoldsBeat(s.threads[i].pc))
  }

  /** A thread owns exactly the mutexes its program point says. */
  predicate MutexesOf(s: State, i: nat)
    requires i < |s.threads|
  {
    StateLockOf(s, i) && WriteLockOf(s, i) && SmallLocksOf(s, i)
  }

  predicate TenureOf(s: State, i: nat)
    requires i < |s.threads|
  {
    var t := s.threads[i];
    && (s.commandLock == i <==> HoldsCommand(t))
    && (HoldsCommand(t) ==> s.commandDepth == Depth(t) && t.ticket == s.tickets)
    && (t.pc.Script? ==> t.script)
  }

  predicate RolesOf(s: State, i: nat)
    requires i < |s.threads|
  {
    var t := s.threads[i];
    && (s.runner == i <==> InActive(t.pc))
    && (s.opener == i <==> InOpening(t.pc))
    && (s.closer == i <==> InClosing(t.pc))
  }

  predicate LocksOf(s: State, i: nat)
    requires i < |s.threads|
  {
    MutexesOf(s, i) && TenureOf(s, i) && RolesOf(s, i)
  }

  /** The thread inside a command: its generation is that of the port, and it alone reads. */
  predicate RunnerOf(s: State, m: Monitor, i: nat)
    requires i < |s.threads|
  {
    var t := s.threads[i];
    s.runner == i ==> t.gen == m.port && UsesPort(m) && (m.reading <==> t.pc == Exchange(ReadCall))
  }

  /** The owner of the write lock: past its check the session is still up, and it alone writes. */
  predicate WriterOf(s: State, m: Monitor, i: nat)
    requires i < |s.threads|
  {
    var t := s.threads[i];
    s.writeLock == i ==>
      && (t.pc == Exchange(Write) || t.pc == Exchange(WriteCall) ==> m.phase == Live)
      && (m.writing <==> t.pc == Exchange(WriteCall) || t.pc == Stop(StopCall))
  }

  /** The holder of the command lock writes under one generation only. */
  predicate TicketOf(s: State, m: Monitor, i: nat)
    requires i < |s.threads|
  {
    s.commandLock == i && m.ticket == s.threads[i].ticket ==> m.ticketGen == s.threads[i].gen
  }

  /** What a thread may rely on about the transport. */
  predicate UsesOf(s: State, m: Monitor, i: nat)
    requires i < |s.threads|
  {
    RunnerOf(s, m, i) && WriterOf(s, m, i) && TicketOf(s, m, i)
  }

  predicate ProgressOf(s: State, m: Monitor, i: nat)
    requires i < |s.threads|
  {
    && (s.opener == i ==> OpeningAt(s, m, s.threads[i].pc))
    && (s.closer == i ==> ClosingAt(s, m, s.threads[i]))
  }

  predicate PortOf(s: State, m: Monitor, i: nat)
    requires i < |s.threads|
  {
    UsesOf(s, m, i) && ProgressOf(s, m, i)
  }

  /** How far an `open` has come: its flags are out of step with the transport. */
  predicate OpeningAt(s: State, m: Monitor, pc: Pc) {
    && !s.closing && s.worker.NoWorker?
    && match pc
       case Spawn(w) =>
         (match w
          case SpawnLower => !s.isOpen && m.phase == Published && m.port <= s.generation
          case SpawnAbort => !s.isOpen && (m.phase == Failed || m.phase == Lowered) && m.port <= s.generation
          case _ => s.isOpen && s.session && m.phase == Published && m.port == s.generation)
       case _ =>
         !s.isOpen && m.phase == (if pc == Open(OpenDtr) then Opened else Raised) && m.port <= s.generation
  }

  /** How far a `close` has come. */
  predicate ClosingAt(s: State, m: Monitor, t: Thread) {
    s.closing &&
    match t.pc
    case Hush(_) => s.worker.Worker? && m.phase == Live && t.gen == m.port
    case Stop(q) =>
      s.worker.Worker? && t.gen == m.port && m.phase == (if q == StopCall || q == StopExit then Stopped else Live)
    case Drain(d) => m.phase == Stopped && (d != Join ==> s.worker.NoWorker?)
    case Shut(h) =>
      && s.worker.NoWorker? && s.active == 0
      && m.phase == (match h
                     case PortWait | DropDtr => Stopped
                     case ClosePort => Lowered
                     case _ => Down)
    case _ => true
  }

  predicate BeatInv(s: State, m: Monitor) {
    var w := s.worker;
    && (s.stateLock == BEATER <==> w.Worker? && w.pc == BeatCheckHeld)
    && (s.writeLock == BEATER <==> BeatHoldsWrite(w))
    && (s.beatLock == BEATER <==> w.Worker? && w.pc.BeatHeld?)
    && s.commandLock != BEATER && s.sequenceLock != BEATER
    && s.runner != BEATER && s.opener != BEATER && s.closer != BEATER
    && (m.worker <==> w.Worker? && w.pc != BeatDone)
    && (w.Worker? ==> w.gen == m.port && UsesPort(m))
    && (w.Worker? && (w.pc == BeatWrite || w.pc == BeatCall) ==> m.phase == Live)
    && (m.writing && s.writeLock == BEATER <==> w.Worker? && w.pc == BeatCall)
  }

  /** How the roles go with the locks. */
  predicate Bookkeeping(s: State) {
    && (s.commandLock == FREE ==> s.commandDepth == 0)
    && (s.runner != FREE ==> s.commandLock == s.runner)
    && (s.opener != FREE ==> s.stateLock == s.opener && s.closer == FREE && s.worker.NoWorker?)
    && (s.closing <==> s.closer != FREE)
  }

  predicate Shared(s: State, m: Monitor) {
    && Bookkeeping(s)
    && s.active == m.active && m.active == (if s.runner == FREE then 0 else 1)
    && (m.reading ==> m.active == 1)
    && (m.active == 1 ==> UsesPort(m))
    && (m.writing ==> s.writeLock != FREE && UsesPort(m))
    && m.ticket <= s.tickets
    && (s.opener == FREE ==> FlagsAtRest(s, m))
  }

  /** The flags of the core against the phase of the transport. */
  predicate FlagsAtRest(s: State, m: Monitor) {
    && m.port <= s.generation
    && (s.isOpen ==> s.session && !s.closing && m.phase == Live && m.port == s.generation && s.worker.Worker?)
    && (!s.isOpen && !s.closing ==> m.phase == Down && s.worker.NoWorker?)
  }

  predicate InRange(s: State, o: Owner) {
    o == FREE || o == BEATER || 0 <= o < |s.threads|
  }

  predicate OwnersExist(s: State) {
    && InRange(s, s.stateLock) && InRange(s, s.writeLock) && InRange(s, s.sequenceLock)
    && InRange(s, s.beatLock) && InRange(s, s.commandLock)
    && InRange(s, s.runner) && InRange(s, s.opener) && InRange(s, s.closer)
  }

  predicate InvFor(s: State, m: Monitor) {
    && OwnersExist(s)
    && Shared(s, m)
    && BeatInv(s, m)
    && (forall i :: 0 <= i < |s.threads| ==> LocksOf(s, i))
    && (forall i :: 0 <= i < |s.threads| ==> PortOf(s, m, i))
  }

  predicate Inv(s: State) {
    var v := Observe(s.trace);
    v.Accepted? && InvFor(s, v.m)
  }

  // ---------------------------------------------------------------------------
  // What a step of one owner leaves alone

  predicate LockMove(before: Owner, after: Owner, o: Owner) {
    before == after || (before == FREE && after == o) || (before == o && after == FREE)
  }

  predicate OthersKept(s: State, s': State, o: Owner) {
    && |s'.threads| == |s.threads|
    && forall j :: 0 <= j < |s.threads| && o != j ==>
         s'.threads[j].(notified := s.threads[j].notified) == s.threads[j]
  }

  predicate LocksMove(s: State, s': State, o: Owner) {
    && LockMove(s.stateLock, s'.stateLock, o)
    && LockMove(s.writeLock, s'.writeLock, o)
    && LockMove(s.sequenceLock, s'.sequenceLock, o)
    && LockMove(s.beatLock, s'.beatLock, o)
    && LockMove(s.commandLock, s'.commandLock, o)
    && LockMove(s.runner, s'.runner, o) && LockMove(s.opener, s'.opener, o) && LockMove(s.closer, s'.closer, o)
    && (s.commandLock != FREE && s.commandLock != o ==>
          s'.commandDepth == s.commandDepth && s'.tickets == s.tickets)
  }

  predicate Moves(s: State, s': State, o: Owner) {
    OthersKept(s, s', o) && LocksMove(s, s', o)
  }

  /** A step of `o` takes nothing from under the feet of the other threads. */
  predicate Respects(s: State, m: Monitor, s': State, m': Monitor, o: Owner) {
    && (s.runner != FREE && s.runner != o ==>
          m'.port == m.port && UsesPort(m') && m'.reading == m.reading)
    && (m.phase == Live && m'.phase != Live ==> s.writeLock == o)
    && (s.commandLock != FREE && s.commandLock != o ==> m'.ticket == m.ticket && m'.ticketGen == m.ticketGen)
    && (s.opener != FREE && s.opener != o ==>
          && s'.closing == s.closing && s'.isOpen == s.isOpen && s'.session == s.session
          && s'.generation == s.generation && s'.worker == s.worker
          && m'.phase == m.phase && m'.port == m.port)
    && (s.closer != FREE && s.closer != o ==>
          && s'.closing && m'.phase == m.phase && m'.port == m.port && s'.active <= s.active
          && (s'.worker.Worker? <==> s.worker.Worker?))
    && (m'.writing != m.writing ==> s.writeLock == o)
  }

  lemma OtherThreadKeeps(s: State, m: Monitor, s': State, m': Monitor, o: Owner, j: nat)
    requires j < |s.threads| && o != j
    requires LocksOf(s, j) && PortOf(s, m, j)
    requires Moves(s, s', o) && Respects(s, m, s', m', o)
    ensures LocksOf(s', j) && PortOf(s', m', j)
  {
    hide HoldsState, HoldsWrite, HoldsSequence, HoldsBeat;
  }

  lemma OtherThreadsKeep(s: State, m: Monitor, s': State, m': Monitor, o: Owner)
    requires InvFor(s, m) && Moves(s, s', o) && Respects(s, m, s', m', o)
    ensures forall j :: 0 <= j < |s.threads| && o != j ==> LocksOf(s', j)
    ensures forall j :: 0 <= j < |s.threads| && o != j ==> PortOf(s', m', j)
  {
    forall j | 0 <= j < |s.threads| && o != j
      ensures LocksOf(s', j) && PortOf(s', m', j)
    {
      assert LocksOf(s, j) && PortOf(s, m, j);
      OtherThreadKeeps(s, m, s', m', o, j);
    }
  }

  lemma OwnersStay(s: State, s': State, o: Owner)
    requires OwnersExist(s) && LocksMove(s, s', o) && InRange(s, o) && |s'.threads| == |s.threads|
    ensures OwnersExist(s')
  {
  }

  /** The invariant as far as one thread can see. */
  predicate Here(s: State, m: Monitor, i: nat) {
    i < |s.threads| && Shared(s, m) && BeatInv(s, m) && LocksOf(s, i) && PortOf(s, m, i)
  }

  predicate StepOk(s: State, m: Monitor, s': State, m': Monitor, i: nat)
    requires i < |s'.threads|
  {
    && Observe(s'.trace) == Accepted(m')
    && Moves(s, s', i) && Respects(s, m, s', m', i)
    && Shared(s', m') && BeatInv(s', m') && LocksOf(s', i) && PortOf(s', m', i)
  }
}
