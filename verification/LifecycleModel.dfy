/**
  `HidBridgeCore` as a step machine.

  Any number of client threads run `send_command`, `run_script`, `open` and `close` on one
  core, next to the heartbeat worker that `open` starts. Every acquisition of a mutex, every
  critical section with its release, and the start and the end of every transport call is a
  step of its own; threads interleave at every step. What the transport, the device and the
  script do is chosen by the environment (`Choice`).
*/
module LifecycleModel {
  import opened LifecycleTrace

  /** Who holds a mutex: the index of a client thread, or one of the two constants. */
  type Owner = int
  const FREE: Owner := -1
  const BEATER: Owner := -2

  /** The places inside a command that call `ensure_generation`. */
  datatype Point = BeforeWrite | BeforeRead | AfterRead | BetweenRetries | BeforeReturn

  /** run_script, outside its commands. */
  datatype ScriptPc = ScriptWait | EntryWait | EntryHeld | ScriptBody | ScriptExit

  /** send_command_for_generation up to the first write. */
  datatype EnterPc = SendWait | BeginWait | BeginHeld | SeqWait | SeqHeld | Encode

  /** write_frame, read_response and the retry loop. */
  datatype ExchangePc =
    | WriteWait | CheckWait(at: Point) | CheckHeld(at: Point)
    | Write | WriteCall | WriteExit(ok: bool) | Parse | ReadCall

  /** finish_active_command and the end of the command lock guard. */
  datatype LeavePc = FinishWait(ok: bool) | FinishHeld(ok: bool) | FinishNotify(ok: bool) | SendExit(ok: bool)

  /** open, up to the publication of the session. */
  datatype OpenPc = OpenWait | OpenHeld | OpenDtr | OpenPublish | OpenExit

  /** open, starting the worker or undoing everything. */
  datatype SpawnPc = SpawnBeatWait | SpawnBeatHeld | SpawnThread | SpawnLower | SpawnAbort

  /** close, before it has claimed the session. */
  datatype ClaimPc = CloseWait | CloseHeld

  /** close, silencing the worker and the reader. */
  datatype HushPc = HushBeatWait | HushBeatHeld | HushNotify | HushCancel

  /** close, its StopAll. */
  datatype StopPc = StopWriteWait | StopSeqWait | StopSeqHeld | StopWrite | StopCall | StopExit

  /** close, waiting for the worker and the active command. */
  datatype DrainPc = Join | DrainWait | DrainHeld | DrainSleep

  /** close, giving up the transport. */
  datatype ShutPc = PortWait | DropDtr | ClosePort | PortExit | EndWait | EndHeld

  datatype Pc =
    | Idle
    | GenWait | GenHeld   // current_generation, on entry to send_command and run_script
    | Script(r: ScriptPc)
    | Enter(e: EnterPc) | Exchange(x: ExchangePc) | Leave(f: LeavePc)
    | Open(o: OpenPc) | Spawn(w: SpawnPc)
    | Claim(c: ClaimPc) | Hush(u: HushPc) | Stop(q: StopPc) | Drain(d: DrainPc) | Shut(h: ShutPc)

  /** `gen` is the captured generation, `ticket` the tenure of the command lock, `cleanup` says
      that a failing script is sending its StopAll, `notified` that a sleeper was woken. */
  datatype Thread = Thread(pc: Pc, gen: nat, script: bool, cleanup: bool, ticket: nat, notified: bool)

  const RESTING := Thread(Idle, 0, false, false, 0, false)

  datatype BeatPc =
    | BeatWait(timedOut: bool) | BeatHeld(timedOut: bool) | BeatSleep
    | BeatWriteWait | BeatCheckWait | BeatCheckHeld | BeatWrite | BeatCall | BeatWriteExit
    | BeatDone

  /** `heartbeat_thread_`; `NoWorker` when it is not joinable. */
  datatype Worker = NoWorker | Worker(pc: BeatPc, gen: nat, notified: bool)

  datatype State = State(
    isOpen: bool, closing: bool, generation: nat, session: bool, active: nat, stop: bool,
    stateLock: Owner, commandLock: Owner, commandDepth: nat, writeLock: Owner,
    sequenceLock: Owner, beatLock: Owner,
    worker: Worker, threads: seq<Thread>,
    // Bookkeeping: the thread inside a command, inside an open and inside a close, each past
    // the check that lets it in
    runner: Owner, opener: Owner, closer: Owner,
    tickets: nat,      // how often the command lock was taken from free
    trace: seq<Event>)

  datatype Op = OpSend | OpScript | OpOpen | OpClose

  /** What the environment answers. `Again` and `Resend` are the two ways to retry. */
  datatype Choice = Done | Throw | Again | Resend | Receive

  datatype Action =
    | Start(i: nat, op: Op)
    | Step(i: nat, choice: Choice)
    | SpuriousWake(i: nat)
    | BeatStep
    | BeatTick
    | BeatSpuriousWake

  function Initial(n: nat): State {
    State(false, false, 0, false, 0, true, FREE, FREE, 0, FREE, FREE, FREE,
          NoWorker, seq(n, _ => RESTING), FREE, FREE, FREE, 0, [])
  }

  // ---------------------------------------------------------------------------
  // Helpers

  /** The session flags are touched by `open` and `close` only. */
  predicate SameFlags(s: State, s': State) {
    s'.isOpen == s.isOpen && s'.closing == s.closing && s'.generation == s.generation
    && s'.session == s.session
  }

  function Put(s: State, i: nat, t: Thread): (s': State)
    requires i < |s.threads|
    ensures |s'.threads| == |s.threads|
    ensures SameFlags(s, s')
  {
    s.(threads := s.threads[i := t])
  }

  function Goto(s: State, i: nat, pc: Pc): (s': State)
    requires i < |s.threads|
    ensures |s'.threads| == |s.threads|
    ensures SameFlags(s, s')
  {
    Put(s, i, s.threads[i].(pc := pc))
  }

  function Emit(s: State, e: Event): (s': State)
    ensures |s'.threads| == |s.threads|
    ensures SameFlags(s, s')
  {
    s.(trace := s.trace + [e])
  }

  function EmitIf(s: State, happens: bool, e: Event): (s': State)
    ensures |s'.threads| == |s.threads|
    ensures SameFlags(s, s')
  {
    s.(trace := if happens then s.trace + [e] else s.trace)
  }

  function BeatGoto(s: State, pc: BeatPc): (s': State)
    requires s.worker.Worker?
    ensures |s'.threads| == |s.threads|
    ensures SameFlags(s, s')
  {
    s.(worker := s.worker.(pc := pc))
  }

  /** The test of `require_session` and `begin_active_command`. */
  predicate Current(s: State, gen: nat) {
    gen == s.generation && s.isOpen && !s.closing && s.session
  }

  /** The recursive command mutex. */
  predicate CanLockCommand(s: State, i: nat) {
    s.commandLock == FREE || s.commandLock == i
  }

  function LockCommand(s: State, i: nat, pc: Pc): (s': State)
    requires i < |s.threads|
    ensures |s'.threads| == |s.threads|
    ensures SameFlags(s, s')
  {
    var t := s.threads[i];
    var first := s.commandLock == FREE;
    Put(s, i, t.(pc := pc, ticket := if first then s.tickets + 1 else t.ticket))
    .(commandLock := i, commandDepth := s.commandDepth + 1,
      tickets := if first then s.tickets + 1 else s.tickets)
  }

  function UnlockCommand(s: State): (s': State)
    ensures |s'.threads| == |s.threads|
    ensures SameFlags(s, s')
  {
    s.(commandLock := if s.commandDepth <= 1 then FREE else s.commandLock,
       commandDepth := if s.commandDepth <= 1 then 0 else s.commandDepth - 1)
  }

  // ---------------------------------------------------------------------------
  // Which steps are enabled

  predicate CanStart(s: State, i: nat) {
    i < |s.threads| && s.threads[i].pc == Idle
  }

  /** Not blocked on a mutex, the join or the drain. */
  predicate CanStep(s: State, i: nat) {
    i < |s.threads| &&
    match s.threads[i].pc
    case Idle => false
    case GenWait => s.stateLock == FREE
    case GenHeld => true
    case Script(r) =>
      (match r
       case ScriptWait => CanLockCommand(s, i)
       case EntryWait => s.stateLock == FREE
       case _ => true)
    case Enter(e) =>
      (match e
       case SendWait => CanLockCommand(s, i)
       case BeginWait => s.stateLock == FREE
       case SeqWait => s.sequenceLock == FREE
       case _ => true)
    case Exchange(x) =>
      (match x
       case WriteWait => s.writeLock == FREE
       case CheckWait(_) => s.stateLock == FREE
       case _ => true)
    case Leave(f) => f.FinishWait? ==> s.stateLock == FREE
    case Open(o) => o == OpenWait ==> s.stateLock == FREE
    case Spawn(w) => w == SpawnBeatWait ==> s.beatLock == FREE
    case Claim(c) => c == CloseWait ==> s.stateLock == FREE
    case Hush(u) => u == HushBeatWait ==> s.beatLock == FREE
    case Stop(q) =>
      (match q
       case StopWriteWait => s.writeLock == FREE
       case StopSeqWait => s.sequenceLock == FREE
       case _ => true)
    case Drain(d) =>
      (match d
       case Join => s.worker.Worker? ==> s.worker.pc == BeatDone
       case DrainWait => s.stateLock == FREE
       case DrainHeld => true
       case DrainSleep => s.threads[i].notified)
    case Shut(h) =>
      (match h
       case PortWait => s.writeLock == FREE
       case EndWait => s.stateLock == FREE
       case _ => true)
  }

  predicate CanBeat(s: State) {
    s.worker.Worker? &&
    match s.worker.pc
    case BeatWait(_) => s.beatLock == FREE
    case BeatSleep => s.worker.notified
    case BeatWriteWait => s.writeLock == FREE
    case BeatCheckWait => s.stateLock == FREE
    case BeatDone => false
    case _ => true
  }

  predicate Enabled(s: State, a: Action) {
    match a
    case Start(i, _) => CanStart(s, i)
    case Step(i, _) => CanStep(s, i)
    case SpuriousWake(i) => i < |s.threads| && s.threads[i].pc == Drain(DrainSleep)
    case BeatStep => CanBeat(s)
    case BeatTick => s.worker.Worker? && s.worker.pc == BeatSleep
    case BeatSpuriousWake => s.worker.Worker? && s.worker.pc == BeatSleep
  }

  // ---------------------------------------------------------------------------
  // The steps

  function StartOp(op: Op): Thread {
    match op
    case OpSend => RESTING.(pc := GenWait)
    case OpScript => RESTING.(pc := GenWait, script := true)
    case OpOpen => RESTING.(pc := Open(OpenWait))
    case OpClose => RESTING.(pc := Claim(CloseWait))
  }

  /** current_generation, serial.hpp:394-397. */
  function GenStep(s: State, i: nat): (s': State)
    requires i < |s.threads|
    ensures |s'.threads| == |s.threads|
    ensures SameFlags(s, s')
  {
    var t := s.threads[i];
    if t.pc == GenWait then Goto(s, i, GenHeld).(stateLock := i)
    else
      Put(s, i, t.(pc := if t.script then Script(ScriptWait) else Enter(SendWait), gen := s.generation))
      .(stateLock := FREE)
  }

  /** run_script outside its commands, serial.hpp:337-361. */
  function ScriptStep(s: State, i: nat, r: ScriptPc, choice: Choice): (s': State)
    requires i < |s.threads|
    ensures |s'.threads| == |s.threads|
    ensures SameFlags(s, s')
  {
    var t := s.threads[i];
    match r
    case ScriptWait => LockCommand(s, i, Script(EntryWait))
    case EntryWait => Goto(s, i, Script(EntryHeld)).(stateLock := i)
    case EntryHeld =>
      Goto(s, i, Script(if Current(s, t.gen) then ScriptBody else ScriptExit)).(stateLock := FREE)
    case ScriptBody =>
      // parse_script may throw before the try block; inside it a packet may be refused
      Put(s, i, t.(pc := if choice == Done then Script(ScriptExit) else Enter(SendWait),
                   cleanup := choice == Throw || t.cleanup))
    case ScriptExit => UnlockCommand(Put(s, i, RESTING))
  }

  /** begin_active_command, next_sequence and encode_frame, serial.hpp:407-414, 428-437. */
  function EnterStep(s: State, i: nat, e: EnterPc, choice: Choice): (s': State)
    requires i < |s.threads|
    ensures |s'.threads| == |s.threads|
    ensures SameFlags(s, s')
  {
    var t := s.threads[i];
    match e
    case SendWait => LockCommand(s, i, Enter(BeginWait))
    case BeginWait => Goto(s, i, Enter(BeginHeld)).(stateLock := i)
    case BeginHeld =>
      var ok := Current(s, t.gen);
      EmitIf(Goto(s, i, if ok then Enter(SeqWait) else Leave(SendExit(false))), ok, CommandBegin(t.gen))
      .(stateLock := FREE, active := if ok then s.active + 1 else s.active,
        runner := if ok then i else s.runner)
    case SeqWait => Goto(s, i, Enter(SeqHeld)).(sequenceLock := i)
    case SeqHeld => Goto(s, i, Enter(Encode)).(sequenceLock := FREE)
    case Encode => Goto(s, i, if choice == Throw then Leave(FinishWait(false)) else Exchange(WriteWait))
  }

  function FailedCheck(at: Point): Pc {
    if at == BeforeWrite then Exchange(WriteExit(false)) else Leave(FinishWait(false))
  }

  function PassedCheck(at: Point, choice: Choice): Pc {
    match at
    case BeforeWrite => Exchange(Write)
    case BeforeRead => Exchange(Parse)
    case AfterRead => Exchange(CheckWait(BeforeRead))
    case BetweenRetries => Exchange(if choice == Again then CheckWait(BetweenRetries) else WriteWait)
    case BeforeReturn => Leave(FinishWait(true))
  }

  function Parsed(choice: Choice): Pc {
    match choice
    case Done => Exchange(CheckWait(BeforeReturn))
    case Throw => Leave(FinishWait(false))
    case Again => Exchange(CheckWait(BetweenRetries))
    case Resend => Exchange(WriteWait)
    case Receive => Exchange(ReadCall)
  }

  function ReadReturned(choice: Choice): Pc {
    match choice
    case Throw => Leave(FinishWait(false))
    case Done => Exchange(CheckWait(AfterRead))
    case _ => Exchange(CheckWait(BeforeRead))
  }

  /** Where a command goes next; `current` is what a check of its generation finds. */
  function ExchangeNext(x: ExchangePc, current: bool, choice: Choice): Pc {
    match x
    case WriteWait => Exchange(CheckWait(BeforeWrite))
    case CheckWait(at) => Exchange(CheckHeld(at))
    case CheckHeld(at) => if current then PassedCheck(at, choice) else FailedCheck(at)
    case Write => Exchange(WriteCall)
    case WriteCall => Exchange(WriteExit(choice != Throw))
    case WriteExit(ok) => if ok then Exchange(CheckWait(BeforeRead)) else Leave(FinishWait(false))
    case Parse => Parsed(choice)
    case ReadCall => ReadReturned(choice)
  }

  /** write_frame, read_response and the retry loop, serial.hpp:439-470, 498-534, 616-625. */
  function ExchangeStep(s: State, i: nat, x: ExchangePc, choice: Choice): (s': State)
    requires i < |s.threads|
    ensures |s'.threads| == |s.threads|
    ensures SameFlags(s, s')
  {
    var t := s.threads[i];
    var next := Goto(s, i, ExchangeNext(x, Current(s, t.gen), choice));
    match x
    case WriteWait => next.(writeLock := i)
    case CheckWait(_) => next.(stateLock := i)
    case CheckHeld(_) => next.(stateLock := FREE)
    case Write => Emit(next, WriteStart(Command(t.ticket), t.gen))
    case WriteCall => Emit(next, WriteEnd)
    case WriteExit(_) => next.(writeLock := FREE)
    case Parse => EmitIf(next, choice == Receive, ReadStart(t.gen))
    case ReadCall => Emit(next, ReadEnd)
  }

  /** Where a thread goes when a command is over: the script catches, sends one StopAll, gives up. */
  function AfterSend(t: Thread, ok: bool): Thread {
    if !t.script then RESTING
    else if t.cleanup then t.(pc := Script(ScriptExit))
    else if ok then t.(pc := Script(ScriptBody))
    else t.(pc := Enter(SendWait), cleanup := true)
  }

  function NotifyDrain(threads: seq<Thread>): (r: seq<Thread>)
    ensures |r| == |threads|
  {
    seq(|threads|, k requires 0 <= k < |threads| =>
      if threads[k].pc == Drain(DrainSleep) then threads[k].(notified := true) else threads[k])
  }

  /** finish_active_command and the lock guards, serial.hpp:416-422, 432-434. */
  function LeaveStep(s: State, i: nat, f: LeavePc): (s': State)
    requires i < |s.threads|
    ensures |s'.threads| == |s.threads|
    ensures SameFlags(s, s')
  {
    var t := s.threads[i];
    match f
    case FinishWait(ok) => Goto(s, i, Leave(FinishHeld(ok))).(stateLock := i)
    case FinishHeld(ok) =>
      Emit(Goto(s, i, Leave(FinishNotify(ok))), CommandEnd)
      .(stateLock := FREE, active := if s.active > 0 then s.active - 1 else 0, runner := FREE)
    case FinishNotify(ok) => s.(threads := NotifyDrain(s.threads)[i := t.(pc := Leave(SendExit(ok)))])
    case SendExit(ok) => UnlockCommand(Put(s, i, AfterSend(t, ok)))
  }

  /** open up to the publication, serial.hpp:213-236. */
  function OpenStep(s: State, i: nat, o: OpenPc, choice: Choice): (s': State)
    requires i < |s.threads|
    ensures |s'.threads| == |s.threads|
  {
    match o
    case OpenWait => Goto(s, i, Open(OpenHeld)).(stateLock := i)
    case OpenHeld =>
      var go := !s.isOpen && !s.closing && s.worker.NoWorker? && choice != Throw;
      EmitIf(Goto(s, i, Open(if go then OpenDtr else OpenExit)), go, TransportOpen)
      .(opener := if go then i else s.opener)
    case OpenDtr =>
      Emit(Goto(s, i, if choice == Throw then Spawn(SpawnAbort) else Open(OpenPublish)), DtrOn(choice != Throw))
    case OpenPublish =>
      Emit(Goto(s, i, Spawn(SpawnBeatWait)), Publish(s.generation + 1))
      .(generation := s.generation + 1, isOpen := true, closing := false, session := true)
    case OpenExit => Put(s, i, RESTING).(stateLock := FREE)
  }

  /** open, the worker or the way back, serial.hpp:228-231, 237-253. */
  function SpawnStep(s: State, i: nat, w: SpawnPc, choice: Choice): (s': State)
    requires i < |s.threads|
    ensures |s'.threads| == |s.threads|
  {
    match w
    case SpawnBeatWait => Goto(s, i, Spawn(SpawnBeatHeld)).(beatLock := i)
    case SpawnBeatHeld => Goto(s, i, Spawn(SpawnThread)).(beatLock := FREE, stop := false)
    case SpawnThread =>
      var ok := choice != Throw;
      EmitIf(Goto(s, i, if ok then Open(OpenExit) else Spawn(SpawnLower)), ok, WorkerStart(s.generation))
      .(isOpen := ok, session := ok, opener := if ok then FREE else s.opener,
        worker := if ok then Worker(BeatWait(false), s.generation, false) else s.worker)
    case SpawnLower => Emit(Goto(s, i, Spawn(SpawnAbort)), DtrOff)
    case SpawnAbort => Emit(Goto(s, i, Open(OpenExit)), TransportClose).(opener := FREE)
  }

  /** close, first critical section, serial.hpp:257-266. */
  function ClaimStep(s: State, i: nat, c: ClaimPc): (s': State)
    requires i < |s.threads|
    ensures |s'.threads| == |s.threads|
  {
    var t := s.threads[i];
    if c == CloseWait then Goto(s, i, Claim(CloseHeld)).(stateLock := i)
    else
      var claimed := s.isOpen && !s.closing;
      Put(s, i, if claimed then t.(pc := Hush(HushBeatWait), gen := s.generation) else RESTING)
      .(stateLock := FREE,
        closing := claimed || s.closing, isOpen := !claimed && s.isOpen,
        generation := if claimed then s.generation + 1 else s.generation,
        session := !claimed && s.session, closer := if claimed then i else s.closer)
  }

  /** close, serial.hpp:268-273. */
  function HushStep(s: State, i: nat, u: HushPc): (s': State)
    requires i < |s.threads|
    ensures |s'.threads| == |s.threads|
    ensures SameFlags(s, s')
  {
    match u
    case HushBeatWait => Goto(s, i, Hush(HushBeatHeld)).(beatLock := i)
    case HushBeatHeld => Goto(s, i, Hush(HushNotify)).(beatLock := FREE, stop := true)
    case HushNotify =>
      Goto(s, i, Hush(HushCancel))
      .(worker := if s.worker.Worker? && s.worker.pc == BeatSleep then s.worker.(notified := true) else s.worker)
    case HushCancel => Emit(Goto(s, i, Stop(StopWriteWait)), CancelRead)
  }

  /** close, its StopAll, serial.hpp:275-281. */
  function StopStep(s: State, i: nat, q: StopPc): (s': State)
    requires i < |s.threads|
    ensures |s'.threads| == |s.threads|
    ensures SameFlags(s, s')
  {
    match q
    case StopWriteWait => Goto(s, i, Stop(StopSeqWait)).(writeLock := i)
    case StopSeqWait => Goto(s, i, Stop(StopSeqHeld)).(sequenceLock := i)
    case StopSeqHeld => Goto(s, i, Stop(StopWrite)).(sequenceLock := FREE)
    case StopWrite => Emit(Goto(s, i, Stop(StopCall)), WriteStart(Shutdown, s.threads[i].gen))
    case StopCall => Emit(Goto(s, i, Stop(StopExit)), WriteEnd)
    case StopExit => Goto(s, i, Drain(Join)).(writeLock := FREE)
  }

  /** close, the join and the drain, serial.hpp:283-290. */
  function DrainStep(s: State, i: nat, d: DrainPc): (s': State)
    requires i < |s.threads|
    ensures |s'.threads| == |s.threads|
    ensures SameFlags(s, s')
  {
    match d
    case Join => Goto(s, i, Drain(DrainWait)).(worker := NoWorker)
    case DrainWait => Goto(s, i, Drain(DrainHeld)).(stateLock := i)
    case DrainHeld =>
      Put(s, i, s.threads[i].(pc := if s.active == 0 then Shut(PortWait) else Drain(DrainSleep),
                              notified := false)).(stateLock := FREE)
    case DrainSleep => Goto(s, i, Drain(DrainWait))
  }

  /** close, the transport and the flags, serial.hpp:292-303. */
  function ShutStep(s: State, i: nat, h: ShutPc): (s': State)
    requires i < |s.threads|
    ensures |s'.threads| == |s.threads|
  {
    match h
    case PortWait => Goto(s, i, Shut(DropDtr)).(writeLock := i)
    case DropDtr => Emit(Goto(s, i, Shut(ClosePort)), DtrOff)
    case ClosePort => Emit(Goto(s, i, Shut(PortExit)), TransportClose)
    case PortExit => Goto(s, i, Shut(EndWait)).(writeLock := FREE)
    case EndWait => Goto(s, i, Shut(EndHeld)).(stateLock := i)
    case EndHeld => Put(s, i, RESTING).(stateLock := FREE, closing := false, closer := FREE)
  }

  /** Where the worker goes next; `stop` and `current` are what it finds under its locks. */
  function BeatNext(pc: BeatPc, stop: bool, current: bool): BeatPc {
    match pc
    case BeatWait(timedOut) => BeatHeld(timedOut)
    case BeatHeld(timedOut) => if stop then BeatDone else if timedOut then BeatWriteWait else BeatSleep
    case BeatSleep => BeatWait(false)
    case BeatWriteWait => BeatCheckWait
    case BeatCheckWait => BeatCheckHeld
    case BeatCheckHeld => if current then BeatWrite else BeatWriteExit
    case BeatWrite => BeatCall
    case BeatCall => BeatWriteExit
    case BeatWriteExit => BeatWait(false)
    case BeatDone => BeatDone
  }

  function WorkerAfter(s: State): (w: Worker)
    requires s.worker.Worker?
    ensures w.Worker?
  {
    var v := s.worker;
    Worker(BeatNext(v.pc, s.stop, Current(s, v.gen)), v.gen, !v.pc.BeatHeld? && v.notified)
  }

  /** heartbeat_loop, serial.hpp:692-706. */
  function BeatStepOf(s: State): (s': State)
    requires CanBeat(s)
    ensures |s'.threads| == |s.threads|
    ensures SameFlags(s, s')
  {
    var w := WorkerAfter(s);
    match s.worker.pc
    case BeatWait(_) => s.(worker := w, beatLock := BEATER)
    case BeatHeld(_) => EmitIf(s, s.stop, WorkerExit).(worker := w, beatLock := FREE)
    case BeatSleep => s.(worker := w)
    case BeatWriteWait => s.(worker := w, writeLock := BEATER)
    case BeatCheckWait => s.(worker := w, stateLock := BEATER)
    case BeatCheckHeld => s.(worker := w, stateLock := FREE)
    case BeatWrite => Emit(s, WriteStart(Beat, s.worker.gen)).(worker := w)
    case BeatCall => Emit(s, WriteEnd).(worker := w)
    case BeatWriteExit => s.(worker := w, writeLock := FREE)
    case BeatDone => s
  }

  function StepOf(s: State, i: nat, choice: Choice): (s': State)
    requires CanStep(s, i)
    ensures |s'.threads| == |s.threads|
  {
    match s.threads[i].pc
    case Idle => s
    case GenWait | GenHeld => GenStep(s, i)
    case Script(r) => ScriptStep(s, i, r, choice)
    case Enter(e) => EnterStep(s, i, e, choice)
    case Exchange(x) => ExchangeStep(s, i, x, choice)
    case Leave(f) => LeaveStep(s, i, f)
    case Open(o) => OpenStep(s, i, o, choice)
    case Spawn(w) => SpawnStep(s, i, w, choice)
    case Claim(c) => ClaimStep(s, i, c)
    case Hush(u) => HushStep(s, i, u)
    case Stop(q) => StopStep(s, i, q)
    case Drain(d) => DrainStep(s, i, d)
    case Shut(h) => ShutStep(s, i, h)
  }

  function Apply(s: State, a: Action): (s': State)
    requires Enabled(s, a)
    ensures |s'.threads| == |s.threads|
  {
    match a
    case Start(i, op) => Put(s, i, StartOp(op))
    case Step(i, choice) => StepOf(s, i, choice)
    case SpuriousWake(i) => Goto(s, i, Drain(DrainWait))
    case BeatStep => BeatStepOf(s)
    case BeatTick => BeatGoto(s, BeatWait(true))
    case BeatSpuriousWake => BeatGoto(s, BeatWait(false))
  }

  /** `run` is a legal schedule from `s`. */
  ghost predicate IsRun(s: State, run: seq<Action>)
    decreases |run|
  {
    run == [] || (Enabled(s, run[0]) && IsRun(Apply(s, run[0]), run[1..]))
  }

  ghost function Final(s: State, run: seq<Action>): State
    requires IsRun(s, run)
    decreases |run|
  {
    if run == [] then s else Final(Apply(s, run[0]), run[1..])
  }
}
