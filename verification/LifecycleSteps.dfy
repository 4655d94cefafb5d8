/**
  Every step of every thread keeps the invariant, one part of the protocol at a time.
*/
module LifecycleSteps {
  import opened LifecycleTrace
  import opened LifecycleModel
  import opened LifecycleInvariant

  /** The events a step emits: none or one. */
  function Watch(m: Monitor, happens: bool, e: Event): Monitor {
    if happens then After(m, e) else m
  }

  predicate Watched(s: State, m: Monitor, s': State, happens: bool, e: Event) {
    s'.trace == (if happens then s.trace + [e] else s.trace) && (happens ==> Allowed(m, e))
  }

  lemma Accept(s: State, m: Monitor, s': State, happens: bool, e: Event)
    requires Observe(s.trace) == Accepted(m) && Watched(s, m, s', happens, e)
    ensures Observe(s'.trace) == Accepted(Watch(m, happens, e))
  {
    ObserveNext(s.trace, e);
  }

  lemma SharedBooks(s: State, m: Monitor)
    requires Shared(s, m)
    ensures Bookkeeping(s)
  {
  }

  /** A step that only puts another value in its own place leaves the other threads alone. */
  lemma PutKeepsOthers(s: State, s': State, i: nat)
    requires i < |s.threads| == |s'.threads| && s'.threads == s.threads[i := s'.threads[i]]
    ensures OthersKept(s, s', i)
  {
  }

  // ---------------------------------------------------------------------------
  // current_generation

  lemma GenPut(s: State, i: nat)
    requires CanStep(s, i)
    requires s.threads[i].pc == GenWait || s.threads[i].pc == GenHeld
    ensures OthersKept(s, GenStep(s, i), i) && GenStep(s, i).trace == s.trace
  {
    hide SameFlags, Current;
    PutKeepsOthers(s, GenStep(s, i), i);
  }

  lemma GenLocks(s: State, i: nat)
    requires CanStep(s, i) && MutexesOf(s, i)
    requires s.threads[i].pc == GenWait || s.threads[i].pc == GenHeld
    ensures MutexesOf(GenStep(s, i), i)
  {
    hide SameFlags, Current;
  }

  lemma GenTenure(s: State, i: nat)
    requires CanStep(s, i) && TenureOf(s, i) && RolesOf(s, i) && Bookkeeping(s)
    requires s.threads[i].pc == GenWait || s.threads[i].pc == GenHeld
    ensures TenureOf(GenStep(s, i), i) && RolesOf(GenStep(s, i), i)
  {
    hide SameFlags, Current;
  }

  lemma GenMoves(s: State, i: nat)
    requires CanStep(s, i) && LocksOf(s, i) && Bookkeeping(s)
    requires s.threads[i].pc == GenWait || s.threads[i].pc == GenHeld
    ensures LocksMove(s, GenStep(s, i), i)
  {
    hide SameFlags, Current;
  }

  lemma GenRespects(s: State, m: Monitor, i: nat)
    requires CanStep(s, i) && Here(s, m, i)
    requires s.threads[i].pc == GenWait || s.threads[i].pc == GenHeld
    ensures Respects(s, m, GenStep(s, i), m, i)
  {
    hide SameFlags;
  }

  lemma GenGlobal(s: State, m: Monitor, i: nat)
    requires CanStep(s, i) && Here(s, m, i)
    requires s.threads[i].pc == GenWait || s.threads[i].pc == GenHeld
    ensures Shared(GenStep(s, i), m) && BeatInv(GenStep(s, i), m)
  {
    hide SameFlags;
  }

  lemma GenPort(s: State, m: Monitor, i: nat)
    requires CanStep(s, i) && LocksOf(s, i) && PortOf(s, m, i) && Shared(s, m)
    requires s.threads[i].pc == GenWait || s.threads[i].pc == GenHeld
    ensures PortOf(GenStep(s, i), m, i)
  {
    hide SameFlags;
  }

  lemma GenIsOk(s: State, m: Monitor, i: nat)
    requires Observe(s.trace) == Accepted(m) && CanStep(s, i) && Here(s, m, i)
    requires s.threads[i].pc == GenWait || s.threads[i].pc == GenHeld
    ensures StepOk(s, m, GenStep(s, i), m, i)
  {
    hide CanStep, GenStep, Shared, BeatInv, MutexesOf, TenureOf, RolesOf, PortOf, OthersKept, LocksMove,
      Respects, Bookkeeping, Observe;
    SharedBooks(s, m);
    GenPut(s, i);
    GenLocks(s, i);
    GenTenure(s, i);
    GenMoves(s, i);
    GenRespects(s, m, i);
    GenGlobal(s, m, i);
    GenPort(s, m, i);
  }

  // ---------------------------------------------------------------------------
  // run_script outside its commands

  lemma ScriptPut(s: State, i: nat, r: ScriptPc, choice: Choice)
    requires CanStep(s, i)
    requires s.threads[i].pc == Script(r)
    ensures OthersKept(s, ScriptStep(s, i, r, choice), i) && ScriptStep(s, i, r, choice).trace == s.trace
  {
    hide SameFlags, Current;
    PutKeepsOthers(s, ScriptStep(s, i, r, choice), i);
  }

  lemma ScriptLocks(s: State, i: nat, r: ScriptPc, choice: Choice)
    requires CanStep(s, i) && MutexesOf(s, i)
    requires s.threads[i].pc == Script(r)
    ensures MutexesOf(ScriptStep(s, i, r, choice), i)
  {
    hide SameFlags, Current;
  }

  lemma ScriptTenure(s: State, i: nat, r: ScriptPc, choice: Choice)
    requires CanStep(s, i) && TenureOf(s, i) && RolesOf(s, i) && Bookkeeping(s)
    requires s.threads[i].pc == Script(r)
    ensures TenureOf(ScriptStep(s, i, r, choice), i) && RolesOf(ScriptStep(s, i, r, choice), i)
  {
    hide SameFlags, Current;
  }

  lemma ScriptMoves(s: State, i: nat, r: ScriptPc, choice: Choice)
    requires CanStep(s, i) && LocksOf(s, i) && Bookkeeping(s)
    requires s.threads[i].pc == Script(r)
    ensures LocksMove(s, ScriptStep(s, i, r, choice), i)
  {
    hide SameFlags, Current;
  }

  lemma ScriptRespects(s: State, m: Monitor, i: nat, r: ScriptPc, choice: Choice)
    requires CanStep(s, i) && Here(s, m, i)
    requires s.threads[i].pc == Script(r)
    ensures Respects(s, m, ScriptStep(s, i, r, choice), m, i)
  {
    hide SameFlags;
  }

  lemma ScriptGlobal(s: State, m: Monitor, i: nat, r: ScriptPc, choice: Choice)
    requires CanStep(s, i) && Here(s, m, i)
    requires s.threads[i].pc == Script(r)
    ensures Shared(ScriptStep(s, i, r, choice), m) && BeatInv(ScriptStep(s, i, r, choice), m)
  {
    hide SameFlags;
  }

  lemma ScriptPort(s: State, m: Monitor, i: nat, r: ScriptPc, choice: Choice)
    requires CanStep(s, i) && LocksOf(s, i) && PortOf(s, m, i) && Shared(s, m)
    requires s.threads[i].pc == Script(r)
    ensures PortOf(ScriptStep(s, i, r, choice), m, i)
  {
    hide SameFlags;
  }

  lemma ScriptIsOk(s: State, m: Monitor, i: nat, r: ScriptPc, choice: Choice)
    requires Observe(s.trace) == Accepted(m) && CanStep(s, i) && Here(s, m, i)
    requires s.threads[i].pc == Script(r)
    ensures StepOk(s, m, ScriptStep(s, i, r, choice), m, i)
  {
    hide CanStep, ScriptStep, Shared, BeatInv, MutexesOf, TenureOf, RolesOf, PortOf, OthersKept,
      LocksMove, Respects, Bookkeeping, Observe;
    SharedBooks(s, m);
    ScriptPut(s, i, r, choice);
    ScriptLocks(s, i, r, choice);
    ScriptTenure(s, i, r, choice);
    ScriptMoves(s, i, r, choice);
    ScriptRespects(s, m, i, r, choice);
    ScriptGlobal(s, m, i, r, choice);
    ScriptPort(s, m, i, r, choice);
  }

  // ---------------------------------------------------------------------------
  // a command, before its first write

  predicate EnterEmits(s: State, i: nat, e: EnterPc, choice: Choice)
    requires i < |s.threads|
  {
    e == BeginHeld && Current(s, s.threads[i].gen)
  }

  function EnterEvent(s: State, i: nat, e: EnterPc, choice: Choice): Event
    requires i < |s.threads|
  {
    CommandBegin(s.threads[i].gen)
  }

  function EnterMonitor(s: State, m: Monitor, i: nat, e: EnterPc, choice: Choice): Monitor
    requires i < |s.threads|
  {
    Watch(m, EnterEmits(s, i, e, choice), EnterEvent(s, i, e, choice))
  }

  lemma EnterPut(s: State, i: nat, e: EnterPc, choice: Choice)
    requires CanStep(s, i) && s.threads[i].pc == Enter(e)
    ensures OthersKept(s, EnterStep(s, i, e, choice), i)
  {
    hide SameFlags, Current;
    PutKeepsOthers(s, EnterStep(s, i, e, choice), i);
  }

  lemma EnterWriteLock(s: State, i: nat, e: EnterPc, choice: Choice)
    requires CanStep(s, i) && WriteLockOf(s, i) && s.threads[i].pc == Enter(e)
    ensures WriteLockOf(EnterStep(s, i, e, choice), i)
  {
    hide SameFlags, Current;
  }

  lemma EnterStateLock(s: State, i: nat, e: EnterPc, choice: Choice)
    requires CanStep(s, i) && StateLockOf(s, i) && s.threads[i].pc == Enter(e)
    ensures StateLockOf(EnterStep(s, i, e, choice), i)
  {
    hide SameFlags, Current;
  }

  lemma EnterSmallLocks(s: State, i: nat, e: EnterPc, choice: Choice)
    requires CanStep(s, i) && SmallLocksOf(s, i) && s.threads[i].pc == Enter(e)
    ensures SmallLocksOf(EnterStep(s, i, e, choice), i)
  {
    hide SameFlags, Current;
  }

  lemma EnterTenure(s: State, i: nat, e: EnterPc, choice: Choice)
    requires CanStep(s, i) && TenureOf(s, i) && Bookkeeping(s) && s.threads[i].pc == Enter(e)
    ensures TenureOf(EnterStep(s, i, e, choice), i)
  {
    hide SameFlags, Current;
  }

  lemma EnterRoles(s: State, i: nat, e: EnterPc, choice: Choice)
    requires CanStep(s, i) && RolesOf(s, i) && s.threads[i].pc == Enter(e)
    ensures RolesOf(EnterStep(s, i, e, choice), i)
  {
    hide SameFlags, Current;
  }

  lemma EnterMoves(s: State, i: nat, e: EnterPc, choice: Choice)
    requires CanStep(s, i) && LocksOf(s, i) && Bookkeeping(s) && s.threads[i].pc == Enter(e)
    ensures LocksMove(s, EnterStep(s, i, e, choice), i)
  {
    hide SameFlags, Current;
  }

  lemma EnterRespects(s: State, m: Monitor, i: nat, e: EnterPc, choice: Choice)
    requires CanStep(s, i) && Here(s, m, i) && s.threads[i].pc == Enter(e)
    ensures Respects(s, m, EnterStep(s, i, e, choice), EnterMonitor(s, m, i, e, choice), i)
  {
    hide SameFlags, BeatInv, UsesOf, ClosingAt, OpeningAt;
  }

  lemma EnterGlobal(s: State, m: Monitor, i: nat, e: EnterPc, choice: Choice)
    requires CanStep(s, i) && Here(s, m, i) && s.threads[i].pc == Enter(e)
    ensures Shared(EnterStep(s, i, e, choice), EnterMonitor(s, m, i, e, choice))
  {
    hide SameFlags, BeatInv, OpeningAt, ClosingAt;
  }

  lemma EnterBeat(s: State, m: Monitor, i: nat, e: EnterPc, choice: Choice)
    requires CanStep(s, i) && Here(s, m, i) && s.threads[i].pc == Enter(e)
    ensures BeatInv(EnterStep(s, i, e, choice), EnterMonitor(s, m, i, e, choice))
  {
    hide SameFlags, UsesOf, TenureOf;
  }

  lemma EnterUses(s: State, m: Monitor, i: nat, e: EnterPc, choice: Choice)
    requires CanStep(s, i) && LocksOf(s, i) && UsesOf(s, m, i) && Shared(s, m) && s.threads[i].pc == Enter(e)
    ensures UsesOf(EnterStep(s, i, e, choice), EnterMonitor(s, m, i, e, choice), i)
  {
    hide SameFlags;
  }

  lemma EnterProgress(s: State, m: Monitor, i: nat, e: EnterPc, choice: Choice)
    requires CanStep(s, i) && LocksOf(s, i) && ProgressOf(s, m, i) && Shared(s, m) && s.threads[i].pc == Enter(e)
    ensures ProgressOf(EnterStep(s, i, e, choice), EnterMonitor(s, m, i, e, choice), i)
  {
    hide SameFlags, TenureOf, ClosingAt, OpeningAt, MutexesOf;
  }

  lemma EnterWatched(s: State, m: Monitor, i: nat, e: EnterPc, choice: Choice)
    requires CanStep(s, i) && Here(s, m, i) && s.threads[i].pc == Enter(e)
    ensures Watched(s, m, EnterStep(s, i, e, choice), EnterEmits(s, i, e, choice), EnterEvent(s, i, e, choice))
  {
    hide SameFlags, BeatInv;
  }

  lemma EnterIsOk(s: State, m: Monitor, i: nat, e: EnterPc, choice: Choice)
    requires Observe(s.trace) == Accepted(m) && CanStep(s, i) && Here(s, m, i) && s.threads[i].pc == Enter(e)
    ensures StepOk(s, m, EnterStep(s, i, e, choice), EnterMonitor(s, m, i, e, choice), i)
  {
    hide CanStep, EnterStep, Shared, BeatInv, StateLockOf, WriteLockOf, SmallLocksOf, TenureOf, RolesOf,
      UsesOf, ProgressOf, OthersKept, LocksMove, Respects, Bookkeeping, Observe, Watched, EnterEmits,
      EnterEvent;
    EnterWatched(s, m, i, e, choice);
    Accept(s, m, EnterStep(s, i, e, choice), EnterEmits(s, i, e, choice), EnterEvent(s, i, e, choice));
    SharedBooks(s, m);
    EnterPut(s, i, e, choice);
    EnterWriteLock(s, i, e, choice);
    EnterStateLock(s, i, e, choice);
    EnterSmallLocks(s, i, e, choice);
    EnterTenure(s, i, e, choice);
    EnterRoles(s, i, e, choice);
    EnterMoves(s, i, e, choice);
    EnterRespects(s, m, i, e, choice);
    EnterGlobal(s, m, i, e, choice);
    EnterBeat(s, m, i, e, choice);
    EnterUses(s, m, i, e, choice);
    EnterProgress(s, m, i, e, choice);
  }

  // ---------------------------------------------------------------------------
  // a command, writing and reading

  predicate ExchangeEmits(s: State, i: nat, x: ExchangePc, choice: Choice)
    requires i < |s.threads|
  {
    x == Write || x == WriteCall || (x == Parse && choice == Receive) || x == ReadCall
  }

  function ExchangeEvent(s: State, i: nat, x: ExchangePc, choice: Choice): Event
    requires i < |s.threads|
  {
    if x == Write then WriteStart(Command(s.threads[i].ticket), s.threads[i].gen)
    else if x == WriteCall then WriteEnd
    else if x == Parse then ReadStart(s.threads[i].gen)
    else ReadEnd
  }

  function ExchangeMonitor(s: State, m: Monitor, i: nat, x: ExchangePc, choice: Choice): Monitor
    requires i < |s.threads|
  {
    Watch(m, ExchangeEmits(s, i, x, choice), ExchangeEvent(s, i, x, choice))
  }

  lemma ExchangePut(s: State, i: nat, x: ExchangePc, choice: Choice)
    requires CanStep(s, i) && s.threads[i].pc == Exchange(x)
    ensures OthersKept(s, ExchangeStep(s, i, x, choice), i)
  {
    hide SameFlags, ExchangeNext;
    PutKeepsOthers(s, ExchangeStep(s, i, x, choice), i);
  }

  lemma ExchangeWriteLock(s: State, i: nat, x: ExchangePc, choice: Choice)
    requires CanStep(s, i) && WriteLockOf(s, i) && s.threads[i].pc == Exchange(x)
    ensures WriteLockOf(ExchangeStep(s, i, x, choice), i)
  {
    hide SameFlags;
  }

  lemma ExchangeOtherLocks(s: State, i: nat, x: ExchangePc, choice: Choice)
    requires CanStep(s, i) && StateLockOf(s, i) && SmallLocksOf(s, i) && s.threads[i].pc == Exchange(x)
    ensures StateLockOf(ExchangeStep(s, i, x, choice), i) && SmallLocksOf(ExchangeStep(s, i, x, choice), i)
  {
    hide SameFlags, Current;
  }

  lemma ExchangeTenure(s: State, i: nat, x: ExchangePc, choice: Choice)
    requires CanStep(s, i) && TenureOf(s, i) && Bookkeeping(s) && s.threads[i].pc == Exchange(x)
    ensures TenureOf(ExchangeStep(s, i, x, choice), i)
  {
    hide SameFlags;
  }

  lemma ExchangeRoles(s: State, i: nat, x: ExchangePc, choice: Choice)
    requires CanStep(s, i) && RolesOf(s, i) && s.threads[i].pc == Exchange(x)
    ensures RolesOf(ExchangeStep(s, i, x, choice), i)
  {
    hide SameFlags, Current;
  }

  lemma ExchangeMoves(s: State, i: nat, x: ExchangePc, choice: Choice)
    requires CanStep(s, i) && LocksOf(s, i) && Bookkeeping(s) && s.threads[i].pc == Exchange(x)
    ensures LocksMove(s, ExchangeStep(s, i, x, choice), i)
  {
    hide SameFlags, ExchangeNext;
  }

  lemma ExchangeRespects(s: State, m: Monitor, i: nat, x: ExchangePc, choice: Choice)
    requires CanStep(s, i) && Here(s, m, i) && s.threads[i].pc == Exchange(x)
    ensures Respects(s, m, ExchangeStep(s, i, x, choice), ExchangeMonitor(s, m, i, x, choice), i)
  {
    hide SameFlags, BeatInv, OpeningAt, ClosingAt, ExchangeNext;
  }

  lemma ExchangeGlobal(s: State, m: Monitor, i: nat, x: ExchangePc, choice: Choice)
    requires CanStep(s, i) && Here(s, m, i) && s.threads[i].pc == Exchange(x)
    ensures Shared(ExchangeStep(s, i, x, choice), ExchangeMonitor(s, m, i, x, choice))
  {
    hide SameFlags, BeatInv, ExchangeNext;
  }

  lemma ExchangeBeat(s: State, m: Monitor, i: nat, x: ExchangePc, choice: Choice)
    requires CanStep(s, i) && Here(s, m, i) && s.threads[i].pc == Exchange(x)
    ensures BeatInv(ExchangeStep(s, i, x, choice), ExchangeMonitor(s, m, i, x, choice))
  {
    hide SameFlags, ExchangeNext, TenureOf, RolesOf;
  }

  lemma ExchangeRunner(s: State, m: Monitor, i: nat, x: ExchangePc, choice: Choice)
    requires CanStep(s, i) && LocksOf(s, i) && UsesOf(s, m, i) && Shared(s, m) && s.threads[i].pc == Exchange(x)
    ensures RunnerOf(ExchangeStep(s, i, x, choice), ExchangeMonitor(s, m, i, x, choice), i)
  {
    hide SameFlags, Shared, TenureOf;
  }

  lemma ExchangeWriter(s: State, m: Monitor, i: nat, x: ExchangePc, choice: Choice)
    requires CanStep(s, i) && LocksOf(s, i) && UsesOf(s, m, i) && Shared(s, m) && s.threads[i].pc == Exchange(x)
    ensures WriterOf(ExchangeStep(s, i, x, choice), ExchangeMonitor(s, m, i, x, choice), i)
  {
    hide SameFlags;
  }

  lemma ExchangeTicket(s: State, m: Monitor, i: nat, x: ExchangePc, choice: Choice)
    requires CanStep(s, i) && LocksOf(s, i) && UsesOf(s, m, i) && Shared(s, m) && s.threads[i].pc == Exchange(x)
    ensures TicketOf(ExchangeStep(s, i, x, choice), ExchangeMonitor(s, m, i, x, choice), i)
  {
    hide SameFlags, FlagsAtRest, RunnerOf;
  }

  lemma ExchangeUses(s: State, m: Monitor, i: nat, x: ExchangePc, choice: Choice)
    requires CanStep(s, i) && LocksOf(s, i) && UsesOf(s, m, i) && Shared(s, m) && s.threads[i].pc == Exchange(x)
    ensures UsesOf(ExchangeStep(s, i, x, choice), ExchangeMonitor(s, m, i, x, choice), i)
  {
    hide CanStep, Shared, LocksOf, RunnerOf, WriterOf, TicketOf, ExchangeStep;
    ExchangeRunner(s, m, i, x, choice);
    ExchangeWriter(s, m, i, x, choice);
    ExchangeTicket(s, m, i, x, choice);
  }

  lemma ExchangeProgress(s: State, m: Monitor, i: nat, x: ExchangePc, choice: Choice)
    requires CanStep(s, i) && LocksOf(s, i) && ProgressOf(s, m, i) && Shared(s, m) && s.threads[i].pc == Exchange(x)
    ensures ProgressOf(ExchangeStep(s, i, x, choice), ExchangeMonitor(s, m, i, x, choice), i)
  {
    hide SameFlags, TenureOf, ClosingAt, OpeningAt, MutexesOf;
  }

  lemma ExchangeWatched(s: State, m: Monitor, i: nat, x: ExchangePc, choice: Choice)
    requires CanStep(s, i) && Here(s, m, i) && s.threads[i].pc == Exchange(x)
    ensures Watched(s, m, ExchangeStep(s, i, x, choice), ExchangeEmits(s, i, x, choice), ExchangeEvent(s, i, x, choice))
  {
    hide SameFlags, ExchangeNext;
  }

  lemma ExchangeIsOk(s: State, m: Monitor, i: nat, x: ExchangePc, choice: Choice)
    requires Observe(s.trace) == Accepted(m) && CanStep(s, i) && Here(s, m, i) && s.threads[i].pc == Exchange(x)
    ensures StepOk(s, m, ExchangeStep(s, i, x, choice), ExchangeMonitor(s, m, i, x, choice), i)
  {
    hide CanStep, ExchangeStep, Shared, BeatInv, StateLockOf, WriteLockOf, SmallLocksOf, TenureOf,
      RolesOf, UsesOf, ProgressOf, OthersKept, LocksMove, Respects, Bookkeeping, Observe, Watched,
      ExchangeEmits, ExchangeEvent;
    ExchangeWatched(s, m, i, x, choice);
    Accept(s, m, ExchangeStep(s, i, x, choice), ExchangeEmits(s, i, x, choice), ExchangeEvent(s, i, x, choice));
    SharedBooks(s, m);
    ExchangePut(s, i, x, choice);
    ExchangeWriteLock(s, i, x, choice);
    ExchangeOtherLocks(s, i, x, choice);
    ExchangeTenure(s, i, x, choice);
    ExchangeRoles(s, i, x, choice);
    ExchangeMoves(s, i, x, choice);
    ExchangeRespects(s, m, i, x, choice);
    ExchangeGlobal(s, m, i, x, choice);
    ExchangeBeat(s, m, i, x, choice);
    ExchangeUses(s, m, i, x, choice);
    ExchangeProgress(s, m, i, x, choice);
  }

  // ---------------------------------------------------------------------------
  // a command, leaving

  predicate LeaveEmits(s: State, i: nat, f: LeavePc)
    requires i < |s.threads|
  {
    f.FinishHeld?
  }

  function LeaveEvent(s: State, i: nat, f: LeavePc): Event
    requires i < |s.threads|
  {
    CommandEnd
  }

  function LeaveMonitor(s: State, m: Monitor, i: nat, f: LeavePc): Monitor
    requires i < |s.threads|
  {
    Watch(m, LeaveEmits(s, i, f), LeaveEvent(s, i, f))
  }

  lemma LeavePut(s: State, i: nat, f: LeavePc)
    requires CanStep(s, i)
    requires s.threads[i].pc == Leave(f)
    ensures OthersKept(s, LeaveStep(s, i, f), i)
  {
    hide SameFlags, Current;
  }

  lemma LeaveLocks(s: State, i: nat, f: LeavePc)
    requires CanStep(s, i) && MutexesOf(s, i)
    requires s.threads[i].pc == Leave(f)
    ensures MutexesOf(LeaveStep(s, i, f), i)
  {
    hide SameFlags, Current;
  }

  lemma LeaveTenure(s: State, i: nat, f: LeavePc)
    requires CanStep(s, i) && TenureOf(s, i) && RolesOf(s, i) && Bookkeeping(s)
    requires s.threads[i].pc == Leave(f)
    ensures TenureOf(LeaveStep(s, i, f), i) && RolesOf(LeaveStep(s, i, f), i)
  {
    hide SameFlags, Current;
  }

  lemma LeaveMoves(s: State, i: nat, f: LeavePc)
    requires CanStep(s, i) && LocksOf(s, i) && Bookkeeping(s)
    requires s.threads[i].pc == Leave(f)
    ensures LocksMove(s, LeaveStep(s, i, f), i)
  {
    hide SameFlags, Current;
  }

  lemma LeaveRespects(s: State, m: Monitor, i: nat, f: LeavePc)
    requires CanStep(s, i) && Here(s, m, i)
    requires s.threads[i].pc == Leave(f)
    ensures Respects(s, m, LeaveStep(s, i, f), LeaveMonitor(s, m, i, f), i)
  {
    hide SameFlags;
  }

  lemma LeaveGlobal(s: State, m: Monitor, i: nat, f: LeavePc)
    requires CanStep(s, i) && Here(s, m, i)
    requires s.threads[i].pc == Leave(f)
    ensures Shared(LeaveStep(s, i, f), LeaveMonitor(s, m, i, f))
  {
    hide SameFlags;
  }

  lemma LeaveBeat(s: State, m: Monitor, i: nat, f: LeavePc)
    requires CanStep(s, i) && Here(s, m, i)
    requires s.threads[i].pc == Leave(f)
    ensures BeatInv(LeaveStep(s, i, f), LeaveMonitor(s, m, i, f))
  {
    hide SameFlags, PortOf, TenureOf, RolesOf;
  }

  lemma LeavePort(s: State, m: Monitor, i: nat, f: LeavePc)
    requires CanStep(s, i) && LocksOf(s, i) && PortOf(s, m, i) && Shared(s, m)
    requires s.threads[i].pc == Leave(f)
    ensures PortOf(LeaveStep(s, i, f), LeaveMonitor(s, m, i, f), i)
  {
    hide SameFlags;
  }

  lemma LeaveWatched(s: State, m: Monitor, i: nat, f: LeavePc)
    requires CanStep(s, i) && Here(s, m, i)
    requires s.threads[i].pc == Leave(f)
    ensures Watched(s, m, LeaveStep(s, i, f), LeaveEmits(s, i, f), LeaveEvent(s, i, f))
  {
    hide SameFlags;
  }

  lemma LeaveIsOk(s: State, m: Monitor, i: nat, f: LeavePc)
    requires Observe(s.trace) == Accepted(m) && CanStep(s, i) && Here(s, m, i)
    requires s.threads[i].pc == Leave(f)
    ensures StepOk(s, m, LeaveStep(s, i, f), LeaveMonitor(s, m, i, f), i)
  {
    hide CanStep, LeaveStep, Shared, BeatInv, MutexesOf, TenureOf, RolesOf, PortOf, OthersKept,
      LocksMove, Respects, Bookkeeping, Observe, Watched, LeaveEmits, LeaveEvent;
    LeaveWatched(s, m, i, f);
    Accept(s, m, LeaveStep(s, i, f), LeaveEmits(s, i, f), LeaveEvent(s, i, f));
    SharedBooks(s, m);
    LeavePut(s, i, f);
    LeaveLocks(s, i, f);
    LeaveTenure(s, i, f);
    LeaveMoves(s, i, f);
    LeaveRespects(s, m, i, f);
    LeaveGlobal(s, m, i, f);
    LeaveBeat(s, m, i, f);
    LeavePort(s, m, i, f);
  }

  // ---------------------------------------------------------------------------
  // open, up to the publication

  predicate OpenEmits(s: State, i: nat, o: OpenPc, choice: Choice)
    requires i < |s.threads|
  {
    (o == OpenHeld && !s.isOpen && !s.closing && s.worker.NoWorker? && choice != Throw)
    || o == OpenDtr
    || o == OpenPublish
  }

  function OpenEvent(s: State, i: nat, o: OpenPc, choice: Choice): Event
    requires i < |s.threads|
  {
    if o == OpenHeld then TransportOpen else if o == OpenDtr then DtrOn(choice != Throw) else Publish(s.generation + 1)
  }

  function OpenMonitor(s: State, m: Monitor, i: nat, o: OpenPc, choice: Choice): Monitor
    requires i < |s.threads|
  {
    Watch(m, OpenEmits(s, i, o, choice), OpenEvent(s, i, o, choice))
  }

  lemma OpenPut(s: State, i: nat, o: OpenPc, choice: Choice)
    requires CanStep(s, i) && s.threads[i].pc == Open(o)
    ensures OthersKept(s, OpenStep(s, i, o, choice), i)
  {
    hide SameFlags, Current;
    PutKeepsOthers(s, OpenStep(s, i, o, choice), i);
  }

  lemma OpenWriteLock(s: State, i: nat, o: OpenPc, choice: Choice)
    requires CanStep(s, i) && WriteLockOf(s, i) && s.threads[i].pc == Open(o)
    ensures WriteLockOf(OpenStep(s, i, o, choice), i)
  {
    hide SameFlags, Current;
  }

  lemma OpenOtherLocks(s: State, i: nat, o: OpenPc, choice: Choice)
    requires CanStep(s, i) && StateLockOf(s, i) && SmallLocksOf(s, i) && s.threads[i].pc == Open(o)
    ensures StateLockOf(OpenStep(s, i, o, choice), i) && SmallLocksOf(OpenStep(s, i, o, choice), i)
  {
    hide SameFlags, Current;
  }

  lemma OpenTenure(s: State, i: nat, o: OpenPc, choice: Choice)
    requires CanStep(s, i) && TenureOf(s, i) && Bookkeeping(s) && s.threads[i].pc == Open(o)
    ensures TenureOf(OpenStep(s, i, o, choice), i)
  {
    hide SameFlags, Current;
  }

  lemma OpenRoles(s: State, i: nat, o: OpenPc, choice: Choice)
    requires CanStep(s, i) && RolesOf(s, i) && s.threads[i].pc == Open(o)
    ensures RolesOf(OpenStep(s, i, o, choice), i)
  {
    hide SameFlags, Current;
  }

  lemma OpenMoves(s: State, i: nat, o: OpenPc, choice: Choice)
    requires CanStep(s, i) && LocksOf(s, i) && Bookkeeping(s) && s.threads[i].pc == Open(o)
    ensures LocksMove(s, OpenStep(s, i, o, choice), i)
  {
    hide SameFlags, Current;
  }

  lemma OpenRespects(s: State, m: Monitor, i: nat, o: OpenPc, choice: Choice)
    requires CanStep(s, i) && Here(s, m, i) && s.threads[i].pc == Open(o)
    ensures Respects(s, m, OpenStep(s, i, o, choice), OpenMonitor(s, m, i, o, choice), i)
  {
    hide SameFlags;
  }

  lemma OpenGlobal(s: State, m: Monitor, i: nat, o: OpenPc, choice: Choice)
    requires CanStep(s, i) && Here(s, m, i) && s.threads[i].pc == Open(o)
    ensures Shared(OpenStep(s, i, o, choice), OpenMonitor(s, m, i, o, choice))
  {
    hide SameFlags;
  }

  lemma OpenBeat(s: State, m: Monitor, i: nat, o: OpenPc, choice: Choice)
    requires CanStep(s, i) && Here(s, m, i) && s.threads[i].pc == Open(o)
    ensures BeatInv(OpenStep(s, i, o, choice), OpenMonitor(s, m, i, o, choice))
  {
    hide SameFlags, UsesOf, TenureOf, OpeningAt;
  }

  lemma OpenUses(s: State, m: Monitor, i: nat, o: OpenPc, choice: Choice)
    requires CanStep(s, i) && LocksOf(s, i) && UsesOf(s, m, i) && Shared(s, m) && s.threads[i].pc == Open(o)
    ensures UsesOf(OpenStep(s, i, o, choice), OpenMonitor(s, m, i, o, choice), i)
  {
    hide SameFlags;
  }

  lemma OpenProgress(s: State, m: Monitor, i: nat, o: OpenPc, choice: Choice)
    requires CanStep(s, i) && LocksOf(s, i) && ProgressOf(s, m, i) && Shared(s, m) && s.threads[i].pc == Open(o)
    ensures ProgressOf(OpenStep(s, i, o, choice), OpenMonitor(s, m, i, o, choice), i)
  {
    hide SameFlags, TenureOf, HoldsCommand, ClosingAt, UsesPort, HoldsWrite, HoldsBeat, HoldsSequence,
      Current;
  }

  lemma OpenWatched(s: State, m: Monitor, i: nat, o: OpenPc, choice: Choice)
    requires CanStep(s, i) && Here(s, m, i) && s.threads[i].pc == Open(o)
    ensures Watched(s, m, OpenStep(s, i, o, choice), OpenEmits(s, i, o, choice), OpenEvent(s, i, o, choice))
  {
    hide SameFlags, TenureOf, BeatInv;
  }

  lemma OpenIsOk(s: State, m: Monitor, i: nat, o: OpenPc, choice: Choice)
    requires Observe(s.trace) == Accepted(m) && CanStep(s, i) && Here(s, m, i) && s.threads[i].pc == Open(o)
    ensures StepOk(s, m, OpenStep(s, i, o, choice), OpenMonitor(s, m, i, o, choice), i)
  {
    hide CanStep, OpenStep, Shared, BeatInv, StateLockOf, WriteLockOf, SmallLocksOf, TenureOf, RolesOf,
      UsesOf, ProgressOf, OthersKept, LocksMove, Respects, Bookkeeping, Observe, Watched, OpenEmits,
      OpenEvent;
    OpenWatched(s, m, i, o, choice);
    Accept(s, m, OpenStep(s, i, o, choice), OpenEmits(s, i, o, choice), OpenEvent(s, i, o, choice));
    SharedBooks(s, m);
    OpenPut(s, i, o, choice);
    OpenWriteLock(s, i, o, choice);
    OpenOtherLocks(s, i, o, choice);
    OpenTenure(s, i, o, choice);
    OpenRoles(s, i, o, choice);
    OpenMoves(s, i, o, choice);
    OpenRespects(s, m, i, o, choice);
    OpenGlobal(s, m, i, o, choice);
    OpenBeat(s, m, i, o, choice);
    OpenUses(s, m, i, o, choice);
    OpenProgress(s, m, i, o, choice);
  }

  // ---------------------------------------------------------------------------
  // open, the worker or the way back

  predicate SpawnEmits(s: State, i: nat, w: SpawnPc, choice: Choice)
    requires i < |s.threads|
  {
    (w == SpawnThread && choice != Throw) || w == SpawnLower || w == SpawnAbort
  }

  function SpawnEvent(s: State, i: nat, w: SpawnPc, choice: Choice): Event
    requires i < |s.threads|
  {
    if w == SpawnThread then WorkerStart(s.generation) else if w == SpawnLower then DtrOff else TransportClose
  }

  function SpawnMonitor(s: State, m: Monitor, i: nat, w: SpawnPc, choice: Choice): Monitor
    requires i < |s.threads|
  {
    Watch(m, SpawnEmits(s, i, w, choice), SpawnEvent(s, i, w, choice))
  }

  lemma SpawnPut(s: State, i: nat, w: SpawnPc, choice: Choice)
    requires CanStep(s, i) && s.threads[i].pc == Spawn(w)
    ensures OthersKept(s, SpawnStep(s, i, w, choice), i)
  {
    hide SameFlags, Current;
    PutKeepsOthers(s, SpawnStep(s, i, w, choice), i);
  }

  lemma SpawnWriteLock(s: State, i: nat, w: SpawnPc, choice: Choice)
    requires CanStep(s, i) && WriteLockOf(s, i) && s.threads[i].pc == Spawn(w)
    ensures WriteLockOf(SpawnStep(s, i, w, choice), i)
  {
    hide SameFlags, Current;
  }

  lemma SpawnOtherLocks(s: State, i: nat, w: SpawnPc, choice: Choice)
    requires CanStep(s, i) && StateLockOf(s, i) && SmallLocksOf(s, i) && s.threads[i].pc == Spawn(w)
    ensures StateLockOf(SpawnStep(s, i, w, choice), i) && SmallLocksOf(SpawnStep(s, i, w, choice), i)
  {
    hide SameFlags, Current;
  }

  lemma SpawnTenure(s: State, i: nat, w: SpawnPc, choice: Choice)
    requires CanStep(s, i) && TenureOf(s, i) && Bookkeeping(s) && s.threads[i].pc == Spawn(w)
    ensures TenureOf(SpawnStep(s, i, w, choice), i)
  {
    hide SameFlags, Current;
  }

  lemma SpawnRoles(s: State, i: nat, w: SpawnPc, choice: Choice)
    requires CanStep(s, i) && RolesOf(s, i) && s.threads[i].pc == Spawn(w)
    ensures RolesOf(SpawnStep(s, i, w, choice), i)
  {
    hide SameFlags, Current;
  }

  lemma SpawnMoves(s: State, i: nat, w: SpawnPc, choice: Choice)
    requires CanStep(s, i) && LocksOf(s, i) && Bookkeeping(s) && s.threads[i].pc == Spawn(w)
    ensures LocksMove(s, SpawnStep(s, i, w, choice), i)
  {
    hide SameFlags, Current;
  }

  lemma SpawnRespects(s: State, m: Monitor, i: nat, w: SpawnPc, choice: Choice)
    requires CanStep(s, i) && Here(s, m, i) && s.threads[i].pc == Spawn(w)
    ensures Respects(s, m, SpawnStep(s, i, w, choice), SpawnMonitor(s, m, i, w, choice), i)
  {
    hide SameFlags;
  }

  lemma SpawnGlobal(s: State, m: Monitor, i: nat, w: SpawnPc, choice: Choice)
    requires CanStep(s, i) && Here(s, m, i) && s.threads[i].pc == Spawn(w)
    ensures Shared(SpawnStep(s, i, w, choice), SpawnMonitor(s, m, i, w, choice))
  {
    hide SameFlags, BeatInv, TenureOf;
  }

  lemma SpawnBeat(s: State, m: Monitor, i: nat, w: SpawnPc, choice: Choice)
    requires CanStep(s, i) && Here(s, m, i) && s.threads[i].pc == Spawn(w)
    ensures BeatInv(SpawnStep(s, i, w, choice), SpawnMonitor(s, m, i, w, choice))
  {
    hide SameFlags, TenureOf;
  }

  lemma SpawnUses(s: State, m: Monitor, i: nat, w: SpawnPc, choice: Choice)
    requires CanStep(s, i) && LocksOf(s, i) && UsesOf(s, m, i) && Shared(s, m) && s.threads[i].pc == Spawn(w)
    ensures UsesOf(SpawnStep(s, i, w, choice), SpawnMonitor(s, m, i, w, choice), i)
  {
    hide SameFlags;
  }

  lemma SpawnProgress(s: State, m: Monitor, i: nat, w: SpawnPc, choice: Choice)
    requires CanStep(s, i) && LocksOf(s, i) && ProgressOf(s, m, i) && Shared(s, m) && s.threads[i].pc == Spawn(w)
    ensures ProgressOf(SpawnStep(s, i, w, choice), SpawnMonitor(s, m, i, w, choice), i)
  {
    hide SameFlags, TenureOf, MutexesOf;
  }

  lemma SpawnWatched(s: State, m: Monitor, i: nat, w: SpawnPc, choice: Choice)
    requires CanStep(s, i) && Here(s, m, i) && s.threads[i].pc == Spawn(w)
    ensures Watched(s, m, SpawnStep(s, i, w, choice), SpawnEmits(s, i, w, choice), SpawnEvent(s, i, w, choice))
  {
    hide SameFlags;
  }

  lemma SpawnIsOk(s: State, m: Monitor, i: nat, w: SpawnPc, choice: Choice)
    requires Observe(s.trace) == Accepted(m) && CanStep(s, i) && Here(s, m, i) && s.threads[i].pc == Spawn(w)
    ensures StepOk(s, m, SpawnStep(s, i, w, choice), SpawnMonitor(s, m, i, w, choice), i)
  {
    hide CanStep, SpawnStep, Shared, BeatInv, StateLockOf, WriteLockOf, SmallLocksOf, TenureOf, RolesOf,
      UsesOf, ProgressOf, OthersKept, LocksMove, Respects, Bookkeeping, Observe, Watched, SpawnEmits,
      SpawnEvent;
    SpawnWatched(s, m, i, w, choice);
    Accept(s, m, SpawnStep(s, i, w, choice), SpawnEmits(s, i, w, choice), SpawnEvent(s, i, w, choice));
    SharedBooks(s, m);
    SpawnPut(s, i, w, choice);
    SpawnWriteLock(s, i, w, choice);
    SpawnOtherLocks(s, i, w, choice);
    SpawnTenure(s, i, w, choice);
    SpawnRoles(s, i, w, choice);
    SpawnMoves(s, i, w, choice);
    SpawnRespects(s, m, i, w, choice);
    SpawnGlobal(s, m, i, w, choice);
    SpawnBeat(s, m, i, w, choice);
    SpawnUses(s, m, i, w, choice);
    SpawnProgress(s, m, i, w, choice);
  }

  // ---------------------------------------------------------------------------
  // close, claiming the session

  lemma ClaimPut(s: State, i: nat, c: ClaimPc)
    requires CanStep(s, i)
    requires s.threads[i].pc == Claim(c)
    ensures OthersKept(s, ClaimStep(s, i, c), i) && ClaimStep(s, i, c).trace == s.trace
  {
    hide SameFlags, Current;
    PutKeepsOthers(s, ClaimStep(s, i, c), i);
  }

  lemma ClaimLocks(s: State, i: nat, c: ClaimPc)
    requires CanStep(s, i) && MutexesOf(s, i)
    requires s.threads[i].pc == Claim(c)
    ensures MutexesOf(ClaimStep(s, i, c), i)
  {
    hide SameFlags, Current;
  }

  lemma ClaimTenure(s: State, i: nat, c: ClaimPc)
    requires CanStep(s, i) && TenureOf(s, i) && RolesOf(s, i) && Bookkeeping(s)
    requires s.threads[i].pc == Claim(c)
    ensures TenureOf(ClaimStep(s, i, c), i) && RolesOf(ClaimStep(s, i, c), i)
  {
    hide SameFlags, Current;
  }

  lemma ClaimMoves(s: State, i: nat, c: ClaimPc)
    requires CanStep(s, i) && LocksOf(s, i) && Bookkeeping(s)
    requires s.threads[i].pc == Claim(c)
    ensures LocksMove(s, ClaimStep(s, i, c), i)
  {
    hide SameFlags, Current;
  }

  lemma ClaimRespects(s: State, m: Monitor, i: nat, c: ClaimPc)
    requires CanStep(s, i) && Here(s, m, i)
    requires s.threads[i].pc == Claim(c)
    ensures Respects(s, m, ClaimStep(s, i, c), m, i)
  {
    hide SameFlags;
  }

  lemma ClaimGlobal(s: State, m: Monitor, i: nat, c: ClaimPc)
    requires CanStep(s, i) && Here(s, m, i)
    requires s.threads[i].pc == Claim(c)
    ensures Shared(ClaimStep(s, i, c), m) && BeatInv(ClaimStep(s, i, c), m)
  {
    hide SameFlags;
  }

  lemma ClaimPort(s: State, m: Monitor, i: nat, c: ClaimPc)
    requires CanStep(s, i) && LocksOf(s, i) && PortOf(s, m, i) && Shared(s, m)
    requires s.threads[i].pc == Claim(c)
    ensures PortOf(ClaimStep(s, i, c), m, i)
  {
    hide SameFlags;
  }

  lemma ClaimIsOk(s: State, m: Monitor, i: nat, c: ClaimPc)
    requires Observe(s.trace) == Accepted(m) && CanStep(s, i) && Here(s, m, i)
    requires s.threads[i].pc == Claim(c)
    ensures StepOk(s, m, ClaimStep(s, i, c), m, i)
  {
    hide CanStep, ClaimStep, Shared, BeatInv, MutexesOf, TenureOf, RolesOf, PortOf, OthersKept,
      LocksMove, Respects, Bookkeeping, Observe;
    SharedBooks(s, m);
    ClaimPut(s, i, c);
    ClaimLocks(s, i, c);
    ClaimTenure(s, i, c);
    ClaimMoves(s, i, c);
    ClaimRespects(s, m, i, c);
    ClaimGlobal(s, m, i, c);
    ClaimPort(s, m, i, c);
  }

  // ---------------------------------------------------------------------------
  // close, silencing worker and reader

  predicate HushEmits(s: State, i: nat, u: HushPc)
    requires i < |s.threads|
  {
    u == HushCancel
  }

  function HushEvent(s: State, i: nat, u: HushPc): Event
    requires i < |s.threads|
  {
    CancelRead
  }

  function HushMonitor(s: State, m: Monitor, i: nat, u: HushPc): Monitor
    requires i < |s.threads|
  {
    Watch(m, HushEmits(s, i, u), HushEvent(s, i, u))
  }

  lemma HushPut(s: State, i: nat, u: HushPc)
    requires CanStep(s, i)
    requires s.threads[i].pc == Hush(u)
    ensures OthersKept(s, HushStep(s, i, u), i)
  {
    hide SameFlags, Current;
    PutKeepsOthers(s, HushStep(s, i, u), i);
  }

  lemma HushLocks(s: State, i: nat, u: HushPc)
    requires CanStep(s, i) && MutexesOf(s, i)
    requires s.threads[i].pc == Hush(u)
    ensures MutexesOf(HushStep(s, i, u), i)
  {
    hide SameFlags, Current;
  }

  lemma HushTenure(s: State, i: nat, u: HushPc)
    requires CanStep(s, i) && TenureOf(s, i) && RolesOf(s, i) && Bookkeeping(s)
    requires s.threads[i].pc == Hush(u)
    ensures TenureOf(HushStep(s, i, u), i) && RolesOf(HushStep(s, i, u), i)
  {
    hide SameFlags, Current;
  }

  lemma HushMoves(s: State, i: nat, u: HushPc)
    requires CanStep(s, i) && LocksOf(s, i) && Bookkeeping(s)
    requires s.threads[i].pc == Hush(u)
    ensures LocksMove(s, HushStep(s, i, u), i)
  {
    hide SameFlags, Current;
  }

  lemma HushRespects(s: State, m: Monitor, i: nat, u: HushPc)
    requires CanStep(s, i) && Here(s, m, i)
    requires s.threads[i].pc == Hush(u)
    ensures Respects(s, m, HushStep(s, i, u), HushMonitor(s, m, i, u), i)
  {
    hide SameFlags, BeatInv, UsesOf, ClosingAt, OpeningAt;
  }

  lemma HushGlobal(s: State, m: Monitor, i: nat, u: HushPc)
    requires CanStep(s, i) && Here(s, m, i)
    requires s.threads[i].pc == Hush(u)
    ensures Shared(HushStep(s, i, u), HushMonitor(s, m, i, u)) && BeatInv(HushStep(s, i, u), HushMonitor(s, m, i, u))
  {
    hide SameFlags;
  }

  lemma HushPort(s: State, m: Monitor, i: nat, u: HushPc)
    requires CanStep(s, i) && LocksOf(s, i) && PortOf(s, m, i) && Shared(s, m)
    requires s.threads[i].pc == Hush(u)
    ensures PortOf(HushStep(s, i, u), HushMonitor(s, m, i, u), i)
  {
    hide SameFlags;
  }

  lemma HushWatched(s: State, m: Monitor, i: nat, u: HushPc)
    requires CanStep(s, i) && Here(s, m, i)
    requires s.threads[i].pc == Hush(u)
    ensures Watched(s, m, HushStep(s, i, u), HushEmits(s, i, u), HushEvent(s, i, u))
  {
    hide SameFlags, TenureOf, MutexesOf, BeatInv;
  }

  lemma HushIsOk(s: State, m: Monitor, i: nat, u: HushPc)
    requires Observe(s.trace) == Accepted(m) && CanStep(s, i) && Here(s, m, i)
    requires s.threads[i].pc == Hush(u)
    ensures StepOk(s, m, HushStep(s, i, u), HushMonitor(s, m, i, u), i)
  {
    hide CanStep, HushStep, Shared, BeatInv, MutexesOf, TenureOf, RolesOf, PortOf, OthersKept, LocksMove,
      Respects, Bookkeeping, Observe, Watched, HushEmits, HushEvent;
    HushWatched(s, m, i, u);
    Accept(s, m, HushStep(s, i, u), HushEmits(s, i, u), HushEvent(s, i, u));
    SharedBooks(s, m);
    HushPut(s, i, u);
    HushLocks(s, i, u);
    HushTenure(s, i, u);
    HushMoves(s, i, u);
    HushRespects(s, m, i, u);
    HushGlobal(s, m, i, u);
    HushPort(s, m, i, u);
  }

  // ---------------------------------------------------------------------------
  // close, its StopAll

  predicate StopEmits(s: State, i: nat, q: StopPc)
    requires i < |s.threads|
  {
    q == StopWrite || q == StopCall
  }

  function StopEvent(s: State, i: nat, q: StopPc): Event
    requires i < |s.threads|
  {
    if q == StopWrite then WriteStart(Shutdown, s.threads[i].gen) else WriteEnd
  }

  function StopMonitor(s: State, m: Monitor, i: nat, q: StopPc): Monitor
    requires i < |s.threads|
  {
    Watch(m, StopEmits(s, i, q), StopEvent(s, i, q))
  }

  lemma StopPut(s: State, i: nat, q: StopPc)
    requires CanStep(s, i) && s.threads[i].pc == Stop(q)
    ensures OthersKept(s, StopStep(s, i, q), i)
  {
    hide SameFlags, Current;
    PutKeepsOthers(s, StopStep(s, i, q), i);
  }

  lemma StopWriteLock(s: State, i: nat, q: StopPc)
    requires CanStep(s, i) && WriteLockOf(s, i) && s.threads[i].pc == Stop(q)
    ensures WriteLockOf(StopStep(s, i, q), i)
  {
    hide SameFlags, Current;
  }

  lemma StopStateLock(s: State, i: nat, q: StopPc)
    requires CanStep(s, i) && StateLockOf(s, i) && s.threads[i].pc == Stop(q)
    ensures StateLockOf(StopStep(s, i, q), i)
  {
    hide SameFlags, Current;
  }

  lemma StopSmallLocks(s: State, i: nat, q: StopPc)
    requires CanStep(s, i) && SmallLocksOf(s, i) && s.threads[i].pc == Stop(q)
    ensures SmallLocksOf(StopStep(s, i, q), i)
  {
    hide SameFlags, Current;
  }

  lemma StopTenure(s: State, i: nat, q: StopPc)
    requires CanStep(s, i) && TenureOf(s, i) && Bookkeeping(s) && s.threads[i].pc == Stop(q)
    ensures TenureOf(StopStep(s, i, q), i)
  {
    hide SameFlags, Current;
  }

  lemma StopRoles(s: State, i: nat, q: StopPc)
    requires CanStep(s, i) && RolesOf(s, i) && s.threads[i].pc == Stop(q)
    ensures RolesOf(StopStep(s, i, q), i)
  {
    hide SameFlags, Current;
  }

  lemma StopMoves(s: State, i: nat, q: StopPc)
    requires CanStep(s, i) && LocksOf(s, i) && Bookkeeping(s) && s.threads[i].pc == Stop(q)
    ensures LocksMove(s, StopStep(s, i, q), i)
  {
    hide SameFlags, Current;
  }

  lemma StopRespects(s: State, m: Monitor, i: nat, q: StopPc)
    requires CanStep(s, i) && Here(s, m, i) && s.threads[i].pc == Stop(q)
    ensures Respects(s, m, StopStep(s, i, q), StopMonitor(s, m, i, q), i)
  {
    hide SameFlags, BeatInv, UsesOf, ClosingAt, OpeningAt;
  }

  lemma StopGlobal(s: State, m: Monitor, i: nat, q: StopPc)
    requires CanStep(s, i) && Here(s, m, i) && s.threads[i].pc == Stop(q)
    ensures Shared(StopStep(s, i, q), StopMonitor(s, m, i, q))
  {
    hide SameFlags, TenureOf, ProgressOf;
  }

  lemma StopBeat(s: State, m: Monitor, i: nat, q: StopPc)
    requires CanStep(s, i) && Here(s, m, i) && s.threads[i].pc == Stop(q)
    ensures BeatInv(StopStep(s, i, q), StopMonitor(s, m, i, q))
  {
    hide SameFlags, ProgressOf, TenureOf;
  }

  lemma StopUses(s: State, m: Monitor, i: nat, q: StopPc)
    requires CanStep(s, i) && LocksOf(s, i) && UsesOf(s, m, i) && Shared(s, m) && s.threads[i].pc == Stop(q)
    ensures UsesOf(StopStep(s, i, q), StopMonitor(s, m, i, q), i)
  {
    hide SameFlags, FlagsAtRest, SmallLocksOf;
  }

  lemma StopProgress(s: State, m: Monitor, i: nat, q: StopPc)
    requires CanStep(s, i) && LocksOf(s, i) && ProgressOf(s, m, i) && Shared(s, m) && s.threads[i].pc == Stop(q)
    ensures ProgressOf(StopStep(s, i, q), StopMonitor(s, m, i, q), i)
  {
    hide SameFlags, TenureOf, MutexesOf, OpeningAt;
  }

  lemma StopWatched(s: State, m: Monitor, i: nat, q: StopPc)
    requires CanStep(s, i) && Here(s, m, i) && s.threads[i].pc == Stop(q)
    ensures Watched(s, m, StopStep(s, i, q), StopEmits(s, i, q), StopEvent(s, i, q))
  {
    hide SameFlags, BeatInv;
  }

  lemma StopIsOk(s: State, m: Monitor, i: nat, q: StopPc)
    requires Observe(s.trace) == Accepted(m) && CanStep(s, i) && Here(s, m, i) && s.threads[i].pc == Stop(q)
    ensures StepOk(s, m, StopStep(s, i, q), StopMonitor(s, m, i, q), i)
  {
    hide CanStep, StopStep, Shared, BeatInv, StateLockOf, WriteLockOf, SmallLocksOf, TenureOf, RolesOf,
      UsesOf, ProgressOf, OthersKept, LocksMove, Respects, Bookkeeping, Observe, Watched, StopEmits,
      StopEvent;
    StopWatched(s, m, i, q);
    Accept(s, m, StopStep(s, i, q), StopEmits(s, i, q), StopEvent(s, i, q));
    SharedBooks(s, m);
    StopPut(s, i, q);
    StopWriteLock(s, i, q);
    StopStateLock(s, i, q);
    StopSmallLocks(s, i, q);
    StopTenure(s, i, q);
    StopRoles(s, i, q);
    StopMoves(s, i, q);
    StopRespects(s, m, i, q);
    StopGlobal(s, m, i, q);
    StopBeat(s, m, i, q);
    StopUses(s, m, i, q);
    StopProgress(s, m, i, q);
  }

  // ---------------------------------------------------------------------------
  // close, join and drain

  lemma DrainPut(s: State, i: nat, d: DrainPc)
    requires CanStep(s, i)
    requires s.threads[i].pc == Drain(d)
    ensures OthersKept(s, DrainStep(s, i, d), i) && DrainStep(s, i, d).trace == s.trace
  {
    hide SameFlags, Current;
    PutKeepsOthers(s, DrainStep(s, i, d), i);
  }

  lemma DrainLocks(s: State, i: nat, d: DrainPc)
    requires CanStep(s, i) && MutexesOf(s, i)
    requires s.threads[i].pc == Drain(d)
    ensures MutexesOf(DrainStep(s, i, d), i)
  {
    hide SameFlags, Current;
  }

  lemma DrainTenure(s: State, i: nat, d: DrainPc)
    requires CanStep(s, i) && TenureOf(s, i) && RolesOf(s, i) && Bookkeeping(s)
    requires s.threads[i].pc == Drain(d)
    ensures TenureOf(DrainStep(s, i, d), i) && RolesOf(DrainStep(s, i, d), i)
  {
    hide SameFlags, Current;
  }

  lemma DrainMoves(s: State, i: nat, d: DrainPc)
    requires CanStep(s, i) && LocksOf(s, i) && Bookkeeping(s)
    requires s.threads[i].pc == Drain(d)
    ensures LocksMove(s, DrainStep(s, i, d), i)
  {
    hide SameFlags, Current;
  }

  lemma DrainRespects(s: State, m: Monitor, i: nat, d: DrainPc)
    requires CanStep(s, i) && Here(s, m, i)
    requires s.threads[i].pc == Drain(d)
    ensures Respects(s, m, DrainStep(s, i, d), m, i)
  {
    hide SameFlags;
  }

  lemma DrainGlobal(s: State, m: Monitor, i: nat, d: DrainPc)
    requires CanStep(s, i) && Here(s, m, i)
    requires s.threads[i].pc == Drain(d)
    ensures Shared(DrainStep(s, i, d), m) && BeatInv(DrainStep(s, i, d), m)
  {
    hide SameFlags;
  }

  lemma DrainPort(s: State, m: Monitor, i: nat, d: DrainPc)
    requires CanStep(s, i) && LocksOf(s, i) && PortOf(s, m, i) && Shared(s, m)
    requires s.threads[i].pc == Drain(d)
    ensures PortOf(DrainStep(s, i, d), m, i)
  {
    hide SameFlags;
  }

  lemma DrainIsOk(s: State, m: Monitor, i: nat, d: DrainPc)
    requires Observe(s.trace) == Accepted(m) && CanStep(s, i) && Here(s, m, i)
    requires s.threads[i].pc == Drain(d)
    ensures StepOk(s, m, DrainStep(s, i, d), m, i)
  {
    hide CanStep, DrainStep, Shared, BeatInv, MutexesOf, TenureOf, RolesOf, PortOf, OthersKept,
      LocksMove, Respects, Bookkeeping, Observe;
    SharedBooks(s, m);
    DrainPut(s, i, d);
    DrainLocks(s, i, d);
    DrainTenure(s, i, d);
    DrainMoves(s, i, d);
    DrainRespects(s, m, i, d);
    DrainGlobal(s, m, i, d);
    DrainPort(s, m, i, d);
  }

  // ---------------------------------------------------------------------------
  // close, giving up the transport

  predicate ShutEmits(s: State, i: nat, h: ShutPc)
    requires i < |s.threads|
  {
    h == DropDtr || h == ClosePort
  }

  function ShutEvent(s: State, i: nat, h: ShutPc): Event
    requires i < |s.threads|
  {
    if h == DropDtr then DtrOff else TransportClose
  }

  function ShutMonitor(s: State, m: Monitor, i: nat, h: ShutPc): Monitor
    requires i < |s.threads|
  {
    Watch(m, ShutEmits(s, i, h), ShutEvent(s, i, h))
  }

  lemma ShutPut(s: State, i: nat, h: ShutPc)
    requires CanStep(s, i) && s.threads[i].pc == Shut(h)
    ensures OthersKept(s, ShutStep(s, i, h), i)
  {
    hide SameFlags, Current;
    PutKeepsOthers(s, ShutStep(s, i, h), i);
  }

  lemma ShutWriteLock(s: State, i: nat, h: ShutPc)
    requires CanStep(s, i) && WriteLockOf(s, i) && s.threads[i].pc == Shut(h)
    ensures WriteLockOf(ShutStep(s, i, h), i)
  {
    hide SameFlags, Current;
  }

  lemma ShutStateLock(s: State, i: nat, h: ShutPc)
    requires CanStep(s, i) && StateLockOf(s, i) && s.threads[i].pc == Shut(h)
    ensures StateLockOf(ShutStep(s, i, h), i)
  {
    hide SameFlags, Current;
  }

  lemma ShutSmallLocks(s: State, i: nat, h: ShutPc)
    requires CanStep(s, i) && SmallLocksOf(s, i) && s.threads[i].pc == Shut(h)
    ensures SmallLocksOf(ShutStep(s, i, h), i)
  {
    hide SameFlags, Current;
  }

  lemma ShutTenure(s: State, i: nat, h: ShutPc)
    requires CanStep(s, i) && TenureOf(s, i) && Bookkeeping(s) && s.threads[i].pc == Shut(h)
    ensures TenureOf(ShutStep(s, i, h), i)
  {
    hide SameFlags, Current;
  }

  lemma ShutRoles(s: State, i: nat, h: ShutPc)
    requires CanStep(s, i) && RolesOf(s, i) && s.threads[i].pc == Shut(h)
    ensures RolesOf(ShutStep(s, i, h), i)
  {
    hide SameFlags, Current;
  }

  lemma ShutMoves(s: State, i: nat, h: ShutPc)
    requires CanStep(s, i) && LocksOf(s, i) && Bookkeeping(s) && s.threads[i].pc == Shut(h)
    ensures LocksMove(s, ShutStep(s, i, h), i)
  {
    hide SameFlags, Current;
  }

  lemma ShutRespects(s: State, m: Monitor, i: nat, h: ShutPc)
    requires CanStep(s, i) && Here(s, m, i) && s.threads[i].pc == Shut(h)
    ensures Respects(s, m, ShutStep(s, i, h), ShutMonitor(s, m, i, h), i)
  {
    hide SameFlags;
  }

  lemma ShutGlobal(s: State, m: Monitor, i: nat, h: ShutPc)
    requires CanStep(s, i) && Here(s, m, i) && s.threads[i].pc == Shut(h)
    ensures Shared(ShutStep(s, i, h), ShutMonitor(s, m, i, h))
  {
    hide SameFlags, BeatInv, TenureOf;
  }

  lemma ShutBeat(s: State, m: Monitor, i: nat, h: ShutPc)
    requires CanStep(s, i) && Here(s, m, i) && s.threads[i].pc == Shut(h)
    ensures BeatInv(ShutStep(s, i, h), ShutMonitor(s, m, i, h))
  {
    hide SameFlags;
  }

  lemma ShutUses(s: State, m: Monitor, i: nat, h: ShutPc)
    requires CanStep(s, i) && LocksOf(s, i) && UsesOf(s, m, i) && Shared(s, m) && s.threads[i].pc == Shut(h)
    ensures UsesOf(ShutStep(s, i, h), ShutMonitor(s, m, i, h), i)
  {
    hide SameFlags;
  }

  lemma ShutProgress(s: State, m: Monitor, i: nat, h: ShutPc)
    requires CanStep(s, i) && LocksOf(s, i) && ProgressOf(s, m, i) && Shared(s, m) && s.threads[i].pc == Shut(h)
    ensures ProgressOf(ShutStep(s, i, h), ShutMonitor(s, m, i, h), i)
  {
    hide SameFlags, TenureOf, MutexesOf;
  }

  lemma ShutWatched(s: State, m: Monitor, i: nat, h: ShutPc)
    requires CanStep(s, i) && Here(s, m, i) && s.threads[i].pc == Shut(h)
    ensures Watched(s, m, ShutStep(s, i, h), ShutEmits(s, i, h), ShutEvent(s, i, h))
  {
    hide SameFlags;
  }

  lemma ShutIsOk(s: State, m: Monitor, i: nat, h: ShutPc)
    requires Observe(s.trace) == Accepted(m) && CanStep(s, i) && Here(s, m, i) && s.threads[i].pc == Shut(h)
    ensures StepOk(s, m, ShutStep(s, i, h), ShutMonitor(s, m, i, h), i)
  {
    hide CanStep, ShutStep, Shared, BeatInv, StateLockOf, WriteLockOf, SmallLocksOf, TenureOf, RolesOf,
      UsesOf, ProgressOf, OthersKept, LocksMove, Respects, Bookkeeping, Observe, Watched, ShutEmits,
      ShutEvent;
    ShutWatched(s, m, i, h);
    Accept(s, m, ShutStep(s, i, h), ShutEmits(s, i, h), ShutEvent(s, i, h));
    SharedBooks(s, m);
    ShutPut(s, i, h);
    ShutWriteLock(s, i, h);
    ShutStateLock(s, i, h);
    ShutSmallLocks(s, i, h);
    ShutTenure(s, i, h);
    ShutRoles(s, i, h);
    ShutMoves(s, i, h);
    ShutRespects(s, m, i, h);
    ShutGlobal(s, m, i, h);
    ShutBeat(s, m, i, h);
    ShutUses(s, m, i, h);
    ShutProgress(s, m, i, h);
  }
}
