/**
  A close comes to an end. From the moment it has claimed the session every productive step
  of any thread uses up a measure, because every check of a generation now fails: running
  commands and scripts wind up, nothing new begins, and the worker leaves its loop. Only the
  start of another operation, a timer tick or a spurious wake-up adds to the measure, and
  each adds a bounded amount. With `NeverStuck` this is termination of `close`.
*/
module LifecycleTermination {
  import opened LifecycleModel
  import opened LifecycleInvariant
  import opened LifecycleSafety
  import opened LifecycleProgress

  /** What a script still does after its current command: it sends one StopAll and leaves. */
  function ScriptRank(t: Thread): nat {
    if !t.script then 0
    else if t.cleanup then 2
    else if t.pc.Leave? && t.pc.f.ok then 12
    else 6
  }

  function ExchangeRank(x: ExchangePc): nat {
    match x
    case Parse => 24
    case WriteWait => 20
    case CheckWait(at) => if at == BeforeWrite then 19 else 14
    case CheckHeld(at) => if at == BeforeWrite then 18 else 13
    case Write => 17
    case WriteCall => 16
    case WriteExit(_) => 15
    case ReadCall => 15
  }

  function EnterRank(e: EnterPc): nat {
    match e
    case SeqWait => 23
    case SeqHeld => 22
    case Encode => 21
    case SendWait => 4
    case BeginWait => 3
    case BeginHeld => 2
  }

  function LeaveRank(f: LeavePc): nat {
    match f
    case FinishWait(_) => 12
    case FinishHeld(_) => 11
    case FinishNotify(_) => 10
    case SendExit(_) => 1
  }

  /** The steps a thread outside the close can still take. */
  function ClientRank(t: Thread): nat {
    match t.pc
    case GenWait => 6
    case GenHeld => 5
    case Script(r) =>
      (match r
       case ScriptWait => 4
       case EntryWait => 3
       case EntryHeld => 2
       case ScriptBody => 11
       case ScriptExit => 1)
    case Enter(e) => EnterRank(e) + ScriptRank(t)
    case Exchange(x) => ExchangeRank(x) + ScriptRank(t)
    case Leave(f) => LeaveRank(f) + ScriptRank(t)
    case Open(o) => if o == OpenWait then 3 else if o == OpenHeld then 2 else 1
    case Claim(c) => if c == CloseWait then 2 else 1
    case _ => 0
  }

  /** The steps of the close itself; a wake-up it has been sent lets it look once more. */
  function CloserRank(t: Thread): nat {
    match t.pc
    case Hush(u) =>
      (match u
       case HushBeatWait => 30
       case HushBeatHeld => 29
       case HushNotify => 28
       case HushCancel => 24)
    case Stop(q) =>
      (match q
       case StopWriteWait => 23
       case StopSeqWait => 22
       case StopSeqHeld => 21
       case StopWrite => 20
       case StopCall => 19
       case StopExit => 18)
    case Drain(d) =>
      (match d
       case Join => 17
       case DrainWait => 9
       case DrainHeld => 8
       case DrainSleep => if t.notified then 10 else 7)
    case Shut(h) =>
      (match h
       case PortWait => 6
       case DropDtr => 5
       case ClosePort => 4
       case PortExit => 3
       case EndWait => 2
       case EndHeld => 1)
    case _ => 0
  }

  function BeatRank(w: Worker): nat {
    if w.NoWorker? then 0
    else
      match w.pc
      case BeatDone => 0
      case BeatSleep => if w.notified then 4 else 1
      case BeatHeld(timedOut) => if timedOut then 10 else 2
      case BeatWait(timedOut) => if timedOut then 11 else 3
      case BeatWriteExit => 4
      case BeatCall => 5
      case BeatWrite => 6
      case BeatCheckHeld => 7
      case BeatCheckWait => 8
      case BeatWriteWait => 9
  }

  function Total(threads: seq<Thread>): nat {
    if threads == [] then 0
    else Total(threads[..|threads| - 1]) + ClientRank(threads[|threads| - 1])
  }

  function Measure(s: State): nat
    requires 0 <= s.closer < |s.threads|
  {
    Total(s.threads) + CloserRank(s.threads[s.closer]) + BeatRank(s.worker)
  }

  lemma {:induction false} TotalUpdate(threads: seq<Thread>, i: nat, t: Thread)
    requires i < |threads|
    ensures Total(threads[i := t]) + ClientRank(threads[i]) == Total(threads) + ClientRank(t)
  {
    var n := |threads| - 1;
    if i == n {
      assert threads[i := t][..n] == threads[..n];
    } else {
      TotalUpdate(threads[..n], i, t);
      assert threads[i := t][..n] == threads[..n][i := t];
    }
  }

  lemma {:induction false} TotalSame(a: seq<Thread>, b: seq<Thread>)
    requires |a| == |b| && forall k :: 0 <= k < |a| ==> ClientRank(a[k]) == ClientRank(b[k])
    ensures Total(a) == Total(b)
  {
    if a != [] {
      TotalSame(a[..|a| - 1], b[..|b| - 1]);
    }
  }

  // ---------------------------------------------------------------------------
  // The other threads

  /** While closing, a step of a thread beside the close uses up its own rank, and more than
      it may hand to the closing thread by waking it. */
  predicate Spends(s: State, s': State, i: nat)
    requires i < |s.threads| && 0 <= s.closer < |s.threads|
  {
    && |s'.threads| == |s.threads| && s'.closer == s.closer && s'.worker == s.worker
    && ClientRank(s'.threads[i]) + CloserRank(s'.threads[s.closer])
       < ClientRank(s.threads[i]) + CloserRank(s.threads[s.closer])
    && Total(s'.threads) + ClientRank(s.threads[i]) == Total(s.threads) + ClientRank(s'.threads[i])
  }

  predicate BesideClose(s: State, i: nat) {
    && i < |s.threads| && CanStep(s, i) && LocksOf(s, i) && 0 <= s.closer < |s.threads| && s.closer != i
    && s.closing
  }

  /** A step that only moves its own thread, and lowers its rank. */
  predicate Lowers(s: State, s': State, i: nat)
    requires i < |s.threads|
  {
    && |s'.threads| == |s.threads| && s'.threads == s.threads[i := s'.threads[i]]
    && s'.closer == s.closer && s'.worker == s.worker
    && ClientRank(s'.threads[i]) < ClientRank(s.threads[i])
  }

  lemma LoweringSpends(s: State, s': State, i: nat)
    requires i < |s.threads| && 0 <= s.closer < |s.threads| && s.closer != i && Lowers(s, s', i)
    ensures Spends(s, s', i)
  {
    hide ClientRank, CloserRank, Total;
    TotalUpdate(s.threads, i, s'.threads[i]);
  }

  lemma GenSpends(s: State, i: nat)
    requires BesideClose(s, i) && (s.threads[i].pc == GenWait || s.threads[i].pc == GenHeld)
    ensures Spends(s, GenStep(s, i), i)
  {
    hide SameFlags, LocksOf, Spends;
    LoweringSpends(s, GenStep(s, i), i);
  }

  lemma ScriptLowers(s: State, i: nat, r: ScriptPc, choice: Choice)
    requires i < |s.threads| && s.threads[i].pc == Script(r) && s.threads[i].script
    requires !Current(s, s.threads[i].gen)
    ensures Lowers(s, ScriptStep(s, i, r, choice), i)
  {
    hide SameFlags, Current;
  }

  lemma ScriptSpends(s: State, i: nat, r: ScriptPc, choice: Choice)
    requires BesideClose(s, i) && s.threads[i].pc == Script(r)
    ensures Spends(s, ScriptStep(s, i, r, choice), i)
  {
    hide Lowers, Spends, ScriptStep, MutexesOf, RolesOf, CanStep;
    ScriptLowers(s, i, r, choice);
    LoweringSpends(s, ScriptStep(s, i, r, choice), i);
  }

  lemma BeginRankDrops(s: State, i: nat, choice: Choice)
    requires i < |s.threads| && s.threads[i].pc == Enter(BeginHeld) && !Current(s, s.threads[i].gen)
    ensures ClientRank(EnterStep(s, i, BeginHeld, choice).threads[i]) < ClientRank(s.threads[i])
  {
  }

  lemma EnterRankDrops(s: State, i: nat, e: EnterPc, choice: Choice)
    requires i < |s.threads| && s.threads[i].pc == Enter(e) && e != BeginHeld
    ensures ClientRank(EnterStep(s, i, e, choice).threads[i]) < ClientRank(s.threads[i])
  {
  }

  lemma EnterSpends(s: State, i: nat, e: EnterPc, choice: Choice)
    requires BesideClose(s, i) && s.threads[i].pc == Enter(e)
    ensures Spends(s, EnterStep(s, i, e, choice), i)
  {
    hide SameFlags, ClientRank, Spends, CanStep, LocksOf;
    if e == BeginHeld { BeginRankDrops(s, i, choice); } else { EnterRankDrops(s, i, e, choice); }
    LoweringSpends(s, EnterStep(s, i, e, choice), i);
  }

  lemma CheckRankDrops(t: Thread, at: Point)
    requires t.pc == Exchange(CheckHeld(at))
    ensures ClientRank(t.(pc := FailedCheck(at))) < ClientRank(t)
  {
  }

  lemma ParseRankDrops(t: Thread, choice: Choice)
    requires t.pc == Exchange(Parse)
    ensures ClientRank(t.(pc := Parsed(choice))) < ClientRank(t)
  {
  }

  lemma ReadRankDrops(t: Thread, choice: Choice)
    requires t.pc == Exchange(ReadCall)
    ensures ClientRank(t.(pc := ReadReturned(choice))) < ClientRank(t)
  {
  }

  lemma WaitRankDrops(s: State, i: nat, x: ExchangePc, choice: Choice)
    requires i < |s.threads| && s.threads[i].pc == Exchange(x) && (x == WriteWait || x.CheckWait?)
    ensures ClientRank(ExchangeStep(s, i, x, choice).threads[i]) < ClientRank(s.threads[i])
  {
    hide SameFlags;
  }

  lemma WriteRankDrops(s: State, i: nat, x: ExchangePc, choice: Choice)
    requires i < |s.threads| && s.threads[i].pc == Exchange(x)
    requires x == Write || x == WriteCall || x.WriteExit?
    ensures ClientRank(ExchangeStep(s, i, x, choice).threads[i]) < ClientRank(s.threads[i])
  {
    hide SameFlags;
  }

  lemma ExchangeRankDrops(s: State, i: nat, x: ExchangePc, choice: Choice)
    requires i < |s.threads| && s.threads[i].pc == Exchange(x) && !Current(s, s.threads[i].gen)
    ensures ClientRank(ExchangeStep(s, i, x, choice).threads[i]) < ClientRank(s.threads[i])
  {
    var t := s.threads[i];
    var t' := ExchangeStep(s, i, x, choice).threads[i];
    if x.CheckHeld? {
      CheckRankDrops(t, x.at);
      assert t' == t.(pc := FailedCheck(x.at));
    } else if x == Parse {
      ParseRankDrops(t, choice);
      assert t' == t.(pc := Parsed(choice));
    } else if x == ReadCall {
      ReadRankDrops(t, choice);
      assert t' == t.(pc := ReadReturned(choice));
    } else if x == WriteWait || x.CheckWait? {
      WaitRankDrops(s, i, x, choice);
    } else {
      WriteRankDrops(s, i, x, choice);
    }
  }

  lemma ExchangeSpends(s: State, i: nat, x: ExchangePc, choice: Choice)
    requires BesideClose(s, i) && s.threads[i].pc == Exchange(x)
    ensures Spends(s, ExchangeStep(s, i, x, choice), i)
  {
    hide SameFlags, ClientRank, Spends, CanStep, LocksOf;
    ExchangeRankDrops(s, i, x, choice);
    LoweringSpends(s, ExchangeStep(s, i, x, choice), i);
  }

  lemma LeaveRankDrops(s: State, i: nat, f: LeavePc)
    requires i < |s.threads| && s.threads[i].pc == Leave(f)
    ensures ClientRank(LeaveStep(s, i, f).threads[i]) + (if f.FinishNotify? then 9 else 1)
            <= ClientRank(s.threads[i])
  {
  }

  lemma WakingRank(threads: seq<Thread>, k: nat)
    requires k < |threads|
    ensures ClientRank(NotifyDrain(threads)[k]) == ClientRank(threads[k])
    ensures CloserRank(NotifyDrain(threads)[k]) <= CloserRank(threads[k]) + 3
  {
  }

  lemma NotifySpends(s: State, i: nat, ok: bool)
    requires BesideClose(s, i) && s.threads[i].pc == Leave(FinishNotify(ok))
    ensures Spends(s, LeaveStep(s, i, FinishNotify(ok)), i)
  {
    var s' := LeaveStep(s, i, FinishNotify(ok));
    var woken := NotifyDrain(s.threads);
    LeaveRankDrops(s, i, FinishNotify(ok));
    forall k | 0 <= k < |woken| ensures ClientRank(woken[k]) == ClientRank(s.threads[k]) {
      WakingRank(s.threads, k);
    }
    TotalSame(woken, s.threads);
    TotalUpdate(woken, i, s'.threads[i]);
    WakingRank(s.threads, s.closer);
  }

  lemma LeaveSpends(s: State, i: nat, f: LeavePc)
    requires BesideClose(s, i) && s.threads[i].pc == Leave(f)
    ensures Spends(s, LeaveStep(s, i, f), i)
  {
    hide SameFlags, ClientRank, Spends, CanStep, LocksOf;
    if f.FinishNotify? {
      NotifySpends(s, i, f.ok);
    } else {
      LeaveRankDrops(s, i, f);
      LoweringSpends(s, LeaveStep(s, i, f), i);
    }
  }

  lemma OpenSpends(s: State, i: nat, o: OpenPc, choice: Choice)
    requires BesideClose(s, i) && s.threads[i].pc == Open(o) && s.opener == FREE
    ensures Spends(s, OpenStep(s, i, o, choice), i)
  {
    hide SameFlags, Spends, MutexesOf, TenureOf;
    LoweringSpends(s, OpenStep(s, i, o, choice), i);
  }

  lemma ClaimSpends(s: State, i: nat, c: ClaimPc)
    requires BesideClose(s, i) && s.threads[i].pc == Claim(c)
    ensures Spends(s, ClaimStep(s, i, c), i)
  {
    hide Spends, MutexesOf, TenureOf;
    LoweringSpends(s, ClaimStep(s, i, c), i);
  }

  lemma BesideDrops(s: State, i: nat, choice: Choice)
    requires Inv(s) && CanStep(s, i) && s.closing && s.closer != i
    requires 0 <= s.closer < |s.threads|
    ensures var s' := StepOf(s, i, choice);
            |s'.threads| == |s.threads| && s'.closer == s.closer && Measure(s') < Measure(s)
  {
    assert LocksOf(s, i);
    match s.threads[i].pc
    case GenWait => GenSpends(s, i);
    case GenHeld => GenSpends(s, i);
    case Script(r) => ScriptSpends(s, i, r, choice);
    case Enter(e) => EnterSpends(s, i, e, choice);
    case Exchange(x) => ExchangeSpends(s, i, x, choice);
    case Leave(f) => LeaveSpends(s, i, f);
    case Open(o) => OpenSpends(s, i, o, choice);
    case Claim(c) => ClaimSpends(s, i, c);
    case _ =>
  }

  // ---------------------------------------------------------------------------
  // The close and the worker

  /** A step of the closing thread uses up its own rank, and more than it may hand to the
      worker by waking it. */
  predicate ClosesOn(s: State, s': State, i: nat)
    requires i < |s.threads|
  {
    && |s'.threads| == |s.threads| && s'.threads == s.threads[i := s'.threads[i]] && s'.closer == i
    && ClientRank(s'.threads[i]) == ClientRank(s.threads[i])
    && CloserRank(s'.threads[i]) + BeatRank(s'.worker) < CloserRank(s.threads[i]) + BeatRank(s.worker)
  }

  lemma HushClosesOn(s: State, i: nat, u: HushPc)
    requires CanStep(s, i) && s.threads[i].pc == Hush(u) && s.closer == i
    ensures ClosesOn(s, HushStep(s, i, u), i)
  {
  }

  lemma StopClosesOn(s: State, i: nat, q: StopPc)
    requires CanStep(s, i) && s.threads[i].pc == Stop(q) && s.closer == i
    ensures ClosesOn(s, StopStep(s, i, q), i)
  {
  }

  lemma DrainClosesOn(s: State, i: nat, d: DrainPc)
    requires CanStep(s, i) && s.threads[i].pc == Drain(d) && s.closer == i
    ensures ClosesOn(s, DrainStep(s, i, d), i)
  {
  }

  lemma ShutClosesOn(s: State, i: nat, h: ShutPc)
    requires CanStep(s, i) && s.threads[i].pc == Shut(h) && s.closer == i && h != EndHeld
    ensures ClosesOn(s, ShutStep(s, i, h), i)
  {
  }

  lemma ClosesOnDrops(s: State, s': State, i: nat)
    requires i < |s.threads| && s.closer == i && ClosesOn(s, s', i)
    ensures Measure(s') < Measure(s)
  {
    TotalUpdate(s.threads, i, s'.threads[i]);
  }

  lemma CloserDrops(s: State, i: nat, choice: Choice)
    requires Inv(s) && CanStep(s, i) && s.closing && s.closer == i
    ensures var s' := StepOf(s, i, choice);
            |s'.threads| == |s.threads|
            && (s'.closing ==> s'.closer == s.closer && Measure(s') < Measure(s))
  {
    assert LocksOf(s, i);
    match s.threads[i].pc
    case Hush(u) => HushClosesOn(s, i, u); ClosesOnDrops(s, HushStep(s, i, u), i);
    case Stop(q) => StopClosesOn(s, i, q); ClosesOnDrops(s, StopStep(s, i, q), i);
    case Drain(d) => DrainClosesOn(s, i, d); ClosesOnDrops(s, DrainStep(s, i, d), i);
    case Shut(h) =>
      if h != EndHeld {
        ShutClosesOn(s, i, h);
        ClosesOnDrops(s, ShutStep(s, i, h), i);
      }
  }

  lemma BeatDrops(s: State)
    requires CanBeat(s) && s.closing
    ensures BeatRank(BeatStepOf(s).worker) < BeatRank(s.worker)
    ensures BeatStepOf(s).threads == s.threads && BeatStepOf(s).closer == s.closer
  {
  }

  // ---------------------------------------------------------------------------
  // Runs

  lemma StartAdds(s: State, i: nat, op: Op)
    requires CanStart(s, i) && LocksOf(s, i) && 0 <= s.closer < |s.threads|
    ensures Measure(Put(s, i, StartOp(op))) <= Measure(s) + 10
  {
    hide SameFlags, MutexesOf, TenureOf;
    TotalUpdate(s.threads, i, StartOp(op));
  }

  lemma SpuriousAdds(s: State, i: nat)
    requires i < |s.threads| && s.threads[i].pc == Drain(DrainSleep) && 0 <= s.closer < |s.threads|
    ensures Measure(Goto(s, i, Drain(DrainWait))) <= Measure(s) + 10
  {
    hide SameFlags;
    TotalUpdate(s.threads, i, s.threads[i].(pc := Drain(DrainWait)));
  }

  lemma UnproductiveAdds(s: State, a: Action)
    requires Inv(s) && Enabled(s, a) && s.closing && 0 <= s.closer < |s.threads| && !Productive(a)
    ensures var s' := Apply(s, a);
            |s'.threads| == |s.threads| && s'.closer == s.closer && Measure(s') <= Measure(s) + 10
  {
    hide LocksOf, SameFlags, CloserRank, Total, StartOp, OwnersExist, Shared, BeatInv, PortOf;
    match a
    case Start(i, op) => StartAdds(s, i, op);
    case SpuriousWake(i) => SpuriousAdds(s, i);
    case _ =>
  }

  lemma ProductiveSpends(s: State, a: Action)
    requires Inv(s) && Enabled(s, a) && s.closing && 0 <= s.closer < |s.threads| && Productive(a)
    ensures var s' := Apply(s, a);
            |s'.threads| == |s.threads|
            && (s'.closing ==> s'.closer == s.closer && Measure(s') < Measure(s))
  {
    match a
    case Step(i, choice) =>
      if s.closer == i { CloserDrops(s, i, choice); } else { BesideDrops(s, i, choice); }
    case BeatStep => BeatDrops(s);
  }

  ghost predicate StaysClosing(s: State, run: seq<Action>)
    requires IsRun(s, run)
    decreases |run|
  {
    run == [] || (Apply(s, run[0]).closing && StaysClosing(Apply(s, run[0]), run[1..]))
  }

  function Unproductive(run: seq<Action>): nat {
    if run == [] then 0 else (if Productive(run[0]) then 0 else 1) + Unproductive(run[1..])
  }

  /** However the threads are scheduled, a run during which a close stays unfinished has at
      most `Measure` steps, plus eleven for each new operation, tick or spurious wake-up. */
  lemma {:induction false} CloseIsBounded(s: State, run: seq<Action>)
    requires Inv(s) && s.closing && 0 <= s.closer < |s.threads|
    requires IsRun(s, run) && StaysClosing(s, run)
    ensures |run| <= Measure(s) + 11 * Unproductive(run)
    decreases |run|
  {
    if run != [] {
      StepKeepsInv(s, run[0]);
      if Productive(run[0]) {
        ProductiveSpends(s, run[0]);
      } else {
        UnproductiveAdds(s, run[0]);
      }
      CloseIsBounded(Apply(s, run[0]), run[1..]);
    }
  }
}
