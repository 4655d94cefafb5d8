/** What a command and a script do to the transport, serial.hpp:337-361 and 428-472. */
module LifecycleCommands {
  import opened LifecycleTrace
  import opened LifecycleModel
  import opened LifecycleInvariant
  import opened LifecycleSteps
  import opened LifecycleSafety
  import opened LifecycleEffects

  // ---------------------------------------------------------------------------
  // What a thread says, command by command

  datatype Phase = Between | Begun | Writing | Written | Reading | Improper

  /**
    Where its talk stands, how many commands are over and how many of them have written a frame, and how
    many frames and reads there have been.
  */
  datatype Talk = Talk(phase: Phase, commands: nat, written: nat, frames: nat, received: nat)

  const SILENT := Talk(Between, 0, 0, 0, 0)

  /** A command begins, writes whole frames of its generation and tenure, reads only after a frame, and ends. */
  function TalkAfter(t: Talk, e: Event, g: nat, ticket: nat): Talk {
    match e
    case CommandBegin(h) => t.(phase := if t.phase.Between? && h == g then Begun else Improper)
    case WriteStart(source, h) =>
      if (t.phase.Begun? || t.phase.Written?) && source == Command(ticket) && h == g then
        t.(phase := Writing, frames := t.frames + 1)
      else t.(phase := Improper)
    case WriteEnd => t.(phase := if t.phase.Writing? then Written else Improper)
    case ReadStart(h) =>
      if t.phase.Written? && h == g then t.(phase := Reading, received := t.received + 1) else t.(phase := Improper)
    case ReadEnd => t.(phase := if t.phase.Reading? then Written else Improper)
    case CommandEnd =>
      if t.phase.Begun? then t.(phase := Between, commands := t.commands + 1)
      else if t.phase.Written? then t.(phase := Between, commands := t.commands + 1, written := t.written + 1)
      else t.(phase := Improper)
    case _ => t.(phase := Improper)
  }

  function TalkAll(t: Talk, events: seq<Event>, g: nat, ticket: nat): Talk
    decreases |events|
  {
    if events == [] then t else TalkAll(TalkAfter(t, events[0], g, ticket), events[1..], g, ticket)
  }

  lemma {:induction false} TalkAppend(t: Talk, a: seq<Event>, b: seq<Event>, g: nat, ticket: nat)
    ensures TalkAll(t, a + b, g, ticket) == TalkAll(TalkAll(t, a, g, ticket), b, g, ticket)
    decreases |a|
  {
    hide TalkAfter;
    if a == [] {
      assert a + b == b;
    } else {
      assert (a + b)[1..] == a[1..] + b;
      TalkAppend(TalkAfter(t, a[0], g, ticket), a[1..], b, g, ticket);
    }
  }

  lemma TalkOne(t: Talk, e: Event, g: nat, ticket: nat)
    ensures TalkAll(t, [e], g, ticket) == TalkAfter(t, e, g, ticket) && TalkAll(t, [], g, ticket) == t
  {
    assert [e][1..] == [];
  }

  // ---------------------------------------------------------------------------
  // What each program point has said

  predicate SaysAt(pc: Pc, phase: Phase) {
    match pc
    case Script(_) => phase.Between?
    case Enter(e) => if e == SendWait || e == BeginWait || e == BeginHeld then phase.Between? else phase.Begun?
    case Exchange(x) =>
      (match x
       case CheckWait(at) => phase.Written? || (at == BeforeWrite && phase.Begun?)
       case CheckHeld(at) => phase.Written? || (at == BeforeWrite && phase.Begun?)
       case WriteCall => phase.Writing?
       case WriteExit(ok) => phase.Written? || (!ok && phase.Begun?)
       case Parse => phase.Written?
       case ReadCall => phase.Reading?
       case _ => phase.Begun? || phase.Written?)
    case Leave(f) =>
      (match f
       case FinishWait(ok) => phase.Written? || (!ok && phase.Begun?)
       case FinishHeld(ok) => phase.Written? || (!ok && phase.Begun?)
       case _ => phase.Between?)
    case _ => false
  }

  predicate Speaking(s: State, i: nat, t: Talk, g: nat, ticket: nat) {
    && i < |s.threads| && s.threads[i].gen == g <= s.generation
    && s.commandLock == i && HoldsCommand(s.threads[i]) && s.threads[i].ticket == ticket
    && SaysAt(s.threads[i].pc, t.phase)
    && (!s.threads[i].script ==> t.commands <= if InActive(s.threads[i].pc) || s.threads[i].pc.Enter? then 0 else 1)
  }

  /**
    What the environment asks a call for: commands of a script, further attempts, reads, and the script's
    end; and how often a script that is not yet cleaning up has had a command fail.
  */
  datatype Tally = Tally(asked: nat, resent: nat, received: nat, failed: nat, ended: nat)

  function Plus(a: Tally, b: Tally): Tally {
    Tally(a.asked + b.asked, a.resent + b.resent, a.received + b.received, a.failed + b.failed, a.ended + b.ended)
  }

  const NOTHING := Tally(0, 0, 0, 0, 0)

  function TallyAt(t: Thread, choice: Choice): Tally {
    if t.pc == Script(ScriptBody) then if choice != Done then Tally(1, 0, 0, 0, 0) else Tally(0, 0, 0, 0, 1)
    else if t.pc == Exchange(Parse) && (choice == Again || choice == Resend) then Tally(0, 1, 0, 0, 0)
    else if t.pc == Exchange(Parse) && choice == Receive then Tally(0, 0, 1, 0, 0)
    else if t.pc == Leave(SendExit(false)) && t.script && !t.cleanup then Tally(0, 0, 0, 1, 0)
    else NOTHING
  }

  ghost function Tallied(s: State, run: seq<Action>, i: nat): Tally
    requires IsRun(s, run)
    decreases |run|
  {
    if run == [] then NOTHING
    else
      var a := run[0];
      Plus(if a.Step? && a.i == i && i < |s.threads| then TallyAt(s.threads[i], a.choice) else NOTHING,
           Tallied(Apply(s, a), run[1..], i))
  }

  /** A frame is still to be written. */
  function Pending(pc: Pc): nat {
    match pc
    case Enter(_) => 1
    case Exchange(x) =>
      (match x
       case WriteWait => 1
       case CheckWait(at) => if at == BeforeWrite || at == BetweenRetries then 1 else 0
       case CheckHeld(at) => if at == BeforeWrite || at == BetweenRetries then 1 else 0
       case Write => 1
       case _ => 0)
    case _ => 0
  }

  /** A command is still to be said, or to be ended. */
  function Unfinished(pc: Pc): nat {
    match pc
    case Script(_) => 0
    case Leave(f) => if f.FinishNotify? || f.SendExit? then 0 else 1
    case _ => 1
  }

  /** Every command asked for has been said, and one more after a failure, but what is still to come. */
  predicate Steady(t: Thread, talk: Talk, n: Tally) {
    talk.commands + Unfinished(t.pc) == n.asked + n.failed
  }

  predicate HasFailed(pc: Pc) {
    pc == Exchange(WriteExit(false))
    || (pc.Leave? && match pc.f
                     case FinishWait(ok) => !ok
                     case FinishHeld(ok) => !ok
                     case FinishNotify(ok) => !ok
                     case SendExit(ok) => !ok)
  }

  /** Besides, nothing has failed, and all frames and reads asked for have been made. */
  predicate Smooth(t: Thread, talk: Talk, n: Tally) {
    && Steady(t, talk, n) && n.failed == 0 && talk.commands == talk.written && !t.cleanup && !HasFailed(t.pc)
    && talk.frames + Pending(t.pc) == n.asked + n.resent && talk.received == n.received
    && n.ended == if t.pc == Script(ScriptExit) then 1 else 0
  }

  predicate NoneAsked(n: Tally) {
    n.asked == 0 && n.failed == 0
  }

  lemma PlusThree(a: Tally, b: Tally, c: Tally)
    ensures Plus(Plus(a, b), c) == Plus(a, Plus(b, c)) && Plus(a, NOTHING) == a && Plus(NOTHING, a) == a
    ensures NoneAsked(a) && NoneAsked(b) ==> NoneAsked(Plus(a, b))
    ensures NoneAsked(NOTHING)
  {
  }

  lemma TallyUnfolds(s: State, run: seq<Action>, i: nat)
    requires IsRun(s, run) && run != [] && i < |s.threads|
    ensures Tallied(s, run, i) ==
      Plus(if run[0].Step? && run[0].i == i then TallyAt(s.threads[i], run[0].choice) else NOTHING,
           Tallied(Apply(s, run[0]), run[1..], i))
    ensures Tallied(Apply(s, run[0]), [], i) == NOTHING
  {
    hide Apply, TallyAt;
  }

  predicate NoThrow(run: seq<Action>, i: nat) {
    Step(i, Throw) !in run
  }

  lemma OthersKeepSpeaking(s: State, a: Action, i: nat, t: Talk, g: nat, ticket: nat)
    requires Inv(s) && Another(s, a, i) && Speaking(s, i, t, g, ticket)
    ensures Speaking(Apply(s, a), i, t, g, ticket)
  {
    hide Apply, Inv, SaysAt, InActive, NoRevival;
    OtherKeepsThread(s, a, i);
    var m' := ActionMoves(s, a);
    GenerationGrows(s, a);
  }

  lemma CommandApplies(s: State, i: nat, choice: Choice)
    requires CanStep(s, i)
    ensures var t := s.threads[i].pc;
      && (t.Script? ==> Apply(s, Step(i, choice)) == ScriptStep(s, i, t.r, choice))
      && (t.Enter? ==> Apply(s, Step(i, choice)) == EnterStep(s, i, t.e, choice))
      && (t.Exchange? ==> Apply(s, Step(i, choice)) == ExchangeStep(s, i, t.x, choice))
      && (t.Leave? ==> Apply(s, Step(i, choice)) == LeaveStep(s, i, t.f))
  {
    hide ScriptStep, EnterStep, ExchangeStep, LeaveStep;
  }

  /** Whether the turn ends the whole call. */
  predicate EndsCall(t: Thread) {
    t.pc == Script(ScriptExit) || (t.pc.Leave? && t.pc.f.SendExit? && !t.script)
  }

  /** What one turn adds to the talk, and where it leads. */
  predicate TurnSpeaks(s: State, s': State, i: nat, t: Talk, g: nat, ticket: nat) {
    && i < |s.threads| && i < |s'.threads|
    && if EndsCall(s.threads[i]) then s'.threads[i].pc == Idle && Added(s, s') == []
       else
         Speaking(s', i, TalkAll(t, Added(s, s'), g, ticket), g, ticket)
         && s'.threads[i].script == s.threads[i].script
  }

  /** A turn in which nothing fails. */
  predicate TurnIsSmooth(s: State, s': State, i: nat, choice: Choice, t: Talk, g: nat, ticket: nat, n: Tally) {
    && i < |s.threads| && i < |s'.threads|
    && var t', n' := TalkAll(t, Added(s, s'), g, ticket), Plus(n, TallyAt(s.threads[i], choice));
       && (Steady(s.threads[i], t, n) && Current(s, g) && !EndsCall(s.threads[i]) ==> Steady(s'.threads[i], t', n'))
       && (Smooth(s.threads[i], t, n) && Current(s, g) && choice != Throw && !EndsCall(s.threads[i]) ==>
             Smooth(s'.threads[i], t', n'))
  }

  /** Without a current session nothing begins. */
  predicate TurnIsMute(s: State, s': State, i: nat, g: nat) {
    && i < |s.threads| && i < |s'.threads|
    && (!Current(s, g) && !InActive(s.threads[i].pc) && !EndsCall(s.threads[i]) ==>
          Added(s, s') == [] && !InActive(s'.threads[i].pc))
  }

  lemma TalkNothing(t: Talk, g: nat, ticket: nat)
    ensures TalkAll(t, [], g, ticket) == t
  {
  }

  lemma ScriptSpeaks(s: State, i: nat, r: ScriptPc, choice: Choice, t: Talk, g: nat, ticket: nat)
    requires CanStep(s, i) && Speaking(s, i, t, g, ticket) && TenureOf(s, i) && s.threads[i].pc == Script(r)
    ensures TurnSpeaks(s, ScriptStep(s, i, r, choice), i, t, g, ticket)
  {
    hide SameFlags, TalkAll, Added;
    AddedIs(s, ScriptStep(s, i, r, choice), false, CommandEnd);
    TalkNothing(t, g, ticket);
  }

  lemma ScriptIsSmooth(s: State, i: nat, r: ScriptPc, choice: Choice, t: Talk, g: nat, ticket: nat, n: Tally)
    requires CanStep(s, i) && Speaking(s, i, t, g, ticket) && TenureOf(s, i) && s.threads[i].pc == Script(r)
    ensures TurnIsSmooth(s, ScriptStep(s, i, r, choice), i, choice, t, g, ticket, n)
  {
    hide SameFlags, TalkAll, Added;
    AddedIs(s, ScriptStep(s, i, r, choice), false, CommandEnd);
    TalkNothing(t, g, ticket);
  }

  lemma ScriptIsMute(s: State, i: nat, r: ScriptPc, choice: Choice, t: Talk, g: nat, ticket: nat)
    requires CanStep(s, i) && Speaking(s, i, t, g, ticket) && s.threads[i].pc == Script(r)
    ensures TurnIsMute(s, ScriptStep(s, i, r, choice), i, g)
  {
    hide SameFlags, TalkAll, Added;
    AddedIs(s, ScriptStep(s, i, r, choice), false, CommandEnd);
  }

  // Entering a command

  function EnterNext(t: Thread, e: EnterPc, current: bool, choice: Choice): Pc {
    match e
    case SendWait => Enter(BeginWait)
    case BeginWait => Enter(BeginHeld)
    case BeginHeld => if current then Enter(SeqWait) else Leave(SendExit(false))
    case SeqWait => Enter(SeqHeld)
    case SeqHeld => Enter(Encode)
    case Encode => if choice == Throw then Leave(FinishWait(false)) else Exchange(WriteWait)
  }

  lemma EnterPuts(s: State, i: nat, e: EnterPc, choice: Choice)
    requires i < |s.threads| && s.commandLock == i
    ensures
      var s', t := EnterStep(s, i, e, choice), s.threads[i];
      && s'.threads[i] == t.(pc := EnterNext(t, e, Current(s, t.gen), choice))
      && s'.commandLock == i && s'.generation == s.generation
  {
    hide Current;
  }

  lemma EnterAdds(s: State, i: nat, e: EnterPc, choice: Choice)
    requires i < |s.threads|
    ensures
      Added(s, EnterStep(s, i, e, choice)) ==
        if EnterEmits(s, i, e, choice) then [EnterEvent(s, i, e, choice)] else []
  {
    hide Current, SameFlags;
    AddedIs(s, EnterStep(s, i, e, choice), EnterEmits(s, i, e, choice), EnterEvent(s, i, e, choice));
  }

  lemma EnterSpeaks(s: State, i: nat, e: EnterPc, choice: Choice, t: Talk, g: nat, ticket: nat)
    requires i < |s.threads| && Speaking(s, i, t, g, ticket) && s.threads[i].pc == Enter(e)
    ensures TurnSpeaks(s, EnterStep(s, i, e, choice), i, t, g, ticket)
  {
    hide EnterStep, TalkAll, Added, Current;
    EnterPuts(s, i, e, choice);
    EnterAdds(s, i, e, choice);
    TalkOne(t, CommandBegin(g), g, ticket);
  }

  lemma EnterIsSmooth(s: State, i: nat, e: EnterPc, choice: Choice, t: Talk, g: nat, ticket: nat, n: Tally)
    requires i < |s.threads| && Speaking(s, i, t, g, ticket) && s.threads[i].pc == Enter(e)
    ensures TurnIsSmooth(s, EnterStep(s, i, e, choice), i, choice, t, g, ticket, n)
  {
    hide EnterStep, TalkAll, Added, Current;
    EnterPuts(s, i, e, choice);
    EnterAdds(s, i, e, choice);
    TalkOne(t, CommandBegin(g), g, ticket);
  }

  lemma EnterIsMute(s: State, i: nat, e: EnterPc, choice: Choice, t: Talk, g: nat, ticket: nat)
    requires i < |s.threads| && Speaking(s, i, t, g, ticket) && s.threads[i].pc == Enter(e)
    ensures TurnIsMute(s, EnterStep(s, i, e, choice), i, g)
  {
    hide EnterStep, Added, Current;
    EnterPuts(s, i, e, choice);
    EnterAdds(s, i, e, choice);
  }

  // Exchanging

  lemma ExchangePuts(s: State, i: nat, x: ExchangePc, choice: Choice)
    requires i < |s.threads|
    ensures
      var s', t := ExchangeStep(s, i, x, choice), s.threads[i];
      && s'.threads[i] == t.(pc := ExchangeNext(x, Current(s, t.gen), choice))
      && s'.commandLock == s.commandLock && s'.generation == s.generation
      && Added(s, s') == if ExchangeEmits(s, i, x, choice) then [ExchangeEvent(s, i, x, choice)] else []
  {
    hide ExchangeNext, Current;
    AddedIs(s, ExchangeStep(s, i, x, choice), ExchangeEmits(s, i, x, choice), ExchangeEvent(s, i, x, choice));
  }

  lemma ExchangeSays(x: ExchangePc, current: bool, choice: Choice, t: Talk, g: nat, ticket: nat, e: Event)
    requires SaysAt(Exchange(x), t.phase)
    requires x == Write ==> e == WriteStart(Command(ticket), g)
    requires x == WriteCall ==> e == WriteEnd
    requires x == Parse ==> e == ReadStart(g)
    requires x == ReadCall ==> e == ReadEnd
    ensures
      var emits := x == Write || x == WriteCall || (x == Parse && choice == Receive) || x == ReadCall;
      var t' := if emits then TalkAfter(t, e, g, ticket) else t;
      && SaysAt(ExchangeNext(x, current, choice), t'.phase)
      && t'.commands == t.commands && t'.written == t.written
      && t'.frames == t.frames + (if x == Write then 1 else 0)
      && t'.received == t.received + (if x == Parse && choice == Receive then 1 else 0)
    ensures ExchangeNext(x, current, choice).Exchange? || ExchangeNext(x, current, choice).Leave?
    ensures InActive(ExchangeNext(x, current, choice)) && Unfinished(ExchangeNext(x, current, choice)) == 1
  {
  }

  lemma ExchangeSpeaks(s: State, i: nat, x: ExchangePc, choice: Choice, t: Talk, g: nat, ticket: nat)
    requires i < |s.threads| && Speaking(s, i, t, g, ticket) && s.threads[i].pc == Exchange(x)
    ensures TurnSpeaks(s, ExchangeStep(s, i, x, choice), i, t, g, ticket)
  {
    hide ExchangeStep, ExchangeNext, TalkAll, TalkAfter, SaysAt, Added, Current;
    ExchangePuts(s, i, x, choice);
    ExchangeSays(x, Current(s, g), choice, t, g, ticket, ExchangeEvent(s, i, x, choice));
    TalkOne(t, ExchangeEvent(s, i, x, choice), g, ticket);
  }

  lemma ExchangeGoesWell(t: Thread, x: ExchangePc, choice: Choice)
    requires t.pc == Exchange(x) && choice != Throw && x != WriteExit(false)
    ensures !HasFailed(ExchangeNext(x, true, choice))
    ensures
      var tally := TallyAt(t, choice);
      && (if x == Write then 1 else 0) + Pending(ExchangeNext(x, true, choice)) == Pending(Exchange(x)) + tally.resent
      && tally.asked == tally.failed == tally.ended == 0
      && tally.received == if x == Parse && choice == Receive then 1 else 0
  {
  }

  lemma ExchangeAsksNoMore(t: Thread, x: ExchangePc, choice: Choice)
    requires t.pc == Exchange(x)
    ensures TallyAt(t, choice).asked == TallyAt(t, choice).failed == 0 && TallyAt(t, choice).ended == 0
    ensures Unfinished(t.pc) == 1
    ensures HasFailed(t.pc) <==> x == WriteExit(false)
  {
  }

  lemma ExchangeIsSmooth(s: State, i: nat, x: ExchangePc, choice: Choice, t: Talk, g: nat, ticket: nat, n: Tally)
    requires i < |s.threads| && Speaking(s, i, t, g, ticket) && s.threads[i].pc == Exchange(x)
    ensures TurnIsSmooth(s, ExchangeStep(s, i, x, choice), i, choice, t, g, ticket, n)
  {
    hide ExchangeStep, ExchangeNext, TalkAll, TalkAfter, SaysAt, Added, Current, Pending, TallyAt;
    hide HasFailed, Unfinished;
    ExchangePuts(s, i, x, choice);
    ExchangeSays(x, Current(s, g), choice, t, g, ticket, ExchangeEvent(s, i, x, choice));
    TalkOne(t, ExchangeEvent(s, i, x, choice), g, ticket);
    ExchangeAsksNoMore(s.threads[i], x, choice);
    if choice != Throw && x != WriteExit(false) {
      ExchangeGoesWell(s.threads[i], x, choice);
    }
  }

  lemma ExchangeIsMute(s: State, i: nat, x: ExchangePc, choice: Choice, t: Talk, g: nat, ticket: nat)
    requires i < |s.threads| && Speaking(s, i, t, g, ticket) && s.threads[i].pc == Exchange(x)
    requires i < |ExchangeStep(s, i, x, choice).threads|
    ensures TurnIsMute(s, ExchangeStep(s, i, x, choice), i, g)
  {
    hide ExchangeStep;
  }

  // Leaving a command

  lemma LeavePuts(s: State, i: nat, f: LeavePc)
    requires i < |s.threads| && (f.SendExit? && s.threads[i].script ==> s.commandDepth == 2)
    ensures
      var s', t := LeaveStep(s, i, f), s.threads[i];
      && s'.generation == s.generation
      && Added(s, s') == (if f.FinishHeld? then [CommandEnd] else [])
      && match f
         case FinishWait(ok) => s'.threads[i] == t.(pc := Leave(FinishHeld(ok))) && s'.commandLock == s.commandLock
         case FinishHeld(ok) => s'.threads[i] == t.(pc := Leave(FinishNotify(ok))) && s'.commandLock == s.commandLock
         case FinishNotify(ok) => s'.threads[i] == t.(pc := Leave(SendExit(ok))) && s'.commandLock == s.commandLock
         case SendExit(ok) => s'.threads[i] == AfterSend(t, ok) && (t.script ==> s'.commandLock == s.commandLock)
  {
    hide AfterSend;
    AddedIs(s, LeaveStep(s, i, f), LeaveEmits(s, i, f), LeaveEvent(s, i, f));
  }

  lemma LeaveSpeaks(s: State, i: nat, f: LeavePc, t: Talk, g: nat, ticket: nat)
    requires i < |s.threads| && Speaking(s, i, t, g, ticket) && TenureOf(s, i) && s.threads[i].pc == Leave(f)
    ensures TurnSpeaks(s, LeaveStep(s, i, f), i, t, g, ticket)
  {
    hide LeaveStep, TalkAll, Added;
    LeavePuts(s, i, f);
    TalkNothing(t, g, ticket);
    TalkOne(t, CommandEnd, g, ticket);
  }

  function LeaveNext(t: Thread, f: LeavePc): Thread {
    match f
    case FinishWait(ok) => t.(pc := Leave(FinishHeld(ok)))
    case FinishHeld(ok) => t.(pc := Leave(FinishNotify(ok)))
    case FinishNotify(ok) => t.(pc := Leave(SendExit(ok)))
    case SendExit(ok) => AfterSend(t, ok)
  }

  lemma LeaveCounts(t: Thread, f: LeavePc, talk: Talk, g: nat, ticket: nat, n: Tally, choice: Choice)
    requires t.pc == Leave(f) && !EndsCall(t)
    requires f.FinishHeld? ==> talk.phase.Begun? || talk.phase.Written?
    requires f == FinishHeld(true) ==> talk.phase.Written?
    ensures
      var talk' := if f.FinishHeld? then TalkAfter(talk, CommandEnd, g, ticket) else talk;
      && (Steady(t, talk, n) ==> Steady(LeaveNext(t, f), talk', Plus(n, TallyAt(t, choice))))
      && (Smooth(t, talk, n) ==> Smooth(LeaveNext(t, f), talk', Plus(n, TallyAt(t, choice))))
  {
  }

  lemma LeaveIsSmooth(s: State, i: nat, f: LeavePc, choice: Choice, t: Talk, g: nat, ticket: nat, n: Tally)
    requires i < |s.threads| && Speaking(s, i, t, g, ticket) && TenureOf(s, i) && s.threads[i].pc == Leave(f)
    ensures TurnIsSmooth(s, LeaveStep(s, i, f), i, choice, t, g, ticket, n)
  {
    hide LeaveStep, TalkAll, TalkAfter, Added, Current, SaysAt, SameFlags, Smooth, Steady, TallyAt, Plus, AfterSend;
    LeavePuts(s, i, f);
    TalkNothing(t, g, ticket);
    TalkOne(t, CommandEnd, g, ticket);
    LeavingSays(s, i, f, t, g, ticket);
    if !EndsCall(s.threads[i]) {
      LeaveCounts(s.threads[i], f, t, g, ticket, n, choice);
    }
  }

  /** A command that ends without a failure has written its frame. */
  lemma LeavingSays(s: State, i: nat, f: LeavePc, t: Talk, g: nat, ticket: nat)
    requires Speaking(s, i, t, g, ticket) && s.threads[i].pc == Leave(f)
    ensures f.FinishHeld? ==> t.phase.Begun? || t.phase.Written?
    ensures f == FinishHeld(true) ==> t.phase.Written?
  {
  }

  lemma LeaveIsMute(s: State, i: nat, f: LeavePc, t: Talk, g: nat, ticket: nat)
    requires i < |s.threads| && Speaking(s, i, t, g, ticket) && TenureOf(s, i) && s.threads[i].pc == Leave(f)
    ensures TurnIsMute(s, LeaveStep(s, i, f), i, g)
  {
    hide LeaveStep, Added, Current;
    LeavePuts(s, i, f);
  }

  /** A thread writes, looks for its response and answers only right after a check that found its session current. */
  lemma ChecksComeFirst(s: State, i: nat, choice: Choice)
    requires CanStep(s, i) && s.threads[i].pc.Exchange?
    ensures
      StepOf(s, i, choice).threads[i].pc in {Exchange(Write), Exchange(Parse), Leave(FinishWait(true))} ==>
        Current(s, s.threads[i].gen)
  {
    hide ExchangeStep, Current;
    ExchangePuts(s, i, s.threads[i].pc.x, choice);
  }

  // ---------------------------------------------------------------------------
  // Whole calls

  lemma InTheTalk(s: State, i: nat, t: Talk, g: nat, ticket: nat)
    requires Speaking(s, i, t, g, ticket)
    ensures
      var pc := s.threads[i].pc;
      && (pc.Script? || pc.Enter? || pc.Exchange? || pc.Leave?)
      && (EndsCall(s.threads[i]) ==> t.phase.Between?)
      && (!s.threads[i].script ==> t.commands <= 1) && s.threads[i].gen == g <= s.generation
      && (EndsCall(s.threads[i]) && s.threads[i].script ==> s.threads[i].pc.Script?)
      && forall n: Tally :: EndsCall(s.threads[i]) ==>
           && (Steady(s.threads[i], t, n) ==> t.commands == n.asked + n.failed)
           && (Smooth(s.threads[i], t, n) ==>
                 && t.commands == t.written == n.asked && t.frames == n.asked + n.resent && t.received == n.received
                 && (s.threads[i].pc.Script? ==> n.ended == 1))
  {
  }

  /** A turn of its own: on with the talk, or out of the call. */
  lemma CommandTurn(s: State, i: nat, choice: Choice, t: Talk, g: nat, ticket: nat, n: Tally)
    requires CanStep(s, i) && Speaking(s, i, t, g, ticket) && TenureOf(s, i)
    ensures
      var s' := Apply(s, Step(i, choice));
      && TurnSpeaks(s, s', i, t, g, ticket)
      && TurnIsSmooth(s, s', i, choice, t, g, ticket, n) && TurnIsMute(s, s', i, g)
  {
    hide Speaking, TenureOf, TurnSpeaks, TurnIsSmooth, TurnIsMute, Apply;
    hide ScriptStep, EnterStep, ExchangeStep, LeaveStep;
    InTheTalk(s, i, t, g, ticket);
    CommandApplies(s, i, choice);
    match s.threads[i].pc
    case Script(r) =>
      ScriptSpeaks(s, i, r, choice, t, g, ticket);
      ScriptIsSmooth(s, i, r, choice, t, g, ticket, n);
      ScriptIsMute(s, i, r, choice, t, g, ticket);
    case Enter(e) =>
      EnterSpeaks(s, i, e, choice, t, g, ticket);
      EnterIsSmooth(s, i, e, choice, t, g, ticket, n);
      EnterIsMute(s, i, e, choice, t, g, ticket);
    case Exchange(x) =>
      ExchangeSpeaks(s, i, x, choice, t, g, ticket);
      ExchangeIsSmooth(s, i, x, choice, t, g, ticket, n);
      ExchangeIsMute(s, i, x, choice, t, g, ticket);
    case Leave(f) =>
      LeaveSpeaks(s, i, f, t, g, ticket);
      LeaveIsSmooth(s, i, f, choice, t, g, ticket, n);
      LeaveIsMute(s, i, f, t, g, ticket);
  }

  /**
    What a call has said when it returns: whole commands. If the session has lasted it has said as many as
    were asked for, and one more when one has failed; if moreover nothing was thrown, each with a frame, and
    another for each further attempt. A single command is one at most.
  */
  predicate CallResult(end: State, t: Talk, g: nat, calm: bool, single: bool, n: Tally) {
    && t.phase.Between? && (Current(end, g) ==> t.commands == n.asked + n.failed)
    && (calm && Current(end, g) ==>
          && t.commands == t.written == n.asked && t.frames == n.asked + n.resent && t.received == n.received
          && (!single ==> n.ended == 1))
    && (single ==> t.commands <= 1)
  }

  lemma CallEnds(s: State, i: nat, t: Talk, g: nat, ticket: nat, end: State, calm: bool, n: Tally)
    requires Speaking(s, i, t, g, ticket) && EndsCall(s.threads[i])
    requires Current(end, g) ==> Steady(s.threads[i], t, n)
    requires calm && Current(end, g) ==> Smooth(s.threads[i], t, n)
    ensures CallResult(end, t, g, calm, !s.threads[i].script, n)
  {
    hide Smooth, Steady, Speaking, Current;
    InTheTalk(s, i, t, g, ticket);
  }

  lemma {:induction false} CommandRuns(
    s: State, run: seq<Action>, i: nat, t: Talk, g: nat, ticket: nat, calm: bool, n: Tally)
    requires Inv(s) && Returns(s, run, i) && Speaking(s, i, t, g, ticket)
    requires Current(Final(s, run), g) ==> Steady(s.threads[i], t, n)
    requires calm && NoThrow(run, i) && Current(Final(s, run), g) ==> Smooth(s.threads[i], t, n)
    ensures
      var own := Own(s, run, i);
      CallResult(Final(s, run), TalkAll(t, own, g, ticket), g, calm && NoThrow(run, i),
                 !s.threads[i].script, Plus(n, Tallied(s, run, i)))
    ensures !Current(s, g) && !InActive(s.threads[i].pc) ==> Own(s, run, i) == []
    ensures !s.threads[i].script ==> NoneAsked(Tallied(s, run, i))
    decreases |run|
  {
    hide Inv, Apply, Speaking, Smooth, Steady, CallResult, Own, Tallied, Added, CanStep, Current;
    hide TalkAll, NoThrow, InActive;
    hide EndsCall, TallyAt, Plus;
    var a := run[0];
    var s', rest := Apply(s, a), run[1..];
    StepKeepsInv(s, a);
    RunUnfolds(s, run, i);
    TallyUnfolds(s, run, i);
    InTheTalk(s, i, t, g, ticket);
    if !Current(s, g) {
      StaleAfter(s, a, g);
    }
    if Current(Final(s, run), g) {
      CurrentBefore(s, run, g);
    }
    NoThrowSplits(run, i);
    PlusThree(n, TallyAt(s.threads[i], if a.Step? then a.choice else Done), Tallied(s', rest, i));
    PlusThree(Tallied(s', rest, i), NOTHING, NOTHING);
    PlusThree(TallyAt(s.threads[i], if a.Step? then a.choice else Done), Tallied(s', rest, i), NOTHING);
    if Actor(a) != i {
      OtherKeepsThread(s, a, i);
      OthersKeepSpeaking(s, a, i, t, g, ticket);
      InTheTalk(s', i, t, g, ticket);
      SmoothIsItsOwn(s, s', i, t, n);
      ReturnGoesOn(s, run, i);
      CommandRuns(s', rest, i, t, g, ticket, calm, n);
      assert [] + Own(s', rest, i) == Own(s', rest, i);
    } else {
      OwnTurn(s, run, i, t, g, ticket, n);
      var t', n' := TalkAll(t, Added(s, s'), g, ticket), Plus(n, TallyAt(s.threads[i], a.choice));
      TalkAppend(t, Added(s, s'), Own(s', rest, i), g, ticket);
      if EndsCall(s.threads[i]) {
        ReturnEnds(s, run, i);
        NothingFollows(s', i);
        EndAsksNothing(s.threads[i], a.choice);
        TalkNothing(t, g, ticket);
        assert Added(s, s') + Own(s', rest, i) == [];
        CallEnds(s, i, t, g, ticket, Final(s, run), calm && NoThrow(run, i), n);
      } else {
        InTheTalk(s', i, t', g, ticket);
        ReturnGoesOn(s, run, i);
        CommandRuns(s', rest, i, t', g, ticket, calm && a != Step(i, Throw), n');
        assert Added(s, s') == [] ==> Added(s, s') + Own(s', rest, i) == Own(s', rest, i);
      }
    }
  }

  lemma NoThrowSplits(run: seq<Action>, i: nat)
    requires run != []
    ensures NoThrow(run, i) <==> NoThrow(run[1..], i) && run[0] != Step(i, Throw)
  {
    assert run == [run[0]] + run[1..];
  }

  lemma SmoothIsItsOwn(s: State, s': State, i: nat, t: Talk, n: Tally)
    requires i < |s.threads| && i < |s'.threads|
    requires s'.threads[i] == s.threads[i].(notified := s'.threads[i].notified)
    ensures Smooth(s.threads[i], t, n) == Smooth(s'.threads[i], t, n)
    ensures Steady(s.threads[i], t, n) == Steady(s'.threads[i], t, n)
    ensures forall c :: TallyAt(s.threads[i], c) == TallyAt(s'.threads[i], c)
  {
  }

  lemma EndAsksNothing(t: Thread, choice: Choice)
    requires EndsCall(t)
    ensures TallyAt(t, choice) == NOTHING
  {
  }

  lemma OnlyScriptsAsk(s: State, i: nat, choice: Choice)
    requires i < |s.threads| && TenureOf(s, i) && !s.threads[i].script
    ensures NoneAsked(TallyAt(s.threads[i], choice))
  {
  }

  lemma OwnTurn(s: State, run: seq<Action>, i: nat, t: Talk, g: nat, ticket: nat, n: Tally)
    requires Inv(s) && Returns(s, run, i) && Speaking(s, i, t, g, ticket) && Actor(run[0]) == i
    ensures
      var s' := Apply(s, run[0]);
      && run[0].Step? && run[0].i == i && i < |s'.threads|
      && (if EndsCall(s.threads[i]) then s'.threads[i].pc == Idle && Added(s, s') == []
          else Speaking(s', i, TalkAll(t, Added(s, s'), g, ticket), g, ticket)
               && s'.threads[i].pc != Idle && s'.threads[i].script == s.threads[i].script)
      && (var t', n' := TalkAll(t, Added(s, s'), g, ticket), Plus(n, TallyAt(s.threads[i], run[0].choice));
          && (Steady(s.threads[i], t, n) && Current(s, g) && !EndsCall(s.threads[i]) ==>
                Steady(s'.threads[i], t', n'))
          && (Smooth(s.threads[i], t, n) && Current(s, g) && run[0].choice != Throw && !EndsCall(s.threads[i]) ==>
                Smooth(s'.threads[i], t', n')))
      && (!Current(s, g) && !InActive(s.threads[i].pc) && !EndsCall(s.threads[i]) ==>
            Added(s, s') == [] && !InActive(s'.threads[i].pc))
      && (!s.threads[i].script ==> NoneAsked(TallyAt(s.threads[i], run[0].choice)))
  {
    hide Apply, Speaking, Smooth, Steady, Added, Current, TalkAll, InActive, EndsCall, TallyAt;
    hide TenureOf, RolesOf, MutexesOf;
    var a, s' := run[0], Apply(s, run[0]);
    InTheTalk(s, i, t, g, ticket);
    TurnIsAStep(s, run, i);
    assert LocksOf(s, i);
    if !s.threads[i].script {
      OnlyScriptsAsk(s, i, a.choice);
    }
    CommandTurn(s, i, a.choice, t, g, ticket, n);
    if !EndsCall(s.threads[i]) {
      InTheTalk(s', i, TalkAll(t, Added(s, s'), g, ticket), g, ticket);
    }
  }

  /** A call that has its generation and waits for the command lock. */
  predicate Queueing(s: State, i: nat, g: nat) {
    && i < |s.threads| && s.threads[i].gen == g <= s.generation && !s.threads[i].cleanup
    && s.threads[i].pc == if s.threads[i].script then Script(ScriptWait) else Enter(SendWait)
  }

  /** A command asks for one; a script asks as it goes. */
  function AtLeast(t: Thread): Tally {
    if t.script then NOTHING else Tally(1, 0, 0, 0, 0)
  }

  lemma TenureHolds(s: State, i: nat)
    requires Inv(s) && i < |s.threads|
    ensures TenureOf(s, i)
  {
    hide TenureOf, MutexesOf, RolesOf;
    assert LocksOf(s, i);
  }

  lemma LockTurn(s: State, i: nat, choice: Choice, g: nat)
    requires CanStep(s, i) && Queueing(s, i, g) && TenureOf(s, i)
    ensures
      var s' := Apply(s, Step(i, choice));
      && Speaking(s', i, SILENT, g, s.tickets + 1)
      && Steady(s'.threads[i], SILENT, AtLeast(s.threads[i])) && Smooth(s'.threads[i], SILENT, AtLeast(s.threads[i]))
      && s'.threads[i].script == s.threads[i].script && Added(s, s') == [] && SameFlags(s, s')
      && s'.threads[i].pc != Idle && !InActive(s'.threads[i].pc) && TallyAt(s.threads[i], choice) == NOTHING
  {
  }

  lemma OthersKeepQueueing(s: State, a: Action, i: nat, g: nat)
    requires Inv(s) && Another(s, a, i) && Queueing(s, i, g)
    ensures Queueing(Apply(s, a), i, g) && s.threads[i].pc != Idle && Apply(s, a).threads[i].pc != Idle
    ensures AtLeast(Apply(s, a).threads[i]) == AtLeast(s.threads[i])
    ensures Apply(s, a).threads[i].script == s.threads[i].script
  {
    hide Apply, Inv;
    OtherKeepsThread(s, a, i);
    GenerationGrows(s, a);
  }

  lemma SameCurrent(a: State, b: State, g: nat)
    requires SameFlags(a, b)
    ensures Current(a, g) == Current(b, g)
  {
  }

  lemma InTheQueue(s: State, i: nat, g: nat)
    requires Queueing(s, i, g)
    ensures s.threads[i].pc != Idle && s.threads[i].pc != Drain(DrainSleep) && g <= s.generation
  {
  }

  lemma {:induction false} QueueRuns(s: State, run: seq<Action>, i: nat, g: nat) returns (ticket: nat)
    requires Inv(s) && Returns(s, run, i) && Queueing(s, i, g)
    ensures
      var own := Own(s, run, i);
      CallResult(Final(s, run), TalkAll(SILENT, own, g, ticket), g, NoThrow(run, i), !s.threads[i].script,
                 Plus(AtLeast(s.threads[i]), Tallied(s, run, i)))
    ensures !Current(s, g) ==> Own(s, run, i) == []
    ensures !s.threads[i].script ==> NoneAsked(Tallied(s, run, i))
    decreases |run|
  {
    hide Inv, Apply, Queueing, Speaking, Smooth, Steady, CallResult, Own, Tallied, Added, CanStep;
    hide Current, TalkAll, NoThrow;
    hide InActive, TallyAt, AtLeast, Plus, TenureOf, RolesOf, MutexesOf, SameFlags;
    var a := run[0];
    var s', rest := Apply(s, a), run[1..];
    StepKeepsInv(s, a);
    RunUnfolds(s, run, i);
    InTheQueue(s, i, g);
    TallyUnfolds(s, run, i);
    NoThrowSplits(run, i);
    PlusThree(Tallied(s', rest, i), NOTHING, NOTHING);
    PlusThree(AtLeast(s.threads[i]), NOTHING, NOTHING);
    assert [] + Own(s', rest, i) == Own(s', rest, i);
    if !Current(s, g) {
      StaleAfter(s, a, g);
    }
    if Actor(a) != i {
      OthersKeepQueueing(s, a, i, g);
      ReturnGoesOn(s, run, i);
      ticket := QueueRuns(s', rest, i, g);
    } else {
      TurnIsAStep(s, run, i);
      TenureHolds(s, i);
      ticket := s.tickets + 1;
      LockTurn(s, i, a.choice, g);
      ReturnGoesOn(s, run, i);
      CommandRuns(s', rest, i, SILENT, g, ticket, a != Step(i, Throw), AtLeast(s.threads[i]));
    }
  }

  // ---------------------------------------------------------------------------
  // Capturing the generation

  lemma GenTurn(s: State, i: nat, choice: Choice)
    requires CanStep(s, i) && (s.threads[i].pc == GenWait || s.threads[i].pc == GenHeld) && !s.threads[i].cleanup
    ensures
      var s' := Apply(s, Step(i, choice));
      && Added(s, s') == [] && SameFlags(s, s') && TallyAt(s.threads[i], choice) == NOTHING
      && s'.threads[i].script == s.threads[i].script && !s'.threads[i].cleanup && s'.threads[i].pc != Idle
      && if s.threads[i].pc == GenWait then s'.threads[i].pc == GenHeld && s'.stateLock == i
         else Queueing(s', i, s.generation)
  {
  }

  /** What a call has said in all, given the state in which its generation is captured. */
  ghost predicate SaysProperly(at: State, s: State, run: seq<Action>, i: nat, ticket: nat)
    requires IsRun(s, run)
  {
    var end, own, g := Final(s, run), Own(s, run, i), at.generation;
    && i < |s.threads|
    && CallResult(end, TalkAll(SILENT, own, g, ticket), g, NoThrow(run, i), !s.threads[i].script,
                  Plus(AtLeast(s.threads[i]), Tallied(s, run, i)))
    && (!Current(at, g) ==> own == []) && (!s.threads[i].script ==> NoneAsked(Tallied(s, run, i)))
  }

  lemma SaysTheSame(at: State, s: State, run: seq<Action>, i: nat, ticket: nat)
    requires IsRun(s, run) && run != [] && i < |s.threads|
    requires
      var s' := Apply(s, run[0]);
      && SaysProperly(at, s', run[1..], i, ticket)
      && s'.threads[i].script == s.threads[i].script
      && (Actor(run[0]) == i ==>
            run[0].Step? && Added(s, s') == [] && TallyAt(s.threads[i], run[0].choice) == NOTHING)
    ensures SaysProperly(at, s, run, i, ticket)
  {
    hide Apply, CallResult, Own, Tallied, Added, Current, TalkAll, NoThrow, TallyAt, Plus;
    hide Final, IsRun;
    RunUnfolds(s, run, i);
    TallyUnfolds(s, run, i);
    NoThrowSplits(run, i);
    var s' := Apply(s, run[0]);
    PlusThree(Tallied(s', run[1..], i), NOTHING, NOTHING);
    assert [] + Own(s', run[1..], i) == Own(s', run[1..], i);
    LessCalm(Final(s, run), TalkAll(SILENT, Own(s, run, i), at.generation, ticket), at.generation,
             NoThrow(run[1..], i), NoThrow(run, i), !s.threads[i].script,
             Plus(AtLeast(s.threads[i]), Tallied(s, run, i)));
  }

  lemma LessCalm(end: State, t: Talk, g: nat, calm: bool, calmer: bool, single: bool, n: Tally)
    requires CallResult(end, t, g, calm, single, n) && (calmer ==> calm)
    ensures CallResult(end, t, g, calmer, single, n)
  {
  }

  lemma SaysAsCaptured(a: State, b: State, s: State, run: seq<Action>, i: nat, ticket: nat)
    requires IsRun(s, run) && SaysProperly(b, s, run, i, ticket) && SameFlags(a, b)
    ensures SaysProperly(a, s, run, i, ticket)
  {
    hide CallResult, Own, TalkAll, Tallied, Current, NoThrow, Final, IsRun;
    SameCurrent(a, b, a.generation);
  }

  lemma {:induction false} GenRuns(s: State, run: seq<Action>, i: nat) returns (ticket: nat)
    requires Inv(s) && Returns(s, run, i) && s.threads[i].pc == GenHeld && s.stateLock == i && !s.threads[i].cleanup
    ensures SaysProperly(s, s, run, i, ticket)
    decreases |run|
  {
    hide Inv, Apply, Queueing, SaysProperly, CallResult, Own, Tallied, Added, CanStep, Current, TallyAt, SameFlags;
    var a := run[0];
    var s', rest := Apply(s, a), run[1..];
    StepKeepsInv(s, a);
    RunUnfolds(s, run, i);
    if Actor(a) != i {
      OtherKeepsThread(s, a, i);
      BehindTheStateLock(s, a, i);
      ReturnGoesOn(s, run, i);
      ticket := GenRuns(s', rest, i);
      SaysAsCaptured(s, s', s', rest, i, ticket);
    } else {
      TurnIsAStep(s, run, i);
      GenTurn(s, i, a.choice);
      ReturnGoesOn(s, run, i);
      ticket := QueueRuns(s', rest, i, s.generation);
      QueueSays(s, s', rest, i, ticket);
    }
    SaysTheSame(s, s, run, i, ticket);
  }

  lemma QueueSays(at: State, s: State, run: seq<Action>, i: nat, ticket: nat)
    requires IsRun(s, run) && i < |s.threads| && SameFlags(at, s)
    requires
      var g := at.generation;
      && CallResult(Final(s, run), TalkAll(SILENT, Own(s, run, i), g, ticket), g, NoThrow(run, i),
                    !s.threads[i].script, Plus(AtLeast(s.threads[i]), Tallied(s, run, i)))
      && (!Current(s, g) ==> Own(s, run, i) == []) && (!s.threads[i].script ==> NoneAsked(Tallied(s, run, i)))
    ensures SaysProperly(at, s, run, i, ticket)
  {
    hide CallResult, Own, TalkAll, Tallied, Current, NoThrow, Final, IsRun;
    SameCurrent(at, s, at.generation);
  }

  lemma {:induction false} WaitingRuns(s: State, run: seq<Action>, i: nat) returns (ticket: nat)
    requires Inv(s) && Returns(s, run, i) && s.threads[i].pc == GenWait && !s.threads[i].cleanup
    ensures SaysProperly(AtFirst(s, run, i), s, run, i, ticket)
    decreases |run|
  {
    hide Inv, Apply, Queueing, SaysProperly, CallResult, Own, Tallied, Added, CanStep, Current, TallyAt, SameFlags;
    var a := run[0];
    var s', rest := Apply(s, a), run[1..];
    StepKeepsInv(s, a);
    RunUnfolds(s, run, i);
    if Actor(a) != i {
      OtherKeepsThread(s, a, i);
      ReturnGoesOn(s, run, i);
      ticket := WaitingRuns(s', rest, i);
    } else {
      TurnIsAStep(s, run, i);
      GenTurn(s, i, a.choice);
      ReturnGoesOn(s, run, i);
      ticket := GenRuns(s', rest, i);
      SaysAsCaptured(s, s', s', rest, i, ticket);
    }
    SaysTheSame(AtFirst(s, run, i), s, run, i, ticket);
  }

  /**
    What a command or a script does, whoever runs beside it. It says whole commands of the generation it
    captures first, under one tenure of the command lock, and nothing at all if there is no session then.
    If the session lasts, a command is said, and a script says as many as it asks for and one more to clean
    up after one that has failed. If moreover nothing is thrown, there is one frame for each and one more for
    each time it is to be sent again, reads as they are asked for, and a script ends when it is told to.
  */
  lemma CallsHaveTheirEffect(s: State, run: seq<Action>, i: nat, op: Op) returns (ticket: nat)
    requires Inv(s) && IsCall(s, run, i, op) && (op == OpSend || op == OpScript)
    ensures
      var started, rest := Apply(s, run[0]), run[1..];
      var g := AtFirst(started, rest, i).generation;
      var end, own := Final(s, run), Own(s, run, i);
      var talk := TalkAll(SILENT, own, g, ticket);
      && talk.phase.Between? && (op == OpSend ==> talk.commands <= 1)
      && (!Current(AtFirst(started, rest, i), g) ==> own == [])
      && (Current(end, g) ==>
            talk.commands == if op == OpSend then 1 else
              Tallied(started, rest, i).asked + Tallied(started, rest, i).failed)
      && (NoThrow(run, i) && Current(end, g) ==>
            && talk.commands == talk.written == (if op == OpSend then 1 else Tallied(started, rest, i).asked)
            && talk.frames == talk.commands + Tallied(started, rest, i).resent
            && talk.received == Tallied(started, rest, i).received
            && (op == OpScript ==> Tallied(started, rest, i).ended == 1))
  {
    hide Inv, Apply, SameFlags, Own, AtFirst, TalkAll, Current, NoThrow, Tallied;
    CallUnfolds(s, run, i, op);
    NoThrowSplits(run, i);
    ticket := WaitingRuns(Apply(s, run[0]), run[1..], i);
  }
}
