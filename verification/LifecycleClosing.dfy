/** What a close does to the transport and to the core, serial.hpp:256-304. */
module LifecycleClosing {
  import opened LifecycleTrace
  import opened LifecycleModel
  import opened LifecycleInvariant
  import opened LifecycleSafety
  import opened LifecycleEffects

  /** All that a close does to the transport, for the session of generation g. */
  function CloseEvents(g: nat): seq<Event> {
    [CancelRead, WriteStart(Shutdown, g), WriteEnd, DtrOff, TransportClose]
  }

  /** How many of these it has done by each of its program points. */
  function DoneBy(pc: Pc): (n: nat)
    ensures n <= 5
  {
    match pc
    case Stop(q) => if q == StopCall then 2 else if q == StopExit then 3 else 1
    case Drain(_) => 3
    case Shut(h) => if h == PortWait || h == DropDtr then 3 else if h == ClosePort then 4 else 5
    case _ => 0
  }

  predicate Closing(s: State, i: nat, own: seq<Event>, g: nat) {
    && i < |s.threads| && s.closer == i && InClosing(s.threads[i].pc) && s.threads[i].gen == g
    && s.closing && !s.isOpen && !s.session && s.generation == g + 1
    && own == CloseEvents(g)[..DoneBy(s.threads[i].pc)]
  }

  /** What a close has brought about when it returns: everything is down, and nobody is left. */
  predicate CloseResult(end: State, own: seq<Event>, g: nat) {
    && own == CloseEvents(g) && !end.isOpen && !end.closing && !end.session && end.generation == g + 1
    && end.active == 0 && end.worker.NoWorker?
  }

  /** While one thread is closing nobody else touches the flags. */
  lemma FlagsOfTheClosing(s: State, a: Action, i: nat)
    requires Inv(s) && Another(s, a, i) && s.closer == i
    ensures SameFlags(s, Apply(s, a))
  {
    if a.Step? {
      assert LocksOf(s, a.i);
      OtherBesideTheClosing(s, a.i, a.choice, i);
    }
  }

  lemma OtherBesideTheClosing(s: State, j: nat, choice: Choice, i: nat)
    requires CanStep(s, j) && RolesOf(s, j) && Bookkeeping(s) && s.closer == i && i != j
    requires s.isOpen ==> !s.closing
    ensures SameFlags(s, StepOf(s, j, choice))
  {
    hide SameFlags, GenStep, ScriptStep, EnterStep, ExchangeStep, LeaveStep, HushStep, StopStep, DrainStep, ShutStep;
    hide OpenStep, SpawnStep, ClaimStep;
    match s.threads[j].pc
    case Open(o) => OpenBesideTheClosing(s, j, o, choice);
    case Claim(c) => ClaimBesideTheClosing(s, j, c);
    case _ =>
  }

  lemma OpenBesideTheClosing(s: State, j: nat, o: OpenPc, choice: Choice)
    requires j < |s.threads| && s.closing && o != OpenPublish
    ensures SameFlags(s, OpenStep(s, j, o, choice))
  {
  }

  lemma ClaimBesideTheClosing(s: State, j: nat, c: ClaimPc)
    requires j < |s.threads| && s.closing && !s.isOpen
    ensures SameFlags(s, ClaimStep(s, j, c))
  {
  }

  lemma OthersKeepClosing(s: State, a: Action, i: nat, own: seq<Event>, g: nat)
    requires Inv(s) && Another(s, a, i) && Closing(s, i, own, g)
    ensures Closing(Apply(s, a), i, own, g)
  {
    hide Apply, Inv, DoneBy, InClosing;
    OtherKeepsThread(s, a, i);
    FlagsOfTheClosing(s, a, i);
    var m' := ActionMoves(s, a);
  }

  lemma ClosingApplies(s: State, i: nat, choice: Choice)
    requires CanStep(s, i)
    ensures var t := s.threads[i].pc;
      && (t.Hush? ==> Apply(s, Step(i, choice)) == HushStep(s, i, t.u))
      && (t.Stop? ==> Apply(s, Step(i, choice)) == StopStep(s, i, t.q))
      && (t.Drain? ==> Apply(s, Step(i, choice)) == DrainStep(s, i, t.d))
      && (t.Shut? ==> Apply(s, Step(i, choice)) == ShutStep(s, i, t.h))
  {
    hide HushStep, StopStep, DrainStep, ShutStep;
  }

  lemma HushGoesOn(s: State, i: nat, u: HushPc, own: seq<Event>, g: nat)
    requires Closing(s, i, own, g) && s.threads[i].pc == Hush(u)
    ensures var s' := HushStep(s, i, u); Closing(s', i, own + Added(s, s'), g)
  {
  }

  lemma StopGoesOn(s: State, i: nat, q: StopPc, own: seq<Event>, g: nat)
    requires Closing(s, i, own, g) && s.threads[i].pc == Stop(q)
    ensures var s' := StopStep(s, i, q); Closing(s', i, own + Added(s, s'), g)
  {
  }

  lemma DrainGoesOn(s: State, i: nat, d: DrainPc, own: seq<Event>, g: nat)
    requires Closing(s, i, own, g) && s.threads[i].pc == Drain(d)
    ensures var s' := DrainStep(s, i, d); Closing(s', i, own + Added(s, s'), g)
  {
  }

  lemma ShutGoesOn(s: State, i: nat, h: ShutPc, own: seq<Event>, g: nat)
    requires Closing(s, i, own, g) && s.threads[i].pc == Shut(h) && h != EndHeld
    ensures var s' := ShutStep(s, i, h); Closing(s', i, own + Added(s, s'), g)
  {
  }

  lemma WakeGoesOn(s: State, i: nat, own: seq<Event>, g: nat)
    requires Closing(s, i, own, g) && s.threads[i].pc == Drain(DrainSleep)
    ensures var s' := Apply(s, SpuriousWake(i)); Closing(s', i, own + Added(s, s'), g)
  {
  }

  lemma CloseIsLeft(s: State, i: nat, own: seq<Event>, g: nat)
    requires Inv(s) && Closing(s, i, own, g) && s.threads[i].pc == Shut(EndHeld)
    ensures
      var s' := ShutStep(s, i, EndHeld);
      s'.threads[i].pc == Idle && Added(s, s') == [] && CloseResult(s', own, g)
  {
    assert PortOf(s, Observe(s.trace).m, i);
  }

  lemma InTheClosing(s: State, i: nat, own: seq<Event>, g: nat)
    requires Closing(s, i, own, g)
    ensures InClosing(s.threads[i].pc) && s.threads[i].pc != Idle
  {
  }

  /** A turn of its own, or a wake-up for no reason: on towards the end, or over it. */
  lemma CloseTurn(s: State, a: Action, i: nat, own: seq<Event>, g: nat)
    requires Inv(s) && Enabled(s, a) && Actor(a) == i && Closing(s, i, own, g) && !a.Start?
    ensures
      var s' := Apply(s, a);
      if s.threads[i].pc == Shut(EndHeld) then
        s'.threads[i].pc == Idle && Added(s, s') == [] && CloseResult(s', own, g)
      else Closing(s', i, own + Added(s, s'), g)
  {
    hide Inv, Closing, CloseResult, Added, HushStep, StopStep, DrainStep, ShutStep, Apply;
    InTheClosing(s, i, own, g);
    if a.SpuriousWake? {
      WakeGoesOn(s, i, own, g);
    } else {
      ClosingApplies(s, i, a.choice);
      match s.threads[i].pc
      case Hush(u) => HushGoesOn(s, i, u, own, g);
      case Stop(q) => StopGoesOn(s, i, q, own, g);
      case Drain(d) => DrainGoesOn(s, i, d, own, g);
      case Shut(h) => if h == EndHeld { CloseIsLeft(s, i, own, g); } else { ShutGoesOn(s, i, h, own, g); }
    }
  }

  lemma {:induction false} CloseRuns(s: State, run: seq<Action>, i: nat, own: seq<Event>, g: nat)
    requires Inv(s) && Returns(s, run, i) && Closing(s, i, own, g)
    ensures CloseResult(Final(s, run), own + Own(s, run, i), g)
    decreases |run|
  {
    hide Inv, Apply, Closing, CloseResult, Own, Added, CanStep, InClosing;
    var a := run[0];
    var s', rest := Apply(s, a), run[1..];
    StepKeepsInv(s, a);
    RunUnfolds(s, run, i);
    if Actor(a) != i {
      OthersKeepClosing(s, a, i, own, g);
      InTheClosing(s', i, own, g);
      ReturnGoesOn(s, run, i);
      CloseRuns(s', rest, i, own, g);
      assert own + ([] + Own(s', rest, i)) == own + Own(s', rest, i);
    } else {
      TurnIsAStep(s, run, i);
      CloseTurn(s, a, i, own, g);
      var own' := own + Added(s, s');
      if s.threads[i].pc == Shut(EndHeld) {
        ReturnEnds(s, run, i);
        NothingFollows(s', i);
        assert own + ([] + []) == own;
      } else {
        InTheClosing(s', i, own', g);
        ReturnGoesOn(s, run, i);
        CloseRuns(s', rest, i, own', g);
        assert own + (Added(s, s') + Own(s', rest, i)) == own' + Own(s', rest, i);
      }
    }
  }

  // ---------------------------------------------------------------------------
  // Claiming the session

  /** What a close does, judged by the flags it finds: an open core is taken down, others are left alone. */
  predicate ClaimResult(at: State, end: State, own: seq<Event>) {
    if at.isOpen && !at.closing then CloseResult(end, own, at.generation)
    else own == [] && SameFlags(at, end)
  }

  lemma ClaimTurn(s: State, i: nat, choice: Choice)
    requires CanStep(s, i) && s.threads[i].pc == Claim(CloseHeld)
    ensures
      var s' := Apply(s, Step(i, choice));
      Added(s, s') == [] &&
      if s.isOpen && !s.closing then Closing(s', i, [], s.generation)
      else SameFlags(s, s') && s'.threads[i].pc == Idle
  {
  }

  lemma ClaimTakesLock(s: State, i: nat, choice: Choice)
    requires CanStep(s, i) && s.threads[i].pc == Claim(CloseWait)
    ensures
      var s' := Apply(s, Step(i, choice));
      && s'.threads[i].pc == Claim(CloseHeld) && s'.stateLock == i && Added(s, s') == [] && SameFlags(s, s')
  {
  }

  lemma SameClaim(a: State, b: State, end: State, own: seq<Event>)
    requires SameFlags(a, b) && ClaimResult(b, end, own)
    ensures ClaimResult(a, end, own)
  {
  }

  lemma NothingClaimed(at: State, end: State)
    requires !(at.isOpen && !at.closing) && SameFlags(at, end)
    ensures ClaimResult(at, end, [])
  {
  }

  lemma AllClaimed(at: State, end: State, own: seq<Event>)
    requires at.isOpen && !at.closing && CloseResult(end, own, at.generation)
    ensures ClaimResult(at, end, own)
  {
  }

  lemma {:induction false} ClaimRuns(s: State, run: seq<Action>, i: nat)
    requires Inv(s) && Returns(s, run, i) && s.threads[i].pc == Claim(CloseHeld) && s.stateLock == i
    ensures ClaimResult(s, Final(s, run), Own(s, run, i))
    decreases |run|
  {
    hide Inv, Apply, Closing, CloseResult, ClaimResult, Own, Added, CanStep, SameFlags;
    var a := run[0];
    var s', rest := Apply(s, a), run[1..];
    StepKeepsInv(s, a);
    RunUnfolds(s, run, i);
    if Actor(a) != i {
      OtherKeepsThread(s, a, i);
      BehindTheStateLock(s, a, i);
      ReturnGoesOn(s, run, i);
      ClaimRuns(s', rest, i);
      SameClaim(s, s', Final(s, run), Own(s', rest, i));
      assert [] + Own(s', rest, i) == Own(s', rest, i);
    } else {
      TurnIsAStep(s, run, i);
      ClaimTurn(s, i, a.choice);
      if s.isOpen && !s.closing {
        InTheClosing(s', i, [], s.generation);
        ReturnGoesOn(s, run, i);
        CloseRuns(s', rest, i, [], s.generation);
        AllClaimed(s, Final(s, run), [] + Own(s', rest, i));
      } else {
        ReturnEnds(s, run, i);
        NothingFollows(s', i);
        NothingClaimed(s, s');
        var nothing: seq<Event> := [];
        assert [] + nothing == nothing;
      }
    }
  }

  lemma {:induction false} WaitingCloseRuns(s: State, run: seq<Action>, i: nat)
    requires Inv(s) && Returns(s, run, i) && s.threads[i].pc == Claim(CloseWait)
    ensures ClaimResult(AtFirst(s, run, i), Final(s, run), Own(s, run, i))
    decreases |run|
  {
    hide Inv, Apply, ClaimResult, Own, Added, CanStep, SameFlags;
    var a := run[0];
    var s', rest := Apply(s, a), run[1..];
    StepKeepsInv(s, a);
    RunUnfolds(s, run, i);
    assert [] + Own(s', rest, i) == Own(s', rest, i);
    if Actor(a) != i {
      OtherKeepsThread(s, a, i);
      ReturnGoesOn(s, run, i);
      WaitingCloseRuns(s', rest, i);
    } else {
      TurnIsAStep(s, run, i);
      ClaimTakesLock(s, i, a.choice);
      ReturnGoesOn(s, run, i);
      ClaimRuns(s', rest, i);
      SameClaim(s, s', Final(s, run), Own(s', rest, i));
    }
  }

  /**
    What a close does, whoever runs beside it. Judged by the state in which it takes the state lock: an
    open core has its reader cancelled, is sent one StopAll, and has DTR lowered and the transport closed,
    and is left closed under a new generation with no command active and no worker; any other is left alone.
  */
  lemma CloseHasItsEffect(s: State, run: seq<Action>, i: nat)
    requires Inv(s) && IsCall(s, run, i, OpClose)
    ensures
      var at := AtFirst(Apply(s, run[0]), run[1..], i);
      ClaimResult(at, Final(s, run), Own(s, run, i))
  {
    hide Inv, Apply, ClaimResult, SameFlags, Own, AtFirst;
    CallUnfolds(s, run, i, OpClose);
    WaitingCloseRuns(Apply(s, run[0]), run[1..], i);
  }
}
