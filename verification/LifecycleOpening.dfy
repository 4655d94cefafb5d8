/** What an open does to the transport and to the core, serial.hpp:213-253. */
module LifecycleOpening {
  import opened LifecycleTrace
  import opened LifecycleModel
  import opened LifecycleInvariant
  import opened LifecycleSafety
  import opened LifecycleEffects

  /** The first of the three calls an open makes that fails: opening the port, raising DTR, the thread. */
  datatype Trouble = Fine | NoPort | NoDtr | NoThread

  function TroubleAt(pc: Pc, choice: Choice): Trouble {
    if choice != Throw then Fine
    else if pc == Open(OpenHeld) then NoPort
    else if pc == Open(OpenDtr) then NoDtr
    else if pc == Spawn(SpawnThread) then NoThread
    else Fine
  }

  function First(a: Trouble, b: Trouble): Trouble {
    if a.Fine? then b else a
  }

  ghost function TroubleIn(s: State, run: seq<Action>, i: nat): Trouble
    requires IsRun(s, run)
    decreases |run|
  {
    if run == [] then Fine
    else
      var a := run[0];
      var here := if a.Step? && a.i == i && i < |s.threads| then TroubleAt(s.threads[i].pc, a.choice) else Fine;
      First(here, TroubleIn(Apply(s, a), run[1..], i))
  }

  /** All that an open does to the transport, starting from generation g. */
  function OpenEvents(g: nat, t: Trouble): seq<Event> {
    match t
    case Fine => [TransportOpen, DtrOn(true), Publish(g + 1), WorkerStart(g + 1)]
    case NoPort => []
    case NoDtr => [TransportOpen, DtrOn(false), TransportClose]
    case NoThread => [TransportOpen, DtrOn(true), Publish(g + 1), DtrOff, TransportClose]
  }

  /** How far an open has come, what it has done, and what has failed. */
  predicate Opening(s: State, i: nat, own: seq<Event>, t: Trouble, g: nat) {
    && i < |s.threads| && s.stateLock == i && !s.closing
    && s.generation == g + OpenedBy(s.threads[i].pc, t)
    && match s.threads[i].pc
       case Open(o) =>
         (match o
          case OpenHeld => own == [] && t.Fine? && !s.isOpen && s.worker.NoWorker?
          case OpenDtr => own == [TransportOpen] && t.Fine? && !s.isOpen && s.worker.NoWorker?
          case OpenPublish => own == [TransportOpen, DtrOn(true)] && t.Fine? && !s.isOpen && s.worker.NoWorker?
          case OpenExit => own == OpenEvents(g, t) && LeftBy(s, t, g)
          case _ => false)
       case Spawn(w) =>
         (match w
          case SpawnLower =>
            own == [TransportOpen, DtrOn(true), Publish(g + 1)] && t.NoThread? && !s.isOpen && s.worker.NoWorker?
          case SpawnAbort =>
            && own == (if t.NoDtr? then [TransportOpen, DtrOn(false)]
                       else [TransportOpen, DtrOn(true), Publish(g + 1), DtrOff])
            && (t.NoDtr? || t.NoThread?) && !s.isOpen && s.worker.NoWorker?
          case _ =>
            && own == [TransportOpen, DtrOn(true), Publish(g + 1)] && t.Fine?
            && s.isOpen && s.session && s.worker.NoWorker?)
       case _ => false
  }

  function OpenedBy(pc: Pc, t: Trouble): nat {
    match pc
    case Open(o) => if o == OpenExit && (t.Fine? || t.NoThread?) then 1 else 0
    case _ => if t.NoDtr? then 0 else 1
  }

  /** The core is open with a worker of the new generation, or closed. */
  predicate LeftBy(s: State, t: Trouble, g: nat) {
    if t.Fine? then s.isOpen && s.session && s.worker.Worker? && s.worker.gen == g + 1
    else !s.isOpen && s.worker.NoWorker?
  }

  lemma OpeningApplies(s: State, i: nat, choice: Choice)
    requires CanStep(s, i)
    ensures var t := s.threads[i].pc;
      && (t.Open? ==> Apply(s, Step(i, choice)) == OpenStep(s, i, t.o, choice))
      && (t.Spawn? ==> Apply(s, Step(i, choice)) == SpawnStep(s, i, t.w, choice))
  {
    hide OpenStep, SpawnStep;
  }

  lemma OpenGoesOn(s: State, i: nat, o: OpenPc, choice: Choice, own: seq<Event>, t: Trouble, g: nat)
    requires Opening(s, i, own, t, g) && s.threads[i].pc == Open(o) && o != OpenExit
    ensures
      var s' := OpenStep(s, i, o, choice);
      Opening(s', i, own + Added(s, s'), First(t, TroubleAt(Open(o), choice)), g)
  {
    hide SameFlags;
  }

  lemma SpawnGoesOn(s: State, i: nat, w: SpawnPc, choice: Choice, own: seq<Event>, t: Trouble, g: nat)
    requires Opening(s, i, own, t, g) && s.threads[i].pc == Spawn(w)
    ensures
      var s' := SpawnStep(s, i, w, choice);
      Opening(s', i, own + Added(s, s'), First(t, TroubleAt(Spawn(w), choice)), g)
  {
    hide SameFlags;
  }

  lemma InTheOpening(s: State, i: nat, own: seq<Event>, t: Trouble, g: nat)
    requires Opening(s, i, own, t, g)
    ensures s.threads[i].pc.Open? || s.threads[i].pc.Spawn?
    ensures forall c :: First(t, TroubleAt(s.threads[i].pc, c)).Fine? || !t.Fine? || c == Throw
    ensures s.threads[i].pc == Open(OpenExit) ==>
      && own == OpenEvents(g, t) && LeftBy(s, t, g) && !s.closing
      && s.generation == g + (if t.Fine? || t.NoThread? then 1 else 0)
      && forall c :: TroubleAt(s.threads[i].pc, c).Fine?
  {
  }

  lemma OpenIsLeft(s: State, i: nat, choice: Choice, own: seq<Event>, t: Trouble, g: nat)
    requires Opening(s, i, own, t, g) && s.threads[i].pc == Open(OpenExit)
    ensures
      var s' := OpenStep(s, i, OpenExit, choice);
      s'.threads[i].pc == Idle && Added(s, s') == [] && SameFlags(s, s') && s'.worker == s.worker
  {
  }

  lemma OthersKeepOpening(s: State, a: Action, i: nat, own: seq<Event>, t: Trouble, g: nat)
    requires Inv(s) && Another(s, a, i) && Opening(s, i, own, t, g)
    ensures Opening(Apply(s, a), i, own, t, g)
  {
    hide Apply, Inv;
    OtherKeepsThread(s, a, i);
    BehindTheStateLock(s, a, i);
    if s.worker.Worker? {
      WorkerStays(s, a, i);
    }
  }

  lemma OpenTakesLock(s: State, i: nat, choice: Choice)
    requires CanStep(s, i) && s.threads[i].pc == Open(OpenWait)
    ensures
      var s' := Apply(s, Step(i, choice));
      && s'.threads[i].pc == Open(OpenHeld) && s'.stateLock == i && Added(s, s') == []
      && SameFlags(s, s') && s'.worker == s.worker && TroubleAt(s.threads[i].pc, choice) == Fine
  {
  }

  lemma OpenBegins(s: State, i: nat)
    requires Inv(s) && i < |s.threads| && s.threads[i].pc == Open(OpenHeld) && s.stateLock == i
    requires !s.isOpen && !s.closing
    ensures Opening(s, i, [], Fine, s.generation)
  {
    WorkerIsAlwaysJoined(s, i);
  }

  /** An open that finds the core open or closing holds the lock for a moment and leaves. */
  lemma BusyOpenRuns(s: State, run: seq<Action>, i: nat)
    requires Inv(s) && Returns(s, run, i) && s.stateLock == i && (s.isOpen || s.closing)
    requires s.threads[i].pc == Open(OpenHeld) || s.threads[i].pc == Open(OpenExit)
    ensures Own(s, run, i) == [] && SameFlags(s, Final(s, run))
    decreases |run|
  {
    hide Inv, Apply, Own, Added, CanStep;
    var a := run[0];
    var s', rest := Apply(s, a), run[1..];
    StepKeepsInv(s, a);
    RunUnfolds(s, run, i);
    if Actor(a) != i {
      OtherKeepsThread(s, a, i);
      BehindTheStateLock(s, a, i);
      ReturnGoesOn(s, run, i);
      BusyOpenRuns(s', rest, i);
    } else {
      TurnIsAStep(s, run, i);
      BusyOpenTurn(s, i, a.choice);
      if s.threads[i].pc == Open(OpenHeld) {
        ReturnGoesOn(s, run, i);
        BusyOpenRuns(s', rest, i);
      } else {
        ReturnEnds(s, run, i);
        NothingFollows(s', i);
      }
    }
  }

  lemma BusyOpenTurn(s: State, i: nat, choice: Choice)
    requires CanStep(s, i) && s.stateLock == i && (s.isOpen || s.closing)
    requires s.threads[i].pc == Open(OpenHeld) || s.threads[i].pc == Open(OpenExit)
    ensures
      var s' := Apply(s, Step(i, choice));
      && SameFlags(s, s') && Added(s, s') == []
      && (s.threads[i].pc == Open(OpenHeld) ==> s'.threads[i].pc == Open(OpenExit) && s'.stateLock == i)
      && (s.threads[i].pc == Open(OpenExit) ==> s'.threads[i].pc == Idle)
  {
  }

  lemma TroubleUnfolds(s: State, run: seq<Action>, i: nat)
    requires IsRun(s, run) && run != [] && i < |s.threads|
    ensures TroubleIn(s, run, i) ==
      First(if run[0].Step? && run[0].i == i then TroubleAt(s.threads[i].pc, run[0].choice) else Fine,
            TroubleIn(Apply(s, run[0]), run[1..], i))
  {
    hide Apply, TroubleAt;
  }

  lemma NoTroubleFollows(s: State, i: nat)
    ensures TroubleIn(s, [], i) == Fine
  {
  }

  lemma FirstOfThree(a: Trouble, b: Trouble, c: Trouble)
    ensures First(First(a, b), c) == First(a, First(b, c)) && First(a, Fine) == a && First(Fine, a) == a
  {
  }

  /** A turn of its own: on towards the exit, or out of it. */
  lemma OpenTurn(s: State, i: nat, choice: Choice, own: seq<Event>, t: Trouble, g: nat)
    requires CanStep(s, i) && Opening(s, i, own, t, g)
    ensures
      var s', t' := Apply(s, Step(i, choice)), First(t, TroubleAt(s.threads[i].pc, choice));
      if s.threads[i].pc == Open(OpenExit) then
        && s'.threads[i].pc == Idle && Added(s, s') == [] && t' == t
        && SameFlags(s, s') && s'.worker == s.worker
      else Opening(s', i, own + Added(s, s'), t', g)
  {
    hide Opening, OpenStep, SpawnStep, SameFlags, Apply;
    InTheOpening(s, i, own, t, g);
    OpeningApplies(s, i, choice);
    match s.threads[i].pc
    case Open(o) =>
      if o == OpenExit {
        OpenIsLeft(s, i, choice, own, t, g);
      } else {
        OpenGoesOn(s, i, o, choice, own, t, g);
      }
    case Spawn(w) => SpawnGoesOn(s, i, w, choice, own, t, g);
  }

  /** What an open has brought about when it returns. */
  predicate OpenResult(end: State, own: seq<Event>, t: Trouble, g: nat) {
    && own == OpenEvents(g, t) && LeftBy(end, t, g) && !end.closing
    && end.generation == g + (if t.Fine? || t.NoThread? then 1 else 0)
  }

  lemma ExitGivesResult(s: State, s': State, i: nat, own: seq<Event>, t: Trouble, g: nat)
    requires Opening(s, i, own, t, g) && s.threads[i].pc == Open(OpenExit)
    requires SameFlags(s, s') && s'.worker == s.worker
    ensures OpenResult(s', own, t, g)
  {
  }

  lemma {:induction false} OpenRuns(s: State, run: seq<Action>, i: nat, own: seq<Event>, t: Trouble, g: nat)
    requires Inv(s) && Returns(s, run, i) && Opening(s, i, own, t, g)
    ensures OpenResult(Final(s, run), own + Own(s, run, i), First(t, TroubleIn(s, run, i)), g)
    decreases |run|
  {
    hide Inv, Apply, Opening, OpenResult, TroubleAt, First, TroubleIn, Own, Added, LeftBy, SameFlags, CanStep;
    var a := run[0];
    var s', rest := Apply(s, a), run[1..];
    StepKeepsInv(s, a);
    RunUnfolds(s, run, i);
    TroubleUnfolds(s, run, i);
    InTheOpening(s, i, own, t, g);
    if Actor(a) != i {
      OthersKeepOpening(s, a, i, own, t, g);
      InTheOpening(s', i, own, t, g);
      ReturnGoesOn(s, run, i);
      OpenRuns(s', rest, i, own, t, g);
      FirstOfThree(TroubleIn(s', rest, i), Fine, Fine);
      assert own + ([] + Own(s', rest, i)) == own + Own(s', rest, i);
    } else {
      TurnIsAStep(s, run, i);
      OpenTurn(s, i, a.choice, own, t, g);
      var t', own' := First(t, TroubleAt(s.threads[i].pc, a.choice)), own + Added(s, s');
      FirstOfThree(t, TroubleAt(s.threads[i].pc, a.choice), TroubleIn(s', rest, i));
      if s.threads[i].pc == Open(OpenExit) {
        ReturnEnds(s, run, i);
        NothingFollows(s', i);
        NoTroubleFollows(s', i);
        ExitGivesResult(s, s', i, own, t, g);
        FirstOfThree(t, Fine, Fine);
        assert own + ([] + []) == own;
      } else {
        InTheOpening(s', i, own', t', g);
        ReturnGoesOn(s, run, i);
        OpenRuns(s', rest, i, own', t', g);
        assert own + (Added(s, s') + Own(s', rest, i)) == own' + Own(s', rest, i);
      }
    }
  }

  lemma {:induction false} WaitingOpenRuns(s: State, run: seq<Action>, i: nat)
    requires Inv(s) && Returns(s, run, i) && s.threads[i].pc == Open(OpenWait)
    ensures
      var at, end, own := AtFirst(s, run, i), Final(s, run), Own(s, run, i);
      if at.isOpen || at.closing then own == [] && SameFlags(at, end)
      else OpenResult(end, own, TroubleIn(s, run, i), at.generation)
    decreases |run|
  {
    hide Inv, Apply, Opening, OpenResult, TroubleAt, First, TroubleIn, Own, Added, SameFlags, CanStep;
    var a := run[0];
    var s', rest := Apply(s, a), run[1..];
    StepKeepsInv(s, a);
    RunUnfolds(s, run, i);
    TroubleUnfolds(s, run, i);
    if Actor(a) != i {
      OtherKeepsThread(s, a, i);
      ReturnGoesOn(s, run, i);
      WaitingOpenRuns(s', rest, i);
      FirstOfThree(TroubleIn(s', rest, i), Fine, Fine);
      assert [] + Own(s', rest, i) == Own(s', rest, i);
    } else {
      TurnIsAStep(s, run, i);
      OpenTakesLock(s, i, a.choice);
      ReturnGoesOn(s, run, i);
      FirstOfThree(TroubleIn(s', rest, i), Fine, Fine);
      assert [] + Own(s', rest, i) == Own(s', rest, i);
      if s.isOpen || s.closing {
        BusyOpenRuns(s', rest, i);
        SameTwice(s, s', Final(s', rest));
      } else {
        OpenBegins(s', i);
        OpenRuns(s', rest, i, [], Fine, s.generation);
      }
    }
  }

  /**
    What an open does, whoever runs beside it. Judged by the state in which it takes the state lock: an
    open or closing core is left alone; otherwise, if nothing fails, the transport is opened, DTR raised
    and the worker started, all for a new generation, and the core is left open; and if one of the three
    fails, it goes back all the way and leaves the core closed.
  */
  lemma OpenHasItsEffect(s: State, run: seq<Action>, i: nat)
    requires Inv(s) && IsCall(s, run, i, OpOpen)
    ensures
      var started, rest := Apply(s, run[0]), run[1..];
      var at, end, own := AtFirst(started, rest, i), Final(s, run), Own(s, run, i);
      if at.isOpen || at.closing then own == [] && SameFlags(at, end)
      else OpenResult(end, own, TroubleIn(started, rest, i), at.generation)
  {
    hide Inv, Apply, OpenResult, SameFlags, Own, TroubleIn, AtFirst;
    CallUnfolds(s, run, i, OpOpen);
    WaitingOpenRuns(Apply(s, run[0]), run[1..], i);
  }
}
