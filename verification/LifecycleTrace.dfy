/**
  The calls a `HidBridgeCore` makes on its transport, and the order they may come in.

  A run of the session protocol is observed as a trace of events: the calls on the
  transport, plus the points where `open` publishes a generation, where a command becomes
  active or ends, and where the heartbeat worker starts or exits. `Observe` is a reference
  monitor for that trace: it knows nothing about locks, flags or threads, only which event may
  follow which. `LifecyclePromises` and `LifecycleDtr` read off what an accepted trace promises.
*/
module LifecycleTrace {

  /** Who built a frame: a command of some lock tenure, the heartbeat worker, or `close`. */
  datatype Source =
    | Command(ticket: nat)
    | Beat
    | Shutdown

  /** The number carried by an event is the generation captured by its author. */
  datatype Event =
    | TransportOpen
    | DtrOn(ok: bool)
    | Publish(gen: nat)
    | WorkerStart(gen: nat)
    | CommandBegin(gen: nat)
    | CommandEnd
    | WriteStart(source: Source, gen: nat)
    | WriteEnd
    | ReadStart(gen: nat)
    | ReadEnd
    | CancelRead
    | WorkerExit
    | DtrOff
    | TransportClose

  datatype Phase =
    | Down       // the transport is closed
    | Opened     // transport open, DTR not yet raised
    | Failed     // raising DTR failed
    | Raised     // DTR raised
    | Published  // generation published, heartbeat worker not yet started
    | Live       // `open` succeeded
    | Stopped    // `close` has attempted its StopAll
    | Lowered    // DTR dropped

  /** `port` is the generation last published, that of the open transport; `ticket` and `ticketGen`
      are the tenure and the generation of the last command frame. */
  datatype Monitor = Monitor(
    phase: Phase, port: nat, writing: bool, reading: bool, active: nat, worker: bool,
    ticket: nat, ticketGen: nat)

  datatype Verdict = Accepted(m: Monitor) | Violation

  const START := Monitor(Down, 0, false, false, 0, false, 0, 0)

  /** May `e` come next? */
  predicate Allowed(m: Monitor, e: Event) {
    match e
    case TransportOpen => m.phase == Down
    case DtrOn(_) => m.phase == Opened
    case Publish(g) => m.phase == Raised && g > m.port
    case WorkerStart(g) => m.phase == Published && g == m.port && !m.worker
    case CommandBegin(g) => m.phase == Live && g == m.port && m.active == 0
    case CommandEnd => m.active == 1 && !m.reading
    case WriteStart(source, g) =>
      && m.phase == Live && g == m.port && !m.writing
      && (source.Command? ==> m.active == 1 && m.ticket <= source.ticket
                              && (m.ticket == source.ticket ==> m.ticketGen == g))
      && (source.Beat? ==> m.worker)
    case WriteEnd => m.writing
    case ReadStart(g) => (m.phase == Live || m.phase == Stopped) && g == m.port && m.active == 1 && !m.reading
    case ReadEnd => m.reading
    case CancelRead => m.phase == Live
    case WorkerExit => m.worker && (m.phase == Live || m.phase == Stopped)
    case DtrOff => m.phase == Published || (m.phase == Stopped && Quiet(m))
    case TransportClose => (m.phase == Lowered || m.phase == Failed) && Quiet(m)
  }

  /** No call on the transport is in progress and nobody is left who could make one. */
  predicate Quiet(m: Monitor) {
    !m.writing && !m.reading && m.active == 0 && !m.worker
  }

  function After(m: Monitor, e: Event): Monitor {
    match e
    case TransportOpen => m.(phase := Opened)
    case DtrOn(ok) => m.(phase := if ok then Raised else Failed)
    case Publish(g) => m.(phase := Published, port := g)
    case WorkerStart(_) => m.(phase := Live, worker := true)
    case CommandBegin(_) => m.(active := m.active + 1)
    case CommandEnd => m.(active := if m.active > 0 then m.active - 1 else 0)
    case WriteStart(source, g) =>
      (match source
       case Command(t) => m.(writing := true, ticket := t, ticketGen := g)
       case Beat => m.(writing := true)
       case Shutdown => m.(writing := true, phase := Stopped))
    case WriteEnd => m.(writing := false)
    case ReadStart(_) => m.(reading := true)
    case ReadEnd => m.(reading := false)
    case CancelRead => m
    case WorkerExit => m.(worker := false)
    case DtrOff => m.(phase := Lowered)
    case TransportClose => m.(phase := Down)
  }

  /** The verdict on the first `n` events. */
  function At(trace: seq<Event>, n: nat): Verdict
    requires n <= |trace|
  {
    if n == 0 then Accepted(START)
    else
      var before := At(trace, n - 1);
      if before.Accepted? && Allowed(before.m, trace[n - 1]) then Accepted(After(before.m, trace[n - 1]))
      else Violation
  }

  function Observe(trace: seq<Event>): Verdict {
    At(trace, |trace|)
  }

  lemma {:induction false} AtPrefix(trace: seq<Event>, e: Event, n: nat)
    requires n <= |trace|
    ensures At(trace + [e], n) == At(trace, n)
  {
    hide Allowed, After;
    if n > 0 {
      AtPrefix(trace, e, n - 1);
    }
  }

  lemma ObserveNext(trace: seq<Event>, e: Event)
    ensures Observe(trace + [e]) ==
            var before := Observe(trace);
            if before.Accepted? && Allowed(before.m, e) then Accepted(After(before.m, e)) else Violation
  {
    AtPrefix(trace, e, |trace|);
  }

  // ---------------------------------------------------------------------------
  // What an accepted trace promises, event by event

  lemma {:induction false} PrefixAcceptedUpTo(trace: seq<Event>, n: nat, hi: nat)
    requires n <= hi <= |trace| && At(trace, hi).Accepted?
    ensures At(trace, n).Accepted?
    decreases hi - n
  {
    hide Allowed, After;
    if n < hi {
      PrefixAcceptedUpTo(trace, n + 1, hi);
    }
  }

  lemma PrefixAccepted(trace: seq<Event>, n: nat)
    requires Observe(trace).Accepted? && n <= |trace|
    ensures At(trace, n).Accepted?
    ensures n < |trace| ==> Allowed(At(trace, n).m, trace[n])
                            && At(trace, n + 1) == Accepted(After(At(trace, n).m, trace[n]))
  {
    hide Allowed, After;
    PrefixAcceptedUpTo(trace, n, |trace|);
    if n < |trace| {
      PrefixAcceptedUpTo(trace, n + 1, |trace|);
    }
  }

  /** Without a new `TransportOpen` the phase only moves on, and once published `port` stands still. */
  ghost predicate NoOpenBetween(trace: seq<Event>, lo: nat, hi: nat)
    requires hi <= |trace|
  {
    forall k :: lo <= k < hi ==> !trace[k].TransportOpen?
  }

  function Rank(p: Phase): nat {
    match p
    case Opened => 0
    case Failed => 5
    case Raised => 1
    case Published => 2
    case Live => 3
    case Stopped => 4
    case Lowered => 5
    case Down => 6
  }

  lemma PhaseStep(m: Monitor, e: Event)
    requires Allowed(m, e) && !e.TransportOpen?
    ensures Rank(After(m, e).phase) >= Rank(m.phase)
    ensures Rank(m.phase) >= Rank(Published) ==> After(m, e).port == m.port
  {
  }

  lemma CountersOnlyGrow(m: Monitor, e: Event)
    requires Allowed(m, e)
    ensures After(m, e).port >= m.port && After(m, e).ticket >= m.ticket
    ensures After(m, e).ticket == m.ticket ==> After(m, e).ticketGen == m.ticketGen
  {
  }

  lemma {:induction false} PhaseOnlyAdvances(trace: seq<Event>, lo: nat, hi: nat)
    requires Observe(trace).Accepted? && lo <= hi <= |trace| && NoOpenBetween(trace, lo, hi)
    ensures At(trace, lo).Accepted? && At(trace, hi).Accepted?
    ensures Rank(At(trace, lo).m.phase) >= Rank(Published) ==>
              At(trace, hi).m.port == At(trace, lo).m.port
    ensures Rank(At(trace, hi).m.phase) >= Rank(At(trace, lo).m.phase)
    decreases hi - lo
  {
    hide Allowed, After, Rank;
    PrefixAccepted(trace, lo);
    if lo < hi {
      PhaseStep(At(trace, lo).m, trace[lo]);
      PhaseOnlyAdvances(trace, lo + 1, hi);
    }
  }

  lemma {:induction false} PortNeverDecreases(trace: seq<Event>, lo: nat, hi: nat)
    requires Observe(trace).Accepted? && lo <= hi <= |trace|
    ensures At(trace, lo).Accepted? && At(trace, hi).Accepted?
    ensures At(trace, hi).m.port >= At(trace, lo).m.port
    decreases hi - lo
  {
    hide Allowed, After;
    PrefixAccepted(trace, lo);
    if lo < hi {
      CountersOnlyGrow(At(trace, lo).m, trace[lo]);
      PortNeverDecreases(trace, lo + 1, hi);
    }
  }

  lemma {:induction false} TicketNeverDecreases(trace: seq<Event>, lo: nat, hi: nat)
    requires Observe(trace).Accepted? && lo <= hi <= |trace|
    ensures At(trace, lo).Accepted? && At(trace, hi).Accepted?
    ensures At(trace, hi).m.ticket >= At(trace, lo).m.ticket
    ensures At(trace, hi).m.ticket == At(trace, lo).m.ticket
            ==> At(trace, hi).m.ticketGen == At(trace, lo).m.ticketGen
    decreases hi - lo
  {
    hide Allowed, After;
    PrefixAccepted(trace, lo);
    if lo < hi {
      CountersOnlyGrow(At(trace, lo).m, trace[lo]);
      TicketNeverDecreases(trace, lo + 1, hi);
    }
  }

  /** The position of the last `TransportOpen` before `n`. */
  ghost predicate OpenedAt(trace: seq<Event>, k: nat, n: nat)
    requires n <= |trace|
  {
    k < n && trace[k].TransportOpen? && NoOpenBetween(trace, k + 1, n)
  }

  /** A live transport was opened at `k` and published at `p`. */
  ghost predicate PublishedAt(trace: seq<Event>, k: nat, p: nat, n: nat)
    requires n <= |trace|
  {
    OpenedAt(trace, k, n) && k < p < n && trace[p].Publish?
  }

  /** What a monitor that allows a write knows, and what it remembers of it. */
  lemma WriteFacts(m: Monitor, e: Event)
    requires Allowed(m, e) && e.WriteStart?
    ensures m.phase == Live && m.port == e.gen && !m.writing
    ensures After(m, e).port == m.port && After(m, e).writing
    ensures e.source == Shutdown ==> After(m, e).phase == Stopped
    ensures e.source.Command? ==>
      && m.ticket <= e.source.ticket == After(m, e).ticket && After(m, e).ticketGen == e.gen
      && (m.ticket == e.source.ticket ==> m.ticketGen == e.gen)
  {
  }

  lemma PublishFacts(m: Monitor, e: Event)
    requires Allowed(m, e) && e.Publish?
    ensures m.port < e.gen == After(m, e).port && m.phase == Raised
  {
  }

  /** What the other events say of the monitor that allows them, and what they leave as it was. */
  lemma EventFacts(m: Monitor, e: Event)
    requires Allowed(m, e)
    ensures e.WorkerStart? ==> m.phase == Published && After(m, e).phase == Live
    ensures e == TransportClose ==> Quiet(m) && m.phase in {Lowered, Failed}
    ensures m.phase == Live && !(e.WriteStart? && e.source == Shutdown) ==> After(m, e).phase == Live
    ensures m.writing && e != WriteEnd ==> After(m, e).writing
  {
  }

  lemma OnlyOpeningLeavesDown(m: Monitor, e: Event)
    requires Allowed(m, e) && !e.TransportOpen? && After(m, e).phase != Down
    ensures m.phase != Down
  {
  }

  lemma {:induction false} LastOpen(trace: seq<Event>, n: nat) returns (k: nat)
    requires Observe(trace).Accepted? && n <= |trace|
    requires At(trace, n).Accepted? && At(trace, n).m.phase != Down
    ensures OpenedAt(trace, k, n)
    decreases n
  {
    hide Allowed, After;
    assert n > 0;
    PrefixAccepted(trace, n - 1);
    if trace[n - 1].TransportOpen? {
      k := n - 1;
    } else {
      OnlyOpeningLeavesDown(At(trace, n - 1).m, trace[n - 1]);
      k := LastOpen(trace, n - 1);
    }
  }

  predicate HasPort(p: Phase) {
    p.Published? || p.Live? || p.Stopped?
  }

  lemma PortComesFromPublish(m: Monitor, e: Event)
    requires Allowed(m, e) && HasPort(After(m, e).phase)
    ensures if e.Publish? then After(m, e).port == e.gen
            else HasPort(m.phase) && After(m, e).port == m.port && !e.TransportOpen?
  {
  }

  lemma {:induction false} LastPublish(trace: seq<Event>, n: nat) returns (p: nat)
    requires Observe(trace).Accepted? && n <= |trace|
    requires At(trace, n).Accepted? && HasPort(At(trace, n).m.phase)
    ensures p < n && trace[p] == Publish(At(trace, n).m.port) && NoOpenBetween(trace, p, n)
    decreases n
  {
    assert n > 0;
    hide Allowed, After, HasPort;
    PrefixAccepted(trace, n - 1);
    PortComesFromPublish(At(trace, n - 1).m, trace[n - 1]);
    if trace[n - 1].Publish? {
      p := n - 1;
    } else {
      p := LastPublish(trace, n - 1);
    }
  }

  /** What takes a session down leaves the phase beyond `Live`. */
  lemma TakingDown(m: Monitor, e: Event)
    requires Allowed(m, e)
    requires e == TransportClose || e == DtrOff || e == DtrOn(false)
             || (e.WriteStart? && e.source == Shutdown)
    ensures Rank(After(m, e).phase) > Rank(Live)
  {
  }

  lemma LiveUntil(trace: seq<Event>, j: nat, n: nat)
    requires Observe(trace).Accepted? && j < n <= |trace| && NoOpenBetween(trace, j, n)
    requires At(trace, n).Accepted? && At(trace, n).m.phase == Live
    ensures trace[j] != TransportClose && trace[j] != DtrOff && trace[j] != DtrOn(false)
    ensures !(trace[j].WriteStart? && trace[j].source == Shutdown)
  {
    hide Allowed, After;
    PrefixAccepted(trace, j);
    PhaseOnlyAdvances(trace, j + 1, n);
    if trace[j] == TransportClose || trace[j] == DtrOff || trace[j] == DtrOn(false)
       || (trace[j].WriteStart? && trace[j].source == Shutdown) {
      TakingDown(At(trace, j).m, trace[j]);
    }
  }
}
