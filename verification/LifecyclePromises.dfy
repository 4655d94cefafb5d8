/** What an accepted trace promises, read off the positions of its events. */
module LifecyclePromises {
  import opened LifecycleTrace

  /** Every frame is written on the transport opened for the generation its author captured:
      that opening and its publication are the last before the write, and nothing has been
      lowered, stopped or closed since. */
  lemma FrameOnItsOwnPort(trace: seq<Event>, n: nat) returns (k: nat, p: nat)
    requires Observe(trace).Accepted? && n < |trace| && trace[n].WriteStart?
    ensures PublishedAt(trace, k, p, n) && trace[p] == Publish(trace[n].gen)
    ensures forall j :: k < j < n ==>
              trace[j] != TransportClose && trace[j] != DtrOff && trace[j] != DtrOn(false)
              && !(trace[j].WriteStart? && trace[j].source == Shutdown)
  {
    hide Allowed, After;
    PrefixAccepted(trace, n);
    WriteFacts(At(trace, n).m, trace[n]);
    p := LastPublish(trace, n);
    PrefixAccepted(trace, p);
    PublishFacts(At(trace, p).m, trace[p]);
    k := LastOpen(trace, p);
    forall j | k < j < n
      ensures trace[j] != TransportClose && trace[j] != DtrOff && trace[j] != DtrOn(false)
              && !(trace[j].WriteStart? && trace[j].source == Shutdown)
    {
      LiveUntil(trace, j, n);
    }
  }

  /** A frame built for one session never reaches the transport of a later one. */
  lemma NoFrameReachesALaterPort(trace: seq<Event>, k: nat, n: nat)
    requires Observe(trace).Accepted? && k < n < |trace|
    requires trace[k].Publish? && trace[n].WriteStart?
    ensures trace[n].gen >= trace[k].gen
  {
    hide Allowed, After;
    PrefixAccepted(trace, k);
    PrefixAccepted(trace, n);
    PublishFacts(At(trace, k).m, trace[k]);
    WriteFacts(At(trace, n).m, trace[n]);
    PortNeverDecreases(trace, k + 1, n);
  }

  /** After the StopAll of `close` nothing is written until the transport is opened again. */
  lemma NothingAfterShutdown(trace: seq<Event>, i: nat, j: nat) returns (k: nat)
    requires Observe(trace).Accepted? && i < j < |trace|
    requires trace[i].WriteStart? && trace[i].source == Shutdown && trace[j].WriteStart?
    ensures i < k < j && trace[k].TransportOpen?
  {
    hide Allowed, After;
    PrefixAccepted(trace, i);
    PrefixAccepted(trace, j);
    WriteFacts(At(trace, i).m, trace[i]);
    WriteFacts(At(trace, j).m, trace[j]);
    if NoOpenBetween(trace, i + 1, j) {
      PhaseOnlyAdvances(trace, i + 1, j);
      assert false;
    } else {
      k :| i + 1 <= k < j && trace[k].TransportOpen?;
    }
  }

  /** When the transport is closed, no write, read, command or worker is left; and a session
      that had been opened successfully has had its StopAll attempted. */
  lemma CloseComesLast(trace: seq<Event>, k: nat, w: nat, n: nat) returns (stop: nat)
    requires Observe(trace).Accepted? && k < w < n < |trace|
    requires trace[n] == TransportClose && OpenedAt(trace, k, n) && trace[w].WorkerStart?
    ensures At(trace, n).Accepted? && Quiet(At(trace, n).m)
    ensures w < stop < n && trace[stop].WriteStart? && trace[stop].source == Shutdown
    ensures forall j :: w < j < n && trace[j].WriteStart? && trace[j].source == Shutdown ==> j == stop
    ensures forall j :: stop < j < n ==> !trace[j].WriteStart?
  {
    hide Allowed, After;
    PrefixAccepted(trace, n);
    PrefixAccepted(trace, w);
    EventFacts(At(trace, w).m, trace[w]);
    EventFacts(At(trace, n).m, trace[n]);
    stop := FindShutdown(trace, w + 1, n);
    forall j | w < j < n && trace[j].WriteStart? && (j > stop || trace[j].source == Shutdown)
      ensures j == stop
    {
      if j < stop {
        var r := NothingAfterShutdown(trace, j, stop);
      } else if j > stop {
        var r := NothingAfterShutdown(trace, stop, j);
      }
    }
  }

  lemma {:induction false} FindShutdown(trace: seq<Event>, lo: nat, hi: nat) returns (stop: nat)
    requires Observe(trace).Accepted? && lo <= hi <= |trace| && NoOpenBetween(trace, lo, hi)
    requires At(trace, lo).Accepted? && At(trace, lo).m.phase == Live
    requires At(trace, hi).Accepted? && At(trace, hi).m.phase in {Stopped, Lowered, Failed, Down}
    ensures lo <= stop < hi && trace[stop].WriteStart? && trace[stop].source == Shutdown
    decreases hi - lo
  {
    hide Allowed, After;
    PrefixAccepted(trace, lo);
    assert lo < hi;
    EventFacts(At(trace, lo).m, trace[lo]);
    if trace[lo].WriteStart? && trace[lo].source == Shutdown {
      stop := lo;
    } else {
      stop := FindShutdown(trace, lo + 1, hi);
    }
  }

  /** Generations only grow along the frames of a trace. */
  lemma GenerationsInOrder(trace: seq<Event>, i: nat, j: nat)
    requires Observe(trace).Accepted? && i < j < |trace|
    requires trace[i].WriteStart? && trace[j].WriteStart?
    ensures trace[i].gen <= trace[j].gen
  {
    hide Allowed, After;
    PrefixAccepted(trace, i);
    PrefixAccepted(trace, j);
    WriteFacts(At(trace, i).m, trace[i]);
    WriteFacts(At(trace, j).m, trace[j]);
    PortNeverDecreases(trace, i + 1, j);
  }

  /** Tickets only grow along the command frames, and a ticket stands for one generation. */
  lemma TicketsInOrder(trace: seq<Event>, i: nat, j: nat)
    requires Observe(trace).Accepted? && i < j < |trace|
    requires trace[i].WriteStart? && trace[j].WriteStart?
    requires trace[i].source.Command? && trace[j].source.Command?
    ensures trace[i].source.ticket <= trace[j].source.ticket
    ensures trace[i].source == trace[j].source ==> trace[i].gen == trace[j].gen
  {
    hide Allowed, After;
    PrefixAccepted(trace, i);
    PrefixAccepted(trace, j);
    WriteFacts(At(trace, i).m, trace[i]);
    WriteFacts(At(trace, j).m, trace[j]);
    TicketNeverDecreases(trace, i + 1, j);
  }

  /** Every session published starts a generation above that of all frames before it. */
  lemma PublishStartsANewGeneration(trace: seq<Event>, j: nat, k: nat)
    requires Observe(trace).Accepted? && j < k < |trace|
    requires trace[j].WriteStart? && trace[k].Publish?
    ensures trace[j].gen < trace[k].gen
  {
    hide Allowed, After;
    PrefixAccepted(trace, j);
    PrefixAccepted(trace, k);
    WriteFacts(At(trace, j).m, trace[j]);
    PublishFacts(At(trace, k).m, trace[k]);
    PortNeverDecreases(trace, j + 1, k);
  }

  /** Between a StopAll of `close` and a later frame the generation has moved on. */
  lemma ShutdownEndsAGeneration(trace: seq<Event>, j: nat, k: nat)
    requires Observe(trace).Accepted? && j < k < |trace|
    requires trace[j].WriteStart? && trace[j].source == Shutdown && trace[k].WriteStart?
    ensures trace[j].gen < trace[k].gen
  {
    var open := NothingAfterShutdown(trace, j, k);
    var last, p := FrameOnItsOwnPort(trace, k);
    PublishStartsANewGeneration(trace, j, p);
  }

  /** Script transactions are isolated. Between two frames of one tenure of the command lock
      every other frame is a heartbeat of the same session: no frame of another command, and
      no StopAll of `close`, since after that one the tenure writes nothing more. */
  lemma TenureIsIsolated(trace: seq<Event>, i: nat, j: nat, k: nat)
    requires Observe(trace).Accepted? && i < j < k < |trace|
    requires trace[i].WriteStart? && trace[j].WriteStart? && trace[k].WriteStart?
    requires trace[i].source.Command? && trace[k].source == trace[i].source
    ensures trace[j].source == trace[i].source || trace[j].source == Beat
    ensures trace[i].gen == trace[j].gen == trace[k].gen
  {
    TicketsInOrder(trace, i, k);
    GenerationsInOrder(trace, i, j);
    GenerationsInOrder(trace, j, k);
    if trace[j].source.Command? {
      TicketsInOrder(trace, i, j);
      TicketsInOrder(trace, j, k);
    }
    if trace[j].source == Shutdown {
      ShutdownEndsAGeneration(trace, j, k);
    }
  }

  /** Writes never overlap on the wire. */
  lemma WritesDoNotOverlap(trace: seq<Event>, i: nat, j: nat) returns (k: nat)
    requires Observe(trace).Accepted? && i < j < |trace|
    requires trace[i].WriteStart? && trace[j].WriteStart?
    ensures i < k < j && trace[k] == WriteEnd
  {
    hide Allowed, After;
    PrefixAccepted(trace, i);
    WriteFacts(At(trace, i).m, trace[i]);
    k := FindWriteEnd(trace, i + 1, j);
  }

  lemma {:induction false} FindWriteEnd(trace: seq<Event>, lo: nat, hi: nat) returns (k: nat)
    requires Observe(trace).Accepted? && lo <= hi < |trace| && trace[hi].WriteStart?
    requires At(trace, lo).Accepted? && At(trace, lo).m.writing
    ensures lo <= k < hi && trace[k] == WriteEnd
    decreases hi - lo
  {
    hide Allowed, After;
    PrefixAccepted(trace, lo);
    PrefixAccepted(trace, hi);
    WriteFacts(At(trace, hi).m, trace[hi]);
    if trace[lo] == WriteEnd {
      k := lo;
    } else {
      EventFacts(At(trace, lo).m, trace[lo]);
      k := FindWriteEnd(trace, lo + 1, hi);
    }
  }
}
