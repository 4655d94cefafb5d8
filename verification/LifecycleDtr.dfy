/** When DTR is raised and lowered in an accepted trace. */
module LifecycleDtr {
  import opened LifecycleTrace

  predicate IsUp(p: Phase) {
    p == Live || p == Stopped
  }

  predicate IsRaised(p: Phase) {
    p == Raised || p == Published || IsUp(p)
  }

  lemma UpUntilLowered(m: Monitor, e: Event)
    requires Allowed(m, e) && IsUp(m.phase)
    ensures if e == DtrOff then m.phase == Stopped && Quiet(m) else IsUp(After(m, e).phase)
  {
  }

  lemma RaisedByDtrOn(m: Monitor, e: Event)
    requires Allowed(m, e) && IsRaised(After(m, e).phase) && e != DtrOn(true)
    ensures IsRaised(m.phase) && !e.TransportOpen?
  {
  }

  lemma DtrMovesOn(m: Monitor, e: Event)
    requires Allowed(m, e)
    ensures e.DtrOn? ==> Rank(m.phase) == 0 && Rank(After(m, e).phase) > 0
    ensures e == DtrOff ==> Rank(m.phase) < Rank(Lowered) && After(m, e).phase == Lowered
  {
  }

  lemma {:induction false} FindLowering(trace: seq<Event>, lo: nat, hi: nat) returns (lower: nat)
    requires Observe(trace).Accepted? && lo <= hi <= |trace|
    requires At(trace, lo).Accepted? && IsUp(At(trace, lo).m.phase)
    requires At(trace, hi).Accepted? && !IsUp(At(trace, hi).m.phase)
    ensures lo <= lower < hi && trace[lower] == DtrOff && At(trace, lower).Accepted?
    ensures At(trace, lower).m.phase == Stopped && Quiet(At(trace, lower).m)
    decreases hi - lo
  {
    hide Allowed, After, IsUp, Quiet;
    PrefixAccepted(trace, lo);
    assert lo < hi;
    UpUntilLowered(At(trace, lo).m, trace[lo]);
    if trace[lo] == DtrOff {
      lower := lo;
    } else {
      lower := FindLowering(trace, lo + 1, hi);
    }
  }

  lemma {:induction false} FindRaising(trace: seq<Event>, k: nat, n: nat) returns (raise: nat)
    requires Observe(trace).Accepted? && n <= |trace| && OpenedAt(trace, k, n)
    requires At(trace, n).Accepted? && IsRaised(At(trace, n).m.phase)
    ensures k < raise < n && trace[raise] == DtrOn(true)
    decreases n
  {
    hide Allowed, After, IsRaised;
    PrefixAccepted(trace, n - 1);
    if trace[n - 1] == DtrOn(true) {
      raise := n - 1;
    } else {
      RaisedByDtrOn(At(trace, n - 1).m, trace[n - 1]);
      raise := FindRaising(trace, k, n - 1);
    }
  }

  /** Since its opening a port has had DTR raised and lowered at most once each. */
  lemma DtrOnce(trace: seq<Event>, i: nat, j: nat)
    requires Observe(trace).Accepted? && i < j < |trace| && NoOpenBetween(trace, i, j)
    ensures !(trace[i].DtrOn? && trace[j].DtrOn?) && !(trace[i] == DtrOff && trace[j] == DtrOff)
  {
    hide Allowed, After;
    PrefixAccepted(trace, i);
    PrefixAccepted(trace, j);
    PhaseOnlyAdvances(trace, i + 1, j);
    DtrMovesOn(At(trace, i).m, trace[i]);
    DtrMovesOn(At(trace, j).m, trace[j]);
  }

  /** A session that came up had DTR raised once before, and lowered once, when all was quiet. */
  lemma DtrFramesTheSession(trace: seq<Event>, k: nat, w: nat, n: nat) returns (raise: nat, lower: nat)
    requires Observe(trace).Accepted? && k < w < n < |trace|
    requires trace[n] == TransportClose && OpenedAt(trace, k, n) && trace[w].WorkerStart?
    ensures k < raise < w && trace[raise] == DtrOn(true)
    ensures w < lower < n && trace[lower] == DtrOff
    ensures At(trace, lower).Accepted? && At(trace, lower).m.phase == Stopped && Quiet(At(trace, lower).m)
    ensures forall j :: k < j < n && trace[j].DtrOn? ==> j == raise
    ensures forall j :: k < j < n && trace[j] == DtrOff ==> j == lower
  {
    hide Allowed, After, Quiet;
    PrefixAccepted(trace, w);
    PrefixAccepted(trace, n);
    EventFacts(At(trace, w).m, trace[w]);
    EventFacts(At(trace, n).m, trace[n]);
    raise := FindRaising(trace, k, w);
    lower := FindLowering(trace, w + 1, n);
    forall j | k < j < n && trace[j].DtrOn? ensures j == raise {
      if j < raise { DtrOnce(trace, j, raise); } else if j > raise { DtrOnce(trace, raise, j); }
    }
    forall j | k < j < n && trace[j] == DtrOff ensures j == lower {
      if j < lower { DtrOnce(trace, j, lower); } else if j > lower { DtrOnce(trace, lower, j); }
    }
  }

  /** DTR is lowered after the StopAll, not before. */
  lemma LoweredAfterStop(trace: seq<Event>, stop: nat, lower: nat)
    requires Observe(trace).Accepted? && stop < |trace| && lower < |trace|
    requires trace[stop].WriteStart? && trace[stop].source == Shutdown && trace[lower] == DtrOff
    requires stop > lower ==> NoOpenBetween(trace, lower, stop)
    ensures stop < lower
  {
    hide Allowed, After;
    PrefixAccepted(trace, stop);
    PrefixAccepted(trace, lower);
    WriteFacts(At(trace, stop).m, trace[stop]);
    DtrMovesOn(At(trace, lower).m, trace[lower]);
    if lower < stop {
      PhaseOnlyAdvances(trace, lower + 1, stop);
    }
  }
}
