/**
  The reference-counted, fault-latching session handle of the C interface (src/c_api.cpp,
  src/session_state.hpp) and its C++ owner (src/client.cpp), for calls that do not overlap.
*/
module Handles {
  import opened Words
  import P = Protocol

  /** What a core does to its transport; an opening that fails has closed again what it opened. */
  datatype CoreEvent = Opened | FailedOpen | Used | ShutDown

  /** How a call into the core ends: normally, or with a timeout, a transport error or another error. */
  datatype Outcome = Fine | Late | Broken | Refused

  datatype Request = Open | IsOpen | Command

  datatype Status = OkStatus | TimeoutStatus | ErrorStatus

  /** Openings and shutdowns alternate, and the transport is used only in between. */
  predicate Alternates(log: seq<CoreEvent>, isOpen: bool) {
    if log == [] then !isOpen
    else
      var before := log[..|log| - 1];
      match log[|log| - 1]
      case Opened => isOpen && Alternates(before, false)
      case FailedOpen => !isOpen && Alternates(before, false)
      case Used => isOpen && Alternates(before, true)
      case ShutDown => !isOpen && Alternates(before, true)
  }

  function Times(log: seq<CoreEvent>, e: CoreEvent): nat {
    if log == [] then 0 else Times(log[..|log| - 1], e) + (if log[|log| - 1] == e then 1 else 0)
  }

  /** Every opening but the one still standing has been followed by exactly one shutdown. */
  lemma {:induction false} ShutDownOncePerOpening(log: seq<CoreEvent>, isOpen: bool)
    requires Alternates(log, isOpen)
    ensures Times(log, Opened) == Times(log, ShutDown) + (if isOpen then 1 else 0)
  {
    if log != [] {
      var before, last := log[..|log| - 1], log[|log| - 1];
      ShutDownOncePerOpening(before, last == Used || last == ShutDown);
    }
  }

  lemma AlternatesSnoc(log: seq<CoreEvent>, isOpen: bool, e: CoreEvent)
    requires Alternates(log, isOpen) && isOpen == (e == Used || e == ShutDown)
    ensures Alternates(log + [e], e == Opened || e == Used)
  {
    assert (log + [e])[..|log|] == log;
  }

  /** Rp2350HidSession: the count, the latch, and the core it owns. */
  class Handle {
    var references: u32
    var faulted: bool
    var isOpen: bool
    ghost var log: seq<CoreEvent>
    ghost var destroyed: bool

    constructor ()
      ensures references == 1 && !faulted && !isOpen && log == [] && !destroyed
    {
      references, faulted, isOpen, log, destroyed := 1, false, false, [], false;
    }

    ghost predicate Sound()
      reads `log, `isOpen, `faulted, `destroyed
    {
      Alternates(log, isOpen) && (faulted || destroyed ==> !isOpen)
    }

    /** The core's close, which does nothing unless it is open. */
    method Close()
      requires Alternates(log, isOpen)
      modifies `isOpen, `log
      ensures Sound() && !isOpen
      ensures log == if old(isOpen) then old(log) + [ShutDown] else old(log)
    {
      if isOpen {
        AlternatesSnoc(log, isOpen, ShutDown);
        log := log + [ShutDown];
        isOpen := false;
      }
    }

    /** delete: the core's destructor closes it, serial.hpp:206. */
    method Destroy()
      requires Sound()
      modifies `isOpen, `log, `destroyed
      ensures Sound() && destroyed && !isOpen
      ensures log == if old(isOpen) then old(log) + [ShutDown] else old(log)
    {
      Close();
      destroyed := true;
    }

    /** A request to the core: only an open core uses the transport, and only a closed one opens. */
    method Perform(request: Request, environment: Outcome) returns (outcome: Outcome)
      requires Sound() && !faulted && !destroyed
      modifies `isOpen, `log
      ensures Sound()
      ensures request == IsOpen ==> outcome == Fine && isOpen == old(isOpen) && log == old(log)
      ensures request == Open ==>
        && outcome == (if old(isOpen) then Fine else environment)
        && isOpen == (old(isOpen) || environment == Fine)
        && log == old(log) + if old(isOpen) then [] else if isOpen then [Opened] else [FailedOpen]
      ensures request == Command ==>
        && isOpen == old(isOpen)
        && outcome == (if isOpen then environment else Refused)
        && log == old(log) + if isOpen then [Used] else []
    {
      match request
      case IsOpen => outcome := Fine;
      case Open =>
        if isOpen {
          return Fine;
        }
        if environment == Fine {
          AlternatesSnoc(log, isOpen, Opened);
          log := log + [Opened];
          isOpen := true;
        } else {
          AlternatesSnoc(log, isOpen, FailedOpen);
          log := log + [FailedOpen];
        }
        outcome := environment;
      case Command =>
        if !isOpen {
          return Refused;
        }
        AlternatesSnoc(log, isOpen, Used);
        log := log + [Used];
        outcome := environment;
    }
  }

  function StatusOf(outcome: Outcome): Status {
    match outcome
    case Fine => OkStatus
    case Late => TimeoutStatus
    case _ => ErrorStatus
  }

  /** What a status says: only OkStatus is success, and only TimeoutStatus a timeout. */
  predicate Tells(status: Status, outcome: Outcome) {
    (status == OkStatus <==> outcome == Fine) && (status == TimeoutStatus <==> outcome == Late)
  }

  // ---------------------------------------------------------------------------
  // References

  function One(b: bool): nat {
    if b then 1 else 0
  }

  function Count(pointers: seq<Handle?>, h: Handle): nat {
    if pointers == [] then 0 else
      Count(pointers[..|pointers| - 1], h) + One(pointers[|pointers| - 1] == h)
  }

  lemma {:induction false} CountAfter(pointers: seq<Handle?>, i: nat, p: Handle?, h: Handle)
    requires i < |pointers|
    ensures Count(pointers[i := p], h) + One(pointers[i] == h) == Count(pointers, h) + One(p == h)
  {
    var last := |pointers| - 1;
    if i == last {
      assert pointers[i := p][..last] == pointers[..last];
    } else {
      assert pointers[i := p][..last] == pointers[..last][i := p];
      CountAfter(pointers[..last], i, p, h);
    }
  }

  lemma {:induction false} CountIsBounded(pointers: seq<Handle?>, h: Handle)
    ensures Count(pointers, h) <= |pointers|
    ensures h in pointers <==> Count(pointers, h) > 0
  {
    if pointers != [] {
      var init := pointers[..|pointers| - 1];
      CountIsBounded(init, h);
      assert pointers == init + [pointers[|pointers| - 1]];
    }
  }

  /**
    Everything that can hold a reference: the session_ fields of HidSession objects and the
    pointers kept by users of the C interface. Each is a slot that is null or refers to a handle.
  */
  class Holders {
    const slots: array<Handle?>
    ghost var handles: set<Handle>

    constructor (n: nat)
      requires n < 0x1_0000_0000
      ensures Valid() && fresh(slots) && slots.Length == n && handles == {}
    {
      slots := new Handle?[n](_ => null);
      handles := {};
    }

    /**
      The count of every handle ever created is the number of slots that refer to it, and it has
      been destroyed exactly when that number is zero.
    */
    ghost predicate Valid()
      reads this, slots, handles
    {
      && slots.Length < 0x1_0000_0000
      && (forall i :: 0 <= i < slots.Length && slots[i] != null ==> slots[i] in handles)
      && forall h :: h in handles ==> Counted(h)
    }

    ghost predicate Counted(h: Handle)
      reads this, slots, h
    {
      h.Sound() && h.references == Count(slots[..], h) && (h.destroyed <==> Count(slots[..], h) == 0)
    }

    /** Pointing slot i elsewhere changes the counts of the old and the new handle by one, and no other. */
    lemma CountsAfter(i: nat, p: Handle?, h: Handle)
      requires i < slots.Length
      ensures Count(slots[..][i := p], h) ==
        Count(slots[..], h) - One(slots[i] == h) + One(p == h)
    {
      CountAfter(slots[..], i, p, h);
    }

    /** rp2350_hid_session_create, c_api.cpp:178-188, with options that were accepted. */
    method Create(i: nat)
      requires Valid() && i < slots.Length && slots[i] == null
      modifies this, slots
      ensures Valid() && slots[i] != null && fresh(slots[i]) && handles == old(handles) + {slots[i]}
      ensures slots[..] == old(slots[..])[i := slots[i]]
      ensures !slots[i].faulted && !slots[i].isOpen && slots[i].log == []
    {
      hide Alternates, Count;
      var h := new Handle();
      CountIsBounded(slots[..], h);
      assert h !in slots[..];
      forall g | g in handles + {h} ensures Count(slots[..][i := h], g) == Count(slots[..], g) + One(g == h) {
        CountsAfter(i, h, g);
      }
      SoundAtFirst(h);
      ghost var after := slots[..][i := h];
      slots[i] := h;
      handles := handles + {h};
      assert slots[..] == after;
    }

    lemma SoundAtFirst(h: Handle)
      requires h.log == [] && !h.isOpen
      ensures h.Sound()
    {
    }

    /** rp2350_hid_session_retain, c_api.cpp:190-195: the pointer in slot i is kept in slot j as well. */
    method Retain(i: nat, j: nat) returns (status: Status)
      requires Valid() && i < slots.Length && j < slots.Length && slots[j] == null
      modifies slots, slots[i]
      ensures Valid()
      ensures slots[..] == old(slots[..])[j := slots[i]]
      ensures
        var h := old(slots[i]);
        if h == null then status == ErrorStatus
        else status == OkStatus && h.faulted == old(h.faulted) && h.isOpen == old(h.isOpen) && h.log == old(h.log)
    {
      hide Alternates, Count, Handle.Sound;
      var h := slots[i];
      assert slots[..][j := null] == slots[..];
      if h == null {
        return ErrorStatus;
      }
      forall g | g in handles ensures Count(slots[..][j := h], g) == Count(slots[..], g) + One(g == h) {
        CountsAfter(j, h, g);
      }
      ghost var after := slots[..][j := h];
      AtMostTheSlots(slots[..], h);
      AtMostTheSlots(after, h);
      assert slots[..][i] == h && after[j] == h;
      h.references := h.references + 1;
      slots[j] := h;
      assert slots[..] == after;
      status := OkStatus;
    }

    lemma AtMostTheSlots(pointers: seq<Handle?>, h: Handle)
      requires |pointers| < 0x1_0000_0000
      ensures Count(pointers, h) < 0x1_0000_0000 && (h in pointers <==> Count(pointers, h) > 0)
    {
      CountIsBounded(pointers, h);
    }

    /**
      rp2350_hid_session_release, c_api.cpp:197-204, on the pointer in slot i, which is then given
      up: only the last reference closes the core and deletes the handle.
    */
    method Release(i: nat)
      requires Valid() && i < slots.Length
      modifies slots, slots[i]
      ensures Valid()
      ensures slots[..] == old(slots[..])[i := null]
      ensures GivenUp(old(slots[i]))
    {
      hide Alternates, Count, Handle.Sound;
      var h := slots[i];
      ghost var after := slots[..][i := null];
      if h == null {
        assert slots[..] == after;
        return;
      }
      forall g | g in handles ensures Count(after, g) == Count(slots[..], g) - One(g == h) {
        CountsAfter(i, null, g);
      }
      AtMostTheSlots(slots[..], h);
      AtMostTheSlots(after, h);
      assert slots[..][i] == h;
      var before := h.references;
      h.references := before - 1;
      if before == 1 {
        h.Destroy();
      }
      slots[i] := null;
      assert slots[..] == after;
    }

    /**
      call_session, c_api.cpp:86-105. After a timeout or a transport error the core is closed and
      the handle faulted, for good: every later call fails without touching the transport.
    */
    method CallSession(i: nat, request: Request, environment: Outcome) returns (status: Status)
      requires Valid() && i < slots.Length
      modifies slots[i]
      ensures Valid() && slots[..] == old(slots[..])
      ensures slots[i] == null ==> status == ErrorStatus
      ensures slots[i] != null ==>
        Called(request, environment, status, old(slots[i].faulted), old(slots[i].isOpen), old(slots[i].log),
               slots[i].faulted, slots[i].isOpen, slots[i].log)
    {
      hide Alternates, Count;
      var h := slots[i];
      if h == null {
        return ErrorStatus;
      }
      AtMostTheSlots(slots[..], h);
      assert slots[..][i] == h;
      if h.faulted {
        return ErrorStatus;
      }
      var outcome := h.Perform(request, environment);
      if outcome == Late || outcome == Broken {
        h.faulted := true;
        h.Close();
      }
      status := StatusOf(outcome);
    }

    // -------------------------------------------------------------------------
    // HidSession: the slot is its session_ field

    /** ensure_created, client.cpp:53-74. */
    method EnsureCreated(i: nat)
      requires Valid() && i < slots.Length
      modifies this, slots
      ensures Valid() && slots[i] != null
      ensures slots[..] == old(slots[..])[i := slots[i]]
      ensures old(slots[i]) != null ==> slots[i] == old(slots[i]) && handles == old(handles)
      ensures old(slots[i]) == null ==>
        fresh(slots[i]) && !slots[i].faulted && !slots[i].isOpen && handles == old(handles) + {slots[i]}
    {
      if slots[i] != null {
        return;
      }
      Create(i);
    }

    /** open, client.cpp:89-97: a failed open gives the reference up, so that the next one starts afresh. */
    method Open(i: nat, environment: Outcome) returns (status: Status)
      requires Valid() && i < slots.Length
      modifies this, slots, slots[i]
      ensures Valid()
      ensures slots[..] == old(slots[..])[i := slots[i]]
      ensures status == OkStatus <==> slots[i] != null
      ensures status == OkStatus ==>
        slots[i].isOpen && !slots[i].faulted && (old(slots[i]) != null ==> slots[i] == old(slots[i]))
      ensures old(handles) <= handles && fresh(handles - old(handles))
      ensures old(slots[i]) != null ==> handles == old(handles)
      ensures
        var h := old(slots[i]);
        h != null ==>
          && (old(h.faulted) ==> status == ErrorStatus && h.faulted && !h.isOpen && h.log == old(h.log))
          && (old(h.isOpen) ==> status == OkStatus && h.isOpen && h.log == old(h.log))
          && (!old(h.faulted) && !old(h.isOpen) ==>
                && Tells(status, environment) && h.faulted == (environment == Late || environment == Broken)
                && h.isOpen == (environment == Fine)
                && h.log == old(h.log) + [if h.isOpen then Opened else FailedOpen])
          && h.destroyed == (h !in slots[..])
    {
      EnsureCreated(i);
      status := CallSession(i, Request.Open, environment);
      if status != OkStatus {
        Release(i);
      }
    }

    /** close, client.cpp:99-104; also the destructor. */
    method Close(i: nat)
      requires Valid() && i < slots.Length
      modifies slots, slots[i]
      ensures Valid() && slots[..] == old(slots[..])[i := null]
      ensures GivenUp(old(slots[i]))
    {
      if slots[i] != null {
        Release(i);
      }
      assert slots[i] == null;
    }

    /**
      A reference to the handle has been given up: it is destroyed, and shut down if it was open,
      exactly when no other slot refers to it; otherwise it is as it was.
    */
    twostate predicate GivenUp(h: Handle?)
      reads slots, h
    {
      h != null ==>
        && h.faulted == old(h.faulted)
        && h.destroyed == (h !in slots[..])
        && h.isOpen == (old(h.isOpen) && !h.destroyed)
        && h.log == old(h.log) + if old(h.isOpen) && h.destroyed then [ShutDown] else []
    }

    /** Move assignment, client.cpp:44-51; into an empty slot, the move constructor, client.cpp:41-42. */
    method Move(i: nat, from: nat)
      requires Valid() && i < slots.Length && from < slots.Length
      modifies slots, slots[i]
      ensures Valid()
      ensures slots[..] ==
        if i == from then old(slots[..]) else old(slots[..])[i := old(slots[from])][from := null]
      ensures var h := old(slots[i]); if i == from then h != null ==> unchanged(h) else GivenUp(h)
    {
      hide Alternates, Count, Handle.Sound;
      if i == from {
        return;
      }
      ghost var gone := slots[i];
      Close(i);
      var h := slots[from];
      ghost var middle, after := slots[..][i := h], slots[..][i := h][from := null];
      forall g | g in handles ensures Count(after, g) == Count(slots[..], g) {
        CountAfter(slots[..], i, h, g);
        CountAfter(middle, from, null, g);
      }
      if gone != null {
        CountIsBounded(slots[..], gone);
        CountIsBounded(after, gone);
      }
      slots[i], slots[from] := h, null;
      assert slots[..] == after;
    }

    // -------------------------------------------------------------------------
    // Any sequence of calls

    /**
      What no call ever undoes: a log only grows, and that of a handle which is faulted, or has been
      destroyed, does not even grow.
    */
    twostate predicate Endures(h: Handle)
      reads h
    {
      && old(h.log) <= h.log
      && (old(h.faulted) ==> h.faulted && h.log == old(h.log))
      && (old(h.destroyed) ==> h.destroyed && h.log == old(h.log))
    }

    predicate InRange(call: Call) {
      match call
      case CreateIn(i) => i < slots.Length
      case RetainIn(i, j) => i < slots.Length && j < slots.Length
      case ReleaseFrom(i) => i < slots.Length
      case CallOn(i, _, _) => i < slots.Length
      case OpenOwner(i, _) => i < slots.Length
      case CloseOwner(i) => i < slots.Length
      case MoveOwner(i, from) => i < slots.Length && from < slots.Length
    }

    /** One call. A pointer still held is never overwritten by creating or retaining. */
    method Make(call: Call)
      requires Valid() && InRange(call)
      modifies this, slots, handles
      ensures Valid() && old(handles) <= handles && fresh(handles - old(handles))
      ensures forall h :: h in old(handles) ==> Endures(h)
    {
      hide Alternates, Count, Handle.Sound;
      LivingOnly();
      match call
      case CreateIn(i) =>
        if slots[i] == null {
          Create(i);
        }
      case RetainIn(i, j) =>
        if slots[j] == null {
          var status := Retain(i, j);
        }
      case ReleaseFrom(i) => Release(i);
      case CallOn(i, request, environment) =>
        var status := CallSession(i, request, environment);
      case OpenOwner(i, environment) =>
        var status := Open(i, environment);
      case CloseOwner(i) => Close(i);
      case MoveOwner(i, from) => Move(i, from);
    }

    lemma LivingOnly()
      requires Valid()
      ensures forall i :: 0 <= i < slots.Length && slots[i] != null ==> slots[i] in handles && !slots[i].destroyed
      ensures forall h :: h in handles && h.faulted ==> !h.isOpen
    {
      hide Alternates, Count;
      assert forall h :: h in handles ==> Counted(h);
      forall i | 0 <= i < slots.Length && slots[i] != null ensures !slots[i].destroyed {
        assert Counted(slots[i]) && slots[..][i] == slots[i];
        CountIsBounded(slots[..], slots[i]);
      }
    }

    /**
      Whatever calls are made, by C users and owners alike: the counts stay right, a fault stays
      latched and keeps the transport untouched, and a core is shut down once per opening, at the
      latest when its last holder goes.
    */
    method Replay(calls: seq<Call>)
      requires Valid() && forall c :: c in calls ==> InRange(c)
      modifies this, slots, handles
      ensures Valid() && old(handles) <= handles
      ensures forall h :: h in old(handles) ==> Endures(h)
      ensures forall h :: h in handles ==>
        && Times(h.log, Opened) == Times(h.log, ShutDown) + One(h.isOpen)
        && (h !in slots[..] ==> h.destroyed && !h.isOpen)
    {
      hide Alternates, Count, Times;
      for k := 0 to |calls|
        invariant Valid() && old(handles) <= handles && fresh(handles - old(handles))
        invariant forall h :: h in old(handles) ==> Endures(h)
      {
        Make(calls[k]);
      }
      forall h | h in handles
        ensures Times(h.log, Opened) == Times(h.log, ShutDown) + One(h.isOpen)
        ensures h !in slots[..] ==> h.destroyed && !h.isOpen
      {
        assert Counted(h);
        ShutDownOncePerOpening(h.log, h.isOpen);
        CountIsBounded(slots[..], h);
      }
    }
  }

  /** The calls of the C interface on the pointer in a slot, and those of the C++ owner of a slot. */
  datatype Call =
    | CreateIn(i: nat)
    | RetainIn(i: nat, j: nat)
    | ReleaseFrom(i: nat)
    | CallOn(i: nat, request: Request, environment: Outcome)
    | OpenOwner(i: nat, environment: Outcome)
    | CloseOwner(i: nat)
    | MoveOwner(i: nat, from: nat)

  /** What one call does to the handle it is made on. */
  predicate Called(
    request: Request, environment: Outcome, status: Status,
    wasFaulted: bool, wasOpen: bool, before: seq<CoreEvent>, faulted: bool, isOpen: bool, log: seq<CoreEvent>)
  {
    if wasFaulted then status == ErrorStatus && faulted && !isOpen && log == before
    else
      match request
      case IsOpen => status == OkStatus && !faulted && isOpen == wasOpen && log == before
      case Open =>
        if wasOpen then status == OkStatus && !faulted && isOpen && log == before
        else
          && Tells(status, environment) && faulted == (environment == Late || environment == Broken)
          && isOpen == (environment == Fine) && log == before + [if isOpen then Opened else FailedOpen]
      case Command =>
        if !wasOpen then status == ErrorStatus && !faulted && !isOpen && log == before
        else
          && Tells(status, environment) && faulted == (environment == Late || environment == Broken)
          && isOpen == !faulted && log == before + [Used] + if faulted then [ShutDown] else []
  }

  // ---------------------------------------------------------------------------
  // Reading a payload out, c_api.cpp:107-128 and client.cpp:120-142

  const CLIENT_BUFFER := 256

  datatype CopyError = NoCount | TooSmall | NoOutput

  /** copy_payload; the count is reported even when the buffer is too small. */
  method CopyPayload(payload: bytes, output: array?<byte>, outputSize: u32, hasCount: bool)
    returns (result: Result<(), CopyError>, written: Option<nat>)
    requires output != null ==> outputSize <= output.Length
    requires |payload| < 0x1_0000_0000
    modifies output
    ensures written == if hasCount then Some(|payload|) else None
    ensures result ==
      if !hasCount then Err(NoCount)
      else if outputSize < |payload| then Err(TooSmall)
      else if payload != [] && output == null then Err(NoOutput)
      else Ok(())
    ensures output != null ==>
      output[..] == if result.Ok? then payload + old(output[|payload|..]) else old(output[..])
  {
    written := None;
    if !hasCount {
      return Err(NoCount), written;
    }
    written := Some(|payload|);
    if outputSize < |payload| {
      return Err(TooSmall), written;
    }
    if payload != [] && output == null {
      return Err(NoOutput), written;
    }
    if payload != [] {
      CopyInto(payload, output);
    }
    result := Ok(());
  }

  method CopyInto(payload: bytes, output: array<byte>)
    requires |payload| <= output.Length
    modifies output
    ensures output[..] == payload + old(output[|payload|..])
  {
    for k := 0 to |payload|
      invariant forall m :: 0 <= m < k ==> output[m] == payload[m]
      invariant forall m :: k <= m < output.Length ==> output[m] == old(output[m])
    {
      output[k] := payload[k];
    }
  }

  /** info and caps: the payload of any frame that decodes fits the client's buffer and is returned whole. */
  method ReadPayload(wire: bytes, response: P.Frame) returns (r: Result<bytes, CopyError>)
    requires P.Decode(wire) == Ok(response)
    ensures r == Ok(response.payload)
  {
    P.EncodeOfDecode(wire);
    var output := new byte[CLIENT_BUFFER](_ => 0);
    var copied, written := CopyPayload(response.payload, output, CLIENT_BUFFER, true);
    r := Ok(output[..written.value]);
  }
}
