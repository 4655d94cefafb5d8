/** The command engine, serial.hpp:428-690: one thread of it, against any transport and clock. */
module Engine {
  import opened Words
  import opened Packets
  import opened Sequences
  import opened Transport
  import opened Exchanges
  import opened Deadlines
  import opened Plan
  import opened Script
  import opened Transcript
  import R = Receiver
  import P = Protocol

  const MAX_BUFFER := 314

  datatype ScriptResult = Done | Rejected(error: ScriptError) | Failed(failure: Failure)

  /**
    No reply to a heartbeat, nor to any of the 65534 commands before it, is taken for the n-th
    command's, however many of them are still in the stream.
  */
  lemma StaleRepliesAreIgnored(n: nat, stale: seq<P.Frame>, tail: bytes)
    requires forall f :: f in stale ==> |f.payload| <= P.MAX_PAYLOAD_SIZE && IsStale(f.sequence, n)
    ensures R.Scan(R.Concat(stale) + tail, Nth(n)) == R.Scan(tail, Nth(n))
  {
    hide Nth, R.Scan;
    forall f | f in stale ensures f.sequence != Nth(n) {
      NthIs(n);
      if f.sequence != 0 {
        var m: nat :| m < n < m + 65535 && f.sequence == Nth(m);
        NumbersDiffer(m, n);
      }
    }
    R.OtherRepliesAreDropped(stale, tail, Nth(n));
  }

  /** The one frame outside the numbering, serial.hpp:693. */
  function Heartbeat(): P.Frame {
    P.Frame(P.PROTOCOL_VERSION, P.FLAG_NO_RESPONSE, 0, P.HEARTBEAT, [])
  }

  ghost predicate IsStale(sequence: u16, n: nat) {
    sequence == Heartbeat().sequence || exists m: nat :: m < n < m + 65535 && sequence == Nth(m)
  }

  /** The current command's own replies are never stale, nor are they taken for any of the next 65534. */
  lemma OwnRepliesAreFresh(answers: seq<P.Frame>, n: nat)
    requires forall f :: f in answers ==> f.sequence == Nth(n)
    ensures forall f :: f in answers ==> !IsStale(f.sequence, n)
    ensures forall f, m :: f in answers && n < m < n + 65535 ==> f.sequence != Nth(m)
  {
    hide Nth;
    NthIs(n);
    forall m: nat | m < n < m + 65535 ensures Nth(m) != Nth(n) {
      NumbersDiffer(m, n);
    }
    forall m: nat | n < m < n + 65535 ensures Nth(m) != Nth(n) {
      NumbersDiffer(n, m);
    }
  }

  /** The failures of a script that are its own fault but not found by the parser. */
  predicate IsFormat(failure: Failure) {
    failure == NotAsciiText || failure == PayloadTooLong
  }

  /** The failures that the session, the transport or the device has caused. */
  predicate IsOutside(failure: Failure) {
    || failure.Nacked?
    || failure in {SessionChanged, TransportFailed, TimedOut, RemainedBusy, MalformedBusy, UnexpectedType}
  }

  /** The script's last command was ended by session, transport or device, and its record shows it. */
  predicate EndedFromOutside(logs: seq<Exchange>) {
    logs != [] && logs[|logs| - 1].reply.Err? && IsOutside(logs[|logs| - 1].reply.error)
  }

  /**
    Left alone by session, transport and device, a script is done if and only if every text in it
    can be typed; otherwise it is refused.
  */
  predicate DecidedByItsTexts(result: ScriptResult, commands: seq<ScriptCommand>, logs: seq<Exchange>) {
    || EndedFromOutside(logs)
    || (if AllTypable(commands) then result.Done? else result.Failed? && IsFormat(result.failure))
  }

  predicate IsRefusal(failure: Failure) {
    failure.Nacked? || failure in {RemainedBusy, MalformedBusy, UnexpectedType}
  }

  /**
    A failure from outside has its cause among the events: a check of the session that failed, a write
    or read that failed, a wait of its full length, or a frame of the device that says so.
  */
  ghost predicate HasCause(failure: Failure, logs: seq<Exchange>, events: seq<Event>) {
    && IsSeen(failure, events)
    && (failure == TimedOut ==>
          logs != [] && var x := logs[|logs| - 1]; LeastTime(x.timeout, x.rounds) >= x.timeout * TICKS)
    && (IsRefusal(failure) ==> logs != [] && WasRefused(logs[|logs| - 1]))
  }

  lemma TimedOutWaited(x: Exchange, retries: nat)
    requires Genuine(x, retries) && x.reply == Err(TimedOut)
    ensures LeastTime(x.timeout, x.rounds) >= x.timeout * TICKS
  {
    hide R.Yields;
  }

  lemma {:induction false} EventsAreAmong(head: seq<Event>, logs: seq<Exchange>, x: Exchange)
    requires x in logs
    ensures forall e :: e in Events(x) ==> e in head + AllEvents(logs)
    decreases logs
  {
    hide Events;
    var init, last := logs[..|logs| - 1], logs[|logs| - 1];
    assert logs == init + [last];
    if x in init {
      EventsAreAmong(head, init, x);
    }
  }

  /** The failure of a logged command is never made up. */
  lemma FailureHasCause(
    head: seq<Event>, logs: seq<Exchange>, more: seq<Exchange>, plan: seq<Packet>, retries: nat)
    requires ResultOf(logs, plan).Failed? && forall x :: x in logs ==> Genuine(x, retries)
    ensures HasCause(ResultOf(logs, plan).failure, logs, head + AllEvents(logs + more))
  {
    hide Genuine, Events, AllEvents, LeastTime, IsRefusedBy;
    if logs != [] && logs[|logs| - 1].reply.Err? {
      var x := logs[|logs| - 1];
      assert x in logs && x in logs + more;
      CauseIsSeen(x, retries);
      EventsAreAmong(head, logs + more, x);
      if x.reply.error == TimedOut {
        TimedOutWaited(x, retries);
      } else if IsRefusal(x.reply.error) {
        var f := RefusalIsReceived(x, retries);
      }
    }
  }

  /** The result of a script that was begun: its last command's failure, or done, or a text that is not ASCII. */
  function ResultOf(logs: seq<Exchange>, plan: seq<Packet>): ScriptResult {
    if logs != [] && logs[|logs| - 1].reply.Err? then Failed(logs[|logs| - 1].reply.error)
    else if |logs| == |plan| then Done
    else Failed(NotAsciiText)
  }

  /** A text can be typed exactly when the driver makes a packet of it and a frame can hold the packet. */
  lemma TypableIsSent(c: ScriptCommand)
    ensures CanBeTyped(c) <==> (c.TypeText? ==> IsAscii(c.text)) && Sendable(PacketOf(c))
  {
    hide CanBeTyped, PacketOf, IsAscii;
    TypableIsAccepted(c);
  }

  /** The time left, in milliseconds, rounded up. */
  function RestOf(deadline: nat, now: nat): nat
    requires now < deadline
  {
    (deadline - now + TICKS - 1) / TICKS
  }

  lemma RestIsSmall(deadline: nat, now: nat, ms: u32)
    requires now < deadline <= now + ms * TICKS
    ensures RestOf(deadline, now) <= ms && WaitsOut(deadline, now, RestOf(deadline, now))
  {
  }

  lemma KeepsLess(data: bytes, expected: u16)
    ensures |R.Scan(data, expected).rest| <= |data|
    ensures var r := R.Scan(data, expected).response; r.Some? ==> r.value.sequence == expected
  {
    hide R.Scan;
    R.ScanIsSound(data, expected);
  }

  /** A chunk appended to what the last parse kept: as if the whole stream were parsed with it. */
  lemma ChunkJoins(total: bytes, before: bytes, chunk: bytes, expected: u16)
    requires R.Scan(before, expected) == R.Scan(total, expected)
    requires R.Scan(before, expected).response.None? && |chunk| <= R.READ_SIZE
    ensures
      var rest := R.Scan(before, expected).rest + chunk;
      R.Scan(rest, expected) == R.Scan(total + chunk, expected) && |rest| <= MAX_BUFFER
  {
    hide R.Scan;
    R.BufferIsBounded(before, chunk, expected);
    R.ScanOfLonger(total, chunk, expected);
  }

  /**
    What the run of a parsed script comes to. It has said a beginning of its plan and, unless done, at
    most one stop; its result is that of its last command, or done, or the refusal of a text; done is
    the whole plan; a refusal of its own comes inside a begun batch at a text that cannot be typed.
  */
  predicate ComesTo(
    result: ScriptResult, commands: seq<ScriptCommand>, logs: seq<Exchange>, stop: seq<Exchange>,
    said: seq<Packet>, base: u32, batch: Option<u64>)
  {
    var plan, k := PlanOf(commands), |Said(logs)|;
    && Follows(logs, plan, base, batch) && Settled(logs)
    && result == ResultOf(logs, plan) && DecidedByItsTexts(result, commands, logs)
    && (result.Done? <==> stop == []) && |stop| <= 1 && (forall x :: x in stop ==> x.packet == STOP)
    && k <= |plan| && said == plan[..k] + Said(stop) && (result.Done? ==> k == |plan|)
    && (result.Done? ==>
          PlaceOf(said) == Outside && Erased(said) == PacketsOf(commands) && StopsBetween(said))
    && (result.Failed? && IsFormat(result.failure) ==>
          k < |plan| && PlaceOf(plan[..k]).Inside? && RefusedAt(commands, plan, k))
  }

  lemma NothingSaid(said: seq<Packet>)
    ensures Said([]) == [] && said[..|said|] + [] == said
  {
  }

  lemma NoLonger(logs: seq<Exchange>, plan: seq<Packet>, base: u32, batch: Option<u64>)
    requires Follows(logs, plan, base, batch)
    ensures |logs| <= |plan|
  {
  }

  lemma RefusedIsUntypable(commands: seq<ScriptCommand>, plan: seq<Packet>, k: nat)
    requires RefusedAt(commands, plan, k)
    ensures !AllTypable(commands)
  {
    hide CanBeTyped, PacketOf;
  }

  lemma NothingPolled(head: seq<Event>, buffer: bytes)
    ensures head == head + Polls([]) && buffer + Flat([]) == buffer
  {
  }

  lemma ListenedTo(before: seq<Event>, timeout: u32, begun: nat, polls: seq<Poll>, o: Outcome, end: seq<Event>)
    requires end == ListenEnd(o) && !o.WriteFailed?
    requires forall p :: p in polls ==> WaitsOut(begun + timeout * TICKS, p.at, p.wait)
    requires EndsInTime(begun + timeout * TICKS, o)
    ensures before + [Listen(timeout), Looked(begun)] + Polls(polls) + end
      == before + ListenEvents(timeout, begun, polls, o)
    ensures KeepsTime(timeout, Round(o, begun, polls, NoWait))
  {
    hide Polls, ListenEnd;
  }

  lemma PolledOnce(head: seq<Event>, polls: seq<Poll>, p: Poll, buffer: bytes)
    ensures head + Polls(polls + [p]) ==
      head + Polls(polls) + [Checked(true)] + [Looked(p.at)] + [Got(64, p.wait, Some(p.chunk))]
      + [if p.chunk == [] then Pause(1) else Checked(true)]
    ensures buffer + Flat(polls + [p]) == buffer + Flat(polls) + p.chunk
    ensures p.chunk == [] ==> buffer + Flat(polls + [p]) == buffer + Flat(polls)
  {
    hide Polls;
    PollsSnoc(head, polls, p);
  }

  lemma NoSlices(head: seq<Event>)
    ensures head + Slices([]) == head && Sum([]) == 0
  {
  }

  lemma NobodyListened(timeout: u32)
    ensures AllKeepTime(timeout, []) && !IsInterrupted([])
  {
  }

  lemma OneMoreListened(timeout: u32, rounds: seq<Round>, r: Round)
    requires AllKeepTime(timeout, rounds) && KeepsTime(timeout, r)
    ensures AllKeepTime(timeout, rounds + [r])
  {
    hide KeepsTime;
  }

  lemma WriteIsNotRead(timeout: u32, r: Round)
    requires KeepsTime(timeout, r)
    ensures r.outcome.WriteFailed? ==> r.polls == []
  {
  }

  lemma NotCutOff(rounds: seq<Round>)
    requires forall r :: r in rounds ==> Retried(r)
    ensures rounds != [] ==> !CutOff(rounds[|rounds| - 1]) && !IsInterrupted(rounds)
  {
    if rounds != [] {
      assert rounds[|rounds| - 1] in rounds;
    }
  }

  lemma BusyIsCutOff(r: Round, f: P.Frame)
    requires r.outcome == Answered(f) && r.wait.CutShort?
    requires IsBusy(f) && AreSlices(r.wait.slices) && Sum(r.wait.slices) <= BusyDelay(f)
    ensures CutOff(r)
  {
  }

  lemma LastIsNotLost(rounds: seq<Round>)
    requires rounds != [] && !rounds[|rounds| - 1].outcome.Lost?
    ensures !IsInterrupted(rounds)
  {
  }

  /** One more round of reading, seen from the stream. */
  lemma ReadInRound(
    stream: bytes, number: u16, answers: seq<P.Frame>, rest: bytes, sought: bool, r: Round)
    requires R.Yields(stream, number, answers, rest, sought)
    requires r.outcome.WriteFailed? ==> r.polls == []
    ensures r.outcome.WriteFailed? ==> R.Yields(stream + ReadIn(r), number, answers, rest, sought)
    ensures !r.outcome.Lost? ==>
      var p := R.Scan(rest + Flat(r.polls), number);
      R.Yields(stream + ReadIn(r), number,
               if p.response.Some? then answers + [p.response.value] else answers, p.rest, p.response.None?)
  {
    hide R.Yields, R.Scan;
    if !r.outcome.Lost? {
      assert ReadIn(r) == Flat(r.polls);
      R.YieldsMore(stream, number, answers, rest, sought, Flat(r.polls));
      assert r.outcome.WriteFailed? ==> stream + ReadIn(r) == stream;
    }
  }

  /** A command that is not begun, or cannot be put into a frame, leaves everything as it is. */
  lemma NothingSent(x: Exchange, retries: nat, head: seq<Event>, n: nat)
    requires x.rounds == [] && x.before == x.after
    requires if x.begun then !Sendable(x.packet) && x.reply == Err(PayloadTooLong) else x.reply == Err(SessionChanged)
    ensures Genuine(x, retries) && head + Events(x) == head + [Checked(x.begun)]
    ensures LeastTime(x.timeout, x.rounds) == 0 && R.IsSuffix(x.after, x.before + Received(x.rounds))
    ensures forall f :: f in Answers(x.rounds) ==> !IsStale(f.sequence, n)
  {
    hide IsStale;
    NoRounds(WireOf(x), x.timeout, retries);
    assert x.before + Received(x.rounds) == x.before;
    R.NothingYieldedYet(x.before, x.sequence);
  }

  /** What the retry loop has recorded is genuine; a good answer is followed by a last check. */
  lemma LoopedIsGenuine(x: Exchange, retries: nat, head: seq<Event>)
    requires x.begun && Sendable(x.packet) && LoopEnds(x.packet, x.sequence, x.rounds, retries, x.reply)
    requires WellRetried(x.rounds, retries) && AllKeepTime(x.timeout, x.rounds) && TookFromStream(x)
    ensures Genuine(x, retries)
    ensures head + Events(x) == head + [Checked(true)] + RoundsEvents(WireOf(x), x.timeout, x.rounds)
      + LostEvents(x.rounds, x.reply) + if x.reply.Ok? then [Checked(true)] else []
  {
    hide R.Yields, LoopEnds, RoundsEvents, WireOf, Answers, Received;
  }

  /** If the last check fails, the good answer does not count. */
  lemma TooLateIsGenuine(good: Exchange, x: Exchange, retries: nat, head: seq<Event>)
    requires Genuine(good, retries) && good.reply.Ok? && x == good.(reply := Err(SessionChanged))
    ensures Genuine(x, retries)
    ensures head + Events(x) == head + [Checked(true)] + RoundsEvents(WireOf(x), x.timeout, x.rounds) + [Checked(false)]
    ensures LostEvents(good.rounds, good.reply) == []
  {
    hide R.Yields, RoundsEvents, WireOf, Answers, Received;
  }

  /** What is left is the end of the stream; behind a single answer, just what one parse leaves. */
  lemma StreamIsCut(x: Exchange)
    requires TookFromStream(x) && (x.reply.Ok? ==> x.rounds != [])
    ensures !IsInterrupted(x.rounds) ==> R.IsSuffix(x.after, x.before + Received(x.rounds))
    ensures !IsInterrupted(x.rounds) && |Answers(x.rounds)| == 1 && !Sought(x.rounds) ==>
      R.Parsed(Some(Answers(x.rounds)[0]), x.after) == R.Scan(x.before + Received(x.rounds), x.sequence)
  {
    hide R.Yields, Answers, Received, R.Scan, R.IsSuffix;
    if !IsInterrupted(x.rounds) {
      R.YieldsCutsExactly(x.before + Received(x.rounds), x.sequence, Answers(x.rounds), x.after, Sought(x.rounds));
    }
  }

  lemma WrittenFits(x: Exchange, retries: nat)
    requires Genuine(x, retries)
    ensures IsWritten(x) ==> x.begun && Sendable(x.packet)
  {
    hide LoopEnds, R.Yields;
  }

  lemma OnlySaid(x: Exchange)
    ensures Said([x]) == if IsWritten(x) then [x.packet] else []
  {
    assert [x][..0] == [];
  }

  lemma RefusedUnwritten(x: Exchange, retries: nat)
    requires Genuine(x, retries) && x.reply.Err? && IsFormat(x.reply.error)
    ensures x.rounds == [] && !Sendable(x.packet)
  {
    hide R.Yields;
  }

  lemma FailuresAreKnown(x: Exchange, retries: nat)
    requires Genuine(x, retries) && x.reply.Err?
    ensures IsFormat(x.reply.error) || IsOutside(x.reply.error)
  {
    hide R.Yields;
  }

  /** Where a script begins: the trace, the buffer, the batch counter, the time and the numbering. */
  datatype Origin = Origin(trace: seq<Event>, buffer: bytes, batch: Option<u64>, now: nat, issued: nat)

  class HidBridgeCore {
    const timeoutMs: u32
    const retries: nat
    const link: Link
    const session: R.SessionData
    var sequence: u16
    ghost var issued: nat   // how many numbers have been handed out

    ghost predicate Valid()
      reads this, session
    {
      1 <= sequence == Nth(issued) && |session.buffer| <= MAX_BUFFER
    }

    constructor (timeoutMs: u32, retries: nat, link: Link)
      ensures Valid() && fresh(session) && this.link == link
      ensures this.timeoutMs == timeoutMs && this.retries == retries
      ensures issued == 0 && session.buffer == [] && session.batchDuration == None
    {
      this.timeoutMs, this.retries, this.link := timeoutMs, retries, link;
      session := new R.SessionData();
      sequence, issued := 1, 0;
    }

    /** next_sequence, serial.hpp:488-496. */
    method NextSequence() returns (current: u16)
      requires Valid()
      modifies `sequence, `issued
      ensures Valid() && issued == old(issued) + 1
      ensures current == Nth(old(issued)) && sequence == Next(current)
    {
      current := sequence;
      sequence := (sequence + 1) % 0x1_0000;
      if sequence == 0 {
        sequence := 1;
      }
      issued := issued + 1;
    }

    /** read_response, serial.hpp:504-534. */
    method ReadResponse(expected: u16, timeoutMs: u32)
      returns (reply: Reply, ghost outcome: Outcome, ghost begun: nat, ghost polls: seq<Poll>)
      requires Valid()
      modifies session`buffer, link
      ensures Valid()
      ensures link.trace == old(link.trace) + ListenEvents(timeoutMs, begun, polls, outcome)
      ensures Explains(outcome, reply) && KeepsTime(timeoutMs, Round(outcome, begun, polls, NoWait))
      ensures link.now >= old(link.now) && |link.future| <= |old(link.future)|
      ensures !outcome.Lost? ==>
        R.Parsed(if reply.Ok? then Some(reply.value) else None, session.buffer)
          == R.Scan(old(session.buffer) + Flat(polls), expected)
      ensures reply == Err(TimedOut) ==> link.now >= old(link.now) + timeoutMs * TICKS
      ensures reply.Ok? ==> reply.value.sequence == expected
      ensures outcome != WriteFailed
    {
      hide R.Scan, Nth, Next, Polls, PollEvents, Flat, ListenEvents, KeepsTime, RestOf, WaitsOut;
      ghost var start := link.trace;
      link.Begin(timeoutMs);
      polls := [];
      var now := link.Clock();
      begun := now;
      var deadline := now + timeoutMs * TICKS;
      ghost var head := start + [Listen(timeoutMs), Looked(begun)];
      NothingPolled(head, session.buffer);
      while true
        invariant Valid() && link.now >= begun
        invariant link.trace == head + Polls(polls)
        invariant forall p :: p in polls ==> WaitsOut(deadline, p.at, p.wait)
        invariant link.now >= old(link.now) && |link.future| <= |old(link.future)|
        invariant R.Scan(session.buffer, expected) == R.Scan(old(session.buffer) + Flat(polls), expected)
        decreases |link.future|
      {
        var holds := link.SessionHolds();
        if !holds {
          ListenedTo(start, timeoutMs, begun, polls, Lost(None), [Checked(false)]);
          return Err(SessionChanged), Lost(None), begun, polls;
        }
        ghost var before := session.buffer;
        var response := session.TryDecode(expected);
        KeepsLess(before, expected);
        if response.Some? {
          ListenedTo(start, timeoutMs, begun, polls, Answered(response.value), [Checked(true)]);
          return Ok(response.value), Answered(response.value), begun, polls;
        }
        now := link.Clock();
        if now >= deadline {
          ListenedTo(start, timeoutMs, begun, polls, Expired(now), [Checked(true), Looked(now)]);
          assert link.trace == head + Polls(polls) + [Checked(true), Looked(now)];
          return Err(TimedOut), Expired(now), begun, polls;
        }
        RestIsSmall(deadline, now, timeoutMs);
        var remainingMs := RestOf(deadline, now);
        var chunk := link.Read(R.READ_SIZE, remainingMs);
        if chunk.None? {
          ghost var end := [Checked(true), Looked(now), Got(64, remainingMs, None)];
          ListenedTo(start, timeoutMs, begun, polls, ReadFailed(now, remainingMs), end);
          assert link.trace == head + Polls(polls) + end;
          return Err(TransportFailed), ReadFailed(now, remainingMs), begun, polls;
        }
        ghost var p := Poll(now, remainingMs, chunk.value);
        PolledOnce(head, polls, p, old(session.buffer));
        if chunk.value != [] {
          holds := link.SessionHolds();
          if !holds {
            ghost var end := [Checked(true), Looked(now), Got(64, remainingMs, chunk), Checked(false)];
            ListenedTo(start, timeoutMs, begun, polls, Lost(Some(p)), end);
            assert link.trace == head + Polls(polls) + end;
            return Err(SessionChanged), Lost(Some(p)), begun, polls;
          }
          ChunkJoins(old(session.buffer) + Flat(polls), before, chunk.value, expected);
          session.buffer := session.buffer + chunk.value;
        } else {
          R.RescanIsIdle(before, expected);
          link.Sleep(1);
        }
        polls := polls + [p];
      }
    }

    /** One attempt: write_frame (serial.hpp:498-502), then the wait for the response. */
    method TryOnce(wire: bytes, number: u16, timeout: u32)
      returns (attempted: bool, reply: Reply, ghost r: Round)
      requires Valid()
      modifies session`buffer, link
      ensures Valid() && r.wait == NoWait && KeepsTime(timeout, r)
      ensures !attempted ==>
        && reply == Err(SessionChanged) && session.buffer == old(session.buffer)
        && link.trace == old(link.trace) + [Checked(false)]
      ensures attempted ==>
        Explains(r.outcome, reply) && link.trace == old(link.trace) + RoundEvents(wire, timeout, r)
      ensures r.outcome == WriteFailed ==> session.buffer == old(session.buffer)
      ensures attempted && !r.outcome.Lost? && r.outcome != WriteFailed ==>
        R.Parsed(if reply.Ok? then Some(reply.value) else None, session.buffer)
          == R.Scan(old(session.buffer) + Flat(r.polls), number)
      ensures reply.Ok? ==> reply.value.sequence == number
      ensures link.now >= old(link.now)
      ensures attempted ==> link.now >= old(link.now) + RoundTime(timeout, r)
    {
      hide R.Scan, ListenEvents, Flat;
      r := Round(WriteFailed, 0, [], NoWait);
      attempted := link.SessionHolds();
      if !attempted {
        return false, Err(SessionChanged), r;
      }
      var works := link.Write(wire);
      if !works {
        return true, Err(TransportFailed), r;
      }
      ghost var outcome, begun, polls;
      reply, outcome, begun, polls := ReadResponse(number, timeout);
      r := Round(outcome, begun, polls, NoWait);
    }

    /** wait_for_retry, serial.hpp:616-625: slices of at most 50 ms that add up to the delay. */
    method WaitForRetry(delayMs: nat) returns (holds: bool, ghost slices: seq<nat>)
      modifies link
      ensures link.trace == old(link.trace) + WaitEvents(if holds then Waited(slices) else CutShort(slices))
      ensures AreSlices(slices) && Sum(slices) <= delayMs && (holds ==> Sum(slices) == delayMs)
      ensures link.now >= old(link.now) + Sum(slices) * TICKS && |link.future| <= |old(link.future)|
    {
      hide Slices, Sum;
      slices := [];
      NoSlices(link.trace);
      var remaining: nat := delayMs;
      while remaining > 0
        invariant remaining <= delayMs && Sum(slices) == delayMs - remaining && AreSlices(slices)
        invariant remaining > 0 && slices != [] ==> slices[|slices| - 1] == 50
        invariant link.trace == old(link.trace) + Slices(slices)
        invariant link.now >= old(link.now) + Sum(slices) * TICKS && |link.future| <= |old(link.future)|
      {
        holds := link.SessionHolds();
        if !holds {
          return;
        }
        var slice := if remaining < 50 then remaining else 50;
        link.Sleep(slice);
        SlicesSnoc(old(link.trace), slices, slice);
        slices := slices + [slice];
        remaining := remaining - slice;
      }
      holds := link.SessionHolds();
    }

    /**
      The retry loop of send_command_for_generation, serial.hpp:439-465, with the line after it,
      which is never reached.
    */
    method KeepTrying(packet: Packet, wire: bytes, number: u16, timeout: u32)
      returns (reply: Reply, ghost rounds: seq<Round>)
      requires Valid()
      modifies session`buffer, link
      ensures Valid()
      ensures link.trace == old(link.trace) + RoundsEvents(wire, timeout, rounds) + LostEvents(rounds, reply)
      ensures WellRetried(rounds, retries) && AllKeepTime(timeout, rounds)
      ensures LoopEnds(packet, number, rounds, retries, reply)
      ensures !IsInterrupted(rounds) ==>
        R.Yields(old(session.buffer) + Received(rounds), number, Answers(rounds), session.buffer, Sought(rounds))
      ensures forall f :: f in Answers(rounds) ==> f.sequence == number
      ensures link.now >= old(link.now) + LeastTime(timeout, rounds)
    {
      hide R.Scan, R.Yields, RoundEvents, RoundsEvents, WaitEvents, Received, ReadIn, Flat;
      hide LoopEnds, Refusal, Answers, Sought, LeastTime, RoundTime, Sum, Retried, CutOff, WellRetried;
      hide AllKeepTime, KeepsTime;
      rounds := [];
      NoRounds(wire, timeout, retries);
      NobodyListened(timeout);
      assert old(session.buffer) + Received(rounds) == session.buffer;
      R.NothingYieldedYet(session.buffer, number);
      var attempt := 0;
      while attempt <= retries
        invariant Valid() && attempt == |rounds| <= retries
        invariant link.trace == old(link.trace) + RoundsEvents(wire, timeout, rounds)
        invariant forall q :: q in rounds ==> Retried(q)
        invariant WellRetried(rounds, retries) && AllKeepTime(timeout, rounds)
        invariant
          R.Yields(old(session.buffer) + Received(rounds), number, Answers(rounds), session.buffer, Sought(rounds))
        invariant forall f :: f in Answers(rounds) ==> f.sequence == number
        invariant link.now >= old(link.now) + LeastTime(timeout, rounds)
      {
        ghost var rest, before := session.buffer, rounds;
        var attempted, response, r := TryOnce(wire, number, timeout);
        if !attempted {
          EndsBetween(packet, number, rounds, retries);
          NotCutOff(rounds);
          return response, rounds;
        }
        RoundsEventsSnoc(old(link.trace), wire, timeout, before, r);
        AddedRound(before, r, timeout, retries);
        OneMoreListened(timeout, before, r);
        WriteIsNotRead(timeout, r);
        ReadInRound(old(session.buffer) + Received(before), number, Answers(before), rest, Sought(before), r);
        assert old(session.buffer) + Received(before + [r]) == old(session.buffer) + Received(before) + ReadIn(r);
        rounds := before + [r];
        if response.Err? {
          if response.error != TimedOut || attempt >= retries {
            EndsUnanswered(packet, number, before, r, retries, response);
            return response, rounds;
          }
          ExpiredIsRetried(r);
          LastIsNotLost(rounds);
          attempt := attempt + 1;
          continue;
        }
        var f := response.value;
        if f.command == P.BUSY && |f.payload| == 3 && attempt < retries {
          var ready, slices := WaitForRetry(Join(f.payload[1], f.payload[2]));
          ghost var w := if ready then Waited(slices) else CutShort(slices);
          WaitComesLast(old(link.trace) + RoundsEvents(wire, timeout, before), wire, timeout, r, w);
          r := r.(wait := w);
          RoundsEventsSnoc(old(link.trace), wire, timeout, before, r);
          AddedRound(before, r, timeout, retries);
          OneMoreListened(timeout, before, r);
          rounds := before + [r];
          if !ready {
            BusyIsCutOff(r, f);
            EndsBetween(packet, number, rounds, retries);
            return Err(SessionChanged), rounds;
          }
          BusyIsRetried(r, f);
          attempt := attempt + 1;
          continue;
        }
        EndsAnswered(packet, number, before, r, f, retries);
        var refusal := Refusal(packet.command, f);
        return if refusal.Some? then Err(refusal.value) else Ok(f), rounds;
      }
      assert false;
    }

    /** send_command_for_generation, serial.hpp:428-472. */
    method SendCommand(command: P.Command, payload: bytes) returns (reply: Reply, ghost x: Exchange)
      requires Valid()
      modifies `sequence, `issued, session, link
      ensures Valid()
      ensures x.packet == Packet(command, payload) && x.sequence == Nth(old(issued)) && x.reply == reply
      ensures x.sequence == old(sequence) && sequence == if x.begun then Next(x.sequence) else x.sequence
      ensures x.timeout == ResponseTimeout(timeoutMs, x.packet, old(session.batchDuration))
      ensures x.before == old(session.buffer) && x.after == session.buffer
      ensures issued == old(issued) + if x.begun then 1 else 0
      ensures link.trace == old(link.trace) + Events(x)
      ensures Genuine(x, retries)
      ensures session.batchDuration ==
        if reply.Ok? then Recorded(x.packet, old(session.batchDuration)) else old(session.batchDuration)
      ensures link.now >= old(link.now) + LeastTime(x.timeout, x.rounds)
      ensures !IsInterrupted(x.rounds) ==> R.IsSuffix(x.after, x.before + Received(x.rounds))
      ensures reply.Ok? && |Answers(x.rounds)| == 1 ==>
        R.Parsed(Some(reply.value), x.after) == R.Scan(x.before + Received(x.rounds), x.sequence)
      ensures forall f :: f in Answers(x.rounds) ==> !IsStale(f.sequence, old(issued))
    {
      hide R.Yields, R.Scan, R.IsSuffix, P.Encode, ResponseTimeout, Recorded, IsStale, Nth, Next, Genuine, Events;
      hide LoopEnds, RoundsEvents, LostEvents, Answers, Sought, Received, LeastTime, WellRetried, AllKeepTime;
      hide KeepsTime, IsInterrupted;
      var packet := Packet(command, payload);
      var timeout := ResponseTimeout(timeoutMs, packet, session.batchDuration);
      reply := Err(SessionChanged);
      x := Exchange(packet, sequence, timeout, false, [], reply, session.buffer, session.buffer);
      NothingSent(x, retries, link.trace, old(issued));
      var holds := link.SessionHolds();
      if !holds {
        return;
      }
      var number := NextSequence();
      var encoded := P.EncodeFrame(number, command, payload, 0, P.PROTOCOL_VERSION);
      if encoded.Err? {
        reply := Err(PayloadTooLong);
        x := x.(begun := true, reply := reply);
        NothingSent(x, retries, old(link.trace), old(issued));
        return;
      }
      ghost var rounds;
      reply, rounds := KeepTrying(packet, encoded.value, number, timeout);
      x := x.(begun := true, rounds := rounds, reply := reply, after := session.buffer);
      OwnRepliesAreFresh(Answers(rounds), old(issued));
      LoopedIsGenuine(x, retries, old(link.trace));
      if reply.Ok? {
        CompletedIsWritten(x, retries);
      }
      StreamIsCut(x);
      if reply.Err? {
        return;
      }
      holds := link.SessionHolds();
      if !holds {
        ghost var good := x;
        reply := Err(SessionChanged);
        x := good.(reply := reply);
        TooLateIsGenuine(good, x, retries, old(link.trace));
        return;
      }
      session.batchDuration := Recorded(packet, session.batchDuration);
    }

    // -------------------------------------------------------------------------
    // Scripts

    /** What a script's log so far says of the core and of the link; `origin` is where they were. */
    ghost predicate Logged(logs: seq<Exchange>, plan: seq<Packet>, origin: Origin)
      reads this, session, link
    {
      && Valid() && Linked(logs) && Follows(logs, plan, timeoutMs, origin.batch)
      && (forall x :: x in logs ==> Genuine(x, retries))
      && link.trace == origin.trace + AllEvents(logs)
      && Chained(logs, origin.buffer, session.buffer)
      && link.now >= origin.now + AllTime(logs)
      && Numbered(logs, origin.issued)
    }

    /** A script has sent the first |logs| commands of its plan and all of them were completed. */
    ghost predicate OnPlan(logs: seq<Exchange>, plan: seq<Packet>, origin: Origin)
      reads this, session, link
    {
      && Logged(logs, plan, origin) && AllOk(logs)
      && session.batchDuration == RecordedAll(plan[..|logs|], origin.batch)
      && issued == origin.issued + |logs|
      && (LastWritten(logs).Some? ==> sequence == Next(LastWritten(logs).value) && 1 <= LastWritten(logs).value)
    }

    /** A script has failed after a beginning of its plan, by its last command or before its next. */
    ghost predicate OffPlan(logs: seq<Exchange>, plan: seq<Packet>, origin: Origin, failure: Failure)
      reads this, session, link
    {
      && Logged(logs, plan, origin) && Settled(logs)
      && ResultOf(logs, plan) == Failed(failure)
      && LastWritten(logs) != Some(sequence)
      && (IsFormat(failure) ==> |Said(logs)| < |plan| && !IsMarker(plan[|Said(logs)|].command))
    }

    /** The next command of the plan. */
    method SendNext(packet: Packet, ghost logs: seq<Exchange>, ghost plan: seq<Packet>, ghost origin: Origin)
      returns (failure: Option<Failure>, ghost after: seq<Exchange>)
      requires OnPlan(logs, plan, origin) && |logs| < |plan| && plan[|logs|] == packet
      requires Sendable(packet) || !IsMarker(packet.command)
      modifies `sequence, `issued, session, link
      ensures |after| == |logs| + 1
      ensures failure.None? ==> OnPlan(after, plan, origin) && Sendable(packet)
      ensures failure.Some? ==> OffPlan(after, plan, origin, failure.value)
      ensures failure.Some? && IsFormat(failure.value) ==> !Sendable(packet) && |Said(after)| == |logs|
    {
      hide Events, AllEvents, AllTime, LeastTime, Linked, LastWritten, Chained, Said, Received, Nth, IsStale, Answers;
      hide ResponseTimeout, Recorded, RecordedAll, Genuine, R.Yields, R.Scan, R.IsSuffix, Follows, IsInterrupted;
      var reply, x := SendCommand(packet.command, packet.payload);
      after := logs + [x];
      AllSnoc(origin.trace, logs, x);
      FollowsSnoc(logs, x, plan, timeoutMs, origin.batch);
      ChainedSnoc(logs, x, origin.buffer);
      WrittenFits(x, retries);
      NextDiffers(x.sequence);
      if LastWritten(logs).Some? {
        NextDiffers(LastWritten(logs).value);
      }
      LinkedSnoc(logs, x);
      assert after[..|logs|] == logs && after[|after| - 1] == x;
      if reply.Err? {
        AllSaid(logs, plan, timeoutMs, origin.batch, retries);
        SaidSnoc(logs, x);
        if IsFormat(reply.error) {
          RefusedUnwritten(x, retries);
        }
        return Some(reply.error), after;
      }
      CompletedIsWritten(x, retries);
      failure := None;
    }

    /** execute_script_batch, serial.hpp:474-486. */
    method ExecuteScriptBatch(
      commands: seq<ScriptCommand>, ghost logs: seq<Exchange>, ghost plan: seq<Packet>, ghost origin: Origin)
      returns (failure: Option<Failure>, ghost after: seq<Exchange>)
      requires OnPlan(logs, plan, origin)
      requires |logs| + |Batch(commands)| <= |plan|
      requires plan[|logs|..|logs| + |Batch(commands)|] == Batch(commands)
      requires forall c :: c in commands ==> !c.Stop?
      modifies `sequence, `issued, session, link
      ensures failure.None? ==> OnPlan(after, plan, origin) && |after| == |logs| + |Batch(commands)|
      ensures failure.None? ==> AllTypable(commands)
      ensures failure.Some? ==> OffPlan(after, plan, origin, failure.value)
      ensures failure.Some? && IsFormat(failure.value) ==> RefusedAt(commands, plan, |Said(after)|)
    {
      hide OnPlan, OffPlan, PacketOf, IsAscii, CanBeTyped, IsMarker, Sendable, Said;
      CommandsAreNoMarks(commands);
      MarksAreSendable();
      if commands == [] {
        return None, logs;
      }
      ghost var n := |logs|;
      ghost var group := plan[n..n + |Batch(commands)|];
      assert forall k :: 0 <= k < |group| ==> plan[n + k] == group[k];
      assert group[0] == BEGIN && group[|commands| + 1] == END;
      failure, after := SendNext(BEGIN, logs, plan, origin);
      if failure.Some? {
        return;
      }
      for i := 0 to |commands|
        invariant OnPlan(after, plan, origin) && |after| == n + 1 + i
        invariant AllTypable(commands[..i])
      {
        assert group[i + 1] == PacketOf(commands[i]) == PacketsOf(commands)[i];
        assert commands[i] in commands && PacketsOf(commands)[i] in PacketsOf(commands);
        TypableIsSent(commands[i]);
        var packet := ScriptCommandToPacket(commands[i]);
        if packet.Err? {
          StopsHere(after, plan, origin);
          return Some(NotAsciiText), after;
        }
        failure, after := SendNext(packet.value, after, plan, origin);
        if failure.Some? {
          return;
        }
        TypableSnoc(commands, i);
      }
      assert commands[..|commands|] == commands;
      failure, after := SendNext(END, after, plan, origin);
    }

    lemma BeginsOnPlan(plan: seq<Packet>)
      requires Valid()
      ensures OnPlan([], plan, Origin(link.trace, session.buffer, session.batchDuration, link.now, issued))
    {
      hide AllEvents, AllTime, Linked, LastWritten, Chained, Follows, RecordedAll, Nth;
      NoLogs(plan, timeoutMs, session.batchDuration, session.buffer);
    }

    lemma MarksAreSendable()
      ensures Sendable(BEGIN) && Sendable(END)
      ensures forall p: Packet :: |p.payload| <= P.MAX_PAYLOAD_SIZE ==> Sendable(p)
    {
    }

    /** Failing between two commands leaves the log as it is. */
    lemma StopsHere(logs: seq<Exchange>, plan: seq<Packet>, origin: Origin)
      requires OnPlan(logs, plan, origin) && |logs| < |plan| && !IsMarker(plan[|logs|].command)
      ensures OffPlan(logs, plan, origin, NotAsciiText) && |Said(logs)| == |logs|
    {
      hide Genuine, Follows, AllEvents, AllTime, Linked, LastWritten, Chained, Said, Nth, IsMarker;
      if LastWritten(logs).Some? {
        NextDiffers(LastWritten(logs).value);
      }
      AllSaid(logs, plan, timeoutMs, origin.batch, retries);
      if logs != [] {
        assert logs[|logs| - 1] in logs;
      }
    }

    /** The loop of run_script, serial.hpp:343-353. */
    method RunCommands(commands: seq<ScriptCommand>, ghost origin: Origin)
      returns (failure: Option<Failure>, ghost logs: seq<Exchange>)
      requires OnPlan([], PlanOf(commands), origin)
      modifies `sequence, `issued, session, link
      ensures failure.None? ==> OnPlan(logs, PlanOf(commands), origin) && |logs| == |PlanOf(commands)|
      ensures failure.None? ==> AllTypable(commands)
      ensures failure.Some? ==> OffPlan(logs, PlanOf(commands), origin, failure.value)
      ensures failure.Some? && IsFormat(failure.value) ==> RefusedAt(commands, PlanOf(commands), |Said(logs)|)
    {
      hide OnPlan, OffPlan, Batch, Pending, Flushed, CanBeTyped, Said;
      ghost var plan := PlanOf(commands);
      var segment: seq<ScriptCommand> := [];
      logs := [];
      NothingPending(commands);
      for i := 0 to |commands|
        invariant OnPlan(logs, plan, origin)
        invariant segment == Pending(commands[..i]) && |logs| == |Flushed(commands[..i])|
        invariant forall c :: c in segment ==> c in commands && !c.Stop?
        invariant forall c :: c in commands[..i] ==> c in segment || CanBeTyped(c)
      {
        PendingSnoc(commands, i);
        assert commands[..i + 1] == commands[..i] + [commands[i]];
        StopIsTypable();
        if commands[i].Stop? {
          StopInPlan(commands, i);
          failure, logs := ExecuteScriptBatch(segment, logs, plan, origin);
          if failure.Some? {
            return;
          }
          segment := [];
          failure, logs := SendNext(STOP, logs, plan, origin);
          if failure.Some? {
            return;
          }
        } else {
          segment := segment + [commands[i]];
        }
      }
      assert commands[..|commands|] == commands;
      failure, logs := ExecuteScriptBatch(segment, logs, plan, origin);
    }

    /** The try block of run_script and its handler, serial.hpp:342-360. */
    method RunParsed(commands: seq<ScriptCommand>, ghost origin: Origin)
      returns (result: ScriptResult, ghost logs: seq<Exchange>, ghost stop: seq<Exchange>)
      requires OnPlan([], PlanOf(commands), origin)
      modifies `sequence, `issued, session, link
      ensures Valid() && link.trace == origin.trace + AllEvents(logs + stop)
      ensures forall x :: x in logs + stop ==> Genuine(x, retries)
      ensures Chained(logs + stop, origin.buffer, session.buffer) && Numbered(logs, origin.issued)
      ensures link.now >= origin.now + AllTime(logs + stop)
      ensures
        var said := Spoken([Checked(true)] + AllEvents(logs + stop));
        ComesTo(result, commands, logs, stop, said, timeoutMs, origin.batch)
    {
      hide AllEvents, AllTime, Linked, LastWritten, Follows, Chained, PlanOf, Genuine, RecordedAll, Said;
      hide Spoken, RefusedAt, AllTypable, PlaceOf, Nth, ResultOf, DecidedByItsTexts, ComesTo;
      ghost var plan := PlanOf(commands);
      stop := [];
      var failure;
      failure, logs := RunCommands(commands, origin);
      if failure.None? {
        assert logs + stop == logs;
        SentWhole(commands, logs, origin.batch);
        return Done, logs, stop;
      }
      stop := CleanUp(logs, plan, origin, failure.value);
      assert stop == [stop[0]];
      Refused(failure.value, commands, logs, stop[0], origin.batch);
      result := Failed(failure.value);
    }

    /**
      run_script, serial.hpp:337-361. All it does to the link is a check of the session, the commands
      logged and, unless it is done, one stop, which the link's answers may keep from being written. A
      script that does not parse sends nothing; what becomes of any other is said by `ComesTo`.
    */
    method RunScript(script: string)
      returns (result: ScriptResult, ghost begun: bool, ghost logs: seq<Exchange>, ghost stop: seq<Exchange>)
      requires Valid()
      modifies `sequence, `issued, session, link
      ensures Valid() && link.trace == old(link.trace) + ([Checked(begun)] + AllEvents(logs + stop))
      ensures forall x :: x in logs + stop ==> Genuine(x, retries)
      ensures Chained(logs + stop, old(session.buffer), session.buffer) && Numbered(logs, old(issued))
      ensures link.now >= old(link.now) + AllTime(logs + stop)
      ensures !begun ==> result == Failed(SessionChanged) && logs + stop == []
      ensures begun && Parse(script).Err? ==> result == Rejected(Parse(script).error) && logs + stop == []
      ensures begun && Parse(script).Ok? ==>
        ComesTo(result, Parse(script).value, logs, stop, Spoken(link.trace[|old(link.trace)|..]), timeoutMs,
                old(session.batchDuration))
      ensures result.Failed? ==> HasCause(result.failure, logs, link.trace[|old(link.trace)|..])
    {
      hide AllEvents, AllTime, Linked, LastWritten, Follows, Chained, Parse, PlanOf, Genuine, RecordedAll, Said;
      hide Spoken, Nth, ComesTo, HasCause;
      logs, stop := [], [];
      NoLogs([], timeoutMs, session.batchDuration, session.buffer);
      assert logs + stop == [];
      begun := true;
      var holds := link.SessionHolds();
      begun := holds;
      assert [Checked(begun)] + [] == [Checked(begun)];
      if !holds {
        GoneHasCause();
        assert link.trace[|old(link.trace)|..] == [Checked(false)];
        return Failed(SessionChanged), begun, logs, stop;
      }
      var commands := ParseScript(script);
      if commands.Err? {
        return Rejected(commands.error), begun, logs, stop;
      }
      ghost var origin := Origin(link.trace, session.buffer, session.batchDuration, link.now, issued);
      BeginsOnPlan(PlanOf(commands.value));
      result, logs, stop := RunParsed(commands.value, origin);
      assert link.trace == old(link.trace) + ([Checked(true)] + AllEvents(logs + stop));
      assert link.trace[|old(link.trace)|..] == [Checked(true)] + AllEvents(logs + stop);
      if result.Failed? {
        ghost var said := Spoken([Checked(true)] + AllEvents(logs + stop));
        ResultIsOfLogs(result, commands.value, logs, stop, said, origin.batch);
        assert forall x :: x in logs ==> x in logs + stop;
        FailureHasCause([Checked(true)], logs, stop, PlanOf(commands.value), retries);
      }
    }

    lemma GoneHasCause()
      ensures HasCause(SessionChanged, [], [Checked(false)])
    {
      assert [Checked(false)][0] == Checked(false);
    }

    lemma ResultIsOfLogs(
      result: ScriptResult, commands: seq<ScriptCommand>, logs: seq<Exchange>, stop: seq<Exchange>,
      said: seq<Packet>, batch: Option<u64>)
      requires ComesTo(result, commands, logs, stop, said, timeoutMs, batch)
      ensures result == ResultOf(logs, PlanOf(commands))
    {
      hide Follows, PlanOf, Said, DecidedByItsTexts;
    }

    lemma SentWhole(commands: seq<ScriptCommand>, logs: seq<Exchange>, batch: Option<u64>)
      requires Linked(logs) && AllOk(logs) && forall x :: x in logs ==> Genuine(x, retries)
      requires Follows(logs, PlanOf(commands), timeoutMs, batch) && |logs| == |PlanOf(commands)|
      requires AllTypable(commands)
      ensures ComesTo(Done, commands, logs, [], Spoken([Checked(true)] + AllEvents(logs)), timeoutMs, batch)
    {
      hide Spoken, AllEvents, Linked, Follows, AllTypable, PlanOf, Genuine, PlaceOf, RefusedAt, Said;
      hide Erased, StopsBetween, PacketsOf;
      WholePlanSpoken(commands, [Checked(true)], logs, timeoutMs, batch, retries);
      AllSaid(logs, PlanOf(commands), timeoutMs, batch, retries);
      NothingSaid(Said(logs));
      if logs != [] {
        assert logs[|logs| - 1] in logs;
      }
    }

    lemma Refused(
      failure: Failure, commands: seq<ScriptCommand>, logs: seq<Exchange>, stop: Exchange, batch: Option<u64>)
      requires Linked(logs + [stop]) && forall x :: x in logs + [stop] ==> Genuine(x, retries)
      requires Follows(logs, PlanOf(commands), timeoutMs, batch) && Settled(logs) && stop.packet == STOP
      requires ResultOf(logs, PlanOf(commands)) == Failed(failure)
      requires IsFormat(failure) ==>
        && |Said(logs)| < |PlanOf(commands)| && !IsMarker(PlanOf(commands)[|Said(logs)|].command)
        && RefusedAt(commands, PlanOf(commands), |Said(logs)|)
      ensures
        var said := Spoken([Checked(true)] + AllEvents(logs + [stop]));
        ComesTo(Failed(failure), commands, logs, [stop], said, timeoutMs, batch)
    {
      hide Spoken, AllEvents, Linked, Follows, Genuine, PlanOf, PlaceOf, IsMarker, Said, AllTypable, RefusedAt;
      BeginningSpoken(PlanOf(commands), [Checked(true)], logs, stop, timeoutMs, batch, retries);
      OnlySaid(stop);
      NoLonger(logs, PlanOf(commands), timeoutMs, batch);
      if IsFormat(failure) {
        PlanIsGrouped(commands);
        PlainMeansInside(PlanOf(commands), |Said(logs)|);
        RefusedIsUntypable(commands, PlanOf(commands), |Said(logs)|);
      } else {
        assert logs[|logs| - 1] in logs + [stop];
        FailuresAreKnown(logs[|logs| - 1], retries);
      }
    }

    /** The handler of run_script, serial.hpp:354-360: one StopAll, whatever becomes of it. */
    method CleanUp(
      ghost logs: seq<Exchange>, ghost plan: seq<Packet>, ghost origin: Origin, ghost failure: Failure)
      returns (ghost stop: seq<Exchange>)
      requires OffPlan(logs, plan, origin, failure)
      modifies `sequence, `issued, session, link
      ensures |stop| == 1 && stop[0].packet == STOP && Linked(logs + stop)
      ensures Valid() && link.trace == origin.trace + AllEvents(logs + stop)
      ensures forall x :: x in logs + stop ==> Genuine(x, retries)
      ensures Chained(logs + stop, origin.buffer, session.buffer)
      ensures link.now >= origin.now + AllTime(logs + stop)
    {
      hide AllEvents, AllTime, LeastTime, Linked, LastWritten, Chained, Follows, Genuine, Events, Answers, Received;
      hide R.Yields, R.Scan, R.IsSuffix, ResponseTimeout, RecordedAll, Recorded, IsStale, Nth, Said, IsInterrupted;
      var ignored, x := SendCommand(P.STOP_ALL, []);
      AllSnoc(origin.trace, logs, x);
      ChainedSnoc(logs, x, origin.buffer);
      WrittenFits(x, retries);
      LinkedSnoc(logs, x);
      stop := [x];
    }
  }
}
