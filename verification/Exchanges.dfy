/**
  What one logical command does to the outside: a record of its write attempts, of everything read
  and waited for in between, and of its reply, and the events such a record stands for.
*/
module Exchanges {
  import opened Words
  import opened Packets
  import opened Transport
  import P = Protocol
  import R = Receiver

  datatype Failure =
    | SessionChanged
    | TransportFailed
    | TimedOut
    | RemainedBusy
    | MalformedBusy
    | Nacked(code: byte)
    | UnexpectedType
    | PayloadTooLong
    | NotAsciiText
    | CommandFailed

  type Reply = Result<P.Frame, Failure>

  /** One read that worked: when the clock was looked at before it, how long it was to wait, and what came. */
  datatype Poll = Poll(at: nat, wait: nat, chunk: bytes)

  /**
    How one write attempt ended, when the clock was last looked at, and how long a read that failed
    was to wait. `Lost` holds the read, if any, just before the session was found gone.
  */
  datatype Outcome =
    | WriteFailed
    | Expired(at: nat)
    | ReadFailed(at: nat, wait: nat)
    | Lost(last: Option<Poll>)
    | Answered(response: P.Frame)

  /** The wait after a BUSY: none, all of it, or as far as the session lasted. */
  datatype Wait = NoWait | Waited(slices: seq<nat>) | CutShort(slices: seq<nat>)

  /** One write attempt: its end, when listening began, the reads before the end, and the wait after it. */
  datatype Round = Round(outcome: Outcome, begun: nat, polls: seq<Poll>, wait: Wait)

  /**
    One call of send_command_for_generation: the packet, its sequence number and deadline, whether the
    session let it begin, its write attempts, its reply, and the receive buffer before and after.
  */
  datatype Exchange = Exchange(
    packet: Packet, sequence: u16, timeout: u32, begun: bool, rounds: seq<Round>, reply: Reply,
    before: bytes, after: bytes)

  function FrameFor(packet: Packet, sequence: u16): P.Frame {
    P.Frame(P.PROTOCOL_VERSION, 0, sequence, packet.command, packet.payload)
  }

  predicate Sendable(p: Packet) {
    |p.payload| <= P.MAX_PAYLOAD_SIZE
  }

  function WireOf(x: Exchange): bytes {
    if Sendable(x.packet) then P.Encode(FrameFor(x.packet, x.sequence)) else []
  }

  // ---------------------------------------------------------------------------
  // The events of a record

  /** One turn of the reading loop: after an empty read it sleeps, after any other it checks the session. */
  function PollEvents(p: Poll): seq<Event> {
    [Checked(true), Looked(p.at), Got(64, p.wait, Some(p.chunk)), if p.chunk == [] then Pause(1) else Checked(true)]
  }

  function Polls(polls: seq<Poll>): seq<Event> {
    if polls == [] then [] else Polls(polls[..|polls| - 1]) + PollEvents(polls[|polls| - 1])
  }

  function ListenEnd(o: Outcome): seq<Event> {
    match o
    case Expired(at) => [Checked(true), Looked(at)]
    case ReadFailed(at, wait) => [Checked(true), Looked(at), Got(64, wait, None)]
    case Lost(None) => [Checked(false)]
    case Lost(Some(p)) => [Checked(true), Looked(p.at), Got(64, p.wait, Some(p.chunk)), Checked(false)]
    case _ => [Checked(true)]
  }

  function Slices(ms: seq<nat>): seq<Event> {
    if ms == [] then [] else Slices(ms[..|ms| - 1]) + [Checked(true), Pause(ms[|ms| - 1])]
  }

  function WaitEvents(w: Wait): seq<Event> {
    match w
    case NoWait => []
    case Waited(ms) => Slices(ms) + [Checked(true)]
    case CutShort(ms) => Slices(ms) + [Checked(false)]
  }

  function ListenEvents(timeout: u32, begun: nat, polls: seq<Poll>, o: Outcome): seq<Event> {
    [Listen(timeout), Looked(begun)] + Polls(polls) + ListenEnd(o)
  }

  /** The session is checked before every write, and every write that works is listened for. */
  function RoundEvents(wire: bytes, timeout: u32, r: Round): seq<Event> {
    if r.outcome.WriteFailed? then [Checked(true), Attempt(wire, false)]
    else [Checked(true), Attempt(wire, true)] + ListenEvents(timeout, r.begun, r.polls, r.outcome) + WaitEvents(r.wait)
  }

  function RoundsEvents(wire: bytes, timeout: u32, rounds: seq<Round>): seq<Event> {
    if rounds == [] then [] else
      RoundsEvents(wire, timeout, rounds[..|rounds| - 1]) + RoundEvents(wire, timeout, rounds[|rounds| - 1])
  }

  /** The last round already shows that the session is gone. */
  predicate SeesTheEnd(rounds: seq<Round>) {
    rounds != [] && (rounds[|rounds| - 1].outcome.Lost? || rounds[|rounds| - 1].wait.CutShort?)
  }

  /** A check that fails between rounds, or after the last. */
  function LostEvents(rounds: seq<Round>, reply: Reply): seq<Event> {
    if reply == Err(SessionChanged) && !SeesTheEnd(rounds) then [Checked(false)] else []
  }

  /** Everything a command does to the outside: always the same frame, always the same deadline. */
  function Events(x: Exchange): seq<Event> {
    if !x.begun then [Checked(false)]
    else
      [Checked(true)] + RoundsEvents(WireOf(x), x.timeout, x.rounds)
      + (if x.reply.Ok? then [Checked(true)] else LostEvents(x.rounds, x.reply))
  }

  function Flat(polls: seq<Poll>): bytes {
    if polls == [] then [] else Flat(polls[..|polls| - 1]) + polls[|polls| - 1].chunk
  }

  /** The bytes read in a round. */
  function ReadIn(r: Round): bytes {
    Flat(r.polls) + (if r.outcome.Lost? && r.outcome.last.Some? then r.outcome.last.value.chunk else [])
  }

  function Received(rounds: seq<Round>): bytes {
    if rounds == [] then [] else Received(rounds[..|rounds| - 1]) + ReadIn(rounds[|rounds| - 1])
  }

  // ---------------------------------------------------------------------------
  // What makes a record genuine

  function Sum(ms: seq<nat>): nat {
    if ms == [] then 0 else Sum(ms[..|ms| - 1]) + ms[|ms| - 1]
  }

  /** Waiting slices: 50 ms each, only the last may be shorter. */
  predicate AreSlices(ms: seq<nat>) {
    forall i :: 0 <= i < |ms| ==> 1 <= ms[i] <= 50 && (i < |ms| - 1 ==> ms[i] == 50)
  }

  /** A BUSY that says how long to wait. */
  predicate IsBusy(f: P.Frame) {
    f.command == P.BUSY && |f.payload| == 3
  }

  function BusyDelay(f: P.Frame): nat
    requires IsBusy(f)
  {
    Join(f.payload[1], f.payload[2])
  }

  /** The only reasons for another attempt: no answer in time, or a well-formed BUSY, waited out exactly. */
  predicate Retried(r: Round) {
    match r.outcome
    case Expired(_) => r.wait == NoWait
    case Answered(f) =>
      IsBusy(f) && r.wait.Waited? && AreSlices(r.wait.slices) && Sum(r.wait.slices) == BusyDelay(f)
    case _ => false
  }

  /** The session was found gone during the wait after a BUSY. */
  predicate CutOff(r: Round) {
    && r.outcome.Answered? && IsBusy(r.outcome.response)
    && r.wait.CutShort? && AreSlices(r.wait.slices) && Sum(r.wait.slices) <= BusyDelay(r.outcome.response)
  }

  function Answers(rounds: seq<Round>): seq<P.Frame> {
    if rounds == [] then [] else
      Answers(rounds[..|rounds| - 1])
      + (if rounds[|rounds| - 1].outcome.Answered? then [rounds[|rounds| - 1].outcome.response] else [])
  }

  /** Whether a reply has been looked for in vain since the last answer. */
  predicate Sought(rounds: seq<Round>) {
    rounds != [] &&
    match rounds[|rounds| - 1].outcome
    case WriteFailed => Sought(rounds[..|rounds| - 1])
    case Answered(_) => false
    case _ => true
  }

  /** The least time a round takes, in clock ticks. */
  function RoundTime(timeout: u32, r: Round): nat {
    (if r.outcome.Expired? then timeout * TICKS else 0)
    + (if r.wait.NoWait? then 0 else Sum(r.wait.slices) * TICKS)
  }

  function LeastTime(timeout: u32, rounds: seq<Round>): nat {
    if rounds == [] then 0 else
      LeastTime(timeout, rounds[..|rounds| - 1]) + RoundTime(timeout, rounds[|rounds| - 1])
  }

  /** At most retries + 1 attempts, each but the last one retried for a good reason. */
  predicate WellRetried(rounds: seq<Round>, retries: nat) {
    && |rounds| <= retries + 1
    && forall i :: 0 <= i < |rounds| - 1 ==> Retried(rounds[i])
  }

  predicate IsAcknowledged(packet: Packet, number: u16, r: Round, f: P.Frame) {
    && r.outcome == Answered(f) && r.wait == NoWait
    && f.sequence == number && f.command == ExpectedResponse(packet.command)
  }

  /** How the reply of the retry loop follows from its last round. */
  predicate LoopEnds(packet: Packet, number: u16, rounds: seq<Round>, retries: nat, reply: Reply) {
    if rounds == [] then reply == Err(SessionChanged)
    else
      var last := rounds[|rounds| - 1];
      match reply
      case Ok(f) => IsAcknowledged(packet, number, last, f)
      case Err(SessionChanged) =>
        || (last.outcome.Lost? && last.wait == NoWait)
        || ((CutOff(last) || Retried(last)) && |rounds| <= retries)
      case Err(failure) => last.wait == NoWait && EndsBadly(packet, last.outcome, |rounds| == retries + 1, failure)
  }

  /** What an attempt that is not repeated fails with, if its session has lasted. */
  predicate EndsBadly(packet: Packet, o: Outcome, isLast: bool, failure: Failure) {
    match failure
    case TransportFailed => o == WriteFailed || o.ReadFailed?
    case TimedOut => o.Expired? && isLast
    case RemainedBusy => o.Answered? && IsBusy(o.response) && isLast
    case MalformedBusy => o.Answered? && o.response.command == P.BUSY && |o.response.payload| != 3
    case Nacked(code) =>
      && o.Answered? && o.response.command == P.NACK
      && code == if o.response.payload == [] then 0 else o.response.payload[0]
    case UnexpectedType =>
      o.Answered? && o.response.command !in {P.BUSY, P.NACK, ExpectedResponse(packet.command)}
    case _ => false
  }

  /**
    How a command's reply follows from its record. Not begun, or not fitting a frame, it writes
    nothing; otherwise the retry loop decides, and a good answer counts only if the session still holds.
  */
  predicate Concluded(x: Exchange, retries: nat) {
    if !x.begun then x.rounds == [] && x.reply == Err(SessionChanged)
    else if !Sendable(x.packet) then x.rounds == [] && x.reply == Err(PayloadTooLong)
    else
      || LoopEnds(x.packet, x.sequence, x.rounds, retries, x.reply)
      || (x.reply == Err(SessionChanged) && GoodLastAnswer(x))
  }

  predicate GoodLastAnswer(x: Exchange) {
    && x.rounds != [] && x.rounds[|x.rounds| - 1].outcome.Answered?
    && IsAcknowledged(x.packet, x.sequence, x.rounds[|x.rounds| - 1], x.rounds[|x.rounds| - 1].outcome.response)
  }

  predicate IsInterrupted(rounds: seq<Round>) {
    rounds != [] && rounds[|rounds| - 1].outcome.Lost?
  }

  /** The answers are those of the stream, and the buffer is left with what follows them. */
  ghost predicate TookFromStream(x: Exchange) {
    !IsInterrupted(x.rounds) ==>
      R.Yields(x.before + Received(x.rounds), x.sequence, Answers(x.rounds), x.after, Sought(x.rounds))
  }

  /** A read begins before the deadline, and is to wait the fewest milliseconds that reach it. */
  predicate WaitsOut(deadline: nat, at: nat, wait: nat) {
    at < deadline && at + (wait - 1) * TICKS < deadline <= at + wait * TICKS
  }

  /** What is not written is not listened for; reads wait out the deadline, and only then is it passed. */
  predicate KeepsTime(timeout: u32, r: Round) {
    var deadline := r.begun + timeout * TICKS;
    && (r.outcome.WriteFailed? ==> r.polls == [])
    && (forall p :: p in r.polls ==> WaitsOut(deadline, p.at, p.wait)) && EndsInTime(deadline, r.outcome)
  }

  predicate EndsInTime(deadline: nat, o: Outcome) {
    match o
    case Expired(at) => at >= deadline
    case ReadFailed(at, wait) => WaitsOut(deadline, at, wait)
    case Lost(Some(p)) => WaitsOut(deadline, p.at, p.wait)
    case _ => true
  }

  predicate AllKeepTime(timeout: u32, rounds: seq<Round>) {
    forall r :: r in rounds ==> KeepsTime(timeout, r)
  }

  /** A record that the driver can have made. */
  ghost predicate Genuine(x: Exchange, retries: nat) {
    WellRetried(x.rounds, retries) && Concluded(x, retries) && TookFromStream(x) && AllKeepTime(x.timeout, x.rounds)
  }

  /** The outcome a round's reply stands for. */
  predicate Explains(o: Outcome, reply: Reply) {
    match reply
    case Ok(f) => o == Answered(f)
    case Err(TimedOut) => o.Expired?
    case Err(TransportFailed) => o == WriteFailed || o.ReadFailed?
    case Err(SessionChanged) => o.Lost?
    case Err(_) => false
  }

  // ---------------------------------------------------------------------------
  // A record grows

  lemma NoRounds(wire: bytes, timeout: u32, retries: nat)
    ensures LeastTime(timeout, []) == 0 && Answers([]) == [] && !Sought([]) && Received([]) == []
    ensures WellRetried([], retries) && RoundsEvents(wire, timeout, []) == []
  {
  }

  lemma ExpiredIsRetried(r: Round)
    requires r.outcome.Expired? && r.wait == NoWait
    ensures Retried(r)
  {
  }

  lemma BusyIsRetried(r: Round, f: P.Frame)
    requires r.outcome == Answered(f) && r.wait.Waited?
    requires IsBusy(f) && AreSlices(r.wait.slices) && Sum(r.wait.slices) == BusyDelay(f)
    ensures Retried(r)
  {
  }

  lemma PollsSnoc(head: seq<Event>, polls: seq<Poll>, p: Poll)
    ensures head + Polls(polls + [p]) == head + Polls(polls) + PollEvents(p)
    ensures Flat(polls + [p]) == Flat(polls) + p.chunk
  {
    hide PollEvents;
    assert (polls + [p])[..|polls|] == polls;
  }

  lemma SlicesSnoc(head: seq<Event>, ms: seq<nat>, m: nat)
    ensures head + Slices(ms + [m]) == head + Slices(ms) + [Checked(true), Pause(m)]
    ensures Sum(ms + [m]) == Sum(ms) + m
  {
    assert (ms + [m])[..|ms|] == ms;
  }

  /** A wait comes after everything else in its round. */
  lemma WaitComesLast(trace: seq<Event>, wire: bytes, timeout: u32, r: Round, w: Wait)
    requires r.outcome.Answered? && r.wait == NoWait
    ensures trace + RoundEvents(wire, timeout, r.(wait := w)) ==
      trace + RoundEvents(wire, timeout, r) + WaitEvents(w)
    ensures RoundTime(timeout, r.(wait := w)) == if w.NoWait? then 0 else Sum(w.slices) * TICKS
    ensures RoundTime(timeout, r) == 0 && ReadIn(r.(wait := w)) == ReadIn(r)
    ensures KeepsTime(timeout, r) ==> KeepsTime(timeout, r.(wait := w))
  {
    hide ListenEvents, Slices;
  }

  lemma RoundsEventsSnoc(trace: seq<Event>, wire: bytes, timeout: u32, rounds: seq<Round>, r: Round)
    ensures trace + RoundsEvents(wire, timeout, rounds + [r]) ==
      trace + RoundsEvents(wire, timeout, rounds) + RoundEvents(wire, timeout, r)
  {
    hide RoundEvents;
    assert (rounds + [r])[..|rounds|] == rounds;
  }

  /** One more round, and what it adds to the time taken, to the answers and to the bytes read. */
  lemma AddedRound(rounds: seq<Round>, r: Round, timeout: u32, retries: nat)
    ensures LeastTime(timeout, rounds + [r]) == LeastTime(timeout, rounds) + RoundTime(timeout, r)
    ensures Answers(rounds + [r]) ==
      if r.outcome.Answered? then Answers(rounds) + [r.outcome.response] else Answers(rounds)
    ensures Sought(rounds + [r]) == if r.outcome.WriteFailed? then Sought(rounds) else !r.outcome.Answered?
    ensures Received(rounds + [r]) == Received(rounds) + ReadIn(r)
    ensures |rounds| <= retries && (forall q :: q in rounds ==> Retried(q)) ==> WellRetried(rounds + [r], retries)
  {
    hide RoundTime, Retried, ReadIn;
    assert (rounds + [r])[..|rounds|] == rounds;
    assert Answers(rounds) + [] == Answers(rounds);
  }

  /** Why an answer that may not be retried is refused, serial.hpp:451-465. */
  function Refusal(command: P.Command, f: P.Frame): Option<Failure> {
    if f.command == P.BUSY then Some(if |f.payload| != 3 then MalformedBusy else RemainedBusy)
    else if f.command == P.NACK then Some(Nacked(if f.payload == [] then 0 else f.payload[0]))
    else if f.command != ExpectedResponse(command) then Some(UnexpectedType)
    else None
  }

  lemma EndsUnanswered(packet: Packet, number: u16, rounds: seq<Round>, r: Round, retries: nat, reply: Reply)
    requires reply.Err? && Explains(r.outcome, reply) && r.wait == NoWait
    requires reply.error == TimedOut ==> |rounds| == retries
    ensures LoopEnds(packet, number, rounds + [r], retries, reply)
    ensures LostEvents(rounds + [r], reply) == []
  {
  }

  lemma EndsAnswered(packet: Packet, number: u16, rounds: seq<Round>, r: Round, f: P.Frame, retries: nat)
    requires r.outcome == Answered(f) && r.wait == NoWait && f.sequence == number
    requires IsBusy(f) ==> |rounds| == retries
    ensures
      var refusal := Refusal(packet.command, f);
      var reply := if refusal.Some? then Err(refusal.value) else Ok(f);
      && reply != Err(SessionChanged)
      && LoopEnds(packet, number, rounds + [r], retries, reply)
  {
  }

  /** The session is found gone before the next attempt, or during the wait for it. */
  lemma EndsBetween(packet: Packet, number: u16, rounds: seq<Round>, retries: nat)
    requires |rounds| <= retries
    requires rounds != [] ==> CutOff(rounds[|rounds| - 1]) || Retried(rounds[|rounds| - 1])
    ensures LoopEnds(packet, number, rounds, retries, Err(SessionChanged))
    ensures LostEvents(rounds, Err(SessionChanged)) ==
      if rounds != [] && CutOff(rounds[|rounds| - 1]) then [] else [Checked(false)]
  {
  }

  // ---------------------------------------------------------------------------
  // What a record shows

  lemma {:induction false} HeardInPolls(polls: seq<Poll>)
    ensures Heard(Polls(polls)) == Flat(polls)
  {
    hide Heard;
    if polls == [] {
      HeardNothing();
    } else {
      var init, last := polls[..|polls| - 1], polls[|polls| - 1];
      HeardInPolls(init);
      HeardAppend(Polls(init), PollEvents(last));
      HeardInPoll(last);
    }
  }

  lemma HeardNothing()
    ensures Heard([]) == []
  {
  }

  lemma HeardOne(e: Event)
    ensures Heard([e]) == if e.Got? && e.chunk.Some? then e.chunk.value else []
  {
    assert [e][..0] == [];
  }

  lemma HeardTwo(d: Event, e: Event)
    ensures Heard([d, e]) == Heard([d]) + Heard([e])
  {
    hide Heard;
    HeardAppend([d], [e]);
    assert [d] + [e] == [d, e];
  }

  lemma HeardThree(c: Event, d: Event, e: Event)
    ensures Heard([c, d, e]) == Heard([c]) + Heard([d]) + Heard([e])
  {
    hide Heard;
    HeardTwo(c, d);
    HeardAppend([c, d], [e]);
    assert [c, d] + [e] == [c, d, e];
  }

  /** A read, with the check and the look at the clock before it and one event after it. */
  lemma HeardAround(p: Poll, e: Event)
    requires !e.Got?
    ensures Heard([Checked(true), Looked(p.at), Got(64, p.wait, Some(p.chunk)), e]) == p.chunk
  {
    hide Heard;
    var head := [Checked(true), Looked(p.at), Got(64, p.wait, Some(p.chunk))];
    HeardThree(Checked(true), Looked(p.at), Got(64, p.wait, Some(p.chunk)));
    HeardAppend(head, [e]);
    assert head + [e] == [Checked(true), Looked(p.at), Got(64, p.wait, Some(p.chunk)), e];
    HeardOne(Checked(true));
    HeardOne(Looked(p.at));
    HeardOne(Got(64, p.wait, Some(p.chunk)));
    HeardOne(e);
  }

  lemma HeardInPoll(p: Poll)
    ensures Heard(PollEvents(p)) == p.chunk
  {
    hide Heard;
    HeardAround(p, if p.chunk == [] then Pause(1) else Checked(true));
  }

  lemma {:induction false} HeardInSlices(ms: seq<nat>)
    ensures Heard(Slices(ms)) == []
  {
    hide Heard;
    if ms == [] {
      HeardNothing();
    } else {
      var init, last := ms[..|ms| - 1], ms[|ms| - 1];
      HeardInSlices(init);
      HeardAppend(Slices(init), [Checked(true), Pause(last)]);
      HeardTwo(Checked(true), Pause(last));
      HeardOne(Checked(true));
      HeardOne(Pause(last));
    }
  }

  lemma HeardInWait(w: Wait)
    ensures Heard(WaitEvents(w)) == []
  {
    hide Heard, Slices;
    HeardNothing();
    if !w.NoWait? {
      HeardInSlices(w.slices);
      HeardAppend(Slices(w.slices), [Checked(w.Waited?)]);
      HeardOne(Checked(w.Waited?));
    }
  }

  lemma HeardAtEnd(o: Outcome)
    ensures Heard(ListenEnd(o)) == if o.Lost? && o.last.Some? then o.last.value.chunk else []
  {
    hide Heard;
    HeardOne(Checked(true));
    HeardOne(Checked(false));
    match o
    case Expired(at) =>
      HeardTwo(Checked(true), Looked(at));
      HeardOne(Looked(at));
    case ReadFailed(at, wait) =>
      HeardThree(Checked(true), Looked(at), Got(64, wait, None));
      HeardOne(Got(64, wait, None));
      HeardOne(Looked(at));
    case Lost(Some(p)) => HeardAround(p, Checked(false));
    case _ =>
  }

  lemma HeardInRound(wire: bytes, timeout: u32, r: Round)
    requires KeepsTime(timeout, r)
    ensures Heard(RoundEvents(wire, timeout, r)) == ReadIn(r)
  {
    hide Heard, Polls, ListenEnd, WaitEvents;
    HeardOne(Checked(true));
    HeardOne(Attempt(wire, !r.outcome.WriteFailed?));
    HeardTwo(Checked(true), Attempt(wire, !r.outcome.WriteFailed?));
    if !r.outcome.WriteFailed? {
      var head, listen := [Checked(true), Attempt(wire, true)], [Listen(timeout), Looked(r.begun)];
      var all := ListenEvents(timeout, r.begun, r.polls, r.outcome);
      HeardAppend(head + all, WaitEvents(r.wait));
      HeardAppend(head, all);
      HeardAppend(listen + Polls(r.polls), ListenEnd(r.outcome));
      HeardAppend(listen, Polls(r.polls));
      HeardTwo(Listen(timeout), Looked(r.begun));
      HeardOne(Listen(timeout));
      HeardOne(Looked(r.begun));
      HeardInPolls(r.polls);
      HeardAtEnd(r.outcome);
      HeardInWait(r.wait);
    }
  }

  lemma {:induction false} HeardInRounds(wire: bytes, timeout: u32, rounds: seq<Round>)
    requires AllKeepTime(timeout, rounds)
    ensures Heard(RoundsEvents(wire, timeout, rounds)) == Received(rounds)
  {
    hide Heard, RoundEvents, ReadIn, KeepsTime;
    if rounds == [] {
      HeardNothing();
    } else {
      var init, last := rounds[..|rounds| - 1], rounds[|rounds| - 1];
      assert last in rounds;
      HeardInRounds(wire, timeout, init);
      HeardAppend(RoundsEvents(wire, timeout, init), RoundEvents(wire, timeout, last));
      HeardInRound(wire, timeout, last);
    }
  }

  /** The bytes a command read are those that came in during its events. */
  lemma HeardInCommand(x: Exchange)
    requires AllKeepTime(x.timeout, x.rounds) && (!x.begun ==> x.rounds == [])
    ensures Heard(Events(x)) == Received(x.rounds)
  {
    hide Heard, RoundsEvents, WireOf, AllKeepTime, KeepsTime;
    HeardNothing();
    HeardOne(Checked(true));
    HeardOne(Checked(false));
    if x.begun {
      var head, rounds := [Checked(true)], RoundsEvents(WireOf(x), x.timeout, x.rounds);
      HeardInRounds(WireOf(x), x.timeout, x.rounds);
      HeardAppend(head, rounds);
      HeardAppend(head + rounds, if x.reply.Ok? then [Checked(true)] else LostEvents(x.rounds, x.reply));
    }
  }

  lemma CompletedIsWritten(x: Exchange, retries: nat)
    requires Genuine(x, retries) && x.reply.Ok?
    ensures x.begun && x.rounds != [] && Sendable(x.packet) && GoodLastAnswer(x) && !IsInterrupted(x.rounds)
    ensures !Sought(x.rounds) && Answers(x.rounds) != []
    ensures Answers(x.rounds)[|Answers(x.rounds)| - 1] == x.reply.value
  {
    hide R.Yields;
  }

  /** A failure's cause, as far as session and transport are to blame, is among the events. */
  ghost predicate IsSeen(failure: Failure, events: seq<Event>) {
    && (failure == SessionChanged ==> Checked(false) in events)
    && (failure == TransportFailed ==>
          (exists wait :: Got(64, wait, None) in events) || exists wire :: Attempt(wire, false) in events)
  }

  lemma LastRoundEvents(wire: bytes, timeout: u32, rounds: seq<Round>)
    requires rounds != []
    ensures
      var last := rounds[|rounds| - 1];
      forall e :: e in RoundEvents(wire, timeout, last) ==> e in RoundsEvents(wire, timeout, rounds)
  {
    hide RoundEvents;
  }

  lemma RoundShows(wire: bytes, timeout: u32, r: Round)
    ensures r.outcome == WriteFailed ==> Attempt(wire, false) in RoundEvents(wire, timeout, r)
    ensures r.outcome.ReadFailed? ==> Got(64, r.outcome.wait, None) in RoundEvents(wire, timeout, r)
    ensures r.outcome.Lost? ==> Checked(false) in RoundEvents(wire, timeout, r)
    ensures !r.outcome.WriteFailed? && r.wait.CutShort? ==> Checked(false) in RoundEvents(wire, timeout, r)
  {
    hide Polls, Slices;
    var end, wait := ListenEnd(r.outcome), WaitEvents(r.wait);
    if r.outcome.ReadFailed? {
      assert end[2] == Got(64, r.outcome.wait, None);
    } else if r.outcome.Lost? {
      assert end[|end| - 1] == Checked(false);
    }
    if r.wait.CutShort? {
      assert wait[|wait| - 1] == Checked(false);
    }
  }

  /** A command blames session or transport only for what the link has answered. */
  lemma CauseIsSeen(x: Exchange, retries: nat)
    requires Genuine(x, retries) && x.reply.Err?
    ensures IsSeen(x.reply.error, Events(x))
  {
    hide RoundsEvents, RoundEvents, WireOf, R.Yields;
    if x.rounds != [] {
      LastRoundEvents(WireOf(x), x.timeout, x.rounds);
      RoundShows(WireOf(x), x.timeout, x.rounds[|x.rounds| - 1]);
    }
  }

  /** The frame a refusing device has sent: it is in the stream, carries the command's number, and says so. */
  ghost predicate IsRefusedBy(x: Exchange, f: P.Frame) {
    && x.reply.Err? && f.sequence == x.sequence && Refusal(x.packet.command, f) == Some(x.reply.error)
    && exists i: nat, n: nat :: R.StandsAt(x.before + Received(x.rounds), i, n, f, |x.after|)
  }

  ghost predicate WasRefused(x: Exchange) {
    exists f :: IsRefusedBy(x, f)
  }

  /** A command blames the device only for a frame the device has sent. */
  lemma RefusalIsReceived(x: Exchange, retries: nat) returns (f: P.Frame)
    requires Genuine(x, retries) && x.reply.Err?
    requires x.reply.error.Nacked? || x.reply.error in {RemainedBusy, MalformedBusy, UnexpectedType}
    ensures IsRefusedBy(x, f)
  {
    hide R.Yields;
    var last := x.rounds[|x.rounds| - 1];
    f := last.outcome.response;
    assert Answers(x.rounds)[|Answers(x.rounds)| - 1] == f;
    var i, n := R.LastAnswerStands(
      x.before + Received(x.rounds), x.sequence, Answers(x.rounds), x.after, Sought(x.rounds));
    assert R.StandsAt(x.before + Received(x.rounds), i, n, f, |x.after|);
  }

  // ---------------------------------------------------------------------------
  // Answers by their numbers on the wire

  /**
    A BUSY (0x83) with a reason and a delay, high byte first, is waited out for exactly that many
    milliseconds before the next attempt, in slices of 50 and a last one, unless a check of the session
    fails; on the last attempt it is the reply.
  */
  lemma BusyIsWaitedOut(x: Exchange, retries: nat, i: nat, reason: byte, delay: u16)
    requires Genuine(x, retries) && i < |x.rounds| && x.rounds[i].outcome.Answered?
    requires x.rounds[i].outcome.response.command == 0x83
    requires x.rounds[i].outcome.response.payload == [reason, delay / 0x100, delay % 0x100]
    ensures
      var w := x.rounds[i].wait;
      if i == retries then x.reply == Err(RemainedBusy) && w == NoWait
      else if w.CutShort? then x.reply == Err(SessionChanged) && AreSlices(w.slices) && Sum(w.slices) <= delay
      else w.Waited? && AreSlices(w.slices) && Sum(w.slices) == delay
  {
    hide R.Yields, Sum, AreSlices, KeepsTime;
  }

  /** What the last answer means for the reply, in the numbers of the protocol. */
  lemma AnswerDecides(x: Exchange, retries: nat)
    requires Genuine(x, retries) && x.rounds != [] && x.rounds[|x.rounds| - 1].outcome.Answered?
    requires x.reply != Err(SessionChanged)
    ensures
      var f := x.rounds[|x.rounds| - 1].outcome.response;
      var expected := if x.packet.command == 0x02 || x.packet.command == 0x03 then 0x82 else 0x80;
      x.reply ==
        if f.command == 0x83 then Err(if |f.payload| == 3 then RemainedBusy else MalformedBusy)
        else if f.command == 0x81 then Err(Nacked(if f.payload == [] then 0 else f.payload[0]))
        else if f.command == expected then Ok(f)
        else Err(UnexpectedType)
  {
    hide R.Yields, KeepsTime;
  }
}
