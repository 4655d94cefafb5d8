/**
  A list of logged commands as a whole: what it leaves on the wire, with retries collapsed, and what
  it takes from the stream of bytes that come in.
*/
module Transcript {
  import opened Words
  import opened Packets
  import opened Sequences
  import opened Transport
  import opened Exchanges
  import opened Script
  import opened Deadlines
  import Plan
  import P = Protocol
  import R = Receiver

  function AllEvents(logs: seq<Exchange>): seq<Event> {
    if logs == [] then [] else AllEvents(logs[..|logs| - 1]) + Events(logs[|logs| - 1])
  }

  function AllReceived(logs: seq<Exchange>): bytes {
    if logs == [] then [] else AllReceived(logs[..|logs| - 1]) + Received(logs[|logs| - 1].rounds)
  }

  /** The least time the commands take, in clock ticks. */
  function AllTime(logs: seq<Exchange>): nat {
    if logs == [] then 0 else
      AllTime(logs[..|logs| - 1]) + LeastTime(logs[|logs| - 1].timeout, logs[|logs| - 1].rounds)
  }

  lemma AllSnoc(head: seq<Event>, logs: seq<Exchange>, x: Exchange)
    ensures head + AllEvents(logs + [x]) == head + AllEvents(logs) + Events(x)
    ensures AllReceived(logs + [x]) == AllReceived(logs) + Received(x.rounds)
    ensures AllTime(logs + [x]) == AllTime(logs) + LeastTime(x.timeout, x.rounds)
  {
    hide Events, Received, LeastTime;
    assert (logs + [x])[..|logs|] == logs;
  }

  /** Nothing is read but by the commands logged. */
  lemma {:induction false} AllHeard(logs: seq<Exchange>, retries: nat)
    requires forall x :: x in logs ==> Genuine(x, retries)
    ensures Heard(AllEvents(logs)) == AllReceived(logs)
  {
    hide Heard, Events, Received, R.Yields, LoopEnds;
    if logs == [] {
      HeardNothing();
    } else {
      var init, last := logs[..|logs| - 1], logs[|logs| - 1];
      assert last in logs;
      AllHeard(init, retries);
      HeardAppend(AllEvents(init), Events(last));
      HeardInCommand(last);
    }
  }

  // ---------------------------------------------------------------------------
  // The wire

  /** Whether the command wrote anything. */
  predicate IsWritten(x: Exchange) {
    x.rounds != []
  }

  function Wires(logs: seq<Exchange>): seq<bytes> {
    if logs == [] then []
    else
      var last := logs[|logs| - 1];
      Wires(logs[..|logs| - 1]) + (if IsWritten(last) then [WireOf(last)] else [])
  }

  /** The packets of the commands that wrote something. */
  function Said(logs: seq<Exchange>): seq<Packet> {
    if logs == [] then []
    else
      var last := logs[|logs| - 1];
      Said(logs[..|logs| - 1]) + (if IsWritten(last) then [last.packet] else [])
  }

  lemma SaidSnoc(logs: seq<Exchange>, x: Exchange)
    ensures Said(logs + [x]) == Said(logs) + if IsWritten(x) then [x.packet] else []
  {
    assert (logs + [x])[..|logs|] == logs;
  }

  function LastWritten(logs: seq<Exchange>): Option<u16> {
    if logs == [] then None
    else
      var last := logs[|logs| - 1];
      if IsWritten(last) then Some(last.sequence) else LastWritten(logs[..|logs| - 1])
  }

  /** What is written fits a frame, and its sequence number is not that of what was written before it. */
  predicate Linked(logs: seq<Exchange>) {
    logs != [] ==>
      var init, last := logs[..|logs| - 1], logs[|logs| - 1];
      Linked(init) && (IsWritten(last) ==> Sendable(last.packet) && LastWritten(init) != Some(last.sequence))
  }

  function With(wires: seq<bytes>, wire: bytes): seq<bytes> {
    if wires != [] && wires[|wires| - 1] == wire then wires else wires + [wire]
  }

  /** The frames written, with runs of the same frame taken as one. */
  function Collapse(events: seq<Event>): seq<bytes> {
    if events == [] then []
    else
      var before, last := Collapse(events[..|events| - 1]), events[|events| - 1];
      if last.Attempt? then With(before, last.frame) else before
  }

  function PacketIn(wire: bytes): Packet {
    var d := P.Decode(wire);
    if d.Ok? then Packet(d.value.command, d.value.payload) else Packet(P.NACK, [])
  }

  function Read(wires: seq<bytes>): seq<Packet> {
    if wires == [] then [] else Read(wires[..|wires| - 1]) + [PacketIn(wires[|wires| - 1])]
  }

  /** The commands the wire speaks: each run of identical frames, decoded. */
  function Spoken(events: seq<Event>): seq<Packet> {
    Read(Collapse(events))
  }

  predicate IsQuiet(events: seq<Event>) {
    forall e :: e in events ==> !e.Attempt?
  }

  lemma CollapseSnoc(events: seq<Event>, e: Event)
    ensures Collapse(events + [e]) == if e.Attempt? then With(Collapse(events), e.frame) else Collapse(events)
  {
    assert (events + [e])[..|events|] == events;
  }

  lemma {:induction false} CollapseQuiet(events: seq<Event>, quiet: seq<Event>)
    requires IsQuiet(quiet)
    ensures Collapse(events + quiet) == Collapse(events)
  {
    hide Collapse;
    if quiet == [] {
      assert events + quiet == events;
    } else {
      var init, last := quiet[..|quiet| - 1], quiet[|quiet| - 1];
      assert last in quiet;
      CollapseQuiet(events, init);
      CollapseSnoc(events + init, last);
      assert events + quiet == events + init + [last];
    }
  }

  lemma {:induction false} PollsAreQuiet(polls: seq<Poll>)
    ensures IsQuiet(Polls(polls))
  {
    if polls != [] {
      PollsAreQuiet(polls[..|polls| - 1]);
    }
  }

  lemma {:induction false} SlicesAreQuiet(ms: seq<nat>)
    ensures IsQuiet(Slices(ms))
  {
    if ms != [] {
      SlicesAreQuiet(ms[..|ms| - 1]);
    }
  }

  lemma ListeningIsQuiet(timeout: u32, r: Round)
    ensures IsQuiet(ListenEvents(timeout, r.begun, r.polls, r.outcome) + WaitEvents(r.wait))
  {
    hide Polls, Slices;
    PollsAreQuiet(r.polls);
    if !r.wait.NoWait? {
      SlicesAreQuiet(r.wait.slices);
    }
  }

  lemma CollapseRound(events: seq<Event>, wire: bytes, timeout: u32, r: Round)
    ensures Collapse(events + RoundEvents(wire, timeout, r)) == With(Collapse(events), wire)
  {
    hide Collapse, ListenEvents, WaitEvents;
    var attempt := Attempt(wire, !r.outcome.WriteFailed?);
    CollapseSnoc(events, Checked(true));
    CollapseSnoc(events + [Checked(true)], attempt);
    var begun := events + [Checked(true)] + [attempt];
    if r.outcome.WriteFailed? {
      assert events + RoundEvents(wire, timeout, r) == begun;
    } else {
      var quiet := ListenEvents(timeout, r.begun, r.polls, r.outcome) + WaitEvents(r.wait);
      ListeningIsQuiet(timeout, r);
      CollapseQuiet(begun, quiet);
      assert events + RoundEvents(wire, timeout, r) == begun + quiet;
    }
  }

  lemma {:induction false} CollapseRounds(events: seq<Event>, wire: bytes, timeout: u32, rounds: seq<Round>)
    requires rounds != []
    ensures Collapse(events + RoundsEvents(wire, timeout, rounds)) == With(Collapse(events), wire)
  {
    hide Collapse, RoundEvents;
    var init, last := rounds[..|rounds| - 1], rounds[|rounds| - 1];
    var before := RoundsEvents(wire, timeout, init);
    CollapseRound(events + before, wire, timeout, last);
    assert events + (before + RoundEvents(wire, timeout, last))
        == events + before + RoundEvents(wire, timeout, last);
    if init == [] {
      assert events + before == events;
    } else {
      CollapseRounds(events, wire, timeout, init);
    }
  }

  lemma CollapseCommand(events: seq<Event>, x: Exchange)
    requires !x.begun ==> x.rounds == []
    ensures Collapse(events + Events(x)) ==
      if IsWritten(x) then With(Collapse(events), WireOf(x)) else Collapse(events)
  {
    hide Collapse, RoundsEvents, WireOf;
    if !x.begun {
      CollapseQuiet(events, [Checked(false)]);
    } else {
      var rounds := RoundsEvents(WireOf(x), x.timeout, x.rounds);
      var end := if x.reply.Ok? then [Checked(true)] else LostEvents(x.rounds, x.reply);
      CollapseQuiet(events, [Checked(true)]);
      if IsWritten(x) {
        CollapseRounds(events + [Checked(true)], WireOf(x), x.timeout, x.rounds);
      } else {
        NoRounds(WireOf(x), x.timeout, 0);
        assert events + [Checked(true)] + rounds == events + [Checked(true)];
      }
      CollapseQuiet(events + [Checked(true)] + rounds, end);
      assert events + Events(x) == events + [Checked(true)] + rounds + end;
    }
  }

  lemma WiresDiffer(x: Exchange, y: Exchange)
    requires Sendable(x.packet) && Sendable(y.packet) && x.sequence != y.sequence
    ensures WireOf(x) != WireOf(y)
  {
    hide P.Encode, P.Decode;
    P.DecodeOfEncode(FrameFor(x.packet, x.sequence));
    P.DecodeOfEncode(FrameFor(y.packet, y.sequence));
  }

  /** The last frame on the wire carries the number of the last command written. */
  lemma {:induction false} LastWire(logs: seq<Exchange>, x: Exchange)
    requires Linked(logs) && Sendable(x.packet) && LastWritten(logs) != Some(x.sequence)
    ensures Wires(logs) != [] ==> Wires(logs)[|Wires(logs)| - 1] != WireOf(x)
  {
    hide WireOf;
    if logs != [] {
      var init, last := logs[..|logs| - 1], logs[|logs| - 1];
      if IsWritten(last) {
        WiresDiffer(last, x);
      } else {
        LastWire(init, x);
      }
    }
  }

  /** Retries collapse: one frame for each command that wrote something, in order. */
  lemma {:induction false} CollapseIsWires(head: seq<Event>, logs: seq<Exchange>)
    requires IsQuiet(head) && Linked(logs) && forall x :: x in logs && !x.begun ==> x.rounds == []
    ensures Collapse(head + AllEvents(logs)) == Wires(logs)
  {
    hide Collapse, Events, WireOf;
    if logs == [] {
      NothingWritten();
      CollapseQuiet([], head);
      assert head + AllEvents(logs) == [] + head;
    } else {
      var init, last := logs[..|logs| - 1], logs[|logs| - 1];
      assert last in logs;
      CollapseIsWires(head, init);
      CollapseCommand(head + AllEvents(init), last);
      assert head + AllEvents(logs) == head + AllEvents(init) + Events(last);
      if IsWritten(last) {
        LastWire(init, last);
      }
    }
  }

  lemma NothingWritten()
    ensures Collapse([]) == []
  {
  }

  /** And each decodes to the command's own packet. */
  lemma {:induction false} ReadOfWires(logs: seq<Exchange>)
    requires Linked(logs)
    ensures Read(Wires(logs)) == Said(logs)
  {
    hide P.Encode, P.Decode;
    if logs != [] {
      var init, last := logs[..|logs| - 1], logs[|logs| - 1];
      ReadOfWires(init);
      if IsWritten(last) {
        P.DecodeOfEncode(FrameFor(last.packet, last.sequence));
        assert Wires(logs)[..|Wires(logs)| - 1] == Wires(init);
      } else {
        assert Wires(init) + [] == Wires(init) && Said(init) + [] == Said(init);
      }
    }
  }

  lemma SpokenIsTheSaid(head: seq<Event>, logs: seq<Exchange>)
    requires IsQuiet(head) && Linked(logs) && forall x :: x in logs && !x.begun ==> x.rounds == []
    ensures Spoken(head + AllEvents(logs)) == Said(logs)
  {
    hide Collapse, AllEvents, Wires, Read, Said, Linked;
    CollapseIsWires(head, logs);
    ReadOfWires(logs);
  }

  // ---------------------------------------------------------------------------
  // The stream

  /** Each command finds the buffer as the one before has left it. */
  predicate Chained(logs: seq<Exchange>, start: bytes, rest: bytes) {
    if logs == [] then rest == start
    else Chained(logs[..|logs| - 1], start, logs[|logs| - 1].before) && logs[|logs| - 1].after == rest
  }

  lemma ChainedSnoc(logs: seq<Exchange>, x: Exchange, start: bytes)
    requires Chained(logs, start, x.before)
    ensures Chained(logs + [x], start, x.after)
  {
    assert (logs + [x])[..|logs|] == logs;
  }

  datatype Place = Place(start: nat, length: nat)

  /** The replies to the commands stand in the stream at these places, in order and apart. */
  ghost predicate AnsweredAt(logs: seq<Exchange>, stream: bytes, places: seq<Place>, left: nat) {
    && |places| == |logs|
    && (forall i :: 0 <= i < |logs| ==>
          && logs[i].reply.Ok?
          && R.StandsAt(stream, places[i].start, places[i].length, logs[i].reply.value, left))
    && forall i, j :: 0 <= i < j < |logs| ==> places[i].start + places[i].length <= places[j].start
  }

  lemma StandsLonger(data: bytes, i: nat, n: nat, f: P.Frame, left: nat, more: bytes, less: nat)
    requires R.StandsAt(data, i, n, f, left) && less <= left + |more|
    ensures R.StandsAt(data + more, i, n, f, less)
  {
    assert (data + more)[i..i + n] == data[i..i + n];
  }

  lemma SuffixWithMore(rest: bytes, data: bytes, more: bytes)
    requires R.IsSuffix(rest, data)
    ensures R.IsSuffix(rest + more, data + more)
  {
  }

  lemma StandsBehind(longer: bytes, data: bytes, i: nat, n: nat, f: P.Frame, left: nat) returns (place: Place)
    requires R.IsSuffix(data, longer) && R.StandsAt(data, i, n, f, left)
    ensures |longer| - |data| <= place.start && R.StandsAt(longer, place.start, place.length, f, left)
  {
    hide P.Decode;
    var k := |longer| - |data|;
    assert longer[k..] == data;
    assert longer[k..][i..i + n] == longer[k + i..k + i + n];
    place := Place(k + i, n);
  }

  /** What one completed command takes is behind all that has been taken before. */
  lemma ReplyStands(x: Exchange, retries: nat, stream: bytes) returns (place: Place)
    requires Genuine(x, retries) && x.reply.Ok? && R.IsSuffix(x.before, stream)
    ensures
      var longer := stream + Received(x.rounds);
      && R.IsSuffix(x.after, longer) && |stream| - |x.before| <= place.start
      && |x.after| <= |x.before| + |Received(x.rounds)|
      && R.StandsAt(longer, place.start, place.length, x.reply.value, |x.after|)
  {
    hide R.Yields, R.StandsAt;
    CompletedIsWritten(x, retries);
    var more := Received(x.rounds);
    var data, longer := x.before + more, stream + more;
    var i, n := R.LastAnswerStands(data, x.sequence, Answers(x.rounds), x.after, Sought(x.rounds));
    R.YieldsCutsExactly(data, x.sequence, Answers(x.rounds), x.after, Sought(x.rounds));
    SuffixWithMore(x.before, stream, more);
    R.SuffixIsTransitive(x.after, data, longer);
    place := StandsBehind(longer, data, i, n, x.reply.value, |x.after|);
  }

  lemma OneMorePlace(
    init: seq<Exchange>, last: Exchange, stream: bytes, more: bytes, before: seq<Place>, place: Place)
    requires AnsweredAt(init, stream, before, |last.before|) && |last.after| <= |last.before| + |more|
    requires last.reply.Ok? && |stream| - |last.before| <= place.start
    requires R.StandsAt(stream + more, place.start, place.length, last.reply.value, |last.after|)
    ensures AnsweredAt(init + [last], stream + more, before + [place], |last.after|)
  {
    hide P.Decode, R.StandsAt;
    var logs, places := init + [last], before + [place];
    forall i | 0 <= i < |logs|
      ensures logs[i].reply.Ok?
      ensures R.StandsAt(stream + more, places[i].start, places[i].length, logs[i].reply.value, |last.after|)
      ensures i < |init| ==> places[i].start + places[i].length <= place.start
    {
      if i < |init| {
        var p, f := before[i], init[i].reply.value;
        StandsLonger(stream, p.start, p.length, f, |last.before|, more, |last.after|);
        EndsInFront(stream, p.start, p.length, f, |last.before|);
      }
    }
  }

  /**
    However many commands a script has completed, across all chunks, timeouts and retries: their
    replies are frames of the one stream that has come in, in order and apart, and what is left in
    the buffer is a suffix of that stream behind them all.
  */
  lemma {:induction false} RepliesComeInOrder(
    logs: seq<Exchange>, start: bytes, rest: bytes, retries: nat) returns (places: seq<Place>)
    requires Chained(logs, start, rest)
    requires forall x :: x in logs ==> Genuine(x, retries) && x.reply.Ok?
    ensures R.IsSuffix(rest, start + AllReceived(logs))
    ensures AnsweredAt(logs, start + AllReceived(logs), places, |rest|)
  {
    hide Genuine, R.StandsAt, R.IsSuffix, AnsweredAt, Received;
    if logs == [] {
      places := [];
      assert start + AllReceived(logs) == start;
      WholeIsSuffix(start);
      NobodyAnswered(start, |rest|);
    } else {
      var init, last := logs[..|logs| - 1], logs[|logs| - 1];
      var stream, more := start + AllReceived(init), Received(last.rounds);
      assert last in logs;
      var before := RepliesComeInOrder(init, start, last.before, retries);
      var place := ReplyStands(last, retries, stream);
      places := before + [place];
      OneMorePlace(init, last, stream, more, before, place);
      assert start + AllReceived(logs) == stream + more && init + [last] == logs;
    }
  }

  lemma NobodyAnswered(stream: bytes, left: nat)
    ensures AnsweredAt([], stream, [], left)
  {
  }

  lemma WholeIsSuffix(data: bytes)
    ensures R.IsSuffix(data, data)
  {
  }

  lemma EndsInFront(data: bytes, i: nat, n: nat, f: P.Frame, left: nat)
    requires R.StandsAt(data, i, n, f, left)
    ensures i + n <= |data| - left
  {
  }

  // ---------------------------------------------------------------------------
  // Following a plan

  /** The commands logged are the first of the plan, each with the deadline the plan gives it. */
  predicate Follows(logs: seq<Exchange>, plan: seq<Packet>, base: u32, batch: Option<u64>) {
    && |logs| <= |plan|
    && forall i :: 0 <= i < |logs| ==>
         logs[i].packet == plan[i] && logs[i].timeout == Plan.Deadline(plan, i, base, batch)
  }

  /** They have been given the numbers from the n-th on. */
  predicate Numbered(logs: seq<Exchange>, n: nat) {
    forall i :: 0 <= i < |logs| ==> logs[i].sequence == Nth(n + i)
  }

  predicate AllOk(logs: seq<Exchange>) {
    forall x :: x in logs ==> x.reply.Ok?
  }

  /** All but possibly the last have been completed. */
  predicate Settled(logs: seq<Exchange>) {
    logs != [] ==> AllOk(logs[..|logs| - 1])
  }

  lemma LinkedSnoc(logs: seq<Exchange>, x: Exchange)
    requires Linked(logs) && (IsWritten(x) ==> Sendable(x.packet) && LastWritten(logs) != Some(x.sequence))
    ensures Linked(logs + [x])
    ensures LastWritten(logs + [x]) == if IsWritten(x) then Some(x.sequence) else LastWritten(logs)
  {
    assert (logs + [x])[..|logs|] == logs;
  }

  lemma FollowsSnoc(logs: seq<Exchange>, x: Exchange, plan: seq<Packet>, base: u32, batch: Option<u64>)
    requires Follows(logs, plan, base, batch) && |logs| < |plan| && x.packet == plan[|logs|]
    requires x.timeout == ResponseTimeout(base, x.packet, RecordedAll(plan[..|logs|], batch))
    ensures Follows(logs + [x], plan, base, batch)
    ensures RecordedAll(plan[..|logs| + 1], batch) == Recorded(x.packet, RecordedAll(plan[..|logs|], batch))
  {
    hide ResponseTimeout, Recorded;
    assert plan[..|logs| + 1][..|logs|] == plan[..|logs|];
  }

  lemma NoLogs(plan: seq<Packet>, base: u32, batch: Option<u64>, start: bytes)
    ensures AllEvents([]) == [] && Linked([]) && Follows([], plan, base, batch) && Chained([], start, start)
    ensures LastWritten([]) == None && AllTime([]) == 0 && RecordedAll(plan[..0], batch) == batch
  {
  }

  lemma {:induction false} SaidIsTheBeginning(
    logs: seq<Exchange>, plan: seq<Packet>, base: u32, batch: Option<u64>, retries: nat)
    requires Follows(logs, plan, base, batch) && Settled(logs)
    requires forall x :: x in logs ==> Genuine(x, retries)
    ensures |Said(logs)| <= |logs| && Said(logs) == plan[..|Said(logs)|]
    ensures |Said(logs)| == |logs| || (logs != [] && |Said(logs)| == |logs| - 1 && !IsWritten(logs[|logs| - 1]))
  {
    hide Plan.Deadline, Genuine;
    if logs != [] {
      var init, last := logs[..|logs| - 1], logs[|logs| - 1];
      assert Settled(init) && AllOk(init);
      AllSaid(init, plan, base, batch, retries);
      assert last in logs;
    }
  }

  lemma {:induction false} AllSaid(
    logs: seq<Exchange>, plan: seq<Packet>, base: u32, batch: Option<u64>, retries: nat)
    requires Follows(logs, plan, base, batch) && AllOk(logs)
    requires forall x :: x in logs ==> Genuine(x, retries)
    ensures Said(logs) == plan[..|logs|]
  {
    hide Plan.Deadline, Genuine;
    if logs != [] {
      var init, last := logs[..|logs| - 1], logs[|logs| - 1];
      assert last in logs;
      CompletedIsWritten(last, retries);
      AllSaid(init, plan, base, batch, retries);
    }
  }

  // ---------------------------------------------------------------------------
  // What a script has said

  /**
    A script that ran to its end has said its plan: without markers its own commands, in batches that
    only stops set apart.
  */
  lemma WholePlanSpoken(
    cs: seq<ScriptCommand>, head: seq<Event>, logs: seq<Exchange>, base: u32, batch: Option<u64>, retries: nat)
    requires IsQuiet(head) && Linked(logs) && forall x :: x in logs ==> Genuine(x, retries)
    requires Follows(logs, Plan.PlanOf(cs), base, batch) && |logs| == |Plan.PlanOf(cs)| && AllOk(logs)
    ensures
      var said := Spoken(head + AllEvents(logs));
      && said == Plan.PlanOf(cs)
      && Plan.PlaceOf(said) == Plan.Outside
      && Plan.Erased(said) == Plan.PacketsOf(cs)
      && Plan.StopsBetween(said)
  {
    hide Plan.PlanOf, Spoken, Said, Follows, Linked, Plan.Erased, Plan.StopsBetween, Plan.PacketsOf;
    forall x | x in logs ensures x.begun {
      CompletedIsWritten(x, retries);
    }
    SpokenIsTheSaid(head, logs);
    AllSaid(logs, Plan.PlanOf(cs), base, batch, retries);
    Plan.PlanIsTheOnlyOne(cs, Plan.PlanOf(cs));
  }

  /** A script that failed has said a beginning of its plan, and then stop at most once. */
  lemma BeginningSpoken(
    plan: seq<Packet>, head: seq<Event>, logs: seq<Exchange>, stop: Exchange, base: u32, batch: Option<u64>,
    retries: nat)
    requires IsQuiet(head) && Linked(logs + [stop]) && stop.packet == Plan.STOP
    requires Follows(logs, plan, base, batch) && Settled(logs)
    requires forall x :: x in logs + [stop] ==> Genuine(x, retries)
    ensures |logs| - 1 <= |Said(logs)| <= |logs|
    ensures Spoken(head + AllEvents(logs + [stop])) ==
      plan[..|Said(logs)|] + (if IsWritten(stop) then [Plan.STOP] else [])
  {
    hide Spoken, AllEvents, Follows, Linked, Genuine, Settled, IsQuiet, Said, IsWritten;
    var all := logs + [stop];
    forall x | x in all && !x.begun ensures x.rounds == [] {
      UnbegunIsUnwritten(x, retries);
    }
    SpokenIsTheSaid(head, all);
    SaidSnoc(logs, stop);
    forall x | x in logs ensures Genuine(x, retries) {
      assert x in all;
    }
    SaidIsTheBeginning(logs, plan, base, batch, retries);
  }

  lemma UnbegunIsUnwritten(x: Exchange, retries: nat)
    requires Genuine(x, retries) && !x.begun
    ensures x.rounds == []
  {
  }

  /** The end of every batch a script has sent was waited for as long as that batch takes. */
  lemma BatchEndsWereTimed(
    cs: seq<ScriptCommand>, logs: seq<Exchange>, base: u32, batch: Option<u64>, retries: nat, i: nat)
    returns (begin: nat)
    requires Follows(logs, Plan.PlanOf(cs), base, batch) && Settled(logs)
    requires forall x :: x in logs ==> Genuine(x, retries)
    requires i < |logs| && logs[i].packet == Plan.END
    ensures begin < i - 1 && Plan.PlanOf(cs)[begin] == Plan.BEGIN
    ensures i - begin - 1 < 0x1_0000_0000 ==> Plan.Covers(Plan.PlanOf(cs), begin, i, base, logs[i].timeout)
  {
    hide Plan.PlanOf, Plan.Deadline, Plan.Covers, Genuine;
    var plan := Plan.PlanOf(cs);
    forall p | p in plan[..i] ensures |p.payload| <= P.MAX_PAYLOAD_SIZE {
      var k :| 0 <= k < i && plan[..i][k] == p;
      assert logs[k] in logs[..|logs| - 1] && logs[k] in logs && logs[k].packet == p;
      CompletedIsWritten(logs[k], retries);
    }
    Plan.PlanIsGrouped(cs);
    begin := Plan.BatchEndIsTimed(plan, i, base, batch);
  }
}
