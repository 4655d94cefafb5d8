/** What a script sends: batches between stops, serial.hpp:337-361 and 474-486. */
module Plan {
  import opened Words
  import opened Packets
  import opened Script
  import opened Deadlines
  import P = Protocol

  const BEGIN := Packet(P.BATCH_BEGIN, [])
  const END := Packet(P.BATCH_END, [])
  const STOP := Packet(P.STOP_ALL, [])

  function PacketsOf(cs: seq<ScriptCommand>): (packets: seq<Packet>)
    ensures |packets| == |cs| && forall i :: 0 <= i < |cs| ==> packets[i] == PacketOf(cs[i])
  {
    seq(|cs|, i requires 0 <= i < |cs| => PacketOf(cs[i]))
  }

  function Batch(segment: seq<ScriptCommand>): seq<Packet> {
    if segment == [] then [] else [BEGIN] + PacketsOf(segment) + [END]
  }

  /** The commands read since the last stop. */
  function Pending(cs: seq<ScriptCommand>): seq<ScriptCommand> {
    if cs == [] || cs[|cs| - 1].Stop? then [] else Pending(cs[..|cs| - 1]) + [cs[|cs| - 1]]
  }

  /** What has been sent by the time all of `cs` is read. */
  function Flushed(cs: seq<ScriptCommand>): seq<Packet> {
    if cs == [] then []
    else
      var init := cs[..|cs| - 1];
      if cs[|cs| - 1].Stop? then Flushed(init) + Batch(Pending(init)) + [STOP] else Flushed(init)
  }

  function PlanOf(cs: seq<ScriptCommand>): seq<Packet> {
    Flushed(cs) + Batch(Pending(cs))
  }

  // ---------------------------------------------------------------------------
  // Segmentation loses, adds and reorders nothing

  predicate IsBatchMark(p: Packet) {
    p.command == P.BATCH_BEGIN || p.command == P.BATCH_END
  }

  function Erased(packets: seq<Packet>): seq<Packet> {
    if packets == [] then [] else
      Erased(packets[..|packets| - 1])
      + (if IsBatchMark(packets[|packets| - 1]) then [] else [packets[|packets| - 1]])
  }

  lemma {:induction false} ErasedAppend(a: seq<Packet>, b: seq<Packet>)
    ensures Erased(a + b) == Erased(a) + Erased(b)
  {
    if b == [] {
      assert a + b == a;
    } else {
      assert (a + b)[..|a + b| - 1] == a + b[..|b| - 1];
      ErasedAppend(a, b[..|b| - 1]);
    }
  }

  lemma {:induction false} ErasedKeeps(packets: seq<Packet>)
    requires forall p :: p in packets ==> !IsBatchMark(p)
    ensures Erased(packets) == packets
  {
    hide IsBatchMark;
    if packets != [] {
      assert packets[|packets| - 1] in packets;
      ErasedKeeps(packets[..|packets| - 1]);
    }
  }

  lemma ErasedOne(p: Packet)
    ensures Erased([p]) == if IsBatchMark(p) then [] else [p]
  {
    assert [p][..0] == [];
  }

  lemma CommandsAreNoMarks(cs: seq<ScriptCommand>)
    ensures forall p :: p in PacketsOf(cs) ==> !IsBatchMark(p)
    ensures (forall c :: c in cs ==> !c.Stop?) ==> forall p :: p in PacketsOf(cs) ==> !IsMarker(p.command)
  {
    hide Codes, I16Pair, U32Bytes;
  }

  lemma ErasedBatch(segment: seq<ScriptCommand>)
    ensures Erased(Batch(segment)) == PacketsOf(segment)
  {
    hide PacketsOf, Erased;
    NothingErased();
    var packets := PacketsOf(segment);
    CommandsAreNoMarks(segment);
    ErasedKeeps(packets);
    ErasedOne(BEGIN);
    ErasedOne(END);
    ErasedAppend([BEGIN], packets);
    ErasedAppend([BEGIN] + packets, [END]);
    assert [] + packets + [] == packets;
  }

  /** Without the batch markers, the plan is the script's packets in order. */
  lemma {:induction false} ErasedPlan(cs: seq<ScriptCommand>)
    ensures Erased(PlanOf(cs)) == PacketsOf(cs)
  {
    hide Batch, Erased;
    ErasedAppend(Flushed(cs), Batch(Pending(cs)));
    ErasedBatch(Pending(cs));
    if cs != [] {
      var init, last := cs[..|cs| - 1], cs[|cs| - 1];
      ErasedPlan(init);
      assert PacketsOf(cs) == PacketsOf(init) + [PacketOf(last)];
      ErasedAppend(Flushed(init), Batch(Pending(init)));
      ErasedBatch(Pending(init));
      if last.Stop? {
        ErasedOne(STOP);
        ErasedAppend(Flushed(init) + Batch(Pending(init)), [STOP]);
      }
    } else {
      NothingErased();
    }
  }

  lemma NothingErased()
    ensures Erased([]) == [] && PacketsOf([]) == []
  {
  }

  // ---------------------------------------------------------------------------
  // Groups

  /** Where in the grammar of batches a prefix of the plan stands. */
  datatype Place = Outside | Inside(count: nat) | Broken

  function After(place: Place, p: Packet): Place {
    match place
    case Broken => Broken
    case Outside =>
      if p == BEGIN then Inside(0) else if p == STOP then Outside else Broken
    case Inside(n) =>
      if p == END && n > 0 then Outside else if IsMarker(p.command) then Broken else Inside(n + 1)
  }

  function PlaceOf(packets: seq<Packet>): Place {
    if packets == [] then Outside else After(PlaceOf(packets[..|packets| - 1]), packets[|packets| - 1])
  }

  lemma PlaceSnoc(packets: seq<Packet>, p: Packet)
    ensures PlaceOf(packets + [p]) == After(PlaceOf(packets), p)
  {
    assert (packets + [p])[..|packets|] == packets;
  }

  lemma {:induction false} PlaceInside(before: seq<Packet>, packets: seq<Packet>, n: nat)
    requires PlaceOf(before) == Inside(n) && forall p :: p in packets ==> !IsMarker(p.command)
    ensures PlaceOf(before + packets) == Inside(n + |packets|)
  {
    if packets == [] {
      assert before + packets == before;
    } else {
      var init, last := packets[..|packets| - 1], packets[|packets| - 1];
      assert last in packets;
      PlaceInside(before, init, n);
      PlaceSnoc(before + init, last);
      assert before + packets == before + init + [last];
    }
  }

  lemma {:induction false} PendingHasNoStop(cs: seq<ScriptCommand>)
    ensures forall c :: c in Pending(cs) ==> !c.Stop?
  {
    if cs != [] && !cs[|cs| - 1].Stop? {
      PendingHasNoStop(cs[..|cs| - 1]);
    }
  }

  lemma BatchIsAGroup(before: seq<Packet>, segment: seq<ScriptCommand>)
    requires PlaceOf(before) == Outside && forall c :: c in segment ==> !c.Stop?
    ensures PlaceOf(before + Batch(segment)) == Outside
  {
    hide PlaceOf, PacketsOf;
    if segment == [] {
      assert before + Batch(segment) == before;
    } else {
      CommandsAreNoMarks(segment);
      PlaceSnoc(before, BEGIN);
      PlaceInside(before + [BEGIN], PacketsOf(segment), 0);
      PlaceSnoc(before + [BEGIN] + PacketsOf(segment), END);
      assert before + Batch(segment) == before + [BEGIN] + PacketsOf(segment) + [END];
    }
  }

  /** The plan is made of single stops and of non-empty batches, with no stop inside a batch. */
  lemma {:induction false} PlanIsGrouped(cs: seq<ScriptCommand>)
    ensures PlaceOf(PlanOf(cs)) == Outside
  {
    FlushedIsGrouped(cs);
    PendingHasNoStop(cs);
    BatchIsAGroup(Flushed(cs), Pending(cs));
  }

  lemma {:induction false} FlushedIsGrouped(cs: seq<ScriptCommand>)
    ensures PlaceOf(Flushed(cs)) == Outside
  {
    hide Batch, After;
    if cs != [] {
      var init, last := cs[..|cs| - 1], cs[|cs| - 1];
      FlushedIsGrouped(init);
      if last.Stop? {
        PendingHasNoStop(init);
        BatchIsAGroup(Flushed(init), Pending(init));
        PlaceSnoc(Flushed(init) + Batch(Pending(init)), STOP);
        StopStaysOutside();
      }
    }
  }

  lemma StopStaysOutside()
    ensures After(Outside, STOP) == Outside
  {
  }

  // ---------------------------------------------------------------------------
  // The plan is the only one of its kind

  /** Between two beginnings of batches there is a stop: no segment is cut into several batches. */
  predicate StopsBetween(packets: seq<Packet>) {
    forall i, j :: 0 <= i < j < |packets| && packets[i] == BEGIN && packets[j] == BEGIN ==>
      exists k :: i < k < j && packets[k] == STOP
  }

  /** The packets since the last stop include no beginning of a batch. */
  predicate NoBatchYet(packets: seq<Packet>) {
    packets == [] || packets[|packets| - 1] == STOP
    || (packets[|packets| - 1] != BEGIN && NoBatchYet(packets[..|packets| - 1]))
  }

  lemma {:induction false} StopAfterBegin(packets: seq<Packet>, i: nat) returns (k: nat)
    requires NoBatchYet(packets) && i < |packets| && packets[i] == BEGIN
    ensures i < k < |packets| && packets[k] == STOP
  {
    if packets[|packets| - 1] == STOP {
      k := |packets| - 1;
    } else {
      k := StopAfterBegin(packets[..|packets| - 1], i);
    }
  }

  /** A packet put behind keeps this exactly if it does not begin a batch where one has begun already. */
  lemma StopsBetweenSnoc(packets: seq<Packet>, p: Packet)
    requires StopsBetween(packets) && (p == BEGIN ==> NoBatchYet(packets))
    ensures StopsBetween(packets + [p])
  {
    var more := packets + [p];
    forall i, j | 0 <= i < j < |more| && more[i] == BEGIN && more[j] == BEGIN
      ensures exists k :: i < k < j && more[k] == STOP
    {
      if j == |packets| {
        var k := StopAfterBegin(packets, i);
        assert more[k] == STOP;
      } else {
        var k :| i < k < j && packets[k] == STOP;
        assert more[k] == STOP;
      }
    }
  }

  lemma {:induction false} StopsBetweenAppend(packets: seq<Packet>, more: seq<Packet>)
    requires StopsBetween(packets) && BEGIN !in more
    ensures StopsBetween(packets + more)
    ensures NoBatchYet(packets) ==> NoBatchYet(packets + more)
  {
    hide StopsBetween;
    if more == [] {
      assert packets + more == packets;
    } else {
      var init, last := more[..|more| - 1], more[|more| - 1];
      StopsBetweenAppend(packets, init);
      StopsBetweenSnoc(packets + init, last);
      assert packets + more == packets + init + [last];
    }
  }

  lemma {:induction false} FlushedStopsBetween(cs: seq<ScriptCommand>)
    ensures StopsBetween(Flushed(cs)) && NoBatchYet(Flushed(cs))
  {
    hide StopsBetween, Batch;
    if cs == [] {
      NothingStopsBetween();
    } else {
      var init, last := cs[..|cs| - 1], cs[|cs| - 1];
      FlushedStopsBetween(init);
      if last.Stop? {
        BatchStopsBetween(Flushed(init), Pending(init));
        StopsBetweenSnoc(Flushed(init) + Batch(Pending(init)), STOP);
      }
    }
  }

  lemma NothingStopsBetween()
    ensures StopsBetween([])
  {
  }

  lemma BatchInParts(before: seq<Packet>, segment: seq<ScriptCommand>)
    ensures before + Batch(segment) ==
      if segment == [] then before else before + [BEGIN] + (PacketsOf(segment) + [END])
  {
    hide PacketsOf;
  }

  lemma BatchStopsBetween(before: seq<Packet>, segment: seq<ScriptCommand>)
    requires StopsBetween(before) && NoBatchYet(before)
    ensures StopsBetween(before + Batch(segment))
  {
    hide StopsBetween, NoBatchYet, PacketsOf, Batch;
    BatchInParts(before, segment);
    if segment != [] {
      CommandsAreNoMarks(segment);
      StopsBetweenSnoc(before, BEGIN);
      StopsBetweenAppend(before + [BEGIN], PacketsOf(segment) + [END]);
    }
  }

  /** A prefix keeps it, and after a beginning of a batch there is none before the next stop. */
  lemma StopsBetweenPrefix(packets: seq<Packet>, p: Packet)
    requires StopsBetween(packets + [p])
    ensures StopsBetween(packets)
    ensures p == BEGIN ==> forall i :: 0 <= i < |packets| && packets[i] == BEGIN ==> STOP in packets[i + 1..]
  {
    var more := packets + [p];
    assert forall i :: 0 <= i < |packets| ==> more[i] == packets[i];
    forall i | 0 <= i < |packets| && packets[i] == BEGIN && p == BEGIN ensures STOP in packets[i + 1..] {
      assert more[|packets|] == BEGIN;
      var k :| i < k < |packets| && more[k] == STOP;
      assert packets[i + 1..][k - i - 1] == STOP;
    }
  }

  lemma NoStopInBatch(before: seq<Packet>, segment: seq<ScriptCommand>)
    requires segment != [] && forall c :: c in segment ==> !c.Stop?
    ensures
      var packets := before + Batch(segment);
      |before| < |packets| && packets[|before|] == BEGIN && STOP !in packets[|before| + 1..]
  {
    hide PacketsOf;
    CommandsAreNoMarks(segment);
    assert (before + Batch(segment))[|before| + 1..] == PacketsOf(segment) + [END];
  }

  /** A batch that is the last thing planned rules out another beginning. */
  lemma NoSecondBatch(packets: seq<Packet>, cs: seq<ScriptCommand>)
    requires StopsBetween(packets + [BEGIN]) && packets == PlanOf(cs)
    ensures Pending(cs) == []
  {
    hide Batch, StopsBetween;
    StopsBetweenPrefix(packets, BEGIN);
    if Pending(cs) != [] {
      PendingHasNoStop(cs);
      NoStopInBatch(Flushed(cs), Pending(cs));
    }
  }

  /** A plan that has got as far as `place` through the commands `cs`. */
  function PlanSoFar(cs: seq<ScriptCommand>, place: Place): seq<Packet> {
    if place.Inside? then Flushed(cs) + ([BEGIN] + PacketsOf(Pending(cs))) else PlanOf(cs)
  }

  lemma ErasedSnoc(packets: seq<Packet>, p: Packet)
    ensures Erased(packets + [p]) == Erased(packets) + if IsBatchMark(p) then [] else [p]
  {
    assert (packets + [p])[..|packets|] == packets;
  }

  /** The last packet that is no mark is that of the last command. */
  lemma LastCommand(cs: seq<ScriptCommand>, packets: seq<Packet>, p: Packet)
    requires PacketsOf(cs) == packets + [p]
    ensures cs != [] && packets == PacketsOf(cs[..|cs| - 1]) && p == PacketOf(cs[|cs| - 1])
    ensures cs[|cs| - 1].Stop? <==> p.command == P.STOP_ALL
    ensures cs[|cs| - 1].Stop? ==> p == STOP
  {
    hide PacketsOf, Codes, I16Pair, U32Bytes;
    PacketsSnoc(cs);
    assert packets == (packets + [p])[..|packets|] && p == (packets + [p])[|packets|];
  }

  lemma PacketsSnoc(cs: seq<ScriptCommand>)
    ensures cs == [] ==> PacketsOf(cs) == []
    ensures cs != [] ==> PacketsOf(cs) == PacketsOf(cs[..|cs| - 1]) + [PacketOf(cs[|cs| - 1])]
  {
  }

  lemma {:induction false} OnlyPlanSoFar(cs: seq<ScriptCommand>, packets: seq<Packet>)
    requires Erased(packets) == PacketsOf(cs) && PlaceOf(packets) != Broken && StopsBetween(packets)
    ensures packets == PlanSoFar(cs, PlaceOf(packets))
    ensures PlaceOf(packets).Inside? ==> PlaceOf(packets).count == |Pending(cs)|
    decreases |packets|
  {
    hide Erased, PacketsOf, StopsBetween, PlaceOf;
    if packets == [] {
      NothingErased();
      NothingPlanned();
      if cs != [] {
        PacketsSnoc(cs);
      }
    } else {
      var init, p := packets[..|packets| - 1], packets[|packets| - 1];
      assert packets == init + [p];
      ErasedSnoc(init, p);
      PlaceSnoc(init, p);
      StopsBetweenPrefix(init, p);
      if IsBatchMark(p) {
        assert Erased(init) + [] == Erased(init);
        OnlyPlanSoFar(cs, init);
        MarkGoesOn(cs, init, p);
      } else {
        LastCommand(cs, Erased(init), p);
        OnlyPlanSoFar(cs[..|cs| - 1], init);
        CommandGoesOn(cs, init, p);
      }
    }
  }

  lemma NothingPlanned()
    ensures PlaceOf([]) == Outside && PlanOf([]) == []
  {
  }

  lemma MarkGoesOn(cs: seq<ScriptCommand>, init: seq<Packet>, p: Packet)
    requires IsBatchMark(p) && After(PlaceOf(init), p) != Broken && StopsBetween(init + [p])
    requires init == PlanSoFar(cs, PlaceOf(init))
    requires PlaceOf(init).Inside? ==> PlaceOf(init).count == |Pending(cs)|
    ensures init + [p] == PlanSoFar(cs, After(PlaceOf(init), p))
    ensures After(PlaceOf(init), p).Inside? ==> After(PlaceOf(init), p).count == |Pending(cs)|
  {
    hide PacketsOf, StopsBetween, Flushed, Pending, PlaceOf;
    if p == BEGIN {
      NoSecondBatch(init, cs);
      NothingErased();
      assert [BEGIN] + PacketsOf([]) == [BEGIN];
      assert Flushed(cs) + Batch([]) == Flushed(cs);
    } else {
      var segment := PacketsOf(Pending(cs));
      assert Flushed(cs) + ([BEGIN] + segment) + [END] == Flushed(cs) + ([BEGIN] + segment + [END]);
    }
  }

  lemma CommandGoesOn(cs: seq<ScriptCommand>, init: seq<Packet>, p: Packet)
    requires cs != [] && p == PacketOf(cs[|cs| - 1]) && (cs[|cs| - 1].Stop? <==> p.command == P.STOP_ALL)
    requires !IsBatchMark(p) && After(PlaceOf(init), p) != Broken && (cs[|cs| - 1].Stop? ==> p == STOP)
    requires init == PlanSoFar(cs[..|cs| - 1], PlaceOf(init))
    requires PlaceOf(init).Inside? ==> PlaceOf(init).count == |Pending(cs[..|cs| - 1])|
    ensures init + [p] == PlanSoFar(cs, After(PlaceOf(init), p))
    ensures After(PlaceOf(init), p).Inside? ==> After(PlaceOf(init), p).count == |Pending(cs)|
  {
    hide PacketsOf, PlaceOf, PacketOf, Batch;
    var before, last := cs[..|cs| - 1], cs[|cs| - 1];
    if last.Stop? {
      NoBatchIsNothing();
      assert init + [STOP] == Flushed(cs) + [];
    } else {
      PacketsSnoc(Pending(cs));
      assert Pending(cs)[..|Pending(cs)| - 1] == Pending(before);
      var segment := PacketsOf(Pending(before));
      assert init + [p] == Flushed(cs) + ([BEGIN] + (segment + [p]));
    }
  }

  lemma NoBatchIsNothing()
    ensures Batch([]) == []
  {
  }

  /**
    The plan is the only list of packets that says the script's commands in order, in non-empty
    batches and single stops, and begins no two batches without a stop between them.
  */
  lemma PlanIsTheOnlyOne(cs: seq<ScriptCommand>, packets: seq<Packet>)
    ensures packets == PlanOf(cs) <==>
      Erased(packets) == PacketsOf(cs) && PlaceOf(packets) == Outside && StopsBetween(packets)
  {
    hide Erased, PacketsOf, PlaceOf, StopsBetween, Flushed, Pending, Batch;
    ErasedPlan(cs);
    PlanIsGrouped(cs);
    FlushedStopsBetween(cs);
    BatchStopsBetween(Flushed(cs), Pending(cs));
    if Erased(packets) == PacketsOf(cs) && PlaceOf(packets) == Outside && StopsBetween(packets) {
      OnlyPlanSoFar(cs, packets);
    }
  }

  // ---------------------------------------------------------------------------
  // The deadline of each batch's end

  function Deadline(plan: seq<Packet>, i: nat, base: u32, batch: Option<u64>): u32
    requires i < |plan|
  {
    ResponseTimeout(base, plan[i], RecordedAll(plan[..i], batch))
  }

  lemma {:induction false} BrokenStays(packets: seq<Packet>, i: nat)
    requires i <= |packets| && PlaceOf(packets[..i]) == Broken
    ensures PlaceOf(packets) == Broken
  {
    if i == |packets| {
      assert packets[..i] == packets;
    } else {
      assert packets[..|packets| - 1][..i] == packets[..i];
      BrokenStays(packets[..|packets| - 1], i);
    }
  }

  /** Inside a batch, its packets are behind us, and before them its beginning. */
  lemma {:induction false} InsideLooksBack(packets: seq<Packet>)
    requires PlaceOf(packets).Inside?
    ensures
      var n := PlaceOf(packets).count;
      && n < |packets| && packets[|packets| - n - 1] == BEGIN
      && forall p :: p in packets[|packets| - n..] ==> !IsMarker(p.command)
  {
    var init, last := packets[..|packets| - 1], packets[|packets| - 1];
    if PlaceOf(init).Inside? {
      InsideLooksBack(init);
      var n := PlaceOf(packets).count;
      assert packets[|packets| - n..] == init[|init| - (n - 1)..] + [last];
    }
  }

  lemma {:induction false} RecordedAppend(a: seq<Packet>, b: seq<Packet>, batch: Option<u64>)
    ensures RecordedAll(a + b, batch) == RecordedAll(b, RecordedAll(a, batch))
  {
    hide Recorded;
    if b == [] {
      assert a + b == a;
    } else {
      assert (a + b)[..|a + b| - 1] == a + b[..|b| - 1];
      RecordedAppend(a, b[..|b| - 1], batch);
    }
  }

  /** The timeout covers exactly the non-empty batch that begins and ends at these places, and a second. */
  predicate Covers(plan: seq<Packet>, begin: int, end: int, base: u32, timeout: u32) {
    && 0 <= begin < end - 1 && end < |plan| && plan[begin] == BEGIN && plan[end] == END
    && (forall p :: p in plan[begin + 1..end] ==> IsPlain(p))
    && timeout == Min(U32_MAX, Max(base, 1000 + Total(plan[begin + 1..end])))
  }

  lemma BatchBefore(plan: seq<Packet>, i: nat) returns (begin: nat)
    requires i < |plan| && plan[i] == END && PlaceOf(plan) == Outside
    ensures begin < i - 1 && plan[begin] == BEGIN
    ensures forall p :: p in plan[begin + 1..i] ==> !IsMarker(p.command)
    ensures plan[..i] == plan[..begin] + ([BEGIN] + plan[begin + 1..i])
  {
    hide PlaceOf, IsMarker;
    InsideBeforeEnd(plan, i);
    InsideLooksBack(plan[..i]);
    begin := i - PlaceOf(plan[..i]).count - 1;
    assert plan[begin + 1..i] == plan[..i][begin + 1..];
  }

  /**
    Whenever a plan ends a batch, the driver waits for the sum of the known durations of exactly
    that batch's packets and one second, or its base timeout if that is longer, whatever was in the
    counter when the script began; the batch must have fewer than 2^32 packets.
  */
  lemma BatchEndIsTimed(plan: seq<Packet>, i: nat, base: u32, batch: Option<u64>) returns (begin: nat)
    requires i < |plan| && plan[i] == END && PlaceOf(plan) == Outside
    requires forall p :: p in plan[..i] ==> |p.payload| <= P.MAX_PAYLOAD_SIZE
    ensures begin < i - 1 && plan[begin] == BEGIN
    ensures forall p :: p in plan[begin + 1..i] ==> IsPlain(p)
    ensures i - begin - 1 < 0x1_0000_0000 ==> Covers(plan, begin, i, base, Deadline(plan, i, base, batch))
  {
    hide ResponseTimeout, RecordedAll, Total, PlaceOf, Min, Max, IsPlain;
    begin := BatchBefore(plan, i);
    SegmentIsPlain(plan, begin, i);
    if i - begin - 1 < 0x1_0000_0000 {
      SegmentIsTimed(plan[..begin], plan[begin + 1..i], base, batch);
    }
  }

  lemma SegmentIsPlain(plan: seq<Packet>, begin: nat, i: nat)
    requires begin < i <= |plan|
    requires forall p :: p in plan[..i] ==> |p.payload| <= P.MAX_PAYLOAD_SIZE
    requires forall p :: p in plan[begin + 1..i] ==> !IsMarker(p.command)
    ensures forall p :: p in plan[begin + 1..i] ==> IsPlain(p)
  {
    hide IsMarker;
    forall p | p in plan[begin + 1..i] ensures p in plan[..i] {
      var k :| begin + 1 <= k < i && plan[k] == p;
      assert plan[..i][k] == p;
    }
  }

  lemma SegmentIsTimed(before: seq<Packet>, segment: seq<Packet>, base: u32, batch: Option<u64>)
    requires |segment| < 0x1_0000_0000 && forall p :: p in segment ==> IsPlain(p)
    ensures ResponseTimeout(base, END, RecordedAll(before + ([BEGIN] + segment), batch))
              == Min(U32_MAX, Max(base, 1000 + Total(segment)))
  {
    hide ResponseTimeout, RecordedAll, Recorded, Total, Min, Max, IsPlain;
    RecordedAppend(before, [BEGIN] + segment, batch);
    RecordedAppend([BEGIN], segment, RecordedAll(before, batch));
    RecordedOne(BEGIN, RecordedAll(before, batch));
    BatchEndDeadline(base, segment, RecordedAll(before, batch));
  }

  function TakesAll(cs: seq<ScriptCommand>): nat {
    if cs == [] then 0 else TakesAll(cs[..|cs| - 1]) + Takes(cs[|cs| - 1])
  }

  /** A batch's known durations are those of its commands. */
  lemma {:induction false} TotalOfCommands(cs: seq<ScriptCommand>)
    requires forall c :: c in cs ==> c.TypeText? ==> |c.text| <= P.MAX_PAYLOAD_SIZE
    ensures Total(PacketsOf(cs)) == TakesAll(cs)
  {
    hide DurationOf, Takes, PacketOf;
    if cs != [] {
      var init, last := cs[..|cs| - 1], cs[|cs| - 1];
      assert last in cs;
      TotalOfCommands(init);
      DurationOfCommand(last);
      assert PacketsOf(cs)[..|cs| - 1] == PacketsOf(init);
    }
  }

  lemma RecordedOne(p: Packet, batch: Option<u64>)
    ensures RecordedAll([p], batch) == Recorded(p, batch)
  {
    hide Recorded;
    assert [p][..0] == [];
  }

  lemma InsideBeforeEnd(plan: seq<Packet>, i: nat)
    requires i < |plan| && plan[i] == END && PlaceOf(plan) == Outside
    ensures PlaceOf(plan[..i]).Inside? && PlaceOf(plan[..i]).count > 0
  {
    assert plan[..i + 1] == plan[..i] + [END];
    PlaceSnoc(plan[..i], END);
    if PlaceOf(plan[..i + 1]) == Broken {
      BrokenStays(plan, i + 1);
    }
  }

  // ---------------------------------------------------------------------------
  // Where a running script stands in its plan

  lemma {:induction false} FlushedIsPrefix(cs: seq<ScriptCommand>, i: nat)
    requires i <= |cs|
    ensures Flushed(cs[..i]) <= Flushed(cs)
  {
    hide Batch;
    if i == |cs| {
      assert cs[..i] == cs;
    } else {
      var init := cs[..|cs| - 1];
      FlushedIsPrefix(init, i);
      assert init[..i] == cs[..i];
    }
  }

  /** At a stop, the plan goes on with the pending batch and the stop itself. */
  lemma StopInPlan(cs: seq<ScriptCommand>, i: nat)
    requires i < |cs| && cs[i].Stop?
    ensures
      var sofar, batch := Flushed(cs[..i]), Batch(Pending(cs[..i]));
      && Flushed(cs[..i + 1]) == sofar + batch + [STOP]
      && |sofar| + |batch| < |PlanOf(cs)|
      && PlanOf(cs)[|sofar|..|sofar| + |batch|] == batch
      && PlanOf(cs)[|sofar| + |batch|] == STOP
  {
    hide Batch;
    assert cs[..i + 1][..i] == cs[..i];
    FlushedIsPrefix(cs, i + 1);
  }

  lemma PendingSnoc(cs: seq<ScriptCommand>, i: nat)
    requires i < |cs|
    ensures Pending(cs[..i + 1]) == if cs[i].Stop? then [] else Pending(cs[..i]) + [cs[i]]
    ensures !cs[i].Stop? ==> Flushed(cs[..i + 1]) == Flushed(cs[..i])
  {
    hide Batch;
    assert cs[..i + 1][..i] == cs[..i];
  }

  lemma NothingPending(cs: seq<ScriptCommand>)
    ensures Pending(cs[..0]) == [] && Flushed(cs[..0]) == []
  {
  }

  // ---------------------------------------------------------------------------
  // Texts that cannot be sent

  /** What the parser does not check: TYPE text must be ASCII and fit one frame. */
  predicate CanBeTyped(c: ScriptCommand) {
    c.TypeText? ==> IsAscii(c.text) && |c.text| <= P.MAX_PAYLOAD_SIZE
  }

  predicate AllTypable(cs: seq<ScriptCommand>) {
    forall c :: c in cs ==> CanBeTyped(c)
  }

  /** The driver refuses a command if it has no packet or no frame can hold its packet. */
  predicate Accepts(c: ScriptCommand) {
    !(c.TypeText? && !IsAscii(c.text)) && |PacketOf(c).payload| <= P.MAX_PAYLOAD_SIZE
  }

  /** The k-th packet of the plan is that of a command that cannot be typed. */
  predicate RefusedAt(cs: seq<ScriptCommand>, plan: seq<Packet>, k: nat) {
    k < |plan| && exists c :: c in cs && !CanBeTyped(c) && plan[k] == PacketOf(c)
  }

  lemma TypableIsAccepted(c: ScriptCommand)
    ensures CanBeTyped(c) <==> Accepts(c)
  {
    hide Codes, I16Pair, U32Bytes;
  }

  lemma StopIsTypable()
    ensures CanBeTyped(Stop)
  {
  }

  lemma TypableSnoc(cs: seq<ScriptCommand>, i: nat)
    requires i < |cs| && AllTypable(cs[..i]) && CanBeTyped(cs[i])
    ensures AllTypable(cs[..i + 1])
  {
    hide CanBeTyped;
    assert cs[..i + 1] == cs[..i] + [cs[i]];
  }

  lemma {:induction false} PlainMeansInside(packets: seq<Packet>, k: nat)
    requires PlaceOf(packets) == Outside && k < |packets| && !IsMarker(packets[k].command)
    ensures PlaceOf(packets[..k]).Inside?
  {
    assert packets[..k + 1] == packets[..k] + [packets[k]];
    PlaceSnoc(packets[..k], packets[k]);
    if PlaceOf(packets[..k + 1]) == Broken {
      BrokenStays(packets, k + 1);
    }
  }

  /** A single accented letter is such a text. */
  lemma AccentIsUntypable()
    ensures !CanBeTyped(TypeText("\U{E9}"))
  {
    assert "\U{E9}"[0] in "\U{E9}";
  }

  /**
    The claim that a script's arguments are checked before anything is sent fails for every text
    that cannot be typed: the parser accepts it, and its batch is begun before it is looked at.
  */
  lemma UntypableTextIsParsed(text: string)
    requires !CanBeTyped(TypeText(text))
    ensures !Accepts(TypeText(text))
    ensures Parse(Print([TypeText(text)])) == Ok([TypeText(text)])
    ensures PlanOf([TypeText(text)]) == [BEGIN, PacketOf(TypeText(text)), END]
  {
    hide Parse, Print, PacketOf, CanBeTyped, Accepts, PlanOf;
    TypableIsAccepted(TypeText(text));
    ParseOfPrint([TypeText(text)]);
    PlanOfOne(TypeText(text));
  }

  lemma PlanOfOne(c: ScriptCommand)
    requires !c.Stop?
    ensures PlanOf([c]) == [BEGIN, PacketOf(c), END]
  {
    hide PacketOf;
    assert [c][..0] == [];
    assert Pending([c]) == [] + [c] && Flushed([c]) == [];
    assert PacketsOf([c]) == [PacketOf(c)];
  }
}
