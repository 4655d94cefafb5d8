/**
  How long the driver waits for a response, serial.hpp:627-690: the known duration of a packet, the
  running total of a batch (a 64-bit counter that could wrap), and the deadline taken from them.
*/
module Deadlines {
  import opened Words
  import opened Packets
  import S = Script
  import P = Protocol

  const U32_MAX := 0xFFFF_FFFF
  const U64_SIZE := 0x1_0000_0000_0000_0000

  function Max(a: int, b: int): int {
    if a < b then b else a
  }

  function Min(a: int, b: int): int {
    if a < b then a else b
  }

  function Abs(a: int): nat {
    if a < 0 then -a else a
  }

  function Wrap(v: nat): u64 {
    v % U64_SIZE
  }

  /** The number of mouse reports a movement is split into. */
  function Reports(dx: int, dy: int): nat {
    (Max(Abs(dx), Abs(dy)) + 126) / 127
  }

  /** known_duration_ms, serial.hpp:627-656. */
  function KnownDuration(p: Packet): Option<u64> {
    if p.command == P.WAIT_MS && |p.payload| == 4 then Some(U32Of(p.payload))
    else if p.command == P.TYPE_ASCII then Some(Wrap(|p.payload| * 8))
    else if p.command == P.MOUSE_MOVE_REL && |p.payload| == 4 then
      Some(Wrap(Reports(DxOf(p.payload), DyOf(p.payload))))
    else if p.command == P.KEY_TAP then Some(8)
    else if p.command == P.MOUSE_CLICK then Some(20)
    else None
  }

  /** response_timeout, serial.hpp:658-671. */
  function ResponseTimeout(base: u32, p: Packet, batch: Option<u64>): u32 {
    var known := KnownDuration(p);
    var wanted :=
      if p.command == P.BATCH_END && batch.Some? then Max(base, Wrap(batch.value + 1000))
      else if known.Some? then Max(base, Wrap(known.value + 500))
      else Max(base, 1000);
    Min(wanted, U32_MAX)
  }

  /** record_completed_command, serial.hpp:673-690. */
  function Recorded(p: Packet, batch: Option<u64>): Option<u64> {
    if p.command == P.BATCH_BEGIN then Some(0)
    else if p.command == P.BATCH_END || p.command == P.STOP_ALL then None
    else if batch.Some? && KnownDuration(p).Some? then Some(Wrap(batch.value + KnownDuration(p).value))
    else batch
  }

  function RecordedAll(packets: seq<Packet>, batch: Option<u64>): Option<u64> {
    if packets == [] then batch else
      Recorded(packets[|packets| - 1], RecordedAll(packets[..|packets| - 1], batch))
  }

  // ---------------------------------------------------------------------------
  // The deadline of a batch

  predicate IsMarker(command: P.Command) {
    command == P.BATCH_BEGIN || command == P.BATCH_END || command == P.STOP_ALL
  }

  /** What may stand between BATCH_BEGIN and BATCH_END. */
  predicate IsPlain(p: Packet) {
    !IsMarker(p.command) && |p.payload| <= P.MAX_PAYLOAD_SIZE
  }

  function DurationOf(p: Packet): nat {
    if KnownDuration(p).Some? then KnownDuration(p).value else 0
  }

  function Total(packets: seq<Packet>): nat {
    if packets == [] then 0 else Total(packets[..|packets| - 1]) + DurationOf(packets[|packets| - 1])
  }

  lemma ReportsAreFew(dx: i16, dy: i16)
    ensures Reports(dx, dy) <= 259
  {
  }

  lemma DurationIsBounded(p: Packet)
    requires |p.payload| <= P.MAX_PAYLOAD_SIZE
    ensures DurationOf(p) <= U32_MAX
  {
    hide DxOf, DyOf, U32Of, Reports;
    if p.command == P.MOUSE_MOVE_REL && |p.payload| == 4 {
      ReportsAreFew(DxOf(p.payload), DyOf(p.payload));
    }
  }

  lemma {:induction false} TotalIsBounded(packets: seq<Packet>)
    requires forall p :: p in packets ==> IsPlain(p)
    ensures Total(packets) <= |packets| * U32_MAX
  {
    hide DurationOf;
    if packets != [] {
      assert packets[|packets| - 1] in packets;
      TotalIsBounded(packets[..|packets| - 1]);
      DurationIsBounded(packets[|packets| - 1]);
    }
  }

  /** For any batch of fewer than 2^32 packets the counter is the plain sum: it does not wrap. */
  lemma {:induction false} BatchCounterIsTheSum(packets: seq<Packet>)
    requires |packets| < 0x1_0000_0000 && forall p :: p in packets ==> IsPlain(p)
    ensures RecordedAll(packets, Some(0)) == Some(Total(packets))
    ensures Total(packets) + 1000 < U64_SIZE
  {
    hide KnownDuration;
    TotalIsBounded(packets);
    if packets != [] {
      assert packets[|packets| - 1] in packets;
      BatchCounterIsTheSum(packets[..|packets| - 1]);
    }
  }

  /**
    The wait for a batch's end covers one second more than all its known durations, whatever an
    earlier, abandoned batch had left in the counter.
  */
  lemma BatchEndDeadline(base: u32, packets: seq<Packet>, stale: Option<u64>)
    requires |packets| < 0x1_0000_0000 && forall p :: p in packets ==> IsPlain(p)
    ensures
      var begun := Recorded(Packet(P.BATCH_BEGIN, []), stale);
      ResponseTimeout(base, Packet(P.BATCH_END, []), RecordedAll(packets, begun))
        == Min(U32_MAX, Max(base, 1000 + Total(packets)))
  {
    hide KnownDuration, RecordedAll, Total;
    BatchCounterIsTheSum(packets);
  }

  lemma {:induction false} NothingCounted(packets: seq<Packet>)
    requires forall p :: p in packets ==> p.command != P.BATCH_BEGIN
    ensures RecordedAll(packets, None) == None
  {
    hide KnownDuration;
    if packets != [] {
      assert packets[|packets| - 1] in packets;
      NothingCounted(packets[..|packets| - 1]);
    }
  }

  /** After the end of a batch or a stop nothing is counted until the next batch begins. */
  lemma EndWithoutBatch(base: u32, closing: Packet, packets: seq<Packet>, batch: Option<u64>)
    requires closing.command == P.BATCH_END || closing.command == P.STOP_ALL
    requires forall p :: p in packets ==> p.command != P.BATCH_BEGIN
    ensures
      ResponseTimeout(base, Packet(P.BATCH_END, []), RecordedAll(packets, Recorded(closing, batch)))
        == Min(U32_MAX, Max(base, 1000))
  {
    hide RecordedAll;
    NothingCounted(packets);
  }

  /** Outside a batch's end, the wait is the packet's own duration and half a second, or a whole second. */
  lemma SingleDeadline(base: u32, p: Packet, batch: Option<u64>)
    requires p.command != P.BATCH_END && |p.payload| <= P.MAX_PAYLOAD_SIZE
    ensures ResponseTimeout(base, p, batch) ==
      Min(U32_MAX, Max(base, if KnownDuration(p).Some? then DurationOf(p) + 500 else 1000))
  {
    hide KnownDuration;
    DurationIsBounded(p);
  }

  // ---------------------------------------------------------------------------
  // The number of mouse reports is the least possible

  datatype Report = Report(x: int, y: int)

  predicate Fits(r: Report) {
    -127 <= r.x <= 127 && -127 <= r.y <= 127
  }

  function SumX(reports: seq<Report>): int {
    if reports == [] then 0 else reports[0].x + SumX(reports[1..])
  }

  function SumY(reports: seq<Report>): int {
    if reports == [] then 0 else reports[0].y + SumY(reports[1..])
  }

  predicate Moves(reports: seq<Report>, dx: int, dy: int) {
    (forall r :: r in reports ==> Fits(r)) && SumX(reports) == dx && SumY(reports) == dy
  }

  lemma {:induction false} SumsAreBounded(reports: seq<Report>)
    requires forall r :: r in reports ==> Fits(r)
    ensures Abs(SumX(reports)) <= 127 * |reports| && Abs(SumY(reports)) <= 127 * |reports|
  {
    if reports != [] {
      assert reports[0] in reports;
      SumsAreBounded(reports[1..]);
    }
  }

  function Clamp(v: int): int {
    Max(-127, Min(127, v))
  }

  function Spread(dx: int, dy: int, n: nat): (reports: seq<Report>)
    ensures |reports| == n
    decreases n
  {
    if n == 0 then [] else
      [Report(Clamp(dx), Clamp(dy))] + Spread(dx - Clamp(dx), dy - Clamp(dy), n - 1)
  }

  lemma {:induction false} SpreadMoves(dx: int, dy: int, n: nat)
    requires Abs(dx) <= 127 * n && Abs(dy) <= 127 * n
    ensures Moves(Spread(dx, dy, n), dx, dy)
    decreases n
  {
    if n > 0 {
      var first, later := Report(Clamp(dx), Clamp(dy)), Spread(dx - Clamp(dx), dy - Clamp(dy), n - 1);
      SpreadMoves(dx - Clamp(dx), dy - Clamp(dy), n - 1);
      assert ([first] + later)[1..] == later;
    }
  }

  /** A movement can be made in n reports exactly when n is at least the number the driver counts. */
  lemma ReportsAreLeast(dx: int, dy: int, n: nat)
    ensures (exists reports :: |reports| == n && Moves(reports, dx, dy)) <==> n >= Reports(dx, dy)
  {
    if n >= Reports(dx, dy) {
      SpreadMoves(dx, dy, n);
      assert |Spread(dx, dy, n)| == n;
    }
    forall reports | |reports| == n && Moves(reports, dx, dy) ensures n >= Reports(dx, dy) {
      SumsAreBounded(reports);
    }
  }

  /** How long a script's command takes on the device, in milliseconds, as far as it is known. */
  function Takes(c: S.ScriptCommand): nat {
    match c
    case TypeText(text) => 8 * |text|
    case PressKey(Tap, _) => 8
    case Move(dx, dy) => Reports(dx, dy)
    case Button(Click, _) => 20
    case Wait(ms) => ms
    case _ => 0
  }

  lemma MoveDuration(dx: i16, dy: i16)
    ensures KnownDuration(PacketOf(S.Move(dx, dy))) == Some(Reports(dx, dy))
  {
    hide I16Pair, DxOf, DyOf, Reports;
    I16RoundTrip(dx, dy);
    ReportsAreFew(dx, dy);
  }

  /** The driver reads that time back from the packet, negative coordinates and -32768 included. */
  lemma DurationOfCommand(c: S.ScriptCommand)
    requires c.TypeText? ==> |c.text| <= P.MAX_PAYLOAD_SIZE
    ensures DurationOf(PacketOf(c)) == Takes(c)
  {
    hide I16Pair, U32Bytes, Codes, DxOf, DyOf, Reports, U32Of;
    match c
    case Move(dx, dy) => MoveDuration(dx, dy);
    case Wait(ms) => U32RoundTrip(ms);
    case _ =>
  }
}
