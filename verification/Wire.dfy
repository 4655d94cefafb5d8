/**
  What goes over the wire, in numbers: from a printed script line to its packet, from a packet to its
  frame, and the check value of the checksum.
*/
module Wire {
  import opened Words
  import opened Text
  import opened Keys
  import opened Tokens
  import opened Script
  import opened Packets
  import opened Division
  import opened Exchanges
  import opened Deadlines
  import Plan
  import Engine
  import P = Protocol
  import Checksum
  import Crc

  // ---------------------------------------------------------------------------
  // From a line to its packet

  /** The packet of a line, if it is one command that has a packet. */
  function PacketOfLine(line: string): Option<Packet> {
    var command := LineOf(line);
    if command.Err? || command.value.None? then None
    else
      var packet := ToPacket(command.value.value);
      if packet.Ok? then Some(packet.value) else None
  }

  lemma LineIsPrinted(c: ScriptCommand, line: string)
    requires WellFormedCommand(c) && line == PrintCommand(c)
    ensures PacketOfLine(line) == if ToPacket(c).Ok? then Some(ToPacket(c).value) else None
  {
    hide LineOf, PrintCommand, ToPacket;
    CommandIsReadBack(c);
  }

  lemma TwoWords(a: string, b: string)
    ensures Unsplit([a, b], ' ') == a + [' '] + b
  {
  }

  lemma ThreeWords(a: string, b: string, c: string)
    ensures Unsplit([a, b, c], ' ') == a + [' '] + b + [' '] + c
  {
    TwoWords(b, c);
    assert [a, b, c][1..] == [b, c];
  }

  lemma FourWords(a: string, b: string, c: string, d: string)
    ensures Unsplit([a, b, c, d], ' ') == a + [' '] + b + [' '] + c + [' '] + d
  {
    ThreeWords(b, c, d);
    assert [a, b, c, d][1..] == [b, c, d];
  }

  /** Key lines: tap, down and up are three commands; the payload is the modifier, then the key. */
  lemma KeyLines(k: KeyCombo)
    requires WellFormed(k)
    ensures PacketOfLine("KEY TAP " + PrintCombo(k)) == Some(Packet(0x12, [k.modifier, k.keycode]))
    ensures PacketOfLine("KEY DOWN " + PrintCombo(k)) == Some(Packet(0x10, [k.modifier, k.keycode]))
    ensures PacketOfLine("KEY UP " + PrintCombo(k)) == Some(Packet(0x11, [k.modifier, k.keycode]))
  {
    hide PacketOfLine, PrintCombo, Unsplit;
    ThreeWords("KEY", "TAP", PrintCombo(k));
    ThreeWords("KEY", "DOWN", PrintCombo(k));
    ThreeWords("KEY", "UP", PrintCombo(k));
    LineIsPrinted(PressKey(Tap, k), "KEY TAP " + PrintCombo(k));
    LineIsPrinted(PressKey(Press, k), "KEY DOWN " + PrintCombo(k));
    LineIsPrinted(PressKey(Release, k), "KEY UP " + PrintCombo(k));
  }

  /** Button lines: left is 1, right 2 and middle 4. */
  lemma ButtonLines(button: byte, name: string)
    requires (button, name) in {(1, "LEFT"), (2, "RIGHT"), (4, "MIDDLE")}
    ensures PacketOfLine("MOUSE CLICK " + name) == Some(Packet(0x23, [button]))
    ensures PacketOfLine("MOUSE DOWN " + name) == Some(Packet(0x21, [button]))
    ensures PacketOfLine("MOUSE UP " + name) == Some(Packet(0x22, [button]))
  {
    hide PacketOfLine, Unsplit;
    assert IsButton(button) && PrintButton(button) == name;
    ButtonLine(Click, button);
    ButtonLine(Hold, button);
    ButtonLine(LetGo, button);
    assert "MOUSE " + "CLICK" + " " + name == "MOUSE CLICK " + name;
    assert "MOUSE " + "DOWN" + " " + name == "MOUSE DOWN " + name;
    assert "MOUSE " + "UP" + " " + name == "MOUSE UP " + name;
  }

  lemma ButtonLine(action: ButtonAction, button: byte)
    requires IsButton(button)
    ensures
      PacketOfLine("MOUSE " + PrintButtonAction(action) + " " + PrintButton(button))
        == Some(PacketOf(Button(action, button)))
  {
    hide PacketOfLine, Unsplit, PrintButton, PrintButtonAction, PacketOf;
    ThreeWords("MOUSE", PrintButtonAction(action), PrintButton(button));
    LineIsPrinted(Button(action, button), "MOUSE " + PrintButtonAction(action) + " " + PrintButton(button));
  }

  /** Movements: two signed 16-bit numbers, as their residues, high bytes first. */
  lemma MoveLine(dx: i16, dy: i16)
    ensures
      var x, y := if dx < 0 then dx + 0x1_0000 else dx, if dy < 0 then dy + 0x1_0000 else dy;
      PacketOfLine("MOUSE MOVE " + PrintInt(dx) + " " + PrintInt(dy))
        == Some(Packet(0x20, [x / 0x100, x % 0x100, y / 0x100, y % 0x100]))
  {
    hide PacketOfLine, PrintInt, Unsplit;
    FourWords("MOUSE", "MOVE", PrintInt(dx), PrintInt(dy));
    LineIsPrinted(Move(dx, dy), "MOUSE MOVE " + PrintInt(dx) + " " + PrintInt(dy));
  }

  /** Wheel turns: one signed byte, as its residue. */
  lemma WheelLine(delta: i8)
    ensures
      PacketOfLine("MOUSE WHEEL " + PrintInt(delta))
        == Some(Packet(0x24, [if delta < 0 then delta + 0x100 else delta]))
  {
    hide PacketOfLine, PrintInt, Unsplit;
    ThreeWords("MOUSE", "WHEEL", PrintInt(delta));
    LineIsPrinted(Wheel(delta), "MOUSE WHEEL " + PrintInt(delta));
  }

  /** Waits: four bytes, highest first. */
  lemma WaitLine(ms: u32)
    ensures
      PacketOfLine("WAIT " + PrintInt(ms))
        == Some(Packet(0x30, [ms / 0x100_0000, ms / 0x1_0000 % 0x100, ms / 0x100 % 0x100, ms % 0x100]))
  {
    hide PacketOfLine, PrintInt, Unsplit;
    TwoWords("WAIT", PrintInt(ms));
    LineIsPrinted(Wait(ms), "WAIT " + PrintInt(ms));
  }

  lemma StopLine()
    ensures PacketOfLine("STOP") == Some(Packet(0x7F, []))
  {
    hide PacketOfLine;
    LineIsPrinted(Stop, "STOP");
  }

  /** Texts: the codes of the characters as they are, or nothing at all if one is above 127. */
  lemma TypeLine(text: string)
    ensures (forall c :: c in text ==> c as int <= 127) ==>
      var packet := PacketOfLine("TYPE " + Quote(text));
      && packet.Some? && packet.value.command == 0x13 && |packet.value.payload| == |text|
      && forall i :: 0 <= i < |text| ==> packet.value.payload[i] == text[i] as int
    ensures !(forall c :: c in text ==> c as int <= 127) ==> PacketOfLine("TYPE " + Quote(text)) == None
  {
    hide PacketOfLine, Quote;
    assert "TYPE" + ([' '] + Quote(text)) == "TYPE " + Quote(text);
    LineIsPrinted(TypeText(text), "TYPE " + Quote(text));
    assert forall i :: 0 <= i < |text| ==> text[i] in text;
  }

  /** How long each command is waited for, outside the end of a batch, in milliseconds. */
  lemma CommandIsWaitedFor(c: ScriptCommand, base: u32, batch: Option<u64>)
    requires c.TypeText? ==> |c.text| <= 240
    ensures
      var least :=
        match c
        case TypeText(text) => 8 * |text| + 500
        case PressKey(Tap, _) => 508
        case Move(dx, dy) => Reports(dx, dy) + 500
        case Button(Click, _) => 520
        case Wait(ms) => ms + 500
        case _ => 1000;
      ResponseTimeout(base, PacketOf(c), batch) == Min(0xFFFF_FFFF, Max(base, least))
  {
    hide Codes, U32Bytes, I16Pair, ResponseTimeout, Reports;
    DurationOfCommand(c);
    SingleDeadline(base, PacketOf(c), batch);
    KnownOrNot(c);
  }

  lemma KnownOrNot(c: ScriptCommand)
    requires c.TypeText? ==> |c.text| <= 240
    ensures KnownDuration(PacketOf(c)).Some? <==>
      c.TypeText? || c.Move? || c.Wait? || (c.PressKey? && c.keyAction == Tap)
      || (c.Button? && c.buttonAction == Click)
    ensures |PacketOf(c).payload| <= 240 && PacketOf(c).command != 0x41
  {
    hide Reports, U32Of, DxOf, DyOf;
  }

  // ---------------------------------------------------------------------------
  // From a packet to its frame

  /** A command's frame byte by byte: magic, version 2, no flags, number, type, length, payload, checksum. */
  lemma FrameInNumbers(x: Exchange)
    requires Sendable(x.packet)
    ensures
      var p, n, size := x.packet, x.sequence, |x.packet.payload|;
      var covered := [2, 0, n / 0x100, n % 0x100, p.command, size / 0x100, size % 0x100] + p.payload;
      var crc := Checksum.Of(covered);
      WireOf(x) == [0xA5, 0x5A] + covered + [crc / 0x100, crc % 0x100]
  {
    hide Checksum.Of;
    var f := FrameFor(x.packet, x.sequence);
    assert (P.Header(f) + f.payload)[2..] == P.Header(f)[2..] + f.payload;
  }

  /** The frames that no script line stands for: the two batch marks and the heartbeat. */
  lemma MarksInNumbers()
    ensures Plan.BEGIN == Packet(0x40, []) && Plan.END == Packet(0x41, []) && Plan.STOP == Packet(0x7F, [])
    ensures
      var crc := Checksum.Of([2, 1, 0, 0, 0x04, 0, 0]);
      P.Encode(Engine.Heartbeat()) == [0xA5, 0x5A, 2, 1, 0, 0, 0x04, 0, 0, crc / 0x100, crc % 0x100]
  {
    hide Checksum.Of;
    var f := Engine.Heartbeat();
    assert P.Header(f) + f.payload == [0xA5, 0x5A] + [2, 1, 0, 0, 0x04, 0, 0];
    assert (P.Header(f) + f.payload)[2..] == [2, 1, 0, 0, 0x04, 0, 0];
  }

  // ---------------------------------------------------------------------------
  // The checksum of a known message

  /** Eight steps of the machine word for one byte of the message. */
  function Fed(c: bv16, b: byte): bv16 {
    Crc.BitStep(Crc.BitStep(Crc.BitStep(Crc.BitStep(
      Crc.BitStep(Crc.BitStep(Crc.BitStep(Crc.BitStep(c ^ Crc.Load(b)))))))))
  }

  lemma FedIsFeed(c: bv16, b: byte)
    ensures Crc.Register16(Fed(c, b)) == Feed(Crc.Register16(c), Checksum.BitsOf(b))
  {
    hide Crc.BitStep, Crc.Load, Shift, Crc.Register16, Checksum.BitsOf;
    var crc := c ^ Crc.Load(b);
    var loaded := Crc.Register16(crc);
    for bit := 0 to 8
      invariant Crc.Register16(crc) == Shifts(loaded, bit)
      invariant crc == Stepped(c ^ Crc.Load(b), bit)
    {
      Crc.BitStepIsShift(crc);
      Crc.ShiftsSnoc(loaded, bit);
      crc := Crc.BitStep(crc);
    }
    EightSteps(c ^ Crc.Load(b));
    Crc.RegisterOfXor(c, Crc.Load(b));
    Crc.RegisterOfLoad(b);
    FeedIsAddAndShift(Crc.Register16(c), Checksum.BitsOf(b));
  }

  function Stepped(c: bv16, n: nat): bv16 {
    if n == 0 then c else Crc.BitStep(Stepped(c, n - 1))
  }

  lemma EightSteps(c: bv16)
    ensures Stepped(c, 8) ==
      Crc.BitStep(Crc.BitStep(Crc.BitStep(Crc.BitStep(
        Crc.BitStep(Crc.BitStep(Crc.BitStep(Crc.BitStep(c))))))))
  {
    hide Crc.BitStep;
    assert Stepped(c, 1) == Crc.BitStep(c);
    assert Stepped(c, 2) == Crc.BitStep(Stepped(c, 1)) && Stepped(c, 3) == Crc.BitStep(Stepped(c, 2));
    assert Stepped(c, 4) == Crc.BitStep(Stepped(c, 3)) && Stepped(c, 5) == Crc.BitStep(Stepped(c, 4));
    assert Stepped(c, 6) == Crc.BitStep(Stepped(c, 5)) && Stepped(c, 7) == Crc.BitStep(Stepped(c, 6));
  }

  lemma FedOne(data: bytes, b: byte, c: bv16, d: bv16)
    requires Crc.Register16(c) == Checksum.Remainder(data) && d == Fed(c, b)
    ensures Crc.Register16(d) == Checksum.Remainder(data + [b])
  {
    hide Fed, Crc.Register16, Feed, Checksum.BitsOf;
    FedIsFeed(c, b);
    assert (data + [b])[..|data|] == data;
    FeedAppend(Checksum.Start(), Checksum.Bits(data), Checksum.BitsOf(b));
  }

  /** The nine digits "123456789". */
  const DIGITS: bytes := [0x31, 0x32, 0x33, 0x34, 0x35, 0x36, 0x37, 0x38, 0x39]

  lemma FirstFed()
    ensures Fed(0xFFFF, 0x31) == 0xC782 && Fed(0xC782, 0x32) == 0x3DBA && Fed(0x3DBA, 0x33) == 0x5BCE
  {
  }

  lemma NextFed()
    ensures Fed(0x5BCE, 0x34) == 0x5349 && Fed(0x5349, 0x35) == 0x4560 && Fed(0x4560, 0x36) == 0x2EF4
  {
  }

  lemma LastFed()
    ensures Fed(0x2EF4, 0x37) == 0x7718 && Fed(0x7718, 0x38) == 0xA12B && Fed(0xA12B, 0x39) == 0x29B1
  {
  }

  /** The check value of CRC-16/CCITT-FALSE: the nine digits have checksum 0x29B1. */
  lemma CheckValue()
    ensures Checksum.Of(DIGITS) == 0x29B1
  {
    hide Fed, Crc.Register16, Checksum.Remainder, Checksum.Number;
    FirstFed();
    NextFed();
    LastFed();
    Crc.RegisterOfInitial();
    NothingFed();
    assert DIGITS[..1] == DIGITS[..0] + [0x31];
    FedOne(DIGITS[..0], 0x31, 0xFFFF, 0xC782);
    assert DIGITS[..2] == DIGITS[..1] + [0x32];
    FedOne(DIGITS[..1], 0x32, 0xC782, 0x3DBA);
    assert DIGITS[..3] == DIGITS[..2] + [0x33];
    FedOne(DIGITS[..2], 0x33, 0x3DBA, 0x5BCE);
    assert DIGITS[..4] == DIGITS[..3] + [0x34];
    FedOne(DIGITS[..3], 0x34, 0x5BCE, 0x5349);
    assert DIGITS[..5] == DIGITS[..4] + [0x35];
    FedOne(DIGITS[..4], 0x35, 0x5349, 0x4560);
    assert DIGITS[..6] == DIGITS[..5] + [0x36];
    FedOne(DIGITS[..5], 0x36, 0x4560, 0x2EF4);
    assert DIGITS[..7] == DIGITS[..6] + [0x37];
    FedOne(DIGITS[..6], 0x37, 0x2EF4, 0x7718);
    assert DIGITS[..8] == DIGITS[..7] + [0x38];
    FedOne(DIGITS[..7], 0x38, 0x7718, 0xA12B);
    assert DIGITS[..9] == DIGITS[..8] + [0x39];
    FedOne(DIGITS[..8], 0x39, 0xA12B, 0x29B1);
    assert DIGITS[..9] == DIGITS;
    Crc.ValueIsNumber(0x29B1);
  }

  lemma NothingFed()
    ensures Checksum.Remainder([]) == Checksum.Start()
  {
  }
}
