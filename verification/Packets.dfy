/** Commands as packets: type and payload. protocol.hpp:149-186, keys.hpp:94-96, script.hpp:188-222. */
module Packets {
  import opened Words
  import opened Script
  import P = Protocol

  datatype Packet = Packet(command: P.Command, payload: bytes)
  datatype PacketError = NotAscii

  function ExpectedResponse(command: P.Command): P.Command {
    if command == P.GET_INFO || command == P.GET_CAPS then P.STATUS else P.ACK
  }

  // ---------------------------------------------------------------------------
  // Payloads

  predicate IsAscii(text: string) {
    forall c :: c in text ==> c as int <= 0x7F
  }

  /** The low eight bits of each character: a C++ char is one byte. */
  function Codes(text: string): (codes: bytes)
    ensures |codes| == |text| && forall i :: 0 <= i < |text| ==> codes[i] == text[i] as int % 0x100
  {
    seq(|text|, i requires 0 <= i < |text| => text[i] as int % 0x100)
  }

  /** ascii_payload, protocol.hpp:156-166: the text's own codes, or an error, but never a wrong byte. */
  method AsciiPayload(text: string) returns (r: Result<bytes, PacketError>)
    ensures r == if IsAscii(text) then Ok(Codes(text)) else Err(NotAscii)
    ensures r.Ok? ==> |r.value| == |text| && forall i :: 0 <= i < |text| ==> r.value[i] == text[i] as int
  {
    var out: bytes := [];
    for i := 0 to |text|
      invariant IsAscii(text[..i])
      invariant |out| == i && forall k :: 0 <= k < i ==> out[k] == text[k] as int
    {
      assert text[i] in text;
      if text[i] as int > 0x7F {
        return Err(NotAscii);
      }
      assert text[..i + 1] == text[..i] + [text[i]];
      out := out + [text[i] as int];
    }
    assert text[..|text|] == text;
    assert out == Codes(text);
    r := Ok(out);
  }

  function I16Pair(dx: i16, dy: i16): (data: bytes)
    ensures |data| == 4
  {
    var ux, uy := Unsigned(dx), Unsigned(dy);
    [High(ux), Low(ux), High(uy), Low(uy)]
  }

  function U32Bytes(v: u32): (data: bytes)
    ensures |data| == 4
  {
    [v / 0x100_0000 % 0x100, v / 0x1_0000 % 0x100, v / 0x100 % 0x100, v % 0x100]
  }

  function U32Of(data: bytes): u32
    requires |data| == 4
  {
    var a: int, b: int, c: int, d: int := data[0], data[1], data[2], data[3];
    a * 0x100_0000 + b * 0x1_0000 + c * 0x100 + d
  }

  function DxOf(data: bytes): i16
    requires |data| == 4
  {
    Signed(Join(data[0], data[1]))
  }

  function DyOf(data: bytes): i16
    requires |data| == 4
  {
    Signed(Join(data[2], data[3]))
  }

  lemma U32RoundTrip(v: u32)
    ensures U32Of(U32Bytes(v)) == v
  {
    var w, x := v / 0x100, v / 0x1_0000;
    assert w / 0x100 == x && x / 0x100 == v / 0x100_0000;
    assert v == w * 0x100 + v % 0x100 && w == x * 0x100 + w % 0x100;
    assert x == x / 0x100 * 0x100 + x % 0x100;
  }

  /** Both coordinates survive, negative ones and -32768 included. */
  lemma I16RoundTrip(dx: i16, dy: i16)
    ensures DxOf(I16Pair(dx, dy)) == dx && DyOf(I16Pair(dx, dy)) == dy
  {
    JoinOfHalves(Unsigned(dx));
    JoinOfHalves(Unsigned(dy));
  }

  // ---------------------------------------------------------------------------
  // Script commands as packets

  function KeyCommandType(action: KeyAction): P.Command {
    match action
    case Tap => P.KEY_TAP
    case Press => P.KEY_DOWN
    case Release => P.KEY_UP
  }

  function ButtonCommandType(action: ButtonAction): P.Command {
    match action
    case Click => P.MOUSE_CLICK
    case Hold => P.MOUSE_BUTTON_DOWN
    case LetGo => P.MOUSE_BUTTON_UP
  }

  /** static_cast<uint8_t> of a signed char. */
  function ByteOf(v: i8): byte {
    if v < 0 then v + 0x100 else v
  }

  function PacketOf(c: ScriptCommand): Packet {
    match c
    case TypeText(text) => Packet(P.TYPE_ASCII, Codes(text))
    case PressKey(action, combo) => Packet(KeyCommandType(action), [combo.modifier, combo.keycode])
    case Move(dx, dy) => Packet(P.MOUSE_MOVE_REL, I16Pair(dx, dy))
    case Button(action, button) => Packet(ButtonCommandType(action), [button])
    case Wheel(delta) => Packet(P.MOUSE_WHEEL, [ByteOf(delta)])
    case Wait(ms) => Packet(P.WAIT_MS, U32Bytes(ms))
    case Stop => Packet(P.STOP_ALL, [])
  }

  function ToPacket(c: ScriptCommand): Result<Packet, PacketError> {
    if c.TypeText? && !IsAscii(c.text) then Err(NotAscii) else Ok(PacketOf(c))
  }

  /** script_command_to_packet, script.hpp:188-222. */
  method ScriptCommandToPacket(c: ScriptCommand) returns (r: Result<Packet, PacketError>)
    ensures r == ToPacket(c)
  {
    if c.TypeText? {
      var payload := AsciiPayload(c.text);
      return if payload.Ok? then Ok(Packet(P.TYPE_ASCII, payload.value)) else Err(payload.error);
    }
    r := Ok(PacketOf(c));
  }

  lemma SameTypeSameKind(a: ScriptCommand, b: ScriptCommand)
    requires PacketOf(a).command == PacketOf(b).command
    ensures a.TypeText? == b.TypeText? && a.Move? == b.Move? && a.Wait? == b.Wait? && a.Wheel? == b.Wheel?
    ensures a.PressKey? == b.PressKey? && a.Button? == b.Button? && a.Stop? == b.Stop?
    ensures a.PressKey? ==> a.keyAction == b.keyAction
    ensures a.Button? ==> a.buttonAction == b.buttonAction
  {
    hide I16Pair, U32Bytes, Codes, ByteOf;
  }

  lemma CodesTellApart(a: string, b: string)
    requires IsAscii(a) && IsAscii(b) && Codes(a) == Codes(b)
    ensures a == b
  {
    forall i | 0 <= i < |a| ensures a[i] == b[i] {
      assert a[i] in a && b[i] in b && Codes(a)[i] == Codes(b)[i];
    }
  }

  lemma SameHeadSameRest(a: bytes, b: bytes)
    requires a == b
    ensures |a| == |b| && forall i :: 0 <= i < |a| ==> a[i] == b[i]
  {
  }

  /** Only equal commands give equal packets. */
  lemma PacketsTellCommandsApart(a: ScriptCommand, b: ScriptCommand)
    requires PacketOf(a) == PacketOf(b)
    requires a.TypeText? ==> IsAscii(a.text)
    requires b.TypeText? ==> IsAscii(b.text)
    ensures a == b
  {
    hide I16Pair, U32Bytes, Codes, IsAscii, KeyCommandType, ButtonCommandType;
    SameTypeSameKind(a, b);
    SameHeadSameRest(PacketOf(a).payload, PacketOf(b).payload);
    match a
    case TypeText(text) => CodesTellApart(text, b.text);
    case Move(dx, dy) =>
      I16RoundTrip(dx, dy);
      I16RoundTrip(b.dx, b.dy);
    case Wait(ms) =>
      U32RoundTrip(ms);
      U32RoundTrip(b.ms);
    case _ =>
  }
}
