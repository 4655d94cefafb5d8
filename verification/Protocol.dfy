/** The frame format of the bridge and its two directions, protocol.hpp. */
module Protocol {
  import opened Words
  import opened Division
  import Checksum
  import Crc

  const PROTOCOL_VERSION: byte := 2
  const FLAG_NO_RESPONSE: byte := 0x01
  const MAGIC0: byte := 0xA5
  const MAGIC1: byte := 0x5A
  const MAX_PAYLOAD_SIZE := 240
  const FRAME_OVERHEAD := 11
  const MAX_FRAME_SIZE := FRAME_OVERHEAD + MAX_PAYLOAD_SIZE

  /** The wire value of a command or response type. decode_frame accepts any byte here. */
  type Command = byte

  const GET_INFO: Command := 0x02
  const GET_CAPS: Command := 0x03
  const HEARTBEAT: Command := 0x04
  const KEY_DOWN: Command := 0x10
  const KEY_UP: Command := 0x11
  const KEY_TAP: Command := 0x12
  const TYPE_ASCII: Command := 0x13
  const MOUSE_MOVE_REL: Command := 0x20
  const MOUSE_BUTTON_DOWN: Command := 0x21
  const MOUSE_BUTTON_UP: Command := 0x22
  const MOUSE_CLICK: Command := 0x23
  const MOUSE_WHEEL: Command := 0x24
  const WAIT_MS: Command := 0x30
  const BATCH_BEGIN: Command := 0x40
  const BATCH_END: Command := 0x41
  const STOP_ALL: Command := 0x7F
  const ACK: Command := 0x80
  const NACK: Command := 0x81
  const STATUS: Command := 0x82
  const BUSY: Command := 0x83

  datatype Frame = Frame(version: byte, flags: byte, sequence: u16, command: Command, payload: bytes)

  datatype EncodeError = PayloadDoesNotFit
  datatype DecodeError = TooShort | BadMagic | PayloadTooLong | LengthMismatch | BadCrc

  // ---------------------------------------------------------------------------
  // The format

  function ReadU16(data: bytes, offset: nat): u16
    requires offset + 2 <= |data|
  {
    Join(data[offset], data[offset + 1])
  }

  function Header(f: Frame): (h: bytes)
    requires |f.payload| <= MAX_PAYLOAD_SIZE
    ensures |h| == 9
  {
    [MAGIC0, MAGIC1, f.version, f.flags, High(f.sequence), Low(f.sequence), f.command,
     High(|f.payload|), Low(|f.payload|)]
  }

  /** The checksum covers everything after the magic. */
  function Encode(f: Frame): (e: bytes)
    requires |f.payload| <= MAX_PAYLOAD_SIZE
    ensures |e| == FRAME_OVERHEAD + |f.payload|
  {
    var body := Header(f) + f.payload;
    var crc := Checksum.Of(body[2..]);
    body + [High(crc), Low(crc)]
  }

  function Decode(data: bytes): Result<Frame, DecodeError> {
    if |data| < FRAME_OVERHEAD then Err(TooShort)
    else if data[0] != MAGIC0 || data[1] != MAGIC1 then Err(BadMagic)
    else
      var length := ReadU16(data, 7);
      if length > MAX_PAYLOAD_SIZE then Err(PayloadTooLong)
      else if |data| != FRAME_OVERHEAD + length then Err(LengthMismatch)
      else if ReadU16(data, 9 + length) != Checksum.Of(data[2..9 + length]) then Err(BadCrc)
      else Ok(Frame(data[2], data[3], ReadU16(data, 4), data[6], data[9..9 + length]))
  }

  predicate Accepted(data: bytes) {
    Decode(data).Ok?
  }

  // ---------------------------------------------------------------------------
  // The driver's encoder and decoder

  /** protocol.hpp:81-84 */
  method WriteU16(out: array<byte>, offset: nat, value: u16)
    requires offset + 2 <= out.Length
    modifies out
    ensures out[..] == old(out[..])[offset := High(value)][offset + 1 := Low(value)]
  {
    out[offset] := High(value);
    out[offset + 1] := Low(value);
  }

  method WriteHeader(out: array<byte>, f: Frame)
    requires |f.payload| <= MAX_PAYLOAD_SIZE && out.Length == FRAME_OVERHEAD + |f.payload|
    modifies out
    ensures out[..9] == Header(f)
  {
    out[0], out[1], out[2], out[3] := MAGIC0, MAGIC1, f.version, f.flags;
    WriteU16(out, 4, f.sequence);
    out[6] := f.command;
    WriteU16(out, 7, |f.payload|);
  }

  /** encode_frame, protocol.hpp:91-114: fills the frame in place. */
  method EncodeFrame(sequence: u16, command: Command, payload: bytes, flags: byte, version: byte)
    returns (r: Result<bytes, EncodeError>)
    ensures r ==
      if |payload| > MAX_PAYLOAD_SIZE then Err(PayloadDoesNotFit)
      else Ok(Encode(Frame(version, flags, sequence, command, payload)))
  {
    hide Checksum.Of, Header;
    if |payload| > MAX_PAYLOAD_SIZE {
      return Err(PayloadDoesNotFit);
    }
    var n := |payload|;
    var f := Frame(version, flags, sequence, command, payload);
    var out := new byte[FRAME_OVERHEAD + n];
    WriteHeader(out, f);
    for i := 0 to n
      invariant out[..9] == Header(f)
      invariant out[9..9 + i] == payload[..i]
    {
      out[9 + i] := payload[i];
    }
    ghost var body := Header(f) + payload;
    assert out[..9 + n] == body;
    assert out[..][2..9 + n] == body[2..];
    var crc := Crc.Crc16(out[..], 2, 7 + n);
    WriteU16(out, 9 + n, crc);
    assert out[..] == body + [High(crc), Low(crc)];
    r := Ok(out[..]);
  }

  /** decode_frame, protocol.hpp:117-147. */
  method DecodeFrame(data: bytes) returns (r: Result<Frame, DecodeError>)
    ensures r == Decode(data)
  {
    hide Checksum.Of;
    if |data| < FRAME_OVERHEAD {
      return Err(TooShort);
    }
    if data[0] != MAGIC0 || data[1] != MAGIC1 {
      return Err(BadMagic);
    }
    var length := ReadU16(data, 7);
    if length > MAX_PAYLOAD_SIZE {
      return Err(PayloadTooLong);
    }
    if |data| != FRAME_OVERHEAD + length {
      return Err(LengthMismatch);
    }
    var expected := ReadU16(data, 9 + length);
    var actual := Crc.Crc16(data, 2, 7 + length);
    if expected != actual {
      return Err(BadCrc);
    }
    r := Ok(Frame(data[2], data[3], ReadU16(data, 4), data[6], data[9..9 + length]));
  }

  // ---------------------------------------------------------------------------
  // Encoding and decoding undo each other

  /** Every frame survives the wire. */
  lemma DecodeOfEncode(f: Frame)
    requires |f.payload| <= MAX_PAYLOAD_SIZE
    ensures Decode(Encode(f)) == Ok(f)
  {
    hide Checksum.Of;
    var e, n, body := Encode(f), |f.payload|, Header(f) + f.payload;
    assert e[2..9 + n] == body[2..];
    assert e[9..9 + n] == f.payload;
    assert e[..9] == Header(f);
    JoinOfHalves(n);
    JoinOfHalves(f.sequence);
    JoinOfHalves(Checksum.Of(body[2..]));
  }

  /** Whatever is accepted is, byte for byte, the encoding of what it decodes to. */
  lemma EncodeOfDecode(data: bytes)
    requires Accepted(data)
    ensures |Decode(data).value.payload| <= MAX_PAYLOAD_SIZE
    ensures Encode(Decode(data).value) == data
  {
    hide Checksum.Of;
    var f := Decode(data).value;
    var n := |f.payload|;
    HalvesOfJoin(data[4], data[5]);
    HalvesOfJoin(data[7], data[8]);
    HalvesOfJoin(data[9 + n], data[10 + n]);
    var body := Header(f) + f.payload;
    assert data[..9] == Header(f);
    assert data[..9 + n] == data[..9] + data[9..9 + n] == body;
    assert body[2..] == data[2..9 + n];
    assert data == data[..9 + n] + [data[9 + n], data[10 + n]];
  }

  // ---------------------------------------------------------------------------
  // Damage in transit

  lemma AcceptedChecks(data: bytes)
    requires Accepted(data)
    ensures data[0] == MAGIC0 && data[1] == MAGIC1 && Checksum.Of(data[2..]) == 0
  {
    hide Checksum.Of;
    var n := |Decode(data).value.payload|;
    var body, hi, lo := data[2..9 + n], data[9 + n], data[10 + n];
    assert data[2..] == body + [hi, lo];
    Checksum.OfItsOwn(body, hi, lo);
  }

  /** The bit positions in which two byte strings of one length differ. */
  function Flips(x: bytes, y: bytes): (e: bits)
    requires |x| == |y|
    ensures |e| == 8 * |x|
  {
    Xor(Checksum.Bits(x), Checksum.Bits(y))
  }

  lemma FlipsAfterMagic(x: bytes, y: bytes)
    requires |x| == |y| && Accepted(x) && Accepted(y)
    ensures Flips(x, y) == Zeros(16) + Flips(x[2..], y[2..])
  {
    hide Checksum.Bits, Checksum.Of;
    AcceptedChecks(x);
    AcceptedChecks(y);
    assert x == x[..2] + x[2..] && y == y[..2] + y[2..];
    Checksum.BitsAppend(x[..2], x[2..]);
    Checksum.BitsAppend(y[..2], y[2..]);
    assert x[..2] == [MAGIC0, MAGIC1] == y[..2];
  }

  lemma BurstAfterZeros(n: nat, e: bits)
    requires IsBurst(Zeros(n) + e)
    ensures IsBurst(e)
  {
    var k: nat :| IsBurstAt(Zeros(n) + e, k);
    assert k >= n && e[k - n];
    forall i | 0 <= i < |e| && e[i] ensures k - n <= i < k - n + 16 {
      assert (Zeros(n) + e)[i + n];
    }
    assert IsBurstAt(e, k - n);
  }

  /** Damage confined to sixteen adjacent bits, at any bit offset, never yields a frame. */
  lemma BurstIsRejected(x: bytes, y: bytes)
    requires Accepted(x) && |y| == |x| && IsBurst(Flips(x, y))
    ensures !Accepted(y)
  {
    hide Checksum.Of, Checksum.Bits, Decode;
    if Accepted(y) {
      FlipsAfterMagic(x, y);
      AcceptedChecks(x);
      AcceptedChecks(y);
      BurstAfterZeros(16, Flips(x[2..], y[2..]));
      Checksum.BurstIsDetected(x[2..], y[2..]);
    }
  }

  /** Flipping an odd number of bits, anywhere, never yields a frame. */
  lemma OddIsRejected(x: bytes, y: bytes)
    requires Accepted(x) && |y| == |x| && Ones(Flips(x, y)) % 2 == 1
    ensures !Accepted(y)
  {
    hide Checksum.Of, Checksum.Bits, Decode;
    if Accepted(y) {
      FlipsAfterMagic(x, y);
      AcceptedChecks(x);
      AcceptedChecks(y);
      OnesAfterZeros(16, Flips(x[2..], y[2..]));
      Checksum.OddIsDetected(x[2..], y[2..]);
    }
  }

  lemma {:induction false} OnesAfterZeros(n: nat, e: bits)
    ensures Ones(Zeros(n) + e) == Ones(e)
  {
    if n == 0 {
      assert Zeros(0) + e == e;
    } else {
      assert (Zeros(n) + e)[1..] == Zeros(n - 1) + e;
      OnesAfterZeros(n - 1, e);
    }
  }

  lemma FlipsOfParts(x: bytes, y: bytes, i: nat)
    requires |x| == |y| && i <= |x|
    ensures Flips(x, y) == Flips(x[..i], y[..i]) + Flips(x[i..], y[i..])
  {
    hide Checksum.Bits;
    assert x == x[..i] + x[i..] && y == y[..i] + y[i..];
    Checksum.BitsAppend(x[..i], x[i..]);
    Checksum.BitsAppend(y[..i], y[i..]);
  }

  lemma NoFlips(x: bytes)
    ensures Flips(x, x) == Zeros(8 * |x|)
  {
    hide Checksum.Bits;
  }

  lemma SomeFlips(x: bytes, y: bytes)
    requires |x| == |y| && x != y
    ensures exists j :: 0 <= j < |Flips(x, y)| && Flips(x, y)[j]
  {
    hide Checksum.Bits;
    var e := Flips(x, y);
    if forall j :: 0 <= j < |e| ==> !e[j] {
      assert Checksum.Bits(x) == Checksum.Bits(y);
      Checksum.BitsDetermine(x, y);
    }
  }

  /** Damage within two neighbouring bytes is a burst, so it is always noticed. */
  lemma TwoBytesAreABurst(x: bytes, y: bytes, i: nat)
    requires |x| == |y| && x != y && i + 1 < |x|
    requires forall j :: 0 <= j < |x| && x[j] != y[j] ==> i <= j <= i + 1
    ensures IsBurst(Flips(x, y))
  {
    hide Flips, IsBurst;
    var x', y' := x[i..], y[i..];
    assert x[..i] == y[..i] && x'[2..] == y'[2..] by {
      assert forall j :: 0 <= j < |x| && !(i <= j <= i + 1) ==> x[j] == y[j];
    }
    FlipsOfParts(x, y, i);
    NoFlips(x[..i]);
    FlipsOfParts(x', y', 2);
    NoFlips(x'[2..]);
    SomeFlips(x, y);
    BurstWithin(Flips(x, y), 8 * i);
  }
}
