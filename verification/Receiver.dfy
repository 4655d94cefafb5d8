/**
  The incremental receive parser, serial.hpp:536-581. It looks at the front of the buffer and
  either takes a frame, drops one byte, or waits for more. `Head` is that decision and `Scan` the
  pure parse of a whole byte string; the in-place parser refines `Scan`.
*/
module Receiver {
  import opened Words
  import opened Protocol
  import Checksum

  const READ_SIZE := 64

  datatype Verdict = Drop | Wait | Take(length: nat, frame: Frame)
  datatype Parsed = Parsed(response: Option<Frame>, rest: bytes)

  function Head(buffer: bytes): (v: Verdict)
    ensures v.Take? ==> FRAME_OVERHEAD <= v.length <= |buffer| && Decode(buffer[..v.length]) == Ok(v.frame)
    ensures v.Drop? ==> |buffer| >= 2
  {
    if |buffer| < 2 then Wait
    else if buffer[0] != MAGIC0 || buffer[1] != MAGIC1 then Drop
    else if |buffer| < 9 then Wait
    else
      var length := FRAME_OVERHEAD + ReadU16(buffer, 7);
      if length > MAX_FRAME_SIZE then Drop
      else if |buffer| < length then Wait
      else
        match Decode(buffer[..length])
        case Err(_) => Drop
        case Ok(f) => Take(length, f)
  }

  function Scan(buffer: bytes, sequence: u16): Parsed
    decreases |buffer|
  {
    match Head(buffer)
    case Wait => Parsed(None, buffer)
    case Drop => Scan(buffer[1..], sequence)
    case Take(n, f) =>
      if f.sequence == sequence then Parsed(Some(f), buffer[n..]) else Scan(buffer[n..], sequence)
  }

  /** What a session keeps between commands, serial.hpp:364-367. */
  class SessionData {
    var buffer: bytes
    var batchDuration: Option<u64>

    constructor ()
      ensures buffer == [] && batchDuration == None
    {
      buffer := [];
      batchDuration := None;
    }

    /** try_decode_response, serial.hpp:536-581. */
    method TryDecode(sequence: u16) returns (response: Option<Frame>)
      modifies `buffer
      ensures Parsed(response, buffer) == Scan(old(buffer), sequence)
    {
      while |buffer| >= 2
        invariant Scan(buffer, sequence) == Scan(old(buffer), sequence)
        decreases |buffer|
      {
        if buffer[0] != MAGIC0 || buffer[1] != MAGIC1 {
          buffer := buffer[1..];
          continue;
        }
        if |buffer| < 9 {
          return None;
        }
        var payloadLength := ReadU16(buffer, 7);
        if payloadLength > MAX_PAYLOAD_SIZE {
          buffer := buffer[1..];
          continue;
        }
        var frameLength := FRAME_OVERHEAD + payloadLength;
        if |buffer| < frameLength {
          return None;
        }
        var frame := DecodeFrame(buffer[..frameLength]);
        if frame.Err? {
          buffer := buffer[1..];
          continue;
        }
        buffer := buffer[frameLength..];
        if frame.value.sequence != sequence {
          continue;
        }
        return Some(frame.value);
      }
      response := None;
    }
  }

  // ---------------------------------------------------------------------------
  // The three decisions are the right ones

  /** Some continuation of the buffer starts with a frame. */
  ghost predicate Completable(buffer: bytes) {
    exists more: bytes, n: nat :: StartsFrame(buffer + more, n)
  }

  predicate StartsFrame(data: bytes, n: nat) {
    n <= |data| && Accepted(data[..n])
  }

  /** The length a frame must have is fixed by its own bytes. */
  lemma LengthIsFixed(data: bytes, n: nat)
    requires StartsFrame(data, n)
    ensures n >= FRAME_OVERHEAD && data[0] == MAGIC0 && data[1] == MAGIC1
    ensures n == FRAME_OVERHEAD + ReadU16(data, 7) <= MAX_FRAME_SIZE
  {
    var frame := data[..n];
    assert frame[7] == data[7] && frame[8] == data[8];
  }

  /** A frame is taken exactly when the buffer starts with one; there is only one choice of length. */
  lemma TakesExactlyFrames(buffer: bytes, n: nat)
    ensures StartsFrame(buffer, n) <==> Head(buffer).Take? && Head(buffer).length == n
  {
    hide Checksum.Of;
    if StartsFrame(buffer, n) {
      LengthIsFixed(buffer, n);
    }
  }

  /** A decision, once made, stands: more bytes do not change it. */
  lemma HeadOfLonger(buffer: bytes, more: bytes)
    requires !Head(buffer).Wait?
    ensures Head(buffer + more) == Head(buffer)
  {
    hide Decode;
    var v := Head(buffer);
    if |buffer| >= 9 && FRAME_OVERHEAD + ReadU16(buffer, 7) <= |buffer| {
      var length := FRAME_OVERHEAD + ReadU16(buffer, 7);
      assert (buffer + more)[..length] == buffer[..length];
    }
  }

  /** Dropping a byte loses nothing: no continuation would have made it the start of a frame. */
  lemma DropsOnlyTheHopeless(buffer: bytes)
    requires Head(buffer).Drop?
    ensures !Completable(buffer)
  {
    hide Head;
    forall more: bytes, n: nat ensures !StartsFrame(buffer + more, n) {
      HeadOfLonger(buffer, more);
      TakesExactlyFrames(buffer + more, n);
    }
  }

  /** What the bytes of a waiting buffer must satisfy for a frame to be still on its way. */
  predicate MayBeCompleted(buffer: bytes) {
    && (|buffer| == 1 ==> buffer[0] == MAGIC0)
    && (|buffer| == 8 ==> buffer[7] == 0)
    && (|buffer| >= 9 ==>
          var end := 9 + ReadU16(buffer, 7);
          |buffer| == end + 1 ==> buffer[end] == High(Checksum.Of(buffer[2..end])))
  }

  const TEMPLATE: bytes := [MAGIC0, MAGIC1, 0, 0, 0, 0, 0, 0, 0]

  /** A frame of the length its header asks for, filled up with zeros. */
  function Filled(start: bytes): bytes
    requires |start| >= 9
  {
    var end := 9 + ReadU16(start, 7);
    var body := if |start| < end then start + seq(end - |start|, _ => 0) else start[..end];
    var crc := Checksum.Of(body[2..]);
    body + [High(crc), Low(crc)]
  }

  /** The shortest frame that a waiting buffer is the beginning of. */
  function Completed(buffer: bytes): bytes {
    Filled(if |buffer| < 9 then buffer + TEMPLATE[|buffer|..] else buffer)
  }

  /** A header and enough bytes after it make a frame with the right checksum. */
  lemma SealedIsAFrame(body: bytes)
    requires |body| >= 9 && body[0] == MAGIC0 && body[1] == MAGIC1
    requires |body| == 9 + ReadU16(body, 7) && ReadU16(body, 7) <= MAX_PAYLOAD_SIZE
    ensures
      var crc := Checksum.Of(body[2..]);
      Accepted(body + [High(crc), Low(crc)])
  {
    hide Checksum.Of;
    var crc := Checksum.Of(body[2..]);
    var frame := body + [High(crc), Low(crc)];
    assert frame[2..|body|] == body[2..];
    JoinOfHalves(crc);
  }

  lemma FilledIsAFrame(start: bytes)
    requires |start| >= 9 && start[0] == MAGIC0 && start[1] == MAGIC1
    requires ReadU16(start, 7) <= MAX_PAYLOAD_SIZE && |start| <= 9 + ReadU16(start, 7)
    ensures Accepted(Filled(start)) && start <= Filled(start)
  {
    hide Checksum.Of, Decode;
    var end := 9 + ReadU16(start, 7);
    var body := start + seq(end - |start|, _ => 0);
    assert |start| == end ==> start[..end] == start == body;
    assert body[7] == start[7] && body[8] == start[8];
    SealedIsAFrame(body);
  }

  lemma AlmostIsFilled(start: bytes)
    requires Head(start).Wait? && MayBeCompleted(start)
    requires |start| >= 9 && |start| == 10 + ReadU16(start, 7)
    ensures Accepted(Filled(start)) && start <= Filled(start)
  {
    hide Checksum.Of, Decode;
    var end := 9 + ReadU16(start, 7);
    var body := start[..end];
    assert body[2..] == start[2..end];
    assert start == body + [start[end]];
    SealedIsAFrame(body);
  }

  lemma TemplateFits(buffer: bytes)
    requires Head(buffer).Wait? && MayBeCompleted(buffer) && |buffer| < 9
    ensures
      var start := buffer + TEMPLATE[|buffer|..];
      && |start| == 9 && start[0] == MAGIC0 && start[1] == MAGIC1 && ReadU16(start, 7) == 0
      && buffer <= start
  {
    hide Checksum.Of, Decode;
    var start := buffer + TEMPLATE[|buffer|..];
    assert start[8] == 0 && start[7] == 0;
    if |buffer| < 2 {
      assert start[1] == TEMPLATE[1];
    }
  }

  lemma CompletedIsAFrame(buffer: bytes)
    requires Head(buffer).Wait? && MayBeCompleted(buffer)
    ensures Accepted(Completed(buffer)) && buffer <= Completed(buffer)
  {
    hide Checksum.Of, Decode, MayBeCompleted, Filled;
    if |buffer| < 9 {
      TemplateFits(buffer);
      FilledIsAFrame(buffer + TEMPLATE[|buffer|..]);
    } else if |buffer| <= 9 + ReadU16(buffer, 7) {
      FilledIsAFrame(buffer);
    } else {
      AlmostIsFilled(buffer);
    }
  }

  lemma CompletableMay(buffer: bytes, more: bytes, n: nat)
    requires Head(buffer).Wait? && StartsFrame(buffer + more, n)
    ensures MayBeCompleted(buffer)
  {
    hide Checksum.Of;
    LengthIsFixed(buffer + more, n);
    var frame := (buffer + more)[..n];
    assert forall i :: 0 <= i < |buffer| && i < n ==> frame[i] == buffer[i];
    HalvesOfJoin(frame[n - 2], frame[n - 1]);
    if |buffer| == n - 1 {
      assert buffer[2..n - 2] == frame[2..n - 2];
    }
  }

  /** A buffer that waits is the beginning of a frame exactly when its bytes allow it. */
  lemma WaitsExactly(buffer: bytes)
    requires Head(buffer).Wait?
    ensures Completable(buffer) <==> MayBeCompleted(buffer)
  {
    hide Decode;
    if MayBeCompleted(buffer) {
      CompletedIsAFrame(buffer);
      var frame := Completed(buffer);
      var more := frame[|buffer|..];
      assert buffer + more == frame == frame[..|frame|];
      assert StartsFrame(buffer + more, |frame|);
    }
    if Completable(buffer) {
      var more: bytes, n: nat :| StartsFrame(buffer + more, n);
      CompletableMay(buffer, more, n);
    }
  }

  // ---------------------------------------------------------------------------
  // Chunk boundaries do not matter

  /** Parsing what has arrived and then the rest is parsing it all at once. */
  lemma {:induction false} ScanOfLonger(buffer: bytes, more: bytes, sequence: u16)
    ensures
      var p := Scan(buffer, sequence);
      Scan(buffer + more, sequence) ==
        if p.response.Some? then Parsed(p.response, p.rest + more) else Scan(p.rest + more, sequence)
    decreases |buffer|
  {
    hide Head;
    match Head(buffer) {
      case Wait =>
      case Drop =>
        HeadOfLonger(buffer, more);
        assert (buffer + more)[1..] == buffer[1..] + more;
        ScanOfLonger(buffer[1..], more, sequence);
      case Take(n, f) =>
        HeadOfLonger(buffer, more);
        assert (buffer + more)[n..] == buffer[n..] + more;
        if f.sequence != sequence {
          ScanOfLonger(buffer[n..], more, sequence);
        }
    }
  }

  /** What a parse has kept, it need not look at again until there is more. */
  lemma RescanIsIdle(data: bytes, sequence: u16)
    requires Scan(data, sequence).response.None?
    ensures Scan(Scan(data, sequence).rest, sequence) == Scan(data, sequence)
  {
    hide Scan;
    ScanOfLonger(data, [], sequence);
    assert data + [] == data && Scan(data, sequence).rest + [] == Scan(data, sequence).rest;
  }

  // ---------------------------------------------------------------------------
  // What a parse returns, and what it keeps

  predicate IsSuffix(rest: bytes, data: bytes) {
    |rest| <= |data| && data[|data| - |rest|..] == rest
  }

  lemma SuffixOfSuffix(rest: bytes, data: bytes, n: nat)
    requires n <= |data| && IsSuffix(rest, data[n..])
    ensures IsSuffix(rest, data)
  {
    assert data[|data| - |rest|..] == data[n..][|data[n..]| - |rest|..];
  }

  /** The frame (i, n) of the stream is the one a parse answered with, and the rest follows it. */
  ghost predicate CutFrom(data: bytes, i: nat, n: nat, f: Frame, rest: bytes) {
    i + n <= |data| && Decode(data[i..i + n]) == Ok(f) && rest == data[i + n..]
  }

  /**
    A response is a frame that really arrived, with the sequence asked for; without one, what is
    kept is a suffix that waits.
  */
  lemma {:induction false} ScanIsSound(data: bytes, sequence: u16)
    ensures
      var p := Scan(data, sequence);
      && IsSuffix(p.rest, data)
      && (p.response.None? ==> Head(p.rest).Wait?)
      && (p.response.Some? ==>
            && p.response.value.sequence == sequence
            && exists i: nat, n: nat :: CutFrom(data, i, n, p.response.value, p.rest))
    decreases |data|
  {
    hide Decode;
    var p := Scan(data, sequence);
    match Head(data) {
      case Wait =>
      case Drop => LaterCut(data, 1, sequence);
      case Take(n, f) =>
        if f.sequence == sequence {
          assert data[0..0 + n] == data[..n];
          assert CutFrom(data, 0, n, f, p.rest);
        } else {
          LaterCut(data, n, sequence);
        }
    }
  }

  lemma {:induction false} LaterCut(data: bytes, k: nat, sequence: u16)
    requires 0 < k <= |data| && Scan(data, sequence) == Scan(data[k..], sequence)
    ensures
      var p := Scan(data, sequence);
      && IsSuffix(p.rest, data)
      && (p.response.None? ==> Head(p.rest).Wait?)
      && (p.response.Some? ==>
            && p.response.value.sequence == sequence
            && exists i: nat, n: nat :: CutFrom(data, i, n, p.response.value, p.rest))
    decreases |data|, 0
  {
    hide Decode, Head;
    var p := Scan(data, sequence);
    ScanIsSound(data[k..], sequence);
    SuffixOfSuffix(p.rest, data, k);
    if p.response.Some? {
      var i: nat, n: nat :| CutFrom(data[k..], i, n, p.response.value, p.rest);
      assert data[k..][i..i + n] == data[k + i..k + i + n];
      assert CutFrom(data, k + i, n, p.response.value, p.rest);
    }
  }

  lemma WaitIsShort(buffer: bytes)
    requires Head(buffer).Wait?
    ensures |buffer| < MAX_FRAME_SIZE
  {
  }

  /** At most 250 bytes survive a parse that finds nothing; one more read makes at most 314. */
  lemma BufferIsBounded(data: bytes, chunk: bytes, sequence: u16)
    requires Scan(data, sequence).response.None? && |chunk| <= READ_SIZE
    ensures |Scan(data, sequence).rest| <= 250
    ensures |Scan(data, sequence).rest + chunk| <= 314
  {
    hide Head;
    ScanIsSound(data, sequence);
    WaitIsShort(Scan(data, sequence).rest);
  }

  // ---------------------------------------------------------------------------
  // Resynchronisation

  /** Nothing that starts inside the first `n` bytes is a frame. */
  ghost predicate IsGarbage(data: bytes, n: nat) {
    n <= |data| && forall i, k :: 0 <= i < n && 0 <= k ==> !StartsFrame(data[i..], k)
  }

  lemma NotAFrameNotTaken(data: bytes)
    requires forall k: nat :: !StartsFrame(data, k)
    ensures !Head(data).Take?
  {
    if Head(data).Take? {
      TakesExactlyFrames(data, Head(data).length);
    }
  }

  /** With enough behind it, garbage is dropped byte by byte, whatever it looks like. */
  lemma {:induction false} GarbageIsDropped(data: bytes, n: nat, sequence: u16)
    requires IsGarbage(data, n) && |data| - n >= MAX_FRAME_SIZE - 1
    ensures Scan(data, sequence) == Scan(data[n..], sequence)
    decreases n
  {
    hide Decode;
    if n == 0 {
      assert data[0..] == data;
    } else {
      assert data[0..] == data;
      NotAFrameNotTaken(data);
      if Head(data).Wait? {
        WaitIsShort(data);
      }
      forall i, k | 0 <= i < n - 1 && 0 <= k ensures !StartsFrame(data[1..][i..], k) {
        assert data[1..][i..] == data[i + 1..];
      }
      GarbageIsDropped(data[1..], n - 1, sequence);
      assert data[1..][n - 1..] == data[n..];
    }
  }

  lemma FrameIsTaken(f: Frame, tail: bytes)
    requires |f.payload| <= MAX_PAYLOAD_SIZE
    ensures Head(Encode(f) + tail) == Take(|Encode(f)|, f)
  {
    hide Encode, Decode;
    var data := Encode(f) + tail;
    DecodeOfEncode(f);
    assert data[..|Encode(f)|] == Encode(f);
    TakesExactlyFrames(data, |Encode(f)|);
  }

  /**
    After any garbage the parser finds the frame behind it, and leaves exactly what follows it,
    as soon as a frame of the largest size would fit in the bytes after the garbage's first.
  */
  lemma Resynchronises(garbage: bytes, f: Frame, tail: bytes)
    requires |f.payload| <= MAX_PAYLOAD_SIZE
    requires |Encode(f)| + |tail| >= MAX_FRAME_SIZE - 1
    requires IsGarbage(garbage + (Encode(f) + tail), |garbage|)
    ensures Scan(garbage + (Encode(f) + tail), f.sequence) == Parsed(Some(f), tail)
  {
    hide Encode, Decode, Head;
    var data := garbage + (Encode(f) + tail);
    GarbageIsDropped(data, |garbage|, f.sequence);
    assert data[|garbage|..] == Encode(f) + tail;
    FrameIsTaken(f, tail);
  }

  function Concat(frames: seq<Frame>): bytes
    requires forall f :: f in frames ==> |f.payload| <= MAX_PAYLOAD_SIZE
  {
    if frames == [] then [] else Encode(frames[0]) + Concat(frames[1..])
  }

  /** Replies to other commands, however many, leave no trace. */
  lemma {:induction false} OtherRepliesAreDropped(frames: seq<Frame>, tail: bytes, sequence: u16)
    requires forall f :: f in frames ==> |f.payload| <= MAX_PAYLOAD_SIZE && f.sequence != sequence
    ensures Scan(Concat(frames) + tail, sequence) == Scan(tail, sequence)
    decreases |frames|
  {
    hide Encode, Decode, Head;
    if frames == [] {
      assert Concat(frames) + tail == tail;
    } else {
      var data, later := Encode(frames[0]), Concat(frames[1..]) + tail;
      assert Concat(frames) + tail == data + later;
      FrameIsTaken(frames[0], later);
      assert (data + later)[|data|..] == later;
      OtherRepliesAreDropped(frames[1..], tail, sequence);
    }
  }

  // ---------------------------------------------------------------------------
  // A whole command's reading

  /**
    The answers are the first matching replies of the stream, in order and none skipped, and the
    rest is exactly what follows the last of them: untouched, or, if another reply has been sought
    since in vain, what that parse keeps of it.
  */
  ghost predicate Yields(data: bytes, sequence: u16, answers: seq<Frame>, rest: bytes, sought: bool)
    decreases |answers|
  {
    if answers == [] then (if sought then Scan(data, sequence) == Parsed(None, rest) else rest == data)
    else
      var p := Scan(data, sequence);
      p.response == Some(answers[0]) && Yields(p.rest, sequence, answers[1..], rest, sought)
  }

  lemma NothingYieldedYet(data: bytes, sequence: u16)
    ensures Yields(data, sequence, [], data, false)
  {
  }

  /** A parse that goes on where the last one stopped is a parse of everything since the last answer. */
  lemma SoughtWithMore(data: bytes, rest: bytes, more: bytes, sequence: u16, sought: bool)
    requires Yields(data, sequence, [], rest, sought)
    ensures Scan(data + more, sequence) == Scan(rest + more, sequence)
  {
    hide Scan;
    if sought {
      ScanOfLonger(data, more, sequence);
    }
  }

  /** Reading on: either nothing matches yet, or exactly one more answer is yielded. */
  lemma {:induction false} YieldsMore(
    data: bytes, sequence: u16, answers: seq<Frame>, rest: bytes, sought: bool, more: bytes)
    requires Yields(data, sequence, answers, rest, sought)
    ensures
      var p := Scan(rest + more, sequence);
      Yields(data + more, sequence,
             if p.response.Some? then answers + [p.response.value] else answers, p.rest, p.response.None?)
    decreases |answers|
  {
    hide Scan;
    var p := Scan(rest + more, sequence);
    if answers == [] {
      SoughtWithMore(data, rest, more, sequence, sought);
      if p.response.Some? {
        assert [p.response.value][1..] == [];
        NothingYieldedYet(p.rest, sequence);
      }
    } else {
      var first := Scan(data, sequence);
      ScanOfLonger(data, more, sequence);
      YieldsMore(first.rest, sequence, answers[1..], rest, sought, more);
      assert p.response.Some? ==> (answers + [p.response.value])[1..] == answers[1..] + [p.response.value];
    }
  }

  lemma SuffixIsTransitive(a: bytes, b: bytes, c: bytes)
    requires IsSuffix(a, b) && IsSuffix(b, c)
    ensures IsSuffix(a, c)
  {
    SuffixOfSuffix(a, c, |c| - |b|);
  }

  /**
    What a command leaves is a suffix of what it was given; with one answer it is exactly what one
    parse of the whole stream leaves behind that answer.
  */
  lemma {:induction false} YieldsCutsExactly(
    data: bytes, sequence: u16, answers: seq<Frame>, rest: bytes, sought: bool)
    requires Yields(data, sequence, answers, rest, sought)
    ensures IsSuffix(rest, data)
    ensures |answers| == 1 && !sought ==> Scan(data, sequence) == Parsed(Some(answers[0]), rest)
    decreases |answers|
  {
    hide Scan;
    ScanIsSound(data, sequence);
    if answers != [] {
      var next := Scan(data, sequence).rest;
      YieldsCutsExactly(next, sequence, answers[1..], rest, sought);
      SuffixIsTransitive(rest, next, data);
    }
  }

  /** The frame stands at (i, n) of the stream, and at least `left` bytes come after it. */
  predicate StandsAt(data: bytes, i: nat, n: nat, f: Frame, left: nat) {
    i + n + left <= |data| && Decode(data[i..i + n]) == Ok(f)
  }

  /** Every answer is a frame of the stream, in front of everything that is left. */
  lemma {:induction false} LastAnswerStands(
    data: bytes, sequence: u16, answers: seq<Frame>, rest: bytes, sought: bool) returns (i: nat, n: nat)
    requires answers != [] && Yields(data, sequence, answers, rest, sought)
    ensures StandsAt(data, i, n, answers[|answers| - 1], |rest|)
    ensures answers[|answers| - 1].sequence == sequence
    decreases |answers|
  {
    hide Scan, Decode;
    ScanIsSound(data, sequence);
    var p := Scan(data, sequence);
    if |answers| == 1 {
      i, n :| CutFrom(data, i, n, p.response.value, p.rest);
      YieldsCutsExactly(p.rest, sequence, answers[1..], rest, sought);
    } else {
      i, n := LastAnswerStands(p.rest, sequence, answers[1..], rest, sought);
      var k := |data| - |p.rest|;
      assert data[k + i..k + i + n] == data[k..][i..i + n];
      i := k + i;
    }
  }
}
