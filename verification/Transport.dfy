/**
  The world a command runs in: the serial transport, the clock, and the validity of the session.
  It is an adversary with a finite list of answers prepared in advance; each call consumes one.
  When the list is used up the session no longer holds, so every run ends, and every run that does
  end is covered by some list. Every call is put on the trace with its answer.
*/
module Transport {
  import opened Words

  /** Clock ticks in a millisecond. */
  const TICKS := 1_000_000

  datatype Answer = Answer(elapsed: nat, holds: bool, works: bool, data: bytes)

  /** What the command layer does to the outside and how that answers, in order. */
  datatype Event =
    | Checked(holds: bool)
    | Attempt(frame: bytes, works: bool)
    | Listen(timeout: u32)
    | Looked(time: nat)
    | Got(max: nat, wait: nat, chunk: Option<bytes>)
    | Pause(ms: nat)

  /** The bytes that have come in. */
  function Heard(events: seq<Event>): bytes {
    if events == [] then []
    else
      var last := events[|events| - 1];
      Heard(events[..|events| - 1]) + (if last.Got? && last.chunk.Some? then last.chunk.value else [])
  }

  lemma {:induction false} HeardAppend(a: seq<Event>, b: seq<Event>)
    ensures Heard(a + b) == Heard(a) + Heard(b)
  {
    if b == [] {
      assert a + b == a;
    } else {
      assert (a + b)[..|a + b| - 1] == a + b[..|b| - 1];
      HeardAppend(a, b[..|b| - 1]);
    }
  }

  class Link {
    var future: seq<Answer>
    var now: nat
    ghost var trace: seq<Event>

    constructor (future: seq<Answer>)
      ensures this.future == future && trace == []
    {
      this.future := future;
      now := 0;
      trace := [];
    }

    method Next() returns (a: Answer)
      modifies `future, `now
      ensures now >= old(now) && |future| <= |old(future)|
      ensures a.holds ==> |future| < |old(future)|
    {
      if future == [] {
        return Answer(0, false, false, []);
      }
      a := future[0];
      future := future[1..];
      now := now + a.elapsed;
    }

    /** require_session: does the generation still hold? serial.hpp:399-405, 424-426. */
    method SessionHolds() returns (holds: bool)
      modifies `future, `now, `trace
      ensures now >= old(now) && |future| <= |old(future)|
      ensures holds ==> |future| < |old(future)|
      ensures trace == old(trace) + [Checked(holds)]
    {
      var a := Next();
      holds := a.holds;
      trace := trace + [Checked(holds)];
    }

    method Clock() returns (time: nat)
      modifies `future, `now, `trace
      ensures time == now >= old(now) && |future| <= |old(future)|
      ensures trace == old(trace) + [Looked(time)]
    {
      var a := Next();
      time := now;
      trace := trace + [Looked(time)];
    }

    method Write(frame: bytes) returns (works: bool)
      modifies `future, `now, `trace
      ensures now >= old(now) && |future| <= |old(future)|
      ensures trace == old(trace) + [Attempt(frame, works)]
    {
      var a := Next();
      works := a.works;
      trace := trace + [Attempt(frame, works)];
    }

    /** At most `max` bytes, none when the time runs out, or a failure. */
    method Read(max: nat, timeoutMs: u32) returns (chunk: Option<bytes>)
      modifies `future, `now, `trace
      ensures now >= old(now) && |future| <= |old(future)|
      ensures trace == old(trace) + [Got(max, timeoutMs, chunk)] && (chunk.Some? ==> |chunk.value| <= max)
    {
      var a := Next();
      chunk := if !a.works then None else Some(if |a.data| <= max then a.data else a.data[..max]);
      trace := trace + [Got(max, timeoutMs, chunk)];
    }

    method Sleep(ms: nat)
      modifies `future, `now, `trace
      ensures now >= old(now) + ms * TICKS && |future| <= |old(future)|
      ensures trace == old(trace) + [Pause(ms)]
    {
      var a := Next();
      now := now + ms * TICKS;
      trace := trace + [Pause(ms)];
    }

    /** Marks where waiting for a response begins, and for how long. */
    ghost method Begin(timeout: u32)
      modifies `trace
      ensures trace == old(trace) + [Listen(timeout)]
    {
      trace := trace + [Listen(timeout)];
    }
  }
}
