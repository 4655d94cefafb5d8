# Verified model of the RP2350 HID bridge driver

The driver sends keyboard and mouse commands to an RP2350 board over a serial port. This project
models its logic in Dafny 4.11 and proves what it keeps, for every input, every transport behaviour
and every interleaving of its threads. `dafny verify dfyconfig.toml` checks all of it.

The model has four layers.

* **Session lifecycle** (`Lifecycle*.dfy`). `HidBridgeCore` as a step machine: any number of client
  threads run commands, scripts, `open` and `close` beside the heartbeat worker; every lock,
  critical section and transport call is a step of its own. `LifecycleTrace` is a monitor for the
  calls made on the transport, which knows nothing of locks or threads, `LifecyclePromises` and
  `LifecycleDtr` say what it promises; `LifecycleSafety` proves
  that every run is accepted by it, `LifecycleProgress` that no run gets stuck, and
  `LifecycleTermination` that a close comes to an end. Where the monitor says what may come next,
  `LifecycleOpening`, `LifecycleClosing`, `LifecycleCommands` and `LifecycleHeartbeat`, on the ground of
  `LifecycleEffects`, say what does come: the events each operation brings about, whoever runs beside it,
  and the state it leaves.
* **Wire format** (`Words`, `Division`, `Checksum`, `Crc`, `Protocol`, `TwoBits`, `Receiver`). The
  checksum loop on machine words is proved to be polynomial division over GF(2), from which error
  detection follows for frames of every length: bursts of sixteen bits, odd numbers of bits, and two
  bits wherever they are, so that frames of one length differ in at least four bits. The receive parser
  works in place on its buffer and refines a pure scan of the byte stream.
* **Script language** (`Text`, `Keys`, `Tokens`, `Script`, `Packets`, `Wire`). The tokenizer, the key table, the
  integers and the parser, with a printer that the parser undoes and the exact spellings of every command;
  and `Wire`, which follows each kind of line to its packet and its frame in numbers.
* **Command engine** (`Sequences`, `Deadlines`, `Plan`, `Transport`, `Exchanges`, `Transcript`, `Engine`)
  and **handles** (`Handles`). One thread of commands and scripts against an adversary that decides
  every chunk, failure, delay and end of session; and the reference-counted handle above it.

Concurrency is modelled as a state machine over values, because its steps interleave; everything
else that the driver does in place is a method on an array, or on an object whose fields it updates.
The two views of a command meet in the check of the generation: the step machine proves when it can
fail and that it stays failed, the engine lets it fail at any moment.

One statement of the repository's documents does not hold of its code, and the code is followed:
INTEGRATION.md:337 says that script arguments are parsed before anything is sent. Text that is not
ASCII, or longer than one frame, is found only after its batch has begun; a single accented letter
shows it (`Plan.AccentIsUntypable`, `Plan.UntypableTextIsParsed`). The exact condition is that every
text of the script can be typed: unless the session, the transport or the device has ended its last command,
a script that parses is done if and only if that holds, and is otherwise refused inside a begun batch
(`Engine.HidBridgeCore.RunScript`). Such an ending is never a mere label: the trace of the link shows the check,
write or read that failed, the wait that ran out or the frame that refused (`Engine.FailureHasCause`). The refusals "combo has no key", "command failed" and "previous
heartbeat worker is still stopping" can never be raised (`Keys.NoKeyIsUnreachable`,
`Engine.HidBridgeCore.SendCommand`, `LifecycleSafety.WorkerIsAlwaysJoined`).

## Model

| member | source | states |
|---|---|---|
| `LifecycleSafety.StepKeepsInv` | include/rp2350_hid_bridge/serial.hpp:213-304 | every step of every thread keeps the locking, bookkeeping and monitor invariant |
| `LifecycleSafety.EveryRunIsAccepted` | include/rp2350_hid_bridge/serial.hpp:213-502 | with any number of threads and any schedule, the calls made on the transport are accepted by the monitor |
| `LifecycleSafety.FramesStayInTheirSession` | include/rp2350_hid_bridge/serial.hpp:498-502 | a frame built for generation g is written only on the port opened and published as g, with nothing of that session taken down yet |
| `LifecycleSafety.SessionsEndInOrder` | include/rp2350_hid_bridge/serial.hpp:224-304 | DTR raised once after the opening; then one attempted StopAll, nothing written after it, DTR lowered once and the port closed, in this order, the last two only with no command, read, write or worker left |
| `LifecycleSafety.ScriptsAreIsolated` | include/rp2350_hid_bridge/serial.hpp:337-361 | between two frames of one hold of the command lock, a whole script say, there are only heartbeats of the same session |
| `LifecycleSafety.OneCommandAtATime` | include/rp2350_hid_bridge/serial.hpp:407-434 | at most one command is active, its thread holds the command lock, and the count does not underflow |
| `LifecycleSafety.WorkerIsAlwaysJoined` | include/rp2350_hid_bridge/serial.hpp:221-223 | an open that finds the core neither open nor closing never finds a heartbeat worker |
| `LifecycleSafety.StaleStaysStale` | include/rp2350_hid_bridge/serial.hpp:394-426 | a generation that is not current, closed or captured while closed, is never current again |
| `LifecyclePromises.FrameOnItsOwnPort` | include/rp2350_hid_bridge/serial.hpp:225-236 | in an accepted trace the last opening and publication before a frame are those of its own generation |
| `LifecyclePromises.NoFrameReachesALaterPort` | include/rp2350_hid_bridge/serial.hpp:498-502 | no frame built for an earlier generation follows the publication of a later one |
| `LifecyclePromises.NothingAfterShutdown` | include/rp2350_hid_bridge/serial.hpp:275-299 | after the StopAll of a close nothing is written until the port is opened again |
| `LifecyclePromises.CloseComesLast` | include/rp2350_hid_bridge/serial.hpp:283-299 | at the closing of a port exactly one StopAll was attempted since the session came up, and all is quiet |
| `LifecycleDtr.DtrFramesTheSession` | include/rp2350_hid_bridge/serial.hpp:224-299 | in an accepted trace DTR is raised exactly once before the worker starts and lowered exactly once before the port closes, after the StopAll attempt, when all is quiet |
| `LifecyclePromises.TenureIsIsolated` | include/rp2350_hid_bridge/serial.hpp:337-361 | in an accepted trace, frames of one hold of the command lock share it with heartbeats only |
| `LifecyclePromises.WritesDoNotOverlap` | include/rp2350_hid_bridge/serial.hpp:498-502 | a write ends before the next one starts |
| `LifecycleProgress.LocksAreOrdered` | include/rp2350_hid_bridge/serial.hpp:711-724 | locks are taken in the order command, write, sequence, state, heartbeat; only the command lock is taken again by its holder |
| `LifecycleProgress.WorkerKeepsTheOrder` | include/rp2350_hid_bridge/serial.hpp:692-706 | the heartbeat worker keeps to the same order: it waits for the state lock while it holds the write lock |
| `LifecycleProgress.WorkerLocksAreItsOwn` | include/rp2350_hid_bridge/serial.hpp:692-706 | the worker owns exactly those locks, and if it cannot step it waits for one of them or to be woken |
| `LifecycleProgress.WhyBlocked` | include/rp2350_hid_bridge/serial.hpp:256-304 | a thread that cannot step waits for a lock of another, for the worker's exit, or to be woken |
| `LifecycleProgress.StepKeepsAlive` | include/rp2350_hid_bridge/serial.hpp:268-290 | no wake-up of either condition variable is ever lost |
| `LifecycleProgress.NoRunGetsStuck` | include/rp2350_hid_bridge/serial.hpp:213-304 | after every run with an unfinished operation some thread can make a productive step, also while a close joins and drains |
| `LifecycleTermination.ProductiveSpends` | include/rp2350_hid_bridge/serial.hpp:256-304 | while a close is under way every productive step of any thread uses up a measure |
| `LifecycleTermination.CloseIsBounded` | include/rp2350_hid_bridge/serial.hpp:256-304 | a run during which a close stays unfinished is no longer than the measure, plus eleven steps for each new operation, timer tick or spurious wake-up |
| `LifecycleOpening.OpenHasItsEffect` | include/rp2350_hid_bridge/serial.hpp:213-253 | an open that finds the core neither open nor closing opens the transport, raises DTR, publishes the next generation and starts its worker, in this order and nothing else, and leaves the core open; if one of the three calls fails it does exactly the matching way back and leaves the core closed; on any other core it does nothing |
| `LifecycleClosing.CloseHasItsEffect` | include/rp2350_hid_bridge/serial.hpp:256-304 | a close of an open core cancels the reader, attempts one StopAll of the old generation, lowers DTR and closes the transport, in this order and nothing else, and leaves the core closed under a new generation with no command active and no worker; on any other core it does nothing |
| `LifecycleCommands.CallsHaveTheirEffect` | include/rp2350_hid_bridge/serial.hpp:428-472 | a command or script says whole commands only, of the generation it captured and under one tenure of the command lock, and nothing without a session; if the session lasts, a command is said, and a script says as many as it asks for and one more to clean up after a failure; if nothing is thrown, each has its frame, another for each further attempt, and the reads asked for |
| `LifecycleCommands.ChecksComeFirst` | include/rp2350_hid_bridge/serial.hpp:399-405 | a frame is written, a response looked for and an answer given only right after a check that found the session current |
| `LifecycleHeartbeat.IntervalBringsOneBeat` | include/rp2350_hid_bridge/serial.hpp:692-706 | each time its interval passes the worker writes exactly one heartbeat of its generation if its session lasts, and sleeps again; otherwise one or none, and if it ends its exit comes last |
| `LifecycleHeartbeat.OnlyACloseStops` | include/rp2350_hid_bridge/serial.hpp:237-271 | in every run the worker of an open core is told to stop by a close only |
| `Division.FeedLinear` | include/rp2350_hid_bridge/protocol.hpp:70-77 | the checksum register is linear in its contents and its input |
| `Division.ZeroAfter` | include/rp2350_hid_bridge/protocol.hpp:70-77 | at most sixteen bits bring the register to zero exactly when they are its own contents |
| `Division.BurstShows` | include/rp2350_hid_bridge/protocol.hpp:70-77 | an error pattern within sixteen bits, at any offset, leaves the register non-zero |
| `Division.FeedParity` | include/rp2350_hid_bridge/protocol.hpp:70-77 | the register keeps the parity of the bits fed |
| `Division.OddShows` | include/rp2350_hid_bridge/protocol.hpp:70-77 | an error pattern with an odd number of bits leaves the register non-zero |
| `Division.IsRemainder` | include/rp2350_hid_bridge/protocol.hpp:70-77 | the register holds the remainder: for some quotient q, e x^16 = q G + r |
| `Checksum.IsTheRemainder` | include/rp2350_hid_bridge/protocol.hpp:65-79 | the checksum's two bytes are the remainder of the message, its first sixteen bits complemented, divided by x^16 + x^12 + x^5 + 1 |
| `Checksum.OfItsOwn` | include/rp2350_hid_bridge/protocol.hpp:111-112 | two more bytes bring the checksum to zero exactly when they are the checksum, high byte first |
| `Checksum.BurstIsDetected` | include/rp2350_hid_bridge/protocol.hpp:65-79 | changing bits within any sixteen adjacent ones of a checked message is seen |
| `Checksum.OddIsDetected` | include/rp2350_hid_bridge/protocol.hpp:65-79 | flipping an odd number of bits of a checked message is seen |
| `Crc.FeedByte` | include/rp2350_hid_bridge/protocol.hpp:71-76 | eight shifts of the machine word feed one byte to the division register |
| `Crc.Crc16` | include/rp2350_hid_bridge/protocol.hpp:65-79 | the double loop computes the checksum of the covered bytes |
| `Crc.BitStepIsShift` | include/rp2350_hid_bridge/protocol.hpp:73-75 | one conditional shift and xor of the word is one step of the division |
| `Crc.ValueIsNumber` | include/rp2350_hid_bridge/protocol.hpp:78-84 | the word's value is the number its register spells |
| `Wire.CheckValue` | include/rp2350_hid_bridge/protocol.hpp:65-79 | the nine digits "123456789" have checksum 0x29B1, the check value of CRC-16/CCITT-FALSE |
| `Protocol.WriteU16` | include/rp2350_hid_bridge/protocol.hpp:81-84 | writes both bytes, high first, in place, and nothing else |
| `Protocol.EncodeFrame` | include/rp2350_hid_bridge/protocol.hpp:91-114 | fills the frame in place, or refuses a payload over 240 bytes |
| `Protocol.DecodeFrame` | include/rp2350_hid_bridge/protocol.hpp:117-147 | the five checks in their order, then the fields |
| `Protocol.DecodeOfEncode` | include/rp2350_hid_bridge/protocol.hpp:91-147 | every frame is decoded to itself |
| `Protocol.EncodeOfDecode` | include/rp2350_hid_bridge/protocol.hpp:91-147 | everything accepted is, byte for byte, the encoding of what it decodes to, with at most 240 bytes of payload |
| `Wire.FrameInNumbers` | include/rp2350_hid_bridge/protocol.hpp:91-114 | a command's frame byte by byte: A5 5A, version 2, no flags, number, type, length, payload, checksum of all but the magic, high bytes first |
| `Wire.MarksInNumbers` | include/rp2350_hid_bridge/protocol.hpp:22-46 | the batch marks are types 0x40 and 0x41, stop is 0x7F, and the heartbeat is type 0x04 with number 0 and the flag for no response |
| `Protocol.AcceptedChecks` | include/rp2350_hid_bridge/protocol.hpp:121-138 | an accepted frame has the magic, and its checked part has checksum zero |
| `Protocol.BurstIsRejected` | include/rp2350_hid_bridge/protocol.hpp:117-147 | a frame changed within sixteen adjacent bits, magic and length included, is rejected |
| `Protocol.TwoBytesAreABurst` | include/rp2350_hid_bridge/protocol.hpp:117-147 | any change within two neighbouring bytes is such a change |
| `Protocol.OddIsRejected` | include/rp2350_hid_bridge/protocol.hpp:117-147 | a frame with an odd number of flipped bits is rejected |
| `TwoBits.Walk` | include/rp2350_hid_bridge/protocol.hpp:73-75 | 2048 shifts of the generator do not come round to its own leading term |
| `TwoBits.PairShows` | include/rp2350_hid_bridge/protocol.hpp:70-77 | two set bits at most 2048 apart leave the register non-zero |
| `TwoBits.PairIsRejected` | include/rp2350_hid_bridge/protocol.hpp:117-147 | a frame with any two bits flipped, of whatever length, is rejected |
| `TwoBits.FramesAreFourApart` | include/rp2350_hid_bridge/protocol.hpp:65-147 | two different frames of one length differ in at least four bits |
| `Receiver.SessionData.TryDecode` | include/rp2350_hid_bridge/serial.hpp:536-581 | the loop that erases from the buffer computes the scan of what the buffer held, and terminates |
| `Receiver.TakesExactlyFrames` | include/rp2350_hid_bridge/serial.hpp:547-568 | a frame is taken exactly when the buffer starts with one, and its length is the only possible one |
| `Receiver.DropsOnlyTheHopeless` | include/rp2350_hid_bridge/serial.hpp:540-565 | a byte is dropped only if no continuation could have made it the start of a frame |
| `Receiver.WaitsExactly` | include/rp2350_hid_bridge/serial.hpp:539-555 | a waiting buffer is the beginning of some frame if and only if its magic, length and first checksum byte allow it |
| `Receiver.HeadOfLonger` | include/rp2350_hid_bridge/serial.hpp:539-571 | a decision, once made, is not changed by more bytes |
| `Receiver.ScanOfLonger` | include/rp2350_hid_bridge/serial.hpp:504-581 | parsing what has arrived and then the rest is parsing all at once, wherever the stream is cut |
| `Receiver.ScanIsSound` | include/rp2350_hid_bridge/serial.hpp:562-578 | a response is a frame that really arrived with the sequence asked for, what is kept is the suffix after it, and without a response it waits |
| `Receiver.BufferIsBounded` | include/rp2350_hid_bridge/serial.hpp:525-555 | at most 250 bytes survive a parse that finds nothing, and at most 314 are held after one more read |
| `Receiver.Resynchronises` | include/rp2350_hid_bridge/serial.hpp:540-571 | after any garbage in which no frame starts, the frame behind it is returned and exactly its tail is left, once a largest frame would fit after the garbage's first byte |
| `Receiver.GarbageIsDropped` | include/rp2350_hid_bridge/serial.hpp:540-565 | such garbage is dropped whole, whatever false starts it holds |
| `Receiver.OtherRepliesAreDropped` | include/rp2350_hid_bridge/serial.hpp:566-571 | any list of frames with other sequence numbers is dropped whole |
| `Receiver.YieldsMore` | include/rp2350_hid_bridge/serial.hpp:504-534 | reading on yields the next matching reply of the stream, none skipped, and leaves exactly what follows it, or none yet and leaves exactly what a parse of everything since the last answer keeps |
| `Receiver.YieldsCutsExactly` | include/rp2350_hid_bridge/serial.hpp:504-581 | what is left is a suffix of the stream; behind a single answer it is exactly what one parse of the whole stream leaves |
| `Words.JoinOfHalves` | include/rp2350_hid_bridge/protocol.hpp:81-88 | read_u16 undoes write_u16 |
| `Words.HalvesOfJoin` | include/rp2350_hid_bridge/protocol.hpp:81-88 | write_u16 undoes read_u16 |
| `Keys.ParseCombo` | include/rp2350_hid_bridge/keys.hpp:26-92 | the loop over plus signs computes the fold of the tokens, the first error standing |
| `Keys.ComboMeans` | include/rp2350_hid_bridge/keys.hpp:26-92 | a combination is accepted if and only if all tokens are known and at most one is a key, and is then the set of its modifiers with that key |
| `Keys.NoKeyIsUnreachable` | include/rp2350_hid_bridge/keys.hpp:88-90 | "combo has no key" is never the answer |
| `Keys.ComboOfPrint` | include/rp2350_hid_bridge/keys.hpp:26-92 | every combination of the key table survives being written down |
| `Keys.CombosAreTheWellFormed` | include/rp2350_hid_bridge/keys.hpp:27-92 | the combinations that can be written are exactly those of the key table |
| `Keys.KeyNamesAreExact` | include/rp2350_hid_bridge/keys.hpp:27-75 | a name stands for a key if and only if it is the name the key prints as or one of its aliases in the table |
| `Keys.ModifierNamesAreExact` | include/rp2350_hid_bridge/keys.hpp:55-62 | the same for modifiers |
| `Keys.CaseDoesNotMatter` | include/rp2350_hid_bridge/keys.hpp:18-50 | combinations that differ in upper and lower case only are read alike, errors included |
| `Text.FoldedIsSame` | include/rp2350_hid_bridge/keys.hpp:18-23 | folding makes two texts equal if and only if they are the same but for the case of the letters A to Z |
| `Keys.SpaceDoesNotMatter` | include/rp2350_hid_bridge/keys.hpp:51-51 | white space put in anywhere in a combination changes nothing |
| `Keys.KeysAreUsages` | include/rp2350_hid_bridge/keys.hpp:27-75 | letters, digits and all other keys by name are the usages of the HID keyboard page in their order |
| `Keys.ModifiersAreBits` | include/rp2350_hid_bridge/keys.hpp:56-63 | CTRL, SHIFT, ALT and GUI are the bits 1, 2, 4 and 8 |
| `Keys.SynonymsAreSynonymous` | include/rp2350_hid_bridge/keys.hpp:27-63 | each of the 22 other names is read as the name it stands for |
| `Keys.ButtonOfPrint` | include/rp2350_hid_bridge/keys.hpp:99-111 | every mouse button survives being written down |
| `Keys.ButtonsAreExact` | include/rp2350_hid_bridge/keys.hpp:99-111 | a name is button 1, 2 or 4 if and only if it is left, right or middle, or the first letter alone, in any case |
| `Text.SplitOfUnsplit` | include/rp2350_hid_bridge/script.hpp:172-184 | joined pieces without the separator are split back into themselves |
| `Text.UnsplitOfSplit` | include/rp2350_hid_bridge/script.hpp:172-184 | splitting loses no character |
| `Text.PartsAreWhole` | include/rp2350_hid_bridge/script.hpp:172-184 | and no piece contains the separator |
| `Tokens.SplitWords` | include/rp2350_hid_bridge/script.hpp:36-80 | the tokenizer loop computes the words of the line |
| `Tokens.WordsOfUnsplit` | include/rp2350_hid_bridge/script.hpp:62-78 | words separated by spaces or by tabs are read back as they are |
| `Tokens.WordThenQuote` | include/rp2350_hid_bridge/script.hpp:42-61 | any text whatever, with its escapes, is read back from its quotes |
| `Tokens.CommentIsDropped` | include/rp2350_hid_bridge/script.hpp:67-68 | a comment after the words of a line is dropped |
| `Tokens.QuoteInsideWordFails` | include/rp2350_hid_bridge/script.hpp:50-53 | a quote inside a word is an error |
| `Tokens.OpenQuoteFails` | include/rp2350_hid_bridge/script.hpp:56-75 | a missing closing quote and a backslash at the end are errors |
| `Tokens.NoWordsInBlank` | include/rp2350_hid_bridge/script.hpp:62-68 | a line of blanks and a comment has no words |
| `Tokens.LayoutIsRead` | include/rp2350_hid_bridge/script.hpp:36-80 | any words, bare with comment signs inside them or quoted, with blanks around them, quoted ones with none needed, and a comment behind, are read as they are meant |
| `Tokens.BadTailFails` | include/rp2350_hid_bridge/script.hpp:50-75 | behind any such words a quote inside a word, a missing closing quote and a trailing backslash give their errors |
| `Tokens.IntegerOfPrint` | include/rp2350_hid_bridge/script.hpp:82-94 | every 64-bit integer is read back from its decimal form |
| `Tokens.IntegerForms` | include/rp2350_hid_bridge/script.hpp:82-94 | white space before and a plus sign are allowed, anything after the digits is not |
| `Tokens.RangeIsExact` | include/rp2350_hid_bridge/script.hpp:96-105 | a written integer is accepted if and only if it is in range |
| `Tokens.SameInteger` | include/rp2350_hid_bridge/script.hpp:82-94 | no letter in any case is read as part of an integer |
| `Script.ParseScriptLine` | include/rp2350_hid_bridge/script.hpp:108-166 | one line is one command, nothing, or the error of its first fault |
| `Script.ParseScript` | include/rp2350_hid_bridge/script.hpp:169-186 | the loop over lines computes the commands in order, the first bad line standing |
| `Script.CommandsAreExact` | include/rp2350_hid_bridge/script.hpp:115-165 | words are a command if and only if they spell it: the keywords in any case, the arguments by value, none missing and none left over |
| `Script.CaseOfWordsDoesNotMatter` | include/rp2350_hid_bridge/script.hpp:115-165 | but for the text of TYPE, the case of words changes neither commands nor errors |
| `Script.CommandIsReadBack` | include/rp2350_hid_bridge/script.hpp:108-166 | every well-formed command prints as one line that is read back as that command |
| `Script.ParseOfPrint` | include/rp2350_hid_bridge/script.hpp:36-186 | every list of well-formed commands is what its printed script parses to |
| `Script.ScriptsSayTheWellFormed` | include/rp2350_hid_bridge/script.hpp:108-186 | the lists of commands that scripts can say are exactly the well-formed ones |
| `Script.BlankLineChangesNothing` | include/rp2350_hid_bridge/script.hpp:110-113 | a blank or comment line put between any two lines changes neither the commands nor the error |
| `Script.BlankLineAtEitherEnd` | include/rp2350_hid_bridge/script.hpp:110-113 | nor does one put before the first line or after the last |
| `Script.TextIsType` | include/rp2350_hid_bridge/script.hpp:117-120 | "text" in any spelling is "type" in any spelling: it takes exactly one argument, and the same errors follow |
| `Packets.AsciiPayload` | include/rp2350_hid_bridge/protocol.hpp:156-166 | the text's own codes, or an error if one is not ASCII |
| `Packets.U32RoundTrip` | include/rp2350_hid_bridge/protocol.hpp:179-186 | four bytes carry every 32-bit value |
| `Packets.I16RoundTrip` | include/rp2350_hid_bridge/protocol.hpp:168-177 | four bytes carry every pair of signed 16-bit values |
| `Packets.ScriptCommandToPacket` | include/rp2350_hid_bridge/script.hpp:188-222 | the packet of a command, or the refusal of text that is not ASCII |
| `Packets.PacketsTellCommandsApart` | include/rp2350_hid_bridge/script.hpp:188-222 | only equal commands give equal packets |
| `Wire.KeyLines` | include/rp2350_hid_bridge/script.hpp:188-222 | the lines KEY TAP, DOWN and UP become types 0x12, 0x10 and 0x11 with the modifier and the key as payload, for every combination |
| `Wire.ButtonLines` | include/rp2350_hid_bridge/script.hpp:188-222 | the lines MOUSE CLICK, DOWN and UP become types 0x23, 0x21 and 0x22 with button 1, 2 or 4 |
| `Wire.MoveLine` | include/rp2350_hid_bridge/script.hpp:188-222 | MOUSE MOVE becomes type 0x20 with both residues, high bytes first, for every pair of 16-bit numbers |
| `Wire.WheelLine` | include/rp2350_hid_bridge/script.hpp:188-222 | MOUSE WHEEL becomes type 0x24 with the residue of the 8-bit number |
| `Wire.WaitLine` | include/rp2350_hid_bridge/script.hpp:188-222 | WAIT becomes type 0x30 with the four bytes of the number, highest first |
| `Wire.TypeLine` | include/rp2350_hid_bridge/script.hpp:188-222 | TYPE becomes type 0x13 with the codes of the text, or has no packet if one is above 127 |
| `Wire.StopLine` | include/rp2350_hid_bridge/script.hpp:188-222 | STOP becomes type 0x7F without payload |
| `Sequences.NthIs` | include/rp2350_hid_bridge/serial.hpp:488-496 | the n-th number, from 0, is n mod 65535 plus 1 |
| `Sequences.NumbersDiffer` | include/rp2350_hid_bridge/serial.hpp:488-496 | numbers are never 0, and 65535 consecutive ones all differ |
| `Engine.StaleRepliesAreIgnored` | include/rp2350_hid_bridge/serial.hpp:566-571 | no reply to a heartbeat or to the 65534 commands before is taken for the current command's, however many are in the stream |
| `Engine.OwnRepliesAreFresh` | include/rp2350_hid_bridge/serial.hpp:566-571 | a command's own replies are neither a heartbeat's nor any of the 65534 commands' before or the 65534 after |
| `Deadlines.BatchCounterIsTheSum` | include/rp2350_hid_bridge/serial.hpp:673-690 | for fewer than 2^32 packets the 64-bit counter is the plain sum and does not wrap |
| `Deadlines.BatchEndDeadline` | include/rp2350_hid_bridge/serial.hpp:658-690 | the wait for a batch's end is the base timeout or one second more than its packets' durations, at most 2^32-1, whatever an abandoned batch had left |
| `Deadlines.SingleDeadline` | include/rp2350_hid_bridge/serial.hpp:658-671 | any other wait is the base timeout, or the packet's own duration and half a second, or one second, at most 2^32-1 |
| `Deadlines.ReportsAreLeast` | include/rp2350_hid_bridge/serial.hpp:639-647 | a movement can be made in n reports of -127..127 if and only if n is at least the number counted |
| `Deadlines.DurationOfCommand` | include/rp2350_hid_bridge/serial.hpp:627-656 | the duration read back from a packet's payload is the time its script command takes, for every wait and every pair of coordinates, -32768 included |
| `Wire.CommandIsWaitedFor` | include/rp2350_hid_bridge/serial.hpp:627-671 | how long each command is waited for, in milliseconds: a wait or a text by its length, a tap 508, a click 520, a movement by its reports, any other 1000, or the base timeout if longer |
| `Deadlines.EndWithoutBatch` | include/rp2350_hid_bridge/serial.hpp:673-690 | after the end of a batch or a stop nothing is counted until the next batch begins |
| `Plan.ErasedPlan` | include/rp2350_hid_bridge/serial.hpp:343-353 | without the batch markers a script's plan is its packets in order: segmentation loses, adds and reorders nothing |
| `Plan.PlanIsGrouped` | include/rp2350_hid_bridge/serial.hpp:474-486 | the plan consists of single stops and non-empty batches, with no stop inside a batch |
| `Plan.PlanIsTheOnlyOne` | include/rp2350_hid_bridge/serial.hpp:343-353 | the plan is the only list of packets that says the script's commands in order, in non-empty batches and single stops, with a stop between any two batches |
| `Plan.BatchEndIsTimed` | include/rp2350_hid_bridge/serial.hpp:658-690 | whenever a plan ends a batch, at whatever position, the wait covers exactly that batch if it has fewer than 2^32 packets, whatever was in the counter before |
| `Plan.TotalOfCommands` | include/rp2350_hid_bridge/serial.hpp:673-690 | a batch's counted duration is the sum of what its script commands take |
| `Plan.TypableIsAccepted` | include/rp2350_hid_bridge/script.hpp:188-222 | a text can be typed if and only if the driver makes a packet of it and one frame can hold the packet |
| `Plan.UntypableTextIsParsed` | include/rp2350_hid_bridge/serial.hpp:480-483 | a text that cannot be typed is accepted by the parser and refused by the driver, and its batch is begun before it is looked at |
| `Transport.Link.SessionHolds` | include/rp2350_hid_bridge/serial.hpp:399-405 | whether the generation still holds is the adversary's choice at every check, and every check is seen on the trace with its answer |
| `Transport.Link.Write` | include/rp2350_hid_bridge/serial.hpp:44-53 | every write attempt is seen on the trace, with whether it worked |
| `Transport.Link.Read` | include/rp2350_hid_bridge/serial.hpp:44-53 | a read returns at most the bytes asked for, possibly none, or fails without any; the trace shows how many were asked for, for how long, and what came |
| `Engine.HidBridgeCore.constructor` | include/rp2350_hid_bridge/serial.hpp:708-722 | a new core has handed out no number and received nothing |
| `Engine.HidBridgeCore.NextSequence` | include/rp2350_hid_bridge/serial.hpp:488-496 | the n-th call hands out the n-th number |
| `Engine.HidBridgeCore.ReadResponse` | include/rp2350_hid_bridge/serial.hpp:504-534 | the exact polling: check, parse, look at the clock, read; it reads only before the deadline, 64 bytes at most, for the fewest milliseconds that reach it, times out only at or after it, blames the transport only for a read that failed and the session only for a check that failed; otherwise it returns the first matching reply of the buffer and everything read, leaves exactly what follows it, and never holds more than 314 bytes |
| `Engine.HidBridgeCore.TryOnce` | include/rp2350_hid_bridge/serial.hpp:498-502 | one attempt: a check of the session that has passed comes right before the write, and only a write that works is listened for, once; if the check fails nothing is written |
| `Engine.HidBridgeCore.WaitForRetry` | include/rp2350_hid_bridge/serial.hpp:616-625 | slices of 50 ms, only the last one shorter, with a passed check before each and after the last, that add up to the delay exactly, unless a check fails |
| `Engine.HidBridgeCore.KeepTrying` | include/rp2350_hid_bridge/serial.hpp:439-471 | the retry loop writes one identical frame, again only after a timeout or a well-formed BUSY, ends with one of the declared outcomes, each following from its last round or a check that failed after it, never reaches "command failed", and leaves exactly the stream after its last answer |
| `Engine.HidBridgeCore.SendCommand` | include/rp2350_hid_bridge/serial.hpp:428-472 | does to the link exactly what its record says: at most retries + 1 attempts of one identical frame, each behind a passed check, repeated only after a timeout or a well-formed BUSY waited out, and a passed check before it returns a reply; every outcome follows from the last attempt; the answers are the stream's matching replies in order, none of them stale, and what is left is exactly the stream after them, across all timeouts and retries |
| `Exchanges.BusyIsWaitedOut` | include/rp2350_hid_bridge/serial.hpp:451-458 | a BUSY with delay d, high byte first, is followed by a wait of exactly d milliseconds, in slices of 50 and a last one, before the next attempt, unless the session ends; on the last attempt it is the reply |
| `Exchanges.AnswerDecides` | include/rp2350_hid_bridge/serial.hpp:451-471 | what the last answer means for the reply, by its type: 0x83, 0x81, the expected 0x80 or 0x82, or another |
| `Exchanges.HeardInCommand` | include/rp2350_hid_bridge/serial.hpp:504-534 | the bytes a command's record says it received are those that reads on the link have returned |
| `Exchanges.CauseIsSeen` | include/rp2350_hid_bridge/serial.hpp:399-405 | a command reports the session changed only if a check failed, and a transport error only if a write or read failed |
| `Exchanges.RefusalIsReceived` | include/rp2350_hid_bridge/serial.hpp:449-465 | a command reports a refusal of the device only for a frame that stands in the stream with its own number and says just that |
| `Transcript.SpokenIsTheSaid` | include/rp2350_hid_bridge/serial.hpp:435-440 | with runs of identical frames taken as one, the wire spells the packets of the commands that wrote something, in order |
| `Transcript.AllHeard` | include/rp2350_hid_bridge/serial.hpp:504-534 | what a whole list of commands has received is what the reads on the link have returned, in order |
| `Transcript.RepliesComeInOrder` | include/rp2350_hid_bridge/serial.hpp:504-581 | however many commands have been completed: their replies are frames of the one stream that has come in, in order and apart, and what is left is a suffix behind them all |
| `Transcript.WholePlanSpoken` | include/rp2350_hid_bridge/serial.hpp:337-353 | a script that ran to its end has said its plan: without markers its own commands, in batches that only stops set apart |
| `Transcript.BeginningSpoken` | include/rp2350_hid_bridge/serial.hpp:354-360 | a script that failed has said a beginning of its plan, the completed commands at least, and then stop at most once |
| `Transcript.BatchEndsWereTimed` | include/rp2350_hid_bridge/serial.hpp:658-690 | the end of every batch a script has sent was waited for as long as that batch takes, if it has fewer than 2^32 packets |
| `Engine.HidBridgeCore.ExecuteScriptBatch` | include/rp2350_hid_bridge/serial.hpp:474-486 | sends the next batch of the plan, all of whose texts could be typed, or fails at a beginning of it by its last command; a refusal of its own comes at a text that cannot be typed |
| `Engine.HidBridgeCore.RunCommands` | include/rp2350_hid_bridge/serial.hpp:342-353 | follows the plan to its end, with every text typable, or fails at a beginning of it by its last command; a refusal of its own comes at a text that cannot be typed |
| `Engine.HidBridgeCore.RunScript` | include/rp2350_hid_bridge/serial.hpp:337-361 | all it does to the link is one check, the commands logged, which take the stream from one to the next, and at most one stop; a script that does not parse sends nothing; its result is that of its last command; done has said exactly the plan, failed a beginning of it and then stop, missing only if a check of the session fails; unless session, transport or device ended the last command, it is done if and only if every text can be typed, and otherwise is refused inside a begun batch, at such a text; every failure from outside has its cause on the trace |
| `Engine.FailureHasCause` | include/rp2350_hid_bridge/serial.hpp:354-360 | the failure a script reports is on the trace of the link: a failed check for the session, a failed write or read for the transport, a full wait for a timeout, a frame of the device for a refusal |
| `Handles.ShutDownOncePerOpening` | src/c_api.cpp:197-208 | openings and shutdowns of a core match one to one, but for an opening still standing |
| `Handles.Handle.Close` | include/rp2350_hid_bridge/serial.hpp:256-304 | an open core is shut down once, a closed one is left alone |
| `Handles.Handle.Perform` | include/rp2350_hid_bridge/serial.hpp:213-253 | only an open core uses the transport, only a closed one opens it, and an opening that fails is seen on the log |
| `Handles.Holders.Create` | src/c_api.cpp:178-188 | a new handle with one holder |
| `Handles.Holders.Retain` | src/c_api.cpp:190-195 | one more holder, and the count of every handle is still the number of its holders |
| `Handles.Holders.Release` | src/c_api.cpp:197-204 | one holder less; the handle is destroyed, its core shut down, exactly when it was the last |
| `Handles.Holders.CallSession` | src/c_api.cpp:86-105 | a timeout or transport error closes the core and faults the handle; a faulted handle never touches the transport again |
| `Handles.Holders.EnsureCreated` | src/client.cpp:53-74 | creates a handle only if there is none |
| `Handles.Holders.Open` | src/client.cpp:89-97 | the owner holds an open, unfaulted handle if and only if the open succeeded; a faulted handle fails, stays faulted and does not touch the transport, an open one stays open, also when others hold it |
| `Handles.Holders.Close` | src/client.cpp:99-104 | the owner's reference is given up; the handle is destroyed, its core shut down, exactly when it was the last, and is otherwise untouched |
| `Handles.Holders.Move` | src/client.cpp:41-51 | moving hands the reference over without changing any count but that of the handle given up, which is destroyed exactly if that was the last; self-assignment does nothing |
| `Handles.Holders.Make` | src/c_api.cpp:178-208 | no call of either interface makes a log shrink, unlatches a fault, or adds anything to the log of a faulted or destroyed handle |
| `Handles.Holders.Replay` | src/client.cpp:37-104 | over every sequence of calls the counts are those of the holders, faults stay latched with the transport untouched, each opening is shut down once, and a handle without holders is destroyed and closed |
| `Handles.CopyPayload` | src/c_api.cpp:107-128 | copies the whole payload or nothing, reporting its size also when the buffer is too small |
| `Handles.ReadPayload` | src/client.cpp:120-142 | the payload of any frame that decodes fits the client's 256 bytes and is returned whole |

## Left out

- The Windows serial transport and port discovery: foreign I/O; the transport is an adversary.
- ABI information, option validation, last-error text, the names of NACK codes and `is_open` of a core: one-branch members.
- The command wrappers that only forward arguments (`ping`, `key_tap`, `mouse_move` and so on).
- Time in the lifecycle model: thread scheduling is arbitrary and transport calls are assumed to return, so no latency is bounded.
- C++ memory orders: atomics are taken as sequentially consistent. Destruction concurrent with use is excluded.
- The lifecycle layer is modelled on values, not on objects: its state is one record that every step replaces, because steps of many threads interleave.
- Firmware behaviour: the lease, the HID reports and batch execution on the device.
- Character sets: a Dafny char stands for a C++ char, `toupper` and `isspace` are those of the "C" locale.
- LifecycleTermination.CloseIsBounded: bounds steps, not time; a read may start just after `cancel_read`, so a close may have to wait for that read to return.
- Engine.HidBridgeCore.ReadResponse: says nothing about the buffer's contents, beyond its size, when the session ends under it; a chunk read just before is then lost (serial.hpp:525-529).
- Engine.HidBridgeCore.SendCommand: one thread; that no other thread's frame but a heartbeat comes between is proved in the lifecycle layer; heartbeats are not on the engine's trace, nor are packets in the step machine's, so the two layers are joined in prose.
- Handles.Holders.CallSession: for calls that do not overlap; the latch is read before the function runs (c_api.cpp:90-94), so an open that passed the check may still run after another thread's fault.
- Handles.Holders.Retain: fewer than 2^32 holders at once, so that the 32-bit count does not wrap.
