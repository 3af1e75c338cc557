# Verified model of co_kimserver

co_kimserver is a TCP server framework in C++ whose processes are single-threaded and
cooperative: libco supplies coroutines, condition variables, timers and an event loop, and
everything above it is a set of state machines that switch only where they wait. This
project models the parts of it that are hard to get right and proves, for every run or every
input, what each of them promises. Nothing here executes the server; the only tool is the Dafny
verifier (`dafny verify dfyconfig.toml`, Dafny 4.11).

The modules, by subsystem:

| subsystem | modules |
|---|---|
| coroutines: shared stacks, intrusive lists, timing wheel, event loop and condition variables, mutex | `SharedStack`, `Links`, `TimingWheel`, `Scheduler`, `CoMutex` |
| byte streams to messages: socket buffer, 15-byte-header codec, connection and request loop | `SocketBuffer`, `ProtoCodec`, `ServerLoop` |
| node-to-worker handshake, connection tables | `Handshake`, `ConnTable` |
| JSON parser and printer | `Json` (what they compute), `JsonGrammar` (what is accepted), `JsonCode` (the loops and buffers), `JsonBounds` (when they stay inside them) |
| consistent-hash ring, node registry | `Ring`, `Registry` |
| database task dispatcher | `Dispatcher` |
| HTTP body states | `HttpBody` |
| sequences, decimal numbers | `Common` |

State machines are written as functions on values, one function for each stretch of code that
runs without waiting; a run is any sequence of enabled events. Where the source updates an
object in place, a class has the same fields and its methods are proved to compute those
functions, so that the theorems about runs are theorems about the methods. Lists of the
scheduler are sequences; `Links` proves on the heap that the intrusive lists are exactly that.

## What does not hold

Some expected properties are false of the code. For each of them the project keeps the code's
behaviour, shows an input, and proves the exact condition under which the property holds.

- `TakeAllTimeout` counts slots in an `int`: the visited slots are the due ones if and only if that
  count covers the gap (`TimingWheel.VisitsExactlyDue`); a gap of 2^31 - 1 ms is not covered
  (`TimingWheel.CoveredGaps`).
- A signal to a waiter whose timeout exceeds one turn of the wheel, and whose timer has been
  taken early in the same pass, is consumed without waking it; there is such a run on every wheel
  (`Scheduler.EarlySignalExample`). A signal binds its waiter to be resumed if and only if the
  waiter has not been taken early (`Scheduler.SignalWakesOldest`), which never happens to a wait
  that expires within the current turn (`Scheduler.FittingIsWokenBySignal`) and can happen to every
  other (`Scheduler.LongWaitTakenEarly`).
- Comments in the codec speak of messages with an empty body. A header with a zero field is
  always rejected by the receiver, and any other header always survives
  (`ProtoCodec.HeadRoundTrip`).
- `decode` adds the header's length and 15 in an `int`. If the sum overflows, a body that has not
  arrived is parsed from whatever memory follows. What the receiver comes to is independent of the
  cuts between reads if and only if no such header is met with a byte behind it
  (`ProtoCodec.FragmentationIndependent`, `ProtoCodec.LongestLengthExample`), and the request loop
  stays inside what it received unless it comes to one (`ServerLoop.ServeExactlyOnce`).
- `conn_read(msg)` decodes a second time after it has fetched a buffered message, and so drops
  one, exactly when a complete message is buffered (`ServerLoop.ConnReadKeepsMessages`,
  `ServerLoop.SecondDecodeDrops`); the request loop never calls it then
  (`ServerLoop.AfterTurnExact`).
- `check_rsp` accepts replies with an error code, so A1 introduces itself even after a refusal, and
  would take a refusal of its TELL for success (`Handshake.RefusalWouldConnect`). It still never gets
  connected that way (`Handshake.ConnectedOnlyThroughWorker`).
- `parse_string` counts characters first and copies then, and its copying pass passes over the four
  positions behind `\u` whatever they hold. It stays inside what was counted if and only if a scan
  of the text finds no place where it jumps over the end (`JsonBounds.CopyInside`,
  `JsonBounds.OverrunExample`, `JsonBounds.AstrayExample`). Strings whose escapes are complete
  always pass it (`JsonBounds.FullIsTame`).
- Codes beyond 0xFFFF in strings are pairs of escapes. The code combines the halves with `|` where
  UTF-16 adds, which is the same if and only if one bit of the first half is not set
  (`Json.PairIsUtf16`, `Json.PairExample`). An exponent that wraps to zero leaves an integer
  (`Json.WrappedExponent`).
- Worker ids are cut to 127 characters, so that long host names make them collide
  (`Registry.CutIdsCollide`); ids that are not cut never do (`Registry.IdInjective`).
- Deleting a node erases ring points that it lists but another node holds. The others keep all their
  keys if and only if, for each such point, the next point that stays has the same owner
  (`Ring.DeleteKeepsOthers`, `Ring.CollisionLosesPoint`, `Ring.CollisionCovered`).
- The update branch of `add_zk_node` reads the old node after it has been overwritten, and spares
  the last worker. The four maps stay in agreement if and only if the data fits: the same host and
  port, and more workers, or as many of the same type (`Registry.ZkAddedExact`,
  `Registry.UpdateExamples`).
- The timer closes idle database connections of handlers on the free list. A new handler is on that
  list while it connects and works on its first tasks, so its connection can be taken away in use
  (`Dispatcher.CrashExample`); no other handler's can (`Dispatcher.InUseOnFreeList`). Every task is
  answered exactly once if and only if that does not happen (`Dispatcher.AllAnswered`).
- After an error right behind a chunk's data, the HTTP parser does not report the body bytes of
  the current block. What is reported is independent of the cuts between blocks if and only if
  no chunk ends that way (`HttpBody.CutIndependence`, `HttpBody.BadEndExample`).

## Model

| member | source | states |
|---|---|---|
| `SharedStack.MarkSpParks` | src/core/libco/co_routine.cpp:573-579 | Once the running coroutine's stack pointer is recorded, everyone is parked: its frame is what memory holds from there up, and no other frame changed. |
| `SharedStack.BootKeeps` | src/core/libco/coctx.cpp:115-128 | Writing the entry word of a new coroutine leaves every other coroutine's frame as it was, except for that word, which is dead. |
| `SharedStack.DisplaceKeeps` | src/core/libco/co_routine.cpp:580-594 | Handing a shared stack to another coroutine saves the displaced one: all frames are kept, wherever their bytes now are. |
| `SharedStack.RestoreBrings` | src/core/libco/co_routine.cpp:600-610 | Copying a saved frame back puts exactly that frame into memory and keeps all other frames. |
| `SharedStack.ResumeSwitches` | src/core/libco/co_routine.cpp:494-505 | A resume keeps the invariant and hands control over with every suspended coroutine's bytes intact. |
| `SharedStack.YieldSwitches` | src/core/libco/co_routine.cpp:542-547 | The same for a yield to the caller. |
| `SharedStack.StepKeepsPromise` | src/core/libco/co_routine.cpp:407-610 | Every step (create, run, resume, nested resume, yield, end, reset, free) keeps the invariant and the bytes of every coroutine that it does not reset or free. |
| `SharedStack.RunKeepsPromises` | src/core/libco/co_routine.cpp:407-610 | The same for every step of every run from a new thread environment. |
| `SharedStack.AwayKeepsFrame` | src/core/libco/co_routine.cpp:557-610 | From the step in which it gives up control until it gets it back, a coroutine's bytes are preserved, in the stack or in its save buffer. |
| `SharedStack.Transparency` | src/core/libco/co_routine.cpp:466-610 | In every run, a coroutine that gave up control and gets it back has its old stack pointer and finds every byte above it as it left it, whoever used the stack in between. |
| `SharedStack.CreatedUnstarted` | src/core/libco/co_routine.cpp:407-455 | A new coroutine has not started: no saved frame, no mark on any stack, on the stack that it was given. |
| `SharedStack.ResetClears` | src/core/libco/co_routine.cpp:507-533 | A reset takes a coroutine that has started back to the state of a new one on the same stack; on any other it does nothing. |
| `SharedStack.FreeForgets` | src/core/libco/co_routine.cpp:466-486 | Freeing a coroutine leaves no mark of it on any stack, removes its own stack and no other, and removes no other coroutine. |
| `SharedStack.StartsAtEntry` | src/core/libco/co_routine.cpp:494-533 | In every run, the first resume after a creation or a reset starts the coroutine at its entry: running, with the entry word in place on its stack whatever ran in between, and after a reset on the stack it had. |
| `SharedStack.StaysEnded` | src/core/libco/co_routine.cpp:395-405 | A coroutine that has ended stays so over every step, until it is reset or freed. |
| `SharedStack.Thread.constructor` | src/core/libco/co_routine.cpp:667-684 | A new environment is an initial state and satisfies the invariant. |
| `SharedStack.Thread.CoCreateEnv` | src/core/libco/co_routine.cpp:407-455 | Makes the state that the creation event makes. |
| `SharedStack.Thread.SaveStackBuffer` | src/core/libco/co_routine.cpp:557-571 | Replaces the save buffer by the bytes from the stack pointer up and changes nothing else. |
| `SharedStack.Thread.CoSwap` | src/core/libco/co_routine.cpp:573-610 | Both halves of the swap, in place, are displacing the occupant and restoring the newcomer. |
| `SharedStack.Thread.CoResume` | src/core/libco/co_routine.cpp:494-505 | Ends in the state of the resume event, whose transparency is proved. |
| `SharedStack.Thread.CoctxMake` | src/core/libco/coctx.cpp:115-128 | Overwrites one aligned word of the stack and nothing else. |
| `SharedStack.Thread.CoYieldEnv` | src/core/libco/co_routine.cpp:542-547 | Ends in the state of the yield event. |
| `SharedStack.Thread.CoReset` | src/core/libco/co_routine.cpp:507-533 | Ends in the state of the reset event, after which the coroutine is as a new one and its next resume starts at the entry (`ResetClears`, `StartsAtEntry`). |
| `SharedStack.Thread.CoFree` | src/core/libco/co_routine.cpp:466-486 | Ends in the state of the free event. |
| `Links.OneList` | src/core/libco/co_routine.cpp:145-234 | On well-linked lists an item is on at most one list, the one its `pLink` names. |
| `Links.AddTail` | src/core/libco/co_routine.cpp:175-190 | On the heap, with any number of other lists: appends an unlinked item, leaves a linked one where it is, and keeps all pointers consistent. |
| `Links.RemoveFromLink` | src/core/libco/co_routine.cpp:145-173 | Deletes the item from whatever list it is on and keeps all pointers consistent. |
| `Links.PopHead` | src/core/libco/co_routine.cpp:192-210 | Takes the first item off the list. |
| `Links.Join` | src/core/libco/co_routine.cpp:212-234 | Appends one list to another, relabels every moved item and empties the other. |
| `TimingWheel.VisitsExactlyDue` | src/core/libco/co_routine.cpp:381-388 | The slots visited are exactly the due ones if and only if the `int` count covers the gap. |
| `TimingWheel.CoveredGaps` | src/core/libco/co_routine.cpp:381-388 | Every gap below 2^31 - 1 ms is covered; that gap is not. |
| `TimingWheel.AddIsCalendar` | src/core/libco/co_routine.cpp:341-370 | As a calendar: an item is appended to the queue of its expiry, or of the wheel's last moment if it is further away, and no other moment changes; refused items change nothing; the code is that of success exactly if it is taken, and tells a clock that runs backwards from an expiry that has passed. |
| `TimingWheel.TakeIsCalendar` | src/core/libco/co_routine.cpp:372-394 | As a calendar: takes exactly what is due by now, in order of moments and of insertion, so an item is taken if and only if it is queued for a moment from the start to now, and leaves every later moment alone, including wrap-around and whole-wheel gaps. |
| `TimingWheel.Timeout.constructor` | src/core/libco/co_routine.cpp:327-334 | An empty calendar of the given size. |
| `TimingWheel.Timeout.AddTimeout` | src/core/libco/co_routine.cpp:341-370 | Computes the wheel and the return code of the calendar operation. |
| `TimingWheel.Timeout.TakeAllTimeout` | src/core/libco/co_routine.cpp:372-394 | Computes the wheel and the result list of the calendar operation. |
| `TimingWheel.Timeout.Sweep` | src/core/libco/co_routine.cpp:385-390 | The loop empties the next slots in order and joins what they held. |
| `Scheduler.StepKeeps` | src/core/libco/co_routine.cpp:690-1067 | Every wait, signal, event, clock reading and processing turn keeps all lists in agreement with the items' own links and accounts for every wait. |
| `Scheduler.ExactlyOnce` | src/core/libco/co_routine.cpp:1004-1048 | At every point of every run each wait ever begun is either still waiting or has been resumed exactly once, also when signal and timeout fall into the same pass. |
| `Scheduler.StaysWoken` | src/core/libco/co_routine.cpp:746-762 | A waiter that is bound to be resumed stays so over every step, or is resumed. |
| `Scheduler.TickTakesExpired` | src/core/libco/co_routine.cpp:734-744 | Every timer expired when the clock is read is bound to be resumed. |
| `Scheduler.ExpiredIsResumed` | src/core/libco/co_routine.cpp:711-769 | A timer expired when the loop reads the clock has been resumed by the time the active list is empty. |
| `Scheduler.TimeoutIsKept` | src/core/libco/co_routine.cpp:711-769 | Every timeout is kept: in every run, a wait begun with a timeout has been resumed once the loop has read the clock at or after its expiry and drained the active list, whatever was signalled, put back or reported ready in between. |
| `Scheduler.ReadyWakes` | src/core/libco/co_routine.cpp:695-709 | An event moves its poll from the wheel to the end of the active list, and it is then bound to be resumed if and only if its timer had not been taken early; further events for it change nothing. |
| `Scheduler.ReadyIsResumed` | src/core/libco/co_routine.cpp:695-769 | In every run, a poll whose event arrives has been resumed by the time the active list is empty, unless its timer had been taken early. |
| `Scheduler.FirstEventIsResumed` | src/core/libco/co_routine.cpp:695-769 | In every run, the first event of a poll, at whatever time after it began, is not taken for a repeated one. |
| `Scheduler.SignalledIsResumed` | src/core/libco/co_routine.cpp:711-1012 | The same for a signal and the waiter that has waited longest. |
| `Scheduler.NeverEarly` | src/core/libco/co_routine.cpp:746-762 | An item taken by its timer is resumed if and only if its expiry has come. |
| `Scheduler.PutBackSpacing` | src/core/libco/co_routine.cpp:749-755 | Between two times that the same long timer is put back the loop's clock advances by at least a turn of the wheel less one. |
| `Scheduler.PutBackCount` | src/core/libco/co_routine.cpp:749-755 | So in every run it is put back only finitely often: the clock of the first time, and a turn less one for each further time, stay before its expiry. |
| `Scheduler.FittingIsWokenBySignal` | src/core/libco/co_routine.cpp:1025-1048 | A wait without a timeout, or with one that expires within the current turn of the wheel, is never taken early in any later state of any run, so a signal always wakes it. |
| `Scheduler.LongWaitTakenEarly` | src/core/libco/co_routine.cpp:341-370 | And every other wait is taken early if the loop next reads the clock when the turn ends. |
| `Scheduler.SignalWakesOldest` | src/core/libco/co_routine.cpp:1004-1012 | A signal takes the waiter that has waited longest; it is then bound to be resumed if and only if its timer had not been taken early. |
| `Scheduler.BroadcastWakesAll` | src/core/libco/co_routine.cpp:1014-1023 | A broadcast empties the condition and puts all its waiters on the active list in the order in which they began to wait. |
| `Scheduler.RefusedWaitLeavesNothing` | src/core/libco/co_routine.cpp:1025-1042 | A wait whose timer is refused leaves no item, waiter or list entry behind. |
| `Scheduler.EarlySignalExample` | src/core/libco/co_routine.cpp:711-769 | On a wheel of any size, and for every timeout longer than a turn, a run from a new event loop in which a signal is consumed and nobody is resumed. |
| `Scheduler.SignalPutsBack` | src/core/libco/co_routine.cpp:749-755 | The same two steps from every state in which the only waiter has been taken early. |
| `Scheduler.EventLoop.constructor` | src/core/libco/co_routine.cpp:776-786 | A new event loop is an initial state. |
| `Scheduler.EventLoop.TimedWait` | src/core/libco/co_routine.cpp:1025-1042 | Ends in the state and with the code of the wait event. |
| `Scheduler.EventLoop.CondSignal` | src/core/libco/co_routine.cpp:1004-1012 | Ends in the state of the signal event. |
| `Scheduler.EventLoop.CondBroadcast` | src/core/libco/co_routine.cpp:1014-1023 | The loop ends in the state after one signal for each waiter. |
| `Scheduler.EventLoop.OnPollPrepare` | src/core/libco/co_routine.cpp:695-709 | Ends in the state of the arrival of an event, which wakes the poll (`ReadyWakes`); later events of the same poll change nothing. |
| `Scheduler.EventLoop.TakeTimeouts` | src/core/libco/co_routine.cpp:734-744 | Ends in the state of the clock reading: expired items are flagged and joined to the active list. |
| `Scheduler.EventLoop.ProcessNext` | src/core/libco/co_routine.cpp:746-762 | One turn of the processing loop: puts the item back or resumes its waiter. |
| `CoMutex.StepKeepsInv` | src/core/libco/co_comm.cpp:10-22 | Every lock, unlock and hand-over keeps the invariant. |
| `CoMutex.MutualExclusion` | src/core/libco/co_comm.cpp:10-22 | In every interleaving at most one coroutine holds the lock or has been granted it, and the counter is that many plus the waiters. |
| `CoMutex.FirstComeFirstServed` | src/core/libco/co_comm.cpp:10-22 | The lock is obtained exactly in the order in which it was asked for. |
| `CoMutex.NewcomerWaits` | src/core/libco/co_comm.cpp:10-17 | A newcomer between grant and hand-over queues behind the granted waiter. |
| `CoMutex.ClsCoMutex.CoLock` | src/core/libco/co_comm.cpp:10-17 | Makes the transition of the lock event. |
| `CoMutex.ClsCoMutex.CoUnLock` | src/core/libco/co_comm.cpp:19-22 | Makes the transition of the unlock event. |
| `SocketBuffer.DoubledIsLeast` | src/core/util/socket_buffer.h:102-109 | The doubling loop stops at the first doubling that is large enough. |
| `SocketBuffer.Buffer.Compact` | src/core/util/socket_buffer.h:61-88 | Keeps the readable bytes; gives space back only if enough is writable. |
| `SocketBuffer.Buffer.EnsureWriteable` | src/core/util/socket_buffer.h:90-123 | Keeps the readable bytes and makes room for the request; its own call of compact never acts. |
| `SocketBuffer.Buffer.Read` | src/core/util/socket_buffer.h:131-138 | Takes bytes from the front, or nothing if there are too few. |
| `SocketBuffer.Buffer.Write` | src/core/util/socket_buffer.h:140-147 | Appends exactly the bytes. |
| `SocketBuffer.Buffer.WriteFrom` | src/core/util/socket_buffer.h:149-161 | Moves bytes from the front of one buffer to the end of another. |
| `SocketBuffer.Buffer.CopyOut` | src/core/util/socket_buffer.h:185-194 | Shows the first bytes without taking them. |
| `SocketBuffer.Buffer.DiscardReadedBytes` | src/core/util/socket_buffer.h:209-220 | Moves the readable bytes to the front in place. |
| `SocketBuffer.Buffer.ReadFd` | src/core/util/socket_buffer.cpp:78-98 | Appends exactly what the scatter read delivered, whether or not it ran over into the extra area. |
| `SocketBuffer.Buffer.WriteFd` | src/core/util/socket_buffer.cpp:57-76 | Drops from the front exactly what the socket accepted. |
| `ProtoCodec.HeadRoundTrip` | src/core/codec/codec_proto.cpp:21-27 | A header survives the 15-byte copy if and only if no field is zero; otherwise it is rejected whatever memory follows the string. |
| `ProtoCodec.DecodeEncode` | src/core/codec/codec_proto.cpp:11-94 | An encoded well-formed message is decoded as it was, whatever follows, and exactly its bytes are consumed. |
| `ProtoCodec.ZeroFieldIsRejected` | src/core/codec/codec_proto.cpp:29-34 | A message with a zero header field is always reported as a broken stream. |
| `ProtoCodec.NoBodyRoundTrip` | src/core/codec/codec_proto.cpp:11-94 | A message with a length that is not positive takes fifteen bytes, and is read back without a body whatever follows, except that a zero length is rejected. |
| `ProtoCodec.NoBodyDecodes` | src/core/codec/codec_proto.cpp:62-75 | Whatever header is parsed, it is a whole message by itself if and only if its length is not positive. |
| `ProtoCodec.TooLongWraps` | src/core/codec/codec_proto.cpp:77-82 | The overflow that the model tells apart is exactly that of the `int` sum. |
| `ProtoCodec.DecodeStable` | src/core/codec/codec_proto.cpp:46-94 | More bytes do not change a decision, if and only if it is not one to parse a body that has not arrived. |
| `ProtoCodec.DrainEarly` | src/core/codec/codec_proto.cpp:46-94 | Decoding before the rest arrives makes no difference, if and only if it meets no header whose sum overflows or nothing more arrives. |
| `ProtoCodec.WildOverflows` | src/core/codec/codec_proto.cpp:77-82 | Only such a header makes the receiver parse bytes that it does not hold, and it always does. |
| `ProtoCodec.CutsAgree` | src/core/codec/codec_proto.cpp:46-94 | Without such a header every cut gives the same receiver as no cut, from any state that holds no complete message. |
| `ProtoCodec.FragmentationIndependent` | src/core/codec/codec_proto.cpp:46-94 | For every byte stream, well-formed or not: all ways of cutting it into reads leave the receiver with the same messages, undecoded bytes and verdict, if and only if no header whose sum overflows an `int` is met with a byte behind it. |
| `ProtoCodec.LongestLengthExample` | src/core/codec/codec_proto.cpp:77-84 | Fifteen header bytes that ask for 2^31 - 1 bytes: the decoder decides at once, and one more byte changes what it parses. |
| `ProtoCodec.FramingRoundTrip` | src/core/codec/codec_proto.cpp:11-94 | Any list of well-formed messages, encoded in order and cut in any way, is delivered as that list and leaves the buffer empty. |
| `ProtoCodec.Codec.EncodeTo` | src/core/codec/codec_proto.cpp:11-44 | Appends the encoding to the socket buffer. |
| `ProtoCodec.Codec.DecodeFrom` | src/core/codec/codec_proto.cpp:46-94 | Decides as the decoding function does, including the comparison in `int`, and consumes exactly the message, or nothing otherwise. |
| `ServerLoop.ConnReadKeepsMessages` | src/core/connection.cpp:146-162 | No message is lost by a read if and only if no complete message was buffered before it. |
| `ServerLoop.SecondDecodeDrops` | src/core/connection.cpp:146-162 | Two messages in one packet, read by two calls: the second is dropped. |
| `ServerLoop.SecondDecodeMixes` | src/core/connection.cpp:146-180 | Two messages buffered, the second without a body: the read drops the first and returns the second with the body of the first. |
| `ServerLoop.ProcessFollows` | src/core/network.cpp:641-703 | One round hands over the messages of the stream in order, all of them unless a handler stopped it, and if it reports success no complete message is left in the buffer. |
| `ServerLoop.AfterTurnExact` | src/core/network.cpp:609-635 | Each turn of the request loop keeps that, so the second decode is never reached. |
| `ServerLoop.ServeExactlyOnce` | src/core/network.cpp:609-703 | Over every run of the request loop the handlers get each message of the byte stream once and in order, and every complete one while the connection is open; memory that was not received is parsed if and only if the stream comes to a header whose sum overflows before a handler ends the connection. |
| `ServerLoop.AskKeeps` | src/core/network.cpp:667-692 | What the loop does with one message extends the lists of calls accordingly, and the code is the answer of the handler that was asked last, or that of an unknown command if nobody was asked. |
| `ServerLoop.ServeAsksHandlers` | src/core/network.cpp:609-703 | Over every run: on a system connection the system's handler is given each message once and in order; on a worker the application's is given, once and in order, exactly those that the former did not know, or all if the connection is not a system one; nobody else is called; the peer is told that a command is unknown exactly if the last answer says so; and while the connection is open all answers were success. |
| `ServerLoop.ProcessAccounts` | src/core/network.cpp:641-703 | A round returns the answer to the last message, unless that is success: then success, or the code of a failed read or decode. |
| `ServerLoop.RoundSucceeds` | src/core/network.cpp:641-703 | A round succeeds if and only if the socket could be read, the stream so far decodes, and no handler has stopped it. |
| `ServerLoop.StaysOpen` | src/core/network.cpp:609-635 | So a turn leaves the connection open if and only if that holds and the connection is valid and alive. |
| `ServerLoop.SendConserves` | src/core/connection.cpp:101-215 | For every interleaving of appends and partial writes, what was sent and what is pending is the concatenation of the encoded messages. |
| `ServerLoop.SentIsHandled` | src/core/network.cpp:609-703 | From sender to handler, however writes and reads cut the bytes: the handlers get a prefix of the messages sent, and all of them once everything is sent and read. |
| `ServerLoop.Connection.Fetch` | src/core/connection.cpp:164-171 | Fetches a buffered message as the function does. |
| `ServerLoop.Connection.Receive` | src/core/connection.cpp:59-99 | One read: appends what arrived, also when the buffer is compacted afterwards. |
| `ServerLoop.Connection.Read` | src/core/connection.cpp:146-162 | Fetch, read and decode as the function does. |
| `ServerLoop.Outlet.AppendMessage` | src/core/connection.cpp:182-206 | Appends the encoded message to what is pending, unless the connection is invalid. |
| `ServerLoop.Outlet.WriteSome` | src/core/connection.cpp:101-144 | Moves what the socket accepted from pending to sent; reports success if and only if nothing is pending. |
| `ServerLoop.Dispatch` | src/core/network.cpp:667-692 | Finds a handler for a message, calls it and records the call, as the function does. |
| `ServerLoop.ProcessTcpMsg` | src/core/network.cpp:641-703 | The loop hands over the messages, makes the calls and returns the code that the function says; who is called and with what answers is `ServeAsksHandlers`. |
| `Handshake.ReadsFrame` | src/core/connection.cpp:146-180 | Whatever part of a frame a read gets, the message comes out with its last byte and not before. |
| `Handshake.AReadKeeps` | src/core/node_connection.cpp:360-386 | A1's reads and reply handlers keep the protocol's invariant. |
| `Handshake.MReadKeeps` | src/core/sys_cmd.cpp:421-440 | So do the manager's reads and its request handler. |
| `Handshake.MSendKeeps` | src/core/sys_cmd.cpp:447-464 | So does the transfer of the descriptor through the channel that was looked up once, also if its worker dies meanwhile. |
| `Handshake.WReadKeeps` | src/core/sys_cmd.cpp:482-515 | So do the worker's reads and its handler. |
| `Handshake.StepKeepsInv` | src/core/sys_cmd.cpp:421-573 | Every step of any party, with workers coming and going, keeps the invariant. |
| `Handshake.ConnectedOnlyThroughWorker` | src/core/node_connection.cpp:201-254 | In every run A1 is connected only if the worker with the requested index, and no other, got the descriptor once and handled the TELL; the manager never reads a byte behind the request. |
| `Handshake.AckDecided` | src/core/sys_cmd.cpp:421-440 | In every run the acknowledgement was decided by a read of the request: it is the rejection exactly if the table of that moment had no worker with that index, and then the descriptor goes to nobody. |
| `Handshake.HearsVerdict` | src/core/sys_cmd.cpp:421-440 | In every run, what A1 hears is that verdict. |
| `Handshake.ReplyCounts` | src/core/node_connection.cpp:201-254 | A1 sends its TELL exactly on an acknowledgement with a result, is connected exactly on an answer to it with a result and a node, and gives up on any other message. |
| `Handshake.TellCounts` | src/core/sys_cmd.cpp:482-515 | A worker answers exactly the TELL of a node, and lets go of a connection that says anything else. |
| `Handshake.LeavesOnError` | src/core/node_connection.cpp:360-386 | Each party goes on after a read that gave a message or nothing yet, and leaves after any other. |
| `Handshake.PartiesComeAndGo` | src/core/manager.cpp:130-193 | A worker starts with an empty channel and a place in the manager's table; it can die, with its channel and its connections, at any time, and each party can give up. |
| `Handshake.TransferEnds` | src/core/sys_cmd.cpp:447-464 | The manager tries again exactly while the channel is full and its worker is there, and the descriptor is in the channel exactly if a write succeeded. |
| `Handshake.RefusalWouldConnect` | src/core/network.cpp:975-988 | With messages as `send_ack` builds them: wherever the manager were to read the TELL, its refusal would leave A1 connected and no worker told. |
| `Handshake.ConversationOk` | src/core/network.cpp:975-1010 | Requests and replies as the parties build them satisfy what the theorems about the handshake ask for. |
| `Handshake.ConnectedIsReachable` | src/core/node_connection.cpp:201-254 | Whenever the requested worker is there, some run ends connected. |
| `Handshake.SampleConnects` | src/core/sys_cmd.cpp:421-573 | Concrete messages, packed and unpacked without loss, meet what the theorems ask for, and their handshake can be completed. |
| `ConnTable.CreateKeepsInv` | src/core/network.cpp:744-757 | Creating a connection on any descriptor, owned or not, keeps the tables in agreement with the log of creations and closings. |
| `ConnTable.CloseKeepsInv` | src/core/network.cpp:1095-1121 | So does closing any connection. |
| `ConnTable.OwnershipUnderReuse` | src/core/network.cpp:1095-1154 | Over every run with arbitrary reuse of descriptors: an owner is a listed connection on its descriptor, a connection is valid exactly if it is the last created on its descriptor, open and in a valid state, and descriptors are closed only for their last owner, once each. |
| `ConnTable.StaleCloseIsHarmless` | src/core/network.cpp:1110-1118 | Closing a connection whose descriptor has been reused closes nothing and invalidates nobody. |
| `ConnTable.ValidUntil` | src/core/network.cpp:1130-1154 | A new connection is valid exactly until it is closed, another one is created on its descriptor, or its state is set to one that is not valid. |
| `ConnTable.NoLeak` | src/core/network.cpp:1095-1121 | Over every run the connection created last on a descriptor is its owner, or the descriptor has been closed for it. |
| `ConnTable.Network.CreateConn` | src/core/network.cpp:744-757 | Makes the transition of the creation. |
| `ConnTable.Network.CloseConn` | src/core/network.cpp:1095-1121 | Makes the transition of the closing, and passes a descriptor to close exactly if the connection owns it. |
| `ConnTable.Network.IsValidConn` | src/core/network.cpp:1130-1154 | Answers the validity that the theorem characterises. |
| `ConnTable.Network.UpdateConnState` | src/core/network.cpp:1173-1180 | Sets the state of a listed connection only. |
| `Json.IntRoundTrip` | src/core/util/json/cJSON.c:103-182 | Every 64-bit integer, signed or unsigned, is read back with the value it stands for, before any rest that does not continue a number. |
| `Json.UnescapeEscape` | src/core/util/json/cJSON.c:208-264 | Every escape that the printer writes is undone by the parser. |
| `Json.StringRoundTrip` | src/core/util/json/cJSON.c:187-348 | Every string without NUL is read back, and the rest of the text is left. |
| `Json.NumeralParses` | src/core/util/json/cJSON.c:103-145 | Every number of the grammar (section 6 of RFC 8259) is read whole: as an integer if it has no fraction and its exponent, as an `int`, is zero, and as its own text otherwise. |
| `Json.WrappedExponent` | src/core/util/json/cJSON.c:127-140 | With an exponent that is a multiple of 2^32 every integer reads as itself. |
| `Json.Utf8Decodes` | src/core/util/json/cJSON.c:247-268 | The bytes written for a code are its UTF-8 encoding (section 3 of RFC 3629): they decode to the code. |
| `Json.HexValueIs` | src/core/util/json/cJSON.c:229-231 | A character counts as a hexadecimal digit of a value exactly if it is that digit, in either case. |
| `Json.PairIsUtf16` | src/core/util/json/cJSON.c:236-245 | A pair of surrogates is taken for its code (section 2.1 of RFC 2781) if and only if the seventh bit of its first half is not set; otherwise the result is too small by 2^16. |
| `Json.EscapeIsCode` | src/core/util/json/cJSON.c:229-268 | A complete escape stands for the UTF-8 bytes of its code, or for nothing if that is zero or half of a pair. |
| `Json.EscapesArePair` | src/core/util/json/cJSON.c:229-268 | Two complete escapes, the first of them a first half, stand for the UTF-8 bytes of the pair's code if and only if the pair is as above, and for nothing if the second is not a second half. |
| `Json.RoundTrip` | src/core/util/json/cJSON.c:392-708 | For every tree, depth and format: parsing the printed text followed by any rest gives the tree and that rest. |
| `Json.NormalPrints` | src/core/util/json/cJSON.c:424-457 | The tree that comes back prints the same in every format and depth. |
| `Json.CopyIsFaithful` | src/core/util/json/cJSON.c:370-389 | A document copied by printing and parsing is the same tree and has the same printed forms. |
| `JsonGrammar.Accepts` | src/core/util/json/cJSON.c:392-611 | Every document of the grammar, with any blanks between its parts, is parsed to its meaning, and the rest of the text is left. |
| `JsonGrammar.OnlyDocs` | src/core/util/json/cJSON.c:392-611 | And whatever is parsed is such a document with that meaning. |
| `JsonGrammar.AcceptsExactly` | src/core/util/json/cJSON.c:370-611 | So the parser reads a value and leaves a rest if and only if the text is a document with that meaning, followed by the rest. |
| `JsonGrammar.SpellIsPrefix` | src/core/util/json/cJSON.c:392-421 | The text of a document does not depend on what follows it. |
| `JsonCode.PrintStringPtr` | src/core/util/json/cJSON.c:287-348 | The two passes fill a buffer of the computed size without overrun and give the escaped string. |
| `JsonCode.PrintArray` | src/core/util/json/cJSON.c:493-560 | The precomputed length is enough for the composed array, which is the joined entries. |
| `JsonCode.PrintObject` | src/core/util/json/cJSON.c:613-708 | The precomputed length is enough for the composed object, which is its lines. |
| `JsonCode.PrintInteger` | src/core/util/json/cJSON.c:163-182 | 22 characters are enough for every 64-bit integer. |
| `JsonCode.PrintValue` | src/core/util/json/cJSON.c:424-457 | Computes the printing function. |
| `JsonCode.SkipFrom` | src/core/util/json/cJSON.c:363-367 | Stops at the first character behind the blanks. |
| `JsonCode.ParseNumberAt` | src/core/util/json/cJSON.c:103-145 | The digit loops, with the exponent kept in an `int`, compute the number parser. |
| `JsonCode.ParseStringAt` | src/core/util/json/cJSON.c:187-284 | The counting pass and the copying pass, with its raw step over four positions and its variables that keep old values, compute the string parser; it stops where the code leaves the text, its output or what was ever set. |
| `JsonCode.ParseItemsAt` | src/core/util/json/cJSON.c:460-491 | The loop over elements computes the recursive list parser. |
| `JsonCode.ParseMembersAt` | src/core/util/json/cJSON.c:563-611 | The loop over members computes the recursive member parser. |
| `JsonCode.ParseValueAt` | src/core/util/json/cJSON.c:392-421 | Computes the value parser, fails exactly where it fails and is undefined exactly where it is. |
| `JsonCode.ParseText` | src/core/util/json/cJSON.c:370-381 | Computes the parser of whole texts. |
| `JsonCode.Copy` | src/core/util/json/CJsonObject.cpp:25-28 | A copy by printing and parsing succeeds and is the same document. |
| `JsonBounds.CopyInside` | src/core/util/json/cJSON.c:198-235 | The copying pass stays inside what the counting pass has counted, and both inside the text, if and only if one scan of the text succeeds. |
| `JsonBounds.BodyBound` | src/core/util/json/cJSON.c:208-278 | The copying pass stops where its steps lead, which do not depend on what is written, and is defined if every code can be read. |
| `JsonBounds.Fits` | src/core/util/json/cJSON.c:198-235 | Where the scan succeeds, no more is written than was counted, whatever `sscanf` finds in the four positions. |
| `JsonBounds.TameIsParsed` | src/core/util/json/cJSON.c:187-284 | Where the scan succeeds and every code can be read, the string is parsed and its output fits. |
| `JsonBounds.FullIsTame` | src/core/util/json/cJSON.c:187-284 | That is so for every string in which each `\u` has four digits and each backslash a character behind it. |
| `JsonBounds.OverrunExample` | src/core/util/json/cJSON.c:229-231 | A string for which four bytes are set aside and nine written. |
| `JsonBounds.AstrayExample` | src/core/util/json/cJSON.c:229-231 | A string in which a backslash in the last of the four positions leads the copying pass past the closing quote. |
| `Ring.FindIsNearest` | src/core/nodes.cpp:200-220 | Lookup takes the point at the least distance around the circle, and that determines it. |
| `Ring.AddMovesOnlyToNew` | src/core/nodes.cpp:128-163 | Adding a node moves keys only to that node, even if its points collide with others. |
| `Ring.DeleteKeepsOthers` | src/core/nodes.cpp:165-188 | Deleting a node leaves every key of the others with its owner if and only if each listed point that another node holds is followed, among the points that stay, by one of the same node. |
| `Ring.DeleteMovesOnlyOwn` | src/core/nodes.cpp:165-188 | If none of its listed points is held by another, only the deleted node's keys move. |
| `Ring.AddThenDelete` | src/core/nodes.cpp:128-188 | Adding and deleting a node restores the ring if and only if none of its points was taken. |
| `Ring.CollisionLosesPoint` | src/core/nodes.cpp:181-183 | A concrete collision after which a surviving node has no point left. |
| `Ring.CollisionCovered` | src/core/nodes.cpp:181-183 | A concrete collision after which no key has another owner. |
| `Ring.AddPoints` | src/core/nodes.cpp:143-159 | The insertion loop keeps taken points and reports whether any point was free. |
| `Ring.ErasePoints` | src/core/nodes.cpp:181-183 | The loop erases exactly the listed points. |
| `Registry.IdInjective` | src/core/util/util.cpp:64-68 | Worker ids shorter than the buffer they are formatted into determine host, port and index. |
| `Registry.HostInjective` | src/core/nodes.cpp:18 | Host names shorter than the buffer they are formatted into determine host and port. |
| `Registry.NamesFit` | src/core/util/util.cpp:64-68 | Every name is as much of its text as fits into its buffer. |
| `Registry.CutIdsCollide` | src/core/util/util.cpp:64-68 | All workers of a host whose name takes up the buffer have the same id. |
| `Registry.RingsAlwaysSound` | src/core/nodes.cpp:48-188 | In every run from the empty registry every ring entry is a live worker of that type that lists the point. |
| `Registry.NodeAddedFull` | src/core/nodes.cpp:128-163 | Without collisions a worker is added with all its points, and no other worker loses one. |
| `Registry.ZkDeletedExact` | src/core/nodes.cpp:87-111 | Deleting a path removes it, its host and its workers, and the four maps still agree. |
| `Registry.HostCheckedExact` | src/core/nodes.cpp:17-46 | The host check drops at most the path that had the host, and the maps still agree. |
| `Registry.AddRegisters` | src/core/nodes.cpp:17-85 | From any state: a valid node is registered under its path and its host, unless the host belongs to a path that is at least as new, when nothing changes; of the other paths only the former holder of the host goes. |
| `Registry.ZkAddedExact` | src/core/nodes.cpp:48-85 | Adding a node keeps the maps in agreement if and only if it is refused, its path is new, or its data is the same or fits: same host and port, and more workers, or as many of the same type. Every worker keeps all its points in any case. |
| `Registry.MapsAgree` | src/core/nodes.cpp:17-188 | Over every run from the empty registry whose additions are of that kind, hosts and paths name each other, the workers are those of the registered nodes, and each holds all its points. |
| `Registry.AgreeLists` | src/core/nodes.cpp:62-65 | Then the worker ids are exactly host:port.i for the registered nodes. |
| `Registry.UpdateAgrees` | src/core/nodes.cpp:66-80 | For a host that is free or the path's own: a known path with other data leaves the maps in agreement if and only if the data fits. |
| `Registry.LastWorkerKeepsType` | src/core/nodes.cpp:72-77 | A node that comes again with another type and as many workers leaves its last worker registered with the old type. |
| `Registry.AddedTwice` | src/core/nodes.cpp:66-80 | For every two descriptions of a path: added one after the other, they leave the maps in agreement if and only if the second fits the first. |
| `Registry.UpdateExamples` | src/core/nodes.cpp:66-80 | Two concrete runs after which the maps disagree: one worker instead of two, and another type. |
| `Registry.Nodes.AddNode` | src/core/nodes.cpp:128-163 | Makes the transition and reports whether the worker is registered. |
| `Registry.Nodes.DelNode` | src/core/nodes.cpp:165-188 | Makes the transition of the deletion. |
| `Registry.Nodes.DelZkNode` | src/core/nodes.cpp:87-111 | The loop over workers ends in the state without the path. |
| `Registry.Nodes.CheckZkNodeHost` | src/core/nodes.cpp:17-46 | Decides and changes the maps as the function does. |
| `Registry.Nodes.AddZkNode` | src/core/nodes.cpp:48-85 | All branches, including the update branch, end in the state of the function. |
| `Dispatcher.CanChoose` | src/core/mysql/mysql_mgr.cpp:208-220 | A handler can always be chosen: the front of the busy list is never taken from an empty list. |
| `Dispatcher.DistributedKeepsInv` | src/core/mysql/mysql_mgr.cpp:72-106 | A round of the distributor keeps conservation, the pool and the wake-up rule, whichever handler it chooses. |
| `Dispatcher.TopKeepsInv` | src/core/mysql/mysql_mgr.cpp:108-150 | So does the top of a handler's loop, including putting itself on the free list. |
| `Dispatcher.ConnectKeepsInv` | src/core/mysql/mysql_mgr.cpp:125-139 | So does a connect, successful or not. |
| `Dispatcher.ClearKeepsInv` | src/core/mysql/mysql_mgr.cpp:295-302 | So does failing all its tasks after a failed connect. |
| `Dispatcher.RunKeepsInv` | src/core/mysql/mysql_mgr.cpp:38-302 | In every run from the start each task is in exactly one place or answered once, a coroutine that waits unsignalled has an empty queue, and every handler is on exactly one of two lists whose lengths sum to the connection count, at most the maximum; the run ends in a crash if and only if its last event is the timer taking a connection in use. |
| `Dispatcher.InUseOnFreeList` | src/core/mysql/mysql_mgr.cpp:207-238 | In every run the only handler on the free list that may not be waiting is the newest. |
| `Dispatcher.CrashExample` | src/core/mysql/mysql_mgr.cpp:264-277 | For every maximum: one task, whose new handler is still on the free list while it connects, and the timer takes its connection. |
| `Dispatcher.InternalDecreases` | src/core/mysql/mysql_mgr.cpp:72-170 | Every step of the dispatcher itself brings it closer to rest. |
| `Dispatcher.QuietMeansAnswered` | src/core/mysql/mysql_mgr.cpp:72-170 | At rest without a crash every task has been answered exactly once: no wake-up is lost. |
| `Dispatcher.AllAnswered` | src/core/mysql/mysql_mgr.cpp:38-302 | After every run from the start, left to itself, the dispatcher comes to rest within a computed number of steps, and then every task has been answered once if and only if there was no crash. |
| `Dispatcher.StepAnswers` | src/core/mysql/mysql_mgr.cpp:108-170 | A step answers a task exactly if there is a reason, and with that result: the database has answered it, its handler came to it too late, or its handler fails its tasks after a failed connect. |
| `Dispatcher.StepAsks` | src/core/mysql/mysql_mgr.cpp:142-155 | The database is asked for a task exactly if it is the first of a handler that comes to it with a connection and in time. |
| `Dispatcher.EveryAnswerHasItsReason` | src/core/mysql/mysql_mgr.cpp:108-170 | In every run every answer that was given has such a reason at the step that gave it. |
| `Dispatcher.ExecutedWasTaken` | src/core/mysql/mysql_mgr.cpp:142-155 | In every run, behind every task in execution there is the step that took it, as the first of a handler with a connection and not too old. |
| `Dispatcher.ClearingFollowsFailure` | src/core/mysql/mysql_mgr.cpp:125-139 | In every run a handler fails its tasks only behind a connect of its own that failed. |
| `Dispatcher.AnswersInOrder` | src/core/mysql/mysql_mgr.cpp:72-170 | In every run each handler answers its tasks in the order in which they were handed to it, and holds the rest in that order. |
| `Dispatcher.QueueInOrder` | src/core/mysql/mysql_mgr.cpp:38-70 | In every run the common queue holds the last tasks sent, in order: none is passed over. |
| `Dispatcher.ChosenIs` | src/core/mysql/mysql_mgr.cpp:207-238 | A free handler is chosen if there is one; a new one is made exactly if there is none and the limit allows it; otherwise the choice is a busy one, which goes to the end of the busy list. |
| `Dispatcher.NodeTasks.SendTask` | src/core/mysql/mysql_mgr.cpp:38-70 | Queues a new task and signals the distributor if it waits. |
| `Dispatcher.NodeTasks.AddToFreeList` | src/core/mysql/mysql_mgr.cpp:282-293 | Moves the handler to the front of the free list, once. |
| `Dispatcher.NodeTasks.GetCoData` | src/core/mysql/mysql_mgr.cpp:197-238 | Chooses, rotates or creates a handler as the function does. |
| `Dispatcher.NodeTasks.Distribute` | src/core/mysql/mysql_mgr.cpp:72-106 | One round of the distributor, with its loop of at most 50 tasks. |
| `Dispatcher.NodeTasks.HandleTop` | src/core/mysql/mysql_mgr.cpp:108-155 | The top of a handler's loop: waits, connects, refuses a task that is too old or takes it, as `StepAnswers` and `StepAsks` characterise. |
| `HttpBody.LengthIsValue` | src/core/util/http/http_parser.c:1517-1540 | An accepted length is the number its digits write, below the value that stands for no length; it is accepted exactly if the digits before the last are within the limit. |
| `HttpBody.ReadLength` | src/core/util/http/http_parser.c:1408-1422 | The 64-bit accumulation, whose product may wrap before the limit is looked at, never keeps a wrapped product. |
| `HttpBody.ChunkSizeIsValue` | src/core/util/http/http_parser.c:1899-1950 | The chunk size is the number its hexadecimal digits write, or is refused for good. |
| `HttpBody.UnhexIsDigit` | src/core/util/http/http_parser.c:222-239 | A byte counts as a hexadecimal digit of a value exactly if it is that digit, in either case. |
| `HttpBody.ChunkRuns` | src/core/util/http/http_parser.c:1899-2019 | A chunk as it is written, with any size digits and parameters within the limit for headers: the reports are its size, its data and its end, and the next chunk may start. |
| `HttpBody.BodyRuns` | src/core/util/http/http_parser.c:1899-2019 | Chunks with data, then one of size zero: exactly their data is reported, and the parser is in the trailer, whatever follows. |
| `HttpBody.BodyArrives` | src/core/util/http/http_parser.c:1847-2050 | The same however the stream is cut into reads. |
| `HttpBody.PayloadIsData` | src/core/util/http/http_parser.c:1980-2019 | The bytes among these reports are the data of the chunks, one after the other. |
| `HttpBody.AcceptsBodies` | src/core/util/http/http_parser.c:1899-2019 | A byte stream brings the parser to the trailer if and only if it is such a body. |
| `HttpBody.RefusedBecause` | src/core/util/http/http_parser.c:1899-2019 | Each error names what is wrong: a size line that is too long, a number too large, no number, or a line end that is not where it must be. |
| `HttpBody.IdentityBytes` | src/core/util/http/http_parser.c:1847-1878 | A body of known length: its bytes are reported, and the message is complete with the last of them and not before. |
| `HttpBody.EofBytes` | src/core/util/http/http_parser.c:1880-1885 | A body that ends with the stream: all its bytes are reported. |
| `HttpBody.MarkedFollows` | src/core/util/http/http_parser.c:1847-2019 | Keeping body bytes behind a mark loses nothing: reported and kept back together are what the byte-wise machine reports. |
| `HttpBody.BlockReports` | src/core/util/http/http_parser.c:1847-2050 | A block leaves the parser as its bytes one by one would, and reports the same if and only if it does not end in an error with bytes kept back. |
| `HttpBody.CutsAgree` | src/core/util/http/http_parser.c:1847-2050 | Cut anywhere, a stream gives the same body bytes, chunk and message events as byte by byte, unless a chunk ends badly. |
| `HttpBody.CutIndependence` | src/core/util/http/http_parser.c:2004-2010 | However the stream is cut, the parser ends in the same state; and reports are independent of all cuts if and only if no chunk's data is followed by a wrong byte. |
| `HttpBody.BadEndExample` | src/core/util/http/http_parser.c:2004-2010 | A concrete stream that loses a body byte in one block and not in two. |
| `HttpBody.Execute` | src/core/util/http/http_parser.c:1847-2050 | The loop that takes whole blocks, with its mark and its callback at the end, computes the block's reports and final state, which for a body are those of `BodyArrives` and `IdentityBytes`. |

## Left out

- Machine-level context switching (`coctx_swap`), epoll and kqueue, system-call hooks: a switch is atomic and events arrive in any order.
- Freed memory, allocation failure and 32-bit truncation of buffer sizes: sizes are unbounded and allocations succeed, also for zero bytes.
- The read of a freed node in `check_zk_node_host`, which logs the old node's path after `del_zk_node` has erased it.
- Heap representation of the wheel's and the scheduler's lists: sequences, which `Links` justifies; the classes `Timeout` and `EventLoop` hold them as values.
- Epoll items without a prepare callback, and the stack size rounding of `co_create_env`.
- Protobuf beyond the three header fields: bodies are byte strings with a parameter that says which parse; unknown header fields are a parameter.
- ProtoCodec.Decode: a buffer of 2^31 unread bytes or more, whose count `decode` also converts to `int`; and what a process does once it has parsed memory behind its buffer.
- HTTP messages on connections, keep-alive clocks and payload counters of the request loop: only whether a turn goes on.
- ServerLoop.Serve: the loop `on_handle_requests` is on values, turn by turn; its body is the method `ProcessTcpMsg`.
- `send_to`'s retry loop as a method: covered by the interleavings of appends and writes.
- Handshake.Apply: the handlers are on values, one function for each atomic step, because each party is only a few lines of one; traffic after the connection is established, and other system commands, are not part of it.
- Session and timer indices, the coroutine pool, the heartbeat loop, ZooKeeper version numbers: no invariant holds over whole runs there, or none that is hard.
- `m_node_conns`, `close_fds` and process shutdown.
- Wrap-around of the 64-bit connection id.
- JsonCode.ParseNumberAt: the values of doubles, which are kept as their text, and integers of 2^64 or more, where the code relies on `long double`.
- JsonBounds.Fits: one way only, because how much is written depends on the codes read; what is exact is where the copying pass goes (`CopyInside`). `sscanf` is as in glibc, where a bare `0x` reads as zero.
- cJSON editing functions and `CJsonObject` accessors: easy list operations.
- MD5, FNV and Murmur hashes: ring points and key hashes are arbitrary.
- Worker ids that do not fit their buffer of 128 bytes, and worker counts of 2^31 or more, in the agreement of the registry maps.
- Registry.Exact: not claimed for runs in which ring points collide; what holds then is `RingsAlwaysSound`.
- Dispatcher shutdown (`m_is_exit`), several database nodes at once, and the database itself: results are arbitrary.
- The time after which idle database connections are closed: it may happen to any handler on the free list that has one, at any time; and what a process does once a connection was taken away in use.
- Handshake.AfterMSend: another descriptor under the number of the channel that the manager waits for.
- HTTP header, URL and trailer states, upgrades, pausing and failing callbacks, and the empty block that stands for the end of the stream.
- Redis, logging, configuration, signals, module loading.
