# Open DMX USB driver: frame buffer and transmission control

This project models the core of `EnttecOpenDMXUSBDevice`, a Node.js driver for the Enttec
Open DMX USB adapter, and proves properties of that model in Dafny. The driver keeps one
DMX512 frame of 513 bytes. Slot 0 is the start code and slots 1..512 are the channels. The
driver sends that frame over the serial port again and again: a break, then the mark after
break, then the whole frame. The core exists in two versions:

- `src/index.ts`, the TypeScript version;
- `index.js`, an older JavaScript version of the same class.

Both are modelled. They share every specification function, and each has its own class. The
one difference in the shared update, the radix of `parseInt`, is listed under "## Left out".

| file | module | what it holds |
|---|---|---|
| wrappers.dfy | `Wrappers` | `Option` and `Result` |
| frame_buffer.dfy | `FrameBuffer` | the byte type, the frame, the three input shapes of `setChannels`, the update as functions, the in-place writes as methods on the frame array, and lemmas |
| frame_protocol.dfy | `FrameProtocol` | the transport calls of one frame, a run of frames, and the serial port as an object that records the calls made on it |
| transmission_loop.dfy | `TransmissionLoop` | start/stop, cycles and timers as a pure state machine, with lemmas over runs of events |
| device_registry.dfy | `DeviceRegistry` | `listDevices` and `getFirstAvailableDevice` as pure functions over the port list, including the lodash matcher of the JavaScript version |
| open_dmx.dfy | `OpenDmx` | the TypeScript class, proved against the functions above, and the scenario of a mock port |
| open_dmx_js.dfy | `OpenDmxJs` | the JavaScript class and its constructor's path check |

How the pieces are modelled:

- **Frame buffer.** The class holds the frame as an `array<byte>` of length 513. `setChannels`
  updates it in place. A clear replaces it with a new zeroed array, as `Buffer.alloc` does.
- **Input shapes.** The argument of `setChannels` is a `Channels` value:
  - `Bytes` for a Buffer;
  - `Values` for an array of numbers;
  - `Entries` for a plain object, given as its (channel, value) entries in the order the engine enumerates them;
  - `Unsupported` for any other value.
- **Exceptions.** Each thrown exception becomes a returned error value. An update that fails
  part-way keeps what it wrote before the failure, as the source does.
- **Transmission state.** The class keeps `shouldBeSending` and the stored timer handle.
  Beside them it keeps what the runtime holds for the device:
  - the pending timers, from handle to the interval of their send chain;
  - the cycles begun and not yet settled;
  - the next timer handle.
  Three events drive the class: a cycle completes, a cycle fails, a timer fires. Each is one
  atomic method, and `Loop()` maps the fields to the state of `TransmissionLoop`.
- **Frames.** A completing cycle makes three calls on the port: break on, break off, write
  the frame. The port records the calls in order. A ghost field keeps the frames sent, and the
  class invariant ties the port's record to them. Every frame written is 513 bytes with start
  code 0.
- **Events.** Emitted events are recorded in order in `events`.

Behaviour of the code worth knowing:

- A Buffer or array of more than 512 values is refused only after the optional clear. So with
  `clear` set, the frame has already been zeroed when the error is raised.
- Array values and object entries are checked one at a time while they are written. An invalid
  one throws after the earlier ones are written.
- Calling `startSending` while already sending begins a second send chain beside the first
  (`TransmissionLoop.RestartAddsChain`).
- `stopSending` cancels only the timer whose handle was stored last. The handle is never reset
  to null.
- The transport's callbacks ignore their error argument, so a frame whose calls report an error
  still resolves. A cycle fails only when its promise is rejected (`CycleFails`). The
  TypeScript version emits `error` then. The JavaScript version leaves the rejection uncaught
  and emits nothing.
- The break and the mark after break are each held by a 0 ms timer.

The two classes, `OpenDmx.EnttecOpenDmxUsbDevice` and `OpenDmxJs.EnttecOpenDmxUsbDevice`, repeat
`Valid`, `Loop`, `Send`, `SendUniverse`, `Resolved`, `CycleCompletes`, `TimerFires` and
`SetChannels` nearly word for word, because the source has the same class in two files. They
differ in the events they emit, in `OnPortError` and in the constructor's path check. `Send`,
`SendUniverse` and `Resolved` are steps of the event methods; in the source they are private
closures, and callers are meant to use only the calls and the three event methods.

## Model

| member | source | states |
|---|---|---|
| FrameBuffer.FirstInvalid | src/index.ts:99-100 | the index of the first array value outside [0, 255]: every earlier value is in range and the value there is not |
| FrameBuffer.FirstFaulty | src/index.ts:113-116 | the index of the first object entry refused for its channel number or its value; every earlier entry passes both checks |
| FrameBuffer.AssignValuesEffect | src/index.ts:99-102 | writing array values stops at the first out-of-range value with InvalidChannelValue; the values before it are in slots at.., every other slot is unchanged, and it succeeds exactly when all values are in range |
| FrameBuffer.AssignEntriesEffect | src/index.ts:104-119 | writing object entries stops at the first refused entry with that entry's error (a channel outside [1, 512] before a value outside [0, 255]); of the entries before it, the last one naming a slot decides its value, and slots none of them names are unchanged |
| FrameBuffer.ApplyKeepsUnnamed | src/index.ts:87-121 | every slot the input does not name keeps the value of the frame the update started from (old frame, or zero after a clear), whether the update succeeds or fails |
| FrameBuffer.StartCodeKept | src/index.ts:87-121 | setChannels never writes slot 0: the start code afterwards is the old one, or 0 after a clear |
| FrameBuffer.ClearZeroesUnnamed | src/index.ts:88-91 | with clear, every slot the input does not name ends at 0, whatever the frame held before |
| FrameBuffer.BytesCopied | src/index.ts:93-95 | a Buffer of n <= 512 bytes succeeds, lands in slots 1..n, and leaves slot 0 and slots after n as they were (or zero after a clear) |
| FrameBuffer.OversizeRejected | src/index.ts:88-97 | a Buffer or array of more than 512 values fails with OversizeUniverse and the frame is the old one, or blank after a clear |
| FrameBuffer.UnsupportedRejected | src/index.ts:88-120 | a value that is neither a Buffer, an array nor an object fails with InvalidInputType, leaving the old frame or the zeroed one after a clear |
| FrameBuffer.ValuesWritten | src/index.ts:96-102 | an array of at most 512 numbers fails exactly when some value is outside [0, 255]; slot i+1 holds value i for every i before the first bad value, and the other slots keep their values |
| FrameBuffer.ApplyIdempotent | src/index.ts:87-121 | applying the same setChannels call a second time leaves the frame and the outcome unchanged |
| FrameBuffer.EntriesIdempotent | src/index.ts:104-119 | writing the same object entries twice gives the same frame and error as writing them once |
| FrameBuffer.CopyAt | src/index.ts:93-95 | defines the Buffer copy at offset 1: slot 0 kept, slots 1..n take the bytes, the later slots kept; BytesCopied states it for setChannels |
| FrameBuffer.AssignValues | src/index.ts:99-102 | defines the value-by-value write of an array and keeps the frame length; AssignValuesEffect states what it writes and when it fails |
| FrameBuffer.EntryFault | src/index.ts:113-116 | an entry is accepted exactly when its channel is in [1, 512] and its value in [0, 255]; a bad channel gives InvalidChannelNumber whatever the value, and a good channel with a bad value gives InvalidChannelValue |
| FrameBuffer.AssignEntries | src/index.ts:104-119 | defines the entry-by-entry write of an object and keeps the frame length; AssignEntriesEffect states the resulting frame and error |
| FrameBuffer.ApplyChannels | src/index.ts:87-121 | defines setChannels on the frame and keeps it 513 bytes; ApplyKeepsUnnamed, StartCodeKept, ClearZeroesUnnamed, BytesCopied, OversizeRejected, UnsupportedRejected, ValuesWritten and ApplyIdempotent state its properties |
| FrameBuffer.CopyIn | src/index.ts:95 | the Buffer copy into the frame array at offset 1 gives exactly the frame with slots 1..n replaced |
| FrameBuffer.WriteValues | src/index.ts:99-102 | the loop over array values leaves the frame array and the error that the value-by-value update specifies |
| FrameBuffer.WriteEntries | src/index.ts:104-119 | the loop over object entries leaves the frame array and the error that the entry-by-entry update specifies |
| FrameProtocol.FrameActions | src/index.ts:127-139 | one frame is three calls: break on, break off (rts low in both), then the write of the frame; TransmittedShape and WriteFollowsBreak state it for a run |
| FrameProtocol.TransmittedShape | src/index.ts:127-139 | a run of frames on the port is three calls per frame, and frame k is exactly break on, break off, write of frame k |
| FrameProtocol.WriteFollowsBreak | src/index.ts:129-133 | every write in a run of frames writes one of the frames and comes right after break on and break off (brk true then false, rts false) |
| TransmissionLoop.Start | src/index.ts:52-59 | defines startSending on the loop; it touches no timer and keeps handles ordered; StartGuarded states when it fails |
| TransmissionLoop.Stop | src/index.ts:74-78 | clears the flag, cancels the stored timer, keeps every other timer, every cycle and the stored handle (never reset); StopLeavesOnlyInFlight and StoppedLoopWindsDown state what follows |
| TransmissionLoop.Complete | src/index.ts:60-64 | a completed cycle keeps the flag and cancels no timer; CompleteSchedulesIffSending states when it schedules |
| TransmissionLoop.Fail | src/index.ts:65 | a failed cycle ends its chain (one fewer chain alive), changes no timer, and leaves the flag and the stored handle as they were |
| TransmissionLoop.Fire | src/index.ts:63 | a fired timer is gone and its chain has a cycle in flight; the flag and the stored handle are untouched |
| TransmissionLoop.StartGuarded | src/index.ts:52-69 | startSending fails exactly when the port is not open, and then changes nothing; otherwise the loop is sending with one more cycle in flight |
| TransmissionLoop.CompleteSchedulesIffSending | src/index.ts:60-64 | a completed cycle keeps its chain alive exactly when the flag is set; it then leaves a timer with the chain's interval, stored as the send timeout, and otherwise changes no timer |
| TransmissionLoop.StoppedLoopWindsDown | src/index.ts:74-78 | once the flag is cleared and no start follows, the flag stays cleared, no chain is added, and at most one frame per chain still alive is written |
| TransmissionLoop.StopLeavesOnlyInFlight | src/index.ts:74-78 | when the only pending timer is the stored one, stopSending cancels it and no frame is written after the stop beyond the cycles already in flight |
| TransmissionLoop.SendingPersists | src/index.ts:58-68 | while no stop and no failure happens, the loop stays sending and no send chain dies |
| TransmissionLoop.SingleChainStep | src/index.ts:52-78 | a single send chain (one cycle or one timer, the timer being the stored one) stays single under every event except a start while the chain is alive |
| TransmissionLoop.RestartAddsChain | src/index.ts:52-68 | startSending while a chain waits on a timer creates a second chain, and the first chain's timer is then not the one stopSending would cancel |
| DeviceRegistry.ListDevices | src/index.ts:145-150 | defines listDevices as a filter then map over the port list; ListDevicesMembers and ListDevicesConcat state which paths and in what order |
| DeviceRegistry.GetFirstAvailableDevice | src/index.ts:157-162 | returns a listed device or DeviceNotFound; FirstAvailableIsEarliestMatch states which one and when it fails |
| DeviceRegistry.ListDevicesByPattern | index.js:153-158 | defines the JavaScript listing through the lodash matcher; ListingsAgree states that it equals ListDevices |
| DeviceRegistry.ListDevicesMembers | src/index.ts:145-150 | a path is listed exactly when some listed port with that path has vendor id "0403" and product id "6001" |
| DeviceRegistry.ListDevicesConcat | src/index.ts:147-149 | listing keeps the order of the ports: listing a+b gives the listing of a followed by that of b |
| DeviceRegistry.FirstAvailableIsEarliestMatch | src/index.ts:157-162 | getFirstAvailableDevice fails exactly when no port matches, and otherwise returns the path of the earliest matching port |
| DeviceRegistry.ListingsAgree | index.js:153-158 | the lodash-matcher listing of the JavaScript version equals the explicit comparison of the TypeScript version for every port list |
| DeviceRegistry.IdentityMatch | index.js:156 | a port matches the pattern {vendorId: "0403", productId: "6001"} exactly when both of its ids equal those |
| OpenDmx.EnttecOpenDmxUsbDevice.constructor | src/index.ts:12-32 | a new device has a zeroed 513-byte frame, is not sending, has nothing pending, and owns a port on the path with 250000 baud, 8 data bits, 2 stop bits, no parity, not yet open |
| OpenDmx.EnttecOpenDmxUsbDevice.OnPortOpen | src/index.ts:34-37 | when the port opens the device emits ready and, if asked at construction, starts sending with interval 0 |
| OpenDmx.EnttecOpenDmxUsbDevice.OnPortError | src/index.ts:42-44 | a port error is emitted as an error event and changes nothing else |
| OpenDmx.EnttecOpenDmxUsbDevice.StartSending | src/index.ts:52-69 | throws DeviceNotReady while the port is closed and changes nothing; otherwise sets the flag and begins a cycle, as the loop's start specifies |
| OpenDmx.EnttecOpenDmxUsbDevice.Send | src/index.ts:58-59 | the send closure begins one cycle of its chain |
| OpenDmx.EnttecOpenDmxUsbDevice.StopSending | src/index.ts:74-78 | clears the flag and cancels the stored timer, as the loop's stop specifies |
| OpenDmx.EnttecOpenDmxUsbDevice.SendUniverse | src/index.ts:127-139 | appends to the port exactly break on, break off and a write of the whole current frame, in that order, keeping the class invariant |
| OpenDmx.EnttecOpenDmxUsbDevice.Resolved | src/index.ts:60-64 | after a cycle resolves, the next one is scheduled only if the flag is still set |
| OpenDmx.EnttecOpenDmxUsbDevice.CycleCompletes | src/index.ts:58-64 | a completing cycle writes the current frame after a break and a mark after break, then reschedules only while sending |
| OpenDmx.EnttecOpenDmxUsbDevice.CycleFails | src/index.ts:65 | a rejected cycle emits error and schedules nothing |
| OpenDmx.EnttecOpenDmxUsbDevice.TimerFires | src/index.ts:63 | a firing timer begins the next cycle of its chain without looking at the flag |
| OpenDmx.EnttecOpenDmxUsbDevice.SetChannels | src/index.ts:87-121 | the frame array afterwards and the error are those of the specified update; a clear allocates a new frame; the frame stays 513 bytes with start code 0 |
| OpenDmx.MockFirstWrite | src/index.ts:23-37 | on a mock port at "COM-MOCK" with automatic start, after setChannels([255, 0, 128]) the first write carries 0, 255, 0, 128 and zeros up to 513 bytes |
| OpenDmxJs.Create | index.js:14-19 | a path that is not a string gives a TypeError; a string gives a new device on that path |
| OpenDmxJs.EnttecOpenDmxUsbDevice.constructor | index.js:21-31 | a new device has a zeroed 513-byte frame, is not sending, and owns a closed port on the path with the DMX512 line settings |
| OpenDmxJs.EnttecOpenDmxUsbDevice.OnPortOpen | index.js:33-38 | when the port opens the device emits ready and, if asked, starts sending with interval 0 (emitting startSending) |
| OpenDmxJs.EnttecOpenDmxUsbDevice.StartSending | index.js:46-63 | throws DeviceNotReady while the port is closed and changes nothing; otherwise emits startSending with the interval, sets the flag and begins a cycle |
| OpenDmxJs.EnttecOpenDmxUsbDevice.Send | index.js:55-56 | the send closure begins one cycle of its chain |
| OpenDmxJs.EnttecOpenDmxUsbDevice.StopSending | index.js:68-75 | emits stopSending, clears the flag and cancels the stored timer |
| OpenDmxJs.EnttecOpenDmxUsbDevice.SendUniverse | index.js:135-146 | appends to the port exactly break on, break off and a write of the whole current frame, in that order |
| OpenDmxJs.EnttecOpenDmxUsbDevice.Resolved | index.js:57-59 | after a cycle resolves, the next one is scheduled only while the flag is set |
| OpenDmxJs.EnttecOpenDmxUsbDevice.CycleCompletes | index.js:55-60 | a completing cycle writes the current frame after a break and a mark after break, then reschedules only while sending |
| OpenDmxJs.EnttecOpenDmxUsbDevice.CycleFails | index.js:55-56 | a rejected cycle ends its chain; nothing is emitted and nothing is scheduled |
| OpenDmxJs.EnttecOpenDmxUsbDevice.TimerFires | index.js:58 | a firing timer begins the next cycle of its chain |
| OpenDmxJs.EnttecOpenDmxUsbDevice.SetChannels | index.js:84-129 | the same update as the TypeScript version: the frame array and error are those of the specified update, and start code 0 is kept |

`getFirstAvailableDevice` of the JavaScript version (index.js:165-173) takes the first element
of its own listing. By `DeviceRegistry.ListingsAgree`, that listing is the TypeScript one, so
`DeviceRegistry.GetFirstAvailableDevice` models both versions.

## Left out

- Serial I/O: opening the port, the line-control calls, the write and `SerialPort.list`. The port is an object that records the calls made on it. The port list is a parameter.
- Timing: the 0 ms delays between the break, the mark after break and the write, and the wall-clock length of `interval`. Timers are events and carry their interval only as data.
- Promise and event-loop interleaving: a cycle is one atomic step, and its write reads the frame at completion. A `setChannels` that lands between a cycle's break and its write is therefore not modelled separately.
- The error argument of the transport callbacks: the source ignores it, so the model has no transport error on a completing cycle.
- EventEmitter delivery: emitted events are only recorded. The process-termination behaviour of an unhandled `error` event or an unhandled rejection is not modelled.
- JavaScript value quirks, since channel numbers and values are integers here:
  - object keys that `parseInt` turns into NaN, which pass the range check unnoticed;
  - non-integer values truncated by the Buffer;
  - holes in sparse arrays, which `forEach` skips;
  - `null`, for which `Object.entries` throws its own TypeError;
  - the radix of `parseInt`: the TypeScript version passes 10, the JavaScript one none, so a
    key such as "0x10" names channel 16 in the JavaScript version and is refused in the
    TypeScript one. Both versions here take entries whose channel is already an integer.
- Intervals are natural numbers here, while the source takes any number (`1000 / 44`, say).
  The model carries an interval only as data, so nothing it proves depends on this.
- The enumeration order of object keys is not derived. The entries arrive in the order the engine gives them.
- OpenDmxJs.Create: the constructor's TypeError is returned as an error value instead of being thrown, since a Dafny constructor cannot fail.
