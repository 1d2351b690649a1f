/** EnttecOpenDMXUSBDevice of the TypeScript version: the frame buffer it updates in place,
    the transmission flag and timer handle it keeps, and the calls it makes on its serial
    port. The runtime's pending timers and cycles are kept beside the device's own fields,
    and the events it emits are recorded in order. */
module OpenDmx {
  import opened Wrappers
  import opened FrameBuffer
  import opened FrameProtocol
  import TransmissionLoop

  /** The events the device emits: "ready" and "error". */
  datatype Notification = Ready | Error(cause: string)

  class EnttecOpenDmxUsbDevice {
    var shouldBeSending: bool
    var sendTimeout: Option<nat>
    var buffer: array<byte>
    const port: Port
    /** The constructor's startSending argument: start sending as soon as the port opens. */
    const autoStart: bool
    var events: seq<Notification>

    // The runtime's side: pending timers (handle to the interval of their send chain),
    // cycles begun and not yet settled, and the handle the next setTimeout returns.
    var timers: map<nat, nat>
    var inFlight: multiset<nat>
    var nextHandle: nat

    /** The frames written to the port so far, in order. */
    ghost var sent: seq<seq<byte>>

    /** The frame is 513 bytes with start code zero, timer handles are ordered, and the
        port has seen nothing but whole frames, each a break, a mark after break and a
        513-byte frame with start code zero. */
    ghost predicate Valid()
      reads this, buffer, port
    {
      buffer.Length == FrameSize && buffer[0] == 0 &&
      TransmissionLoop.Valid(Loop()) &&
      port.log == Transmitted(sent) &&
      (forall k :: 0 <= k < |sent| ==> |sent[k]| == FrameSize && sent[k][0] == 0)
    }

    /** The transmission state. */
    function Loop(): TransmissionLoop.Loop
      reads this, port
    {
      TransmissionLoop.Loop(port.isOpen, shouldBeSending, sendTimeout, timers, inFlight, nextHandle)
    }

    /** new EnttecOpenDMXUSBDevice(path, startSending): a zeroed frame, not sending, and a
        port on `path` with the DMX512 line settings that has not opened yet. */
    constructor (path: string, startSending: bool)
      ensures Valid()
      ensures fresh(buffer) && buffer[..] == Blank()
      ensures fresh(port) && port.path == path && port.settings == DmxLine && port.log == []
      ensures Loop() == TransmissionLoop.Initial()
      ensures autoStart == startSending && events == []
    {
      shouldBeSending := false;
      sendTimeout := None;
      buffer := new byte[FrameSize](_ => 0);
      port := new Port(path, DmxLine);
      autoStart := startSending;
      events := [];
      timers := map[];
      inFlight := multiset{};
      nextHandle := 0;
      sent := [];
    }

    /** The port's "open" handler: emit "ready", then start sending with interval 0 if the
        constructor asked for it. */
    method OnPortOpen()
      requires Valid()
      modifies this, port
      ensures Valid()
      ensures events == old(events) + [Ready]
      ensures var ready := TransmissionLoop.Opened(old(Loop()));
        Loop() == if autoStart then TransmissionLoop.Start(ready, 0).value else ready
      ensures buffer == old(buffer) && buffer[..] == old(buffer[..]) && port.log == old(port.log)
      ensures sent == old(sent)
    {
      port.Open();
      events := events + [Ready];
      if autoStart {
        var failure := StartSending(0);
      }
    }

    /** The port's "error" handler forwards the error. */
    method OnPortError(cause: string)
      requires Valid()
      modifies this
      ensures Valid()
      ensures events == old(events) + [Error(cause)]
      ensures Loop() == old(Loop()) && buffer == old(buffer) && sent == old(sent)
    {
      events := events + [Error(cause)];
    }

    /** startSending(interval): throws while the port is not open and then changes
        nothing; otherwise sets the flag and begins a send cycle. */
    method StartSending(interval: nat) returns (failure: Option<TransmissionLoop.LoopError>)
      requires Valid()
      modifies this
      ensures Valid()
      ensures var r := TransmissionLoop.Start(old(Loop()), interval);
        (failure.Some? <==> r.Failure?) &&
        Loop() == (if r.Success? then r.value else old(Loop()))
      ensures events == old(events) && buffer == old(buffer) && sent == old(sent)
    {
      if !port.isOpen {
        return Some(TransmissionLoop.DeviceNotReady);
      }
      shouldBeSending := true;
      Send(interval);
      return None;
    }

    /** The send closure: begin one cycle of the chain with this interval. In the source it
        is a private closure; the environment drives the device only through the calls and
        the event methods (CycleCompletes, CycleFails, TimerFires). */
    method Send(interval: nat)
      requires Valid()
      modifies this
      ensures Valid()
      ensures Loop() == old(Loop()).(inFlight := old(inFlight) + multiset{interval})
      ensures events == old(events) && buffer == old(buffer) && sent == old(sent)
    {
      inFlight := inFlight + multiset{interval};
    }

    /** stopSending: clear the flag and cancel the stored timer. */
    method StopSending()
      requires Valid()
      modifies this
      ensures Valid()
      ensures Loop() == TransmissionLoop.Stop(old(Loop()))
      ensures events == old(events) && buffer == old(buffer) && sent == old(sent)
    {
      shouldBeSending := false;
      if sendTimeout.Some? {
        timers := timers - {sendTimeout.value};
      }
    }

    /** sendUniverse: break on, break off, then write the whole frame; it resolves only
        once the write has called back. It is a step of CycleCompletes, not an event of its
        own. */
    method SendUniverse()
      requires Valid()
      modifies this, port
      ensures Valid()
      ensures port.log == old(port.log) + FrameActions(buffer[..])
      ensures sent == old(sent) + [buffer[..]]
      ensures Loop() == old(Loop()) && events == old(events) && buffer == old(buffer)
    {
      ghost var frame := buffer[..];
      port.Set(true, false);
      port.Set(false, false);
      port.Write(buffer[..]);
      sent := sent + [frame];
      assert sent[..|sent| - 1] == old(sent);
      assert forall k :: 0 <= k < |sent| ==> |sent[k]| == FrameSize && sent[k][0] == 0 by {
        forall k | 0 <= k < |sent| ensures |sent[k]| == FrameSize && sent[k][0] == 0 {
          if k < |old(sent)| { assert sent[k] == old(sent)[k]; } else { assert sent[k] == frame; }
        }
      }
    }

    /** The handler that runs once a cycle of the chain with this interval has resolved:
        schedule the next cycle if the flag is still set. It is the second step of
        CycleCompletes and runs only after SendUniverse; it is not an event of its own. */
    method Resolved(interval: nat)
      requires Valid() && interval in inFlight
      modifies this
      ensures Valid()
      ensures Loop() == TransmissionLoop.Complete(old(Loop()), interval)
      ensures events == old(events) && buffer == old(buffer) && sent == old(sent)
    {
      ghost var next := TransmissionLoop.Complete(Loop(), interval);
      TransmissionLoop.StepValid(Loop(), TransmissionLoop.CycleDone(interval));
      inFlight := inFlight - multiset{interval};
      if shouldBeSending {
        timers := timers[nextHandle := interval];
        sendTimeout := Some(nextHandle);
        nextHandle := nextHandle + 1;
      }
      assert Loop() == next;
    }

    /** A cycle of the chain with this interval runs to completion: the frame goes out, and
        the chain schedules its next cycle if the flag is still set. */
    method CycleCompletes(interval: nat)
      requires Valid() && interval in inFlight
      modifies this, port
      ensures Valid()
      ensures Loop() == TransmissionLoop.Complete(old(Loop()), interval)
      ensures port.log == old(port.log) + FrameActions(buffer[..])
      ensures sent == old(sent) + [buffer[..]]
      ensures events == old(events) && buffer == old(buffer)
    {
      SendUniverse();
      Resolved(interval);
    }

    /** A cycle of the chain with this interval is rejected: the error is emitted and the
        chain ends. */
    method CycleFails(interval: nat, cause: string)
      requires Valid() && interval in inFlight
      modifies this
      ensures Valid()
      ensures Loop() == TransmissionLoop.Fail(old(Loop()), interval)
      ensures events == old(events) + [Error(cause)]
      ensures buffer == old(buffer) && sent == old(sent)
    {
      inFlight := inFlight - multiset{interval};
      events := events + [Error(cause)];
    }

    /** A pending timer fires and its chain begins its next cycle. */
    method TimerFires(handle: nat)
      requires Valid() && handle in timers
      modifies this
      ensures Valid()
      ensures Loop() == TransmissionLoop.Fire(old(Loop()), handle)
      ensures events == old(events) && buffer == old(buffer) && sent == old(sent)
    {
      var interval := timers[handle];
      timers := timers - {handle};
      Send(interval);
    }

    /** setChannels(channels, clear): a clear replaces the frame with a new zeroed one
        first; then the input is checked and written in place. */
    method SetChannels(channels: Channels, clear: bool) returns (failure: Option<ChannelError>)
      requires Valid()
      modifies this, buffer
      ensures Valid()
      ensures var u := ApplyChannels(old(buffer[..]), channels, clear);
        buffer[..] == u.frame && failure == u.failure
      ensures clear ==> fresh(buffer)
      ensures !clear ==> buffer == old(buffer)
      ensures Loop() == old(Loop()) && events == old(events) && sent == old(sent)
    {
      ghost var before := buffer[..];
      StartCodeKept(before, channels, clear);
      if clear {
        buffer := new byte[FrameSize](_ => 0);
        buffer[0] := 0;
      }
      assert buffer[..] == Base(before, clear);
      match channels {
        case Bytes(data) =>
          if |data| > MaxChannels {
            return Some(OversizeUniverse);
          }
          CopyIn(buffer, data);
          failure := None;
        case Values(values) =>
          if |values| > MaxChannels {
            return Some(OversizeUniverse);
          }
          failure := WriteValues(buffer, values);
        case Entries(entries) =>
          failure := WriteEntries(buffer, entries);
        case Unsupported =>
          return Some(InvalidInputType);
      }
    }
  }

  /** A device on a port at "COM-MOCK" that starts sending when ready: after the port opens
      and the channels are set to [255, 0, 128], the first frame the port receives is the
      start code, those three values, and zeros up to 513 bytes. */
  method MockFirstWrite() returns (first: Action)
    ensures first == Action.Write([0, 255, 0, 128] + seq(FrameSize - 4, _ => 0))
  {
    var device := new EnttecOpenDmxUsbDevice("COM-MOCK", true);
    device.OnPortOpen();
    var failure := device.SetChannels(Values([255, 0, 128]), false);
    ValuesWritten(Blank(), [255, 0, 128], false);
    ghost var expected: seq<byte> := [0, 255, 0, 128] + seq(FrameSize - 4, _ => 0);
    assert device.buffer[..] == expected by {
      forall i | 0 <= i < FrameSize ensures device.buffer[..][i] == expected[i] {
        if 1 <= i <= 3 {
          assert device.buffer[..][(i - 1) + 1] as int == [255, 0, 128][i - 1];
        }
      }
    }
    device.CycleCompletes(0);
    first := device.port.log[2];
  }
}
