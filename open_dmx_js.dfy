/** EnttecOpenDMXUSBDevice of the older JavaScript version. It differs from the TypeScript
    one in what it emits ("startSending" and "stopSending", no "error"), in checking the type
    of the path it is given, and in leaving a rejected send cycle uncaught. */
module OpenDmxJs {
  import opened Wrappers
  import opened FrameBuffer
  import opened FrameProtocol
  import TransmissionLoop

  /** The events the device emits: "ready", "startSending" with the interval, and
      "stopSending". */
  datatype Notification = Ready | StartSending(interval: nat) | StopSending

  /** The constructor's path argument: a string, or any other JavaScript value. */
  datatype PathArgument = Text(path: string) | NotText

  /** The TypeError the constructor throws for a path that is not a string. */
  datatype ConstructionError = PathNotString

  class EnttecOpenDmxUsbDevice {
    var shouldBeSending: bool
    var sendTimeout: Option<nat>
    var buffer: array<byte>
    const port: Port
    /** The constructor's startSending argument: start sending as soon as the port opens. */
    const autoStart: bool
    var events: seq<Notification>

    // The runtime's side: pending timers (handle to the interval of their send chain),
    // cycles begun and not yet settled, and the handle the next setTimeout returns.
    var timers: map<nat, nat>
    var inFlight: multiset<nat>
    var nextHandle: nat

    /** The frames written to the port so far, in order. */
    ghost var sent: seq<seq<byte>>

    /** The frame is 513 bytes with start code zero, timer handles are ordered, and the
        port has seen nothing but whole frames, each a break, a mark after break and a
        513-byte frame with start code zero. */
    ghost predicate Valid()
      reads this, buffer, port
    {
      buffer.Length == FrameSize && buffer[0] == 0 &&
      TransmissionLoop.Valid(Loop()) &&
      port.log == Transmitted(sent) &&
      (forall k :: 0 <= k < |sent| ==> |sent[k]| == FrameSize && sent[k][0] == 0)
    }

    /** The transmission state. */
    function Loop(): TransmissionLoop.Loop
      reads this, port
    {
      TransmissionLoop.Loop(port.isOpen, shouldBeSending, sendTimeout, timers, inFlight, nextHandle)
    }

    /** The constructor once the path has passed its check: a zeroed frame, not sending,
        and a port on `path` with the DMX512 line settings that has not opened yet. */
    constructor (path: string, startSending: bool)
      ensures Valid()
      ensures fresh(buffer) && buffer[..] == Blank()
      ensures fresh(port) && port.path == path && port.settings == DmxLine && port.log == []
      ensures Loop() == TransmissionLoop.Initial()
      ensures autoStart == startSending && events == []
    {
      shouldBeSending := false;
      sendTimeout := None;
      buffer := new byte[FrameSize](_ => 0);
      port := new Port(path, DmxLine);
      autoStart := startSending;
      events := [];
      timers := map[];
      inFlight := multiset{};
      nextHandle := 0;
      sent := [];
    }

    /** The port's "open" handler: emit "ready", then start sending with interval 0 if the
        constructor asked for it. */
    method OnPortOpen()
      requires Valid()
      modifies this, port
      ensures Valid()
      ensures events == old(events) + [Ready] + (if autoStart then [Notification.StartSending(0)] else [])
      ensures var ready := TransmissionLoop.Opened(old(Loop()));
        Loop() == if autoStart then TransmissionLoop.Start(ready, 0).value else ready
      ensures buffer == old(buffer) && buffer[..] == old(buffer[..]) && port.log == old(port.log)
      ensures sent == old(sent)
    {
      port.Open();
      events := events + [Ready];
      if autoStart {
        var failure := StartSending(0);
      }
    }

    /** startSending(interval): throws while the port is not open and then changes
        nothing; otherwise emits "startSending", sets the flag and begins a send cycle. */
    method StartSending(interval: nat) returns (failure: Option<TransmissionLoop.LoopError>)
      requires Valid()
      modifies this
      ensures Valid()
      ensures var r := TransmissionLoop.Start(old(Loop()), interval);
        (failure.Some? <==> r.Failure?) &&
        Loop() == (if r.Success? then r.value else old(Loop())) &&
        events == (if r.Success? then old(events) + [Notification.StartSending(interval)] else old(events))
      ensures buffer == old(buffer) && sent == old(sent)
    {
      if !port.isOpen {
        return Some(TransmissionLoop.DeviceNotReady);
      }
      events := events + [Notification.StartSending(interval)];
      shouldBeSending := true;
      Send(interval);
      return None;
    }

    /** The send closure: begin one cycle of the chain with this interval. In the source it
        is a private closure; the environment drives the device only through the calls and
        the event methods (CycleCompletes, CycleFails, TimerFires). */
    method Send(interval: nat)
      requires Valid()
      modifies this
      ensures Valid()
      ensures Loop() == old(Loop()).(inFlight := old(inFlight) + multiset{interval})
      ensures events == old(events) && buffer == old(buffer) && sent == old(sent)
    {
      inFlight := inFlight + multiset{interval};
    }

    /** stopSending: emit "stopSending", clear the flag and cancel the stored timer. */
    method StopSending()
      requires Valid()
      modifies this
      ensures Valid()
      ensures Loop() == TransmissionLoop.Stop(old(Loop()))
      ensures events == old(events) + [Notification.StopSending]
      ensures buffer == old(buffer) && sent == old(sent)
    {
      events := events + [Notification.StopSending];
      shouldBeSending := false;
      if sendTimeout.Some? {
        timers := timers - {sendTimeout.value};
      }
    }

    /** sendUniverse: break on, break off, then write the whole frame; it resolves only
        once the write has called back. It is a step of CycleCompletes, not an event of its
        own. */
    method SendUniverse()
      requires Valid()
      modifies this, port
      ensures Valid()
      ensures port.log == old(port.log) + FrameActions(buffer[..])
      ensures sent == old(sent) + [buffer[..]]
      ensures Loop() == old(Loop()) && events == old(events) && buffer == old(buffer)
    {
      ghost var frame := buffer[..];
      port.Set(true, false);
      port.Set(false, false);
      port.Write(buffer[..]);
      sent := sent + [frame];
      assert sent[..|sent| - 1] == old(sent);
      assert forall k :: 0 <= k < |sent| ==> |sent[k]| == FrameSize && sent[k][0] == 0 by {
        forall k | 0 <= k < |sent| ensures |sent[k]| == FrameSize && sent[k][0] == 0 {
          if k < |old(sent)| { assert sent[k] == old(sent)[k]; } else { assert sent[k] == frame; }
        }
      }
    }

    /** The handler that runs once a cycle of the chain with this interval has resolved:
        schedule the next cycle if the flag is still set. It is the second step of
        CycleCompletes and runs only after SendUniverse; it is not an event of its own. */
    method Resolved(interval: nat)
      requires Valid() && interval in inFlight
      modifies this
      ensures Valid()
      ensures Loop() == TransmissionLoop.Complete(old(Loop()), interval)
      ensures events == old(events) && buffer == old(buffer) && sent == old(sent)
    {
      ghost var next := TransmissionLoop.Complete(Loop(), interval);
      TransmissionLoop.StepValid(Loop(), TransmissionLoop.CycleDone(interval));
      inFlight := inFlight - multiset{interval};
      if shouldBeSending {
        timers := timers[nextHandle := interval];
        sendTimeout := Some(nextHandle);
        nextHandle := nextHandle + 1;
      }
      assert Loop() == next;
    }

    /** A cycle of the chain with this interval runs to completion: the frame goes out, and
        the chain schedules its next cycle if the flag is still set. */
    method CycleCompletes(interval: nat)
      requires Valid() && interval in inFlight
      modifies this, port
      ensures Valid()
      ensures Loop() == TransmissionLoop.Complete(old(Loop()), interval)
      ensures port.log == old(port.log) + FrameActions(buffer[..])
      ensures sent == old(sent) + [buffer[..]]
      ensures events == old(events) && buffer == old(buffer)
    {
      SendUniverse();
      Resolved(interval);
    }

    /** A cycle of the chain with this interval is rejected: nothing catches the
        rejection, so nothing is emitted, and the chain ends. */
    method CycleFails(interval: nat)
      requires Valid() && interval in inFlight
      modifies this
      ensures Valid()
      ensures Loop() == TransmissionLoop.Fail(old(Loop()), interval)
      ensures events == old(events) && buffer == old(buffer) && sent == old(sent)
    {
      inFlight := inFlight - multiset{interval};
    }

    /** A pending timer fires and its chain begins its next cycle. */
    method TimerFires(handle: nat)
      requires Valid() && handle in timers
      modifies this
      ensures Valid()
      ensures Loop() == TransmissionLoop.Fire(old(Loop()), handle)
      ensures events == old(events) && buffer == old(buffer) && sent == old(sent)
    {
      var interval := timers[handle];
      timers := timers - {handle};
      Send(interval);
    }

    /** setChannels(channels, clear): a clear replaces the frame with a new zeroed one
        first; then the input is checked and written in place. */
    method SetChannels(channels: Channels, clear: bool) returns (failure: Option<ChannelError>)
      requires Valid()
      modifies this, buffer
      ensures Valid()
      ensures var u := ApplyChannels(old(buffer[..]), channels, clear);
        buffer[..] == u.frame && failure == u.failure
      ensures clear ==> fresh(buffer)
      ensures !clear ==> buffer == old(buffer)
      ensures Loop() == old(Loop()) && events == old(events) && sent == old(sent)
    {
      ghost var before := buffer[..];
      StartCodeKept(before, channels, clear);
      if clear {
        buffer := new byte[FrameSize](_ => 0);
        buffer[0] := 0;
      }
      assert buffer[..] == Base(before, clear);
      match channels {
        case Bytes(data) =>
          if |data| > MaxChannels {
            return Some(OversizeUniverse);
          }
          CopyIn(buffer, data);
          failure := None;
        case Values(values) =>
          if |values| > MaxChannels {
            return Some(OversizeUniverse);
          }
          failure := WriteValues(buffer, values);
        case Entries(entries) =>
          failure := WriteEntries(buffer, entries);
        case Unsupported =>
          return Some(InvalidInputType);
      }
    }
  }

  /** new EnttecOpenDMXUSBDevice(path, startSending): a TypeError for a path that is not a
      string, otherwise a new device on that path. */
  method Create(path: PathArgument, startSending: bool)
    returns (r: Result<EnttecOpenDmxUsbDevice, ConstructionError>)
    ensures r.Failure? <==> path.NotText?
    ensures r.Success? ==>
      fresh(r.value) && r.value.Valid() &&
      r.value.port.path == path.path && r.value.port.settings == DmxLine &&
      r.value.buffer[..] == Blank() && r.value.Loop() == TransmissionLoop.Initial() &&
      r.value.autoStart == startSending && r.value.events == []
  {
    if path.NotText? {
      return Failure(PathNotString);
    }
    var device := new EnttecOpenDmxUsbDevice(path.path, startSending);
    return Success(device);
  }
}
