/** What one DMX512 frame looks like on the serial line: a break, then the mark after break,
    then the whole 513-byte frame. The serial port is an abstract transport that records
    the calls made on it, in order. */
module FrameProtocol {
  import opened FrameBuffer

  /** A call on the transport: setting the line-control signals, or writing bytes. */
  datatype Action = SetLines(brk: bool, rts: bool) | Write(data: seq<byte>)

  datatype Parity = NoParity | Even | Odd

  /** The options a serial port is opened with. */
  datatype SerialSettings = SerialSettings(baudRate: nat, dataBits: nat, stopBits: nat, parity: Parity)

  /** The line format of DMX512: 250 kbaud, 8 data bits, 2 stop bits, no parity. */
  const DmxLine := SerialSettings(250000, 8, 2, NoParity)

  /** The calls that transmit one frame: break on, break off (the mark after break), then
      the frame. */
  function FrameActions(frame: seq<byte>): (acts: seq<Action>)
    ensures |acts| == 3 && acts[2] == Write(frame)
    ensures forall i :: 0 <= i < 2 ==> acts[i].SetLines? && !acts[i].rts
    ensures acts[0].brk && !acts[1].brk
  {
    [SetLines(true, false), SetLines(false, false), Write(frame)]
  }

  /** The transport calls of a run of frames sent one after another. */
  function Transmitted(frames: seq<seq<byte>>): seq<Action>
    decreases |frames|
  {
    if frames == [] then []
    else Transmitted(frames[..|frames| - 1]) + FrameActions(frames[|frames| - 1])
  }

  /** A run of frames is three calls per frame, and frame k occupies calls 3k..3k+2. */
  lemma {:induction false} TransmittedShape(frames: seq<seq<byte>>)
    ensures |Transmitted(frames)| == 3 * |frames|
    ensures forall k :: 0 <= k < |frames| ==>
      Transmitted(frames)[3 * k..3 * k + 3] == FrameActions(frames[k])
    decreases |frames|
  {
    if frames != [] {
      var init := frames[..|frames| - 1];
      TransmittedShape(init);
      var t := Transmitted(frames);
      assert t == Transmitted(init) + FrameActions(frames[|frames| - 1]);
      forall k | 0 <= k < |frames| ensures t[3 * k..3 * k + 3] == FrameActions(frames[k]) {
        if k < |init| {
          assert t[3 * k..3 * k + 3] == Transmitted(init)[3 * k..3 * k + 3];
          assert init[k] == frames[k];
        }
      }
    }
  }

  /** In a run of frames every write is of one of the frames, and it comes right after a
      break and a mark after break, in that order. */
  lemma {:induction false} WriteFollowsBreak(frames: seq<seq<byte>>, p: nat)
    requires p < |Transmitted(frames)| && Transmitted(frames)[p].Write?
    ensures p >= 2
    ensures Transmitted(frames)[p - 2] == SetLines(true, false)
    ensures Transmitted(frames)[p - 1] == SetLines(false, false)
    ensures Transmitted(frames)[p].data in frames
    decreases |frames|
  {
    var init := frames[..|frames| - 1];
    var t := Transmitted(frames);
    assert t == Transmitted(init) + FrameActions(frames[|frames| - 1]);
    if p < |Transmitted(init)| {
      WriteFollowsBreak(init, p);
      assert Transmitted(init)[p].data in init;
    } else {
      assert p - |Transmitted(init)| == 2;
    }
  }

  /** The serial port, reduced to whether it is open and the calls made on it. */
  class Port {
    const path: string
    const settings: SerialSettings
    var isOpen: bool
    var log: seq<Action>

    constructor (path: string, settings: SerialSettings)
      ensures this.path == path && this.settings == settings
      ensures !isOpen && log == []
    {
      this.path := path;
      this.settings := settings;
      isOpen := false;
      log := [];
    }

    /** The port reports that it has opened. */
    method Open()
      modifies this
      ensures isOpen && log == old(log)
    {
      isOpen := true;
    }

    /** port.set({brk, rts}); the call returns once its callback has run. */
    method Set(brk: bool, rts: bool)
      modifies this
      ensures log == old(log) + [SetLines(brk, rts)] && isOpen == old(isOpen)
    {
      log := log + [SetLines(brk, rts)];
    }

    /** port.write(data); the call returns once its callback has run. */
    method Write(data: seq<byte>)
      modifies this
      ensures log == old(log) + [Action.Write(data)] && isOpen == old(isOpen)
    {
      log := log + [Action.Write(data)];
    }
  }
}
