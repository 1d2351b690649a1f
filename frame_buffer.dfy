/** The 513-byte DMX512 frame an Open DMX USB device transmits, and the channel updates
    that setChannels applies to it. Slot 0 is the start code, slots 1..512 the channels. */
module FrameBuffer {
  import opened Wrappers

  /** One octet, as stored in a Node.js Buffer. */
  newtype byte = x: int | 0 <= x < 256

  /** Start code plus 512 channel slots. */
  const FrameSize: nat := 513
  /** The most channels one universe carries. */
  const MaxChannels: nat := 512

  /** The exceptions setChannels throws. */
  datatype ChannelError =
    | OversizeUniverse      // more than 512 values in a Buffer or an array
    | InvalidChannelValue   // a value outside [0, 255]
    | InvalidChannelNumber  // an object key outside [1, 512]
    | InvalidInputType      // neither a Buffer, an array nor an object

  /** One property of a channel object: channel number and value, as integers. */
  datatype Entry = Entry(channel: int, value: int)

  /** The argument of setChannels. An object is given as its entries in the order the
      JavaScript engine enumerates them. */
  datatype Channels =
    | Bytes(data: seq<byte>)
    | Values(values: seq<int>)
    | Entries(entries: seq<Entry>)
    | Unsupported

  /** The frame after an update, and the exception it ended with, if any. A failed update
      keeps whatever it wrote before the failure. */
  datatype Update = Update(frame: seq<byte>, failure: Option<ChannelError>)

  predicate IsByte(v: int) { 0 <= v <= 0xFF }

  /** A freshly allocated frame: every slot zero. */
  function Blank(): seq<byte> { seq(FrameSize, _ => 0) }

  /** The frame an update starts from: blank when `clear` is set, the current one otherwise. */
  function Base(frame: seq<byte>, clear: bool): seq<byte> {
    if clear then Blank() else frame
  }

  /** A Buffer copied into the frame from offset 1. */
  function CopyAt(frame: seq<byte>, data: seq<byte>): (f: seq<byte>)
    requires 1 + |data| <= |frame|
    ensures |f| == |frame| && f[0] == frame[0]
    ensures forall i :: 1 <= i <= |data| ==> f[i] == data[i - 1]
    ensures forall i :: 1 + |data| <= i < |frame| ==> f[i] == frame[i]
  {
    frame[..1] + data + frame[1 + |data|..]
  }

  /** The index of the first value outside [0, 255], or |values| when there is none. */
  function FirstInvalid(values: seq<int>): (k: nat)
    ensures k <= |values|
    ensures forall j :: 0 <= j < k ==> IsByte(values[j])
    ensures k < |values| ==> !IsByte(values[k])
  {
    if values == [] || !IsByte(values[0]) then 0 else 1 + FirstInvalid(values[1..])
  }

  /** Array values written one by one from slot `at`, stopping at the first invalid one. */
  function AssignValues(frame: seq<byte>, values: seq<int>, at: nat): (u: Update)
    requires at + |values| <= |frame|
    ensures |u.frame| == |frame|
    decreases |values|
  {
    if values == [] then Update(frame, None)
    else if !IsByte(values[0]) then Update(frame, Some(InvalidChannelValue))
    else AssignValues(frame[at := values[0] as byte], values[1..], at + 1)
  }

  /** Why an object entry is refused: the channel number is checked before the value. */
  function EntryFault(e: Entry): (f: Option<ChannelError>)
    ensures f.None? <==> 1 <= e.channel <= MaxChannels as int && IsByte(e.value)
    ensures !(1 <= e.channel <= MaxChannels as int) ==> f == Some(InvalidChannelNumber)
    ensures 1 <= e.channel <= MaxChannels as int && !IsByte(e.value) ==> f == Some(InvalidChannelValue)
  {
    if e.channel > MaxChannels as int || e.channel < 1 then Some(InvalidChannelNumber)
    else if !IsByte(e.value) then Some(InvalidChannelValue)
    else None
  }

  /** The index of the first refused entry, or |entries| when there is none. */
  function FirstFaulty(entries: seq<Entry>): (k: nat)
    ensures k <= |entries|
    ensures forall j :: 0 <= j < k ==> EntryFault(entries[j]).None?
    ensures k < |entries| ==> EntryFault(entries[k]).Some?
  {
    if entries == [] || EntryFault(entries[0]).Some? then 0 else 1 + FirstFaulty(entries[1..])
  }

  /** Object entries written one by one, stopping at the first refused one. */
  function AssignEntries(frame: seq<byte>, entries: seq<Entry>): (u: Update)
    requires |frame| == FrameSize
    ensures |u.frame| == FrameSize
    decreases |entries|
  {
    if entries == [] then Update(frame, None)
    else if EntryFault(entries[0]).Some? then Update(frame, EntryFault(entries[0]))
    else AssignEntries(frame[entries[0].channel := entries[0].value as byte], entries[1..])
  }

  /** setChannels(channels, clear): the optional reset comes first, then the length check,
      then the writes. */
  function ApplyChannels(frame: seq<byte>, channels: Channels, clear: bool): (u: Update)
    requires |frame| == FrameSize
    ensures |u.frame| == FrameSize
  {
    var base := Base(frame, clear);
    match channels
    case Bytes(data) =>
      if |data| > MaxChannels then Update(base, Some(OversizeUniverse))
      else Update(CopyAt(base, data), None)
    case Values(values) =>
      if |values| > MaxChannels then Update(base, Some(OversizeUniverse))
      else AssignValues(base, values, 1)
    case Entries(entries) => AssignEntries(base, entries)
    case Unsupported => Update(base, Some(InvalidInputType))
  }

  /** Channel `i` is one the input asks to set (whether or not the update reaches it). */
  predicate Names(channels: Channels, i: int) {
    1 <= i <= MaxChannels &&
    match channels
    case Bytes(data) => i <= |data|
    case Values(values) => i <= |values|
    case Entries(entries) => exists j :: 0 <= j < |entries| && entries[j].channel == i
    case Unsupported => false
  }

  // ---------------------------------------------------------------------------
  // Lemmas about the update functions

  /** Array values: the prefix before the first invalid value is written from slot `at`,
      every other slot keeps its value, and the update fails exactly when a value is invalid. */
  lemma {:induction false} AssignValuesEffect(frame: seq<byte>, values: seq<int>, at: nat)
    requires at + |values| <= |frame|
    ensures var u := AssignValues(frame, values, at); var k := FirstInvalid(values);
      |u.frame| == |frame| &&
      (u.failure == if k == |values| then None else Some(InvalidChannelValue)) &&
      (forall j :: 0 <= j < k ==> u.frame[at + j] as int == values[j]) &&
      (forall i :: 0 <= i < |frame| && !(at <= i < at + k) ==> u.frame[i] == frame[i])
    decreases |values|
  {
    if values != [] && IsByte(values[0]) {
      var next := frame[at := values[0] as byte];
      AssignValuesEffect(next, values[1..], at + 1);
      var u := AssignValues(frame, values, at);
      var k := FirstInvalid(values);
      assert u == AssignValues(next, values[1..], at + 1);
      assert FirstInvalid(values[1..]) == k - 1;
      forall j | 0 <= j < k ensures u.frame[at + j] as int == values[j] {
        if j > 0 {
          assert u.frame[(at + 1) + (j - 1)] as int == values[1..][j - 1];
        }
      }
    }
  }

  /** Object entries: the update fails exactly at the first refused entry with that entry's
      error; of the entries before it, the last one naming a channel decides its value, and
      every slot that none of them names keeps its value. */
  lemma {:induction false} AssignEntriesEffect(frame: seq<byte>, entries: seq<Entry>)
    requires |frame| == FrameSize
    ensures var u := AssignEntries(frame, entries); var k := FirstFaulty(entries);
      |u.frame| == FrameSize &&
      (u.failure == if k == |entries| then None else EntryFault(entries[k])) &&
      (forall j :: 0 <= j < k && (forall j' :: j < j' < k ==> entries[j'].channel != entries[j].channel)
         ==> u.frame[entries[j].channel] as int == entries[j].value) &&
      (forall i :: 0 <= i < FrameSize && (forall j :: 0 <= j < k ==> entries[j].channel != i)
         ==> u.frame[i] == frame[i])
    decreases |entries|
  {
    if entries != [] && EntryFault(entries[0]).None? {
      var e := entries[0];
      var rest := entries[1..];
      var next := frame[e.channel := e.value as byte];
      AssignEntriesEffect(next, rest);
      var u := AssignEntries(frame, entries);
      var k := FirstFaulty(entries);
      assert u == AssignEntries(next, rest);
      assert FirstFaulty(rest) == k - 1;
      forall j | 0 <= j < k && (forall j' :: j < j' < k ==> entries[j'].channel != entries[j].channel)
        ensures u.frame[entries[j].channel] as int == entries[j].value
      {
        if j == 0 {
          assert forall j' :: 0 <= j' < k - 1 ==> rest[j'].channel != e.channel by {
            forall j' | 0 <= j' < k - 1 ensures rest[j'].channel != e.channel {
              assert rest[j'] == entries[j' + 1];
            }
          }
        } else {
          assert rest[j - 1] == entries[j];
          assert forall j' :: j - 1 < j' < k - 1 ==> rest[j'].channel != rest[j - 1].channel by {
            forall j' | j - 1 < j' < k - 1 ensures rest[j'].channel != rest[j - 1].channel {
              assert rest[j'] == entries[j' + 1];
            }
          }
        }
      }
      forall i | 0 <= i < FrameSize && (forall j :: 0 <= j < k ==> entries[j].channel != i)
        ensures u.frame[i] == frame[i]
      {
        assert entries[0].channel != i;
        assert forall j :: 0 <= j < k - 1 ==> rest[j].channel != i by {
          forall j | 0 <= j < k - 1 ensures rest[j].channel != i {
            assert rest[j] == entries[j + 1];
          }
        }
      }
    }
  }

  /** A slot that the input does not name keeps the value of the frame the update started
      from: the old frame, or zero when `clear` is set. This holds whether or not the
      update fails. */
  lemma ApplyKeepsUnnamed(frame: seq<byte>, channels: Channels, clear: bool, i: int)
    requires |frame| == FrameSize
    requires 0 <= i < FrameSize && !Names(channels, i)
    ensures ApplyChannels(frame, channels, clear).frame[i] == Base(frame, clear)[i]
  {
    var base := Base(frame, clear);
    match channels
    case Bytes(data) =>
    case Values(values) =>
      if |values| <= MaxChannels {
        AssignValuesEffect(base, values, 1);
      }
    case Entries(entries) =>
      AssignEntriesEffect(base, entries);
    case Unsupported =>
  }

  /** setChannels never writes slot 0: the start code is the old one, or zero after a
      clear. So a frame whose start code is zero keeps it. */
  lemma StartCodeKept(frame: seq<byte>, channels: Channels, clear: bool)
    requires |frame| == FrameSize
    ensures ApplyChannels(frame, channels, clear).frame[0] == if clear then 0 else frame[0]
  {
    ApplyKeepsUnnamed(frame, channels, clear, 0);
  }

  /** With `clear`, every slot the input does not name ends at zero, whatever the frame
      held before and whether or not the update fails. */
  lemma ClearZeroesUnnamed(frame: seq<byte>, channels: Channels)
    requires |frame| == FrameSize
    ensures forall i :: 0 <= i < FrameSize && !Names(channels, i) ==>
      ApplyChannels(frame, channels, true).frame[i] == 0
  {
    forall i | 0 <= i < FrameSize && !Names(channels, i)
      ensures ApplyChannels(frame, channels, true).frame[i] == 0
    {
      ApplyKeepsUnnamed(frame, channels, true, i);
    }
  }

  /** A Buffer of at most 512 bytes always succeeds: it lands in slots 1..n and nothing
      else changes. */
  lemma BytesCopied(frame: seq<byte>, data: seq<byte>, clear: bool)
    requires |frame| == FrameSize && |data| <= MaxChannels
    ensures var u := ApplyChannels(frame, Bytes(data), clear); var base := Base(frame, clear);
      u.failure == None &&
      u.frame[1..1 + |data|] == data &&
      u.frame[0] == base[0] && u.frame[1 + |data|..] == base[1 + |data|..]
  {
    var base := Base(frame, clear);
    var u := ApplyChannels(frame, Bytes(data), clear);
    assert u.frame == base[..1] + data + base[1 + |data|..];
    assert u.frame[1..1 + |data|] == data;
  }

  /** A Buffer or an array of more than 512 entries is refused before anything is written:
      the frame is the old one, or blank when `clear` was set. */
  lemma OversizeRejected(frame: seq<byte>, channels: Channels, clear: bool)
    requires |frame| == FrameSize
    requires (channels.Bytes? && |channels.data| > MaxChannels) ||
             (channels.Values? && |channels.values| > MaxChannels)
    ensures ApplyChannels(frame, channels, clear) == Update(Base(frame, clear), Some(OversizeUniverse))
  {
  }

  /** Any other kind of value fails with InvalidInputType, after the optional clear. */
  lemma UnsupportedRejected(frame: seq<byte>, clear: bool)
    requires |frame| == FrameSize
    ensures ApplyChannels(frame, Unsupported, clear) == Update(Base(frame, clear), Some(InvalidInputType))
  {
  }

  /** An array of at most 512 numbers: it fails exactly when some value lies outside
      [0, 255]; the values before the first such one are in slots 1.., and every other
      slot keeps the value of the frame the update started from. */
  lemma ValuesWritten(frame: seq<byte>, values: seq<int>, clear: bool)
    requires |frame| == FrameSize && |values| <= MaxChannels
    ensures var u := ApplyChannels(frame, Values(values), clear);
      var base := Base(frame, clear); var k := FirstInvalid(values);
      (u.failure == None <==> forall j :: 0 <= j < |values| ==> IsByte(values[j])) &&
      (u.failure != None ==> u.failure == Some(InvalidChannelValue)) &&
      (forall j :: 0 <= j < k ==> u.frame[j + 1] as int == values[j]) &&
      (forall i :: 0 <= i < FrameSize && !(1 <= i <= k) ==> u.frame[i] == base[i])
  {
    AssignValuesEffect(Base(frame, clear), values, 1);
  }

  /** Applying the same update a second time changes nothing: each named slot already
      holds the value the update gives it. */
  lemma {:induction false} ApplyIdempotent(frame: seq<byte>, channels: Channels, clear: bool)
    requires |frame| == FrameSize
    ensures var u := ApplyChannels(frame, channels, clear); ApplyChannels(u.frame, channels, clear) == u
  {
    var base := Base(frame, clear);
    var u := ApplyChannels(frame, channels, clear);
    var base2 := Base(u.frame, clear);
    match channels
    case Bytes(data) =>
      if |data| <= MaxChannels {
        BytesCopied(frame, data, clear);
        BytesCopied(u.frame, data, clear);
        var v := ApplyChannels(u.frame, channels, clear);
        if clear {
          assert v.frame == u.frame;
        } else {
          assert v.frame == base2[..1] + data + base2[1 + |data|..];
          assert v.frame == u.frame;
        }
      }
    case Values(values) =>
      if |values| <= MaxChannels {
        if clear {
        } else {
          AssignValuesEffect(base, values, 1);
          AssignValuesEffect(u.frame, values, 1);
          var v := ApplyChannels(u.frame, channels, clear);
          forall i | 0 <= i < FrameSize ensures v.frame[i] == u.frame[i] {
            if 1 <= i <= FirstInvalid(values) {
              assert v.frame[1 + (i - 1)] as int == values[i - 1];
            }
          }
          assert v.frame == u.frame;
        }
      }
    case Entries(entries) =>
      if !clear {
        EntriesIdempotent(frame, entries);
      }
    case Unsupported =>
  }

  /** The last entry before `k` that names `channel`, if any. */
  function LastNaming(entries: seq<Entry>, k: nat, channel: int): (j: int)
    requires k <= |entries|
    ensures -1 <= j < k
    ensures j >= 0 ==> entries[j].channel == channel && forall j' :: j < j' < k ==> entries[j'].channel != channel
    ensures j < 0 ==> forall j' :: 0 <= j' < k ==> entries[j'].channel != channel
  {
    if k == 0 then -1
    else if entries[k - 1].channel == channel then k - 1
    else LastNaming(entries, k - 1, channel)
  }

  lemma EntriesIdempotent(frame: seq<byte>, entries: seq<Entry>)
    requires |frame| == FrameSize
    ensures var u := AssignEntries(frame, entries); AssignEntries(u.frame, entries) == u
  {
    var u := AssignEntries(frame, entries);
    var v := AssignEntries(u.frame, entries);
    var k := FirstFaulty(entries);
    AssignEntriesEffect(frame, entries);
    AssignEntriesEffect(u.frame, entries);
    forall i | 0 <= i < FrameSize ensures v.frame[i] == u.frame[i] {
      var j := LastNaming(entries, k, i);
      if j >= 0 {
        assert entries[j].channel == i;
      }
    }
    assert v.frame == u.frame;
  }

  // ---------------------------------------------------------------------------
  // The writes, in place on the device's frame array

  /** Buffer.copy of a Buffer of at most 512 bytes into the frame at offset 1. */
  method CopyIn(a: array<byte>, data: seq<byte>)
    requires a.Length == FrameSize && |data| <= MaxChannels
    modifies a
    ensures a[..] == CopyAt(old(a[..]), data)
  {
    forall i | 0 <= i < |data| {
      a[i + 1] := data[i];
    }
    assert a[..] == CopyAt(old(a[..]), data) by {
      forall i | 0 <= i < FrameSize ensures a[..][i] == CopyAt(old(a[..]), data)[i] {
        if 1 <= i <= |data| {
          assert a[(i - 1) + 1] == data[i - 1];
        }
      }
    }
  }

  /** The forEach over an array: each value is checked and then stored in slot index + 1;
      the first invalid value ends the loop with an exception. */
  method WriteValues(a: array<byte>, values: seq<int>) returns (failure: Option<ChannelError>)
    requires a.Length == FrameSize && |values| <= MaxChannels
    modifies a
    ensures a[..] == AssignValues(old(a[..]), values, 1).frame
    ensures failure == AssignValues(old(a[..]), values, 1).failure
  {
    var i := 0;
    while i < |values|
      invariant 0 <= i <= |values|
      invariant AssignValues(a[..], values[i..], 1 + i) == AssignValues(old(a[..]), values, 1)
    {
      assert values[i..][0] == values[i] && values[i..][1..] == values[i + 1..];
      if !IsByte(values[i]) {
        return Some(InvalidChannelValue);
      }
      a[1 + i] := values[i] as byte;
      i := i + 1;
    }
    assert values[i..] == [];
    return None;
  }

  /** The forEach over an object's entries: the channel number is checked, then the value,
      and the value is stored in that slot; the first refused entry ends the loop with an
      exception. */
  method WriteEntries(a: array<byte>, entries: seq<Entry>) returns (failure: Option<ChannelError>)
    requires a.Length == FrameSize
    modifies a
    ensures a[..] == AssignEntries(old(a[..]), entries).frame
    ensures failure == AssignEntries(old(a[..]), entries).failure
  {
    var i := 0;
    while i < |entries|
      invariant 0 <= i <= |entries|
      invariant AssignEntries(a[..], entries[i..]) == AssignEntries(old(a[..]), entries)
    {
      var e := entries[i];
      assert entries[i..][0] == e && entries[i..][1..] == entries[i + 1..];
      if e.channel > MaxChannels as int || e.channel < 1 {
        return Some(InvalidChannelNumber);
      } else if e.value > 0xFF || e.value < 0 {
        return Some(InvalidChannelValue);
      }
      a[e.channel] := e.value as byte;
      i := i + 1;
    }
    assert entries[i..] == [];
    return None;
  }
}
