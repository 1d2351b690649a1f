/** The transmission control of the device as a state machine. startSending sets the
    shouldBeSending flag and begins a send cycle; a cycle that completes schedules the next
    one through a timer, but only while the flag is still set; stopSending clears the flag
    and cancels the most recently scheduled timer. Cycles are atomic steps that either
    complete or fail; timers carry the interval of the send chain that set them. */
module TransmissionLoop {
  import opened Wrappers

  /** startSending before the port has opened. */
  datatype LoopError = DeviceNotReady

  /** The flag and the timer handle the device keeps, together with what the JavaScript
      runtime holds for it: the pending timers (handle to the interval of their chain), the
      cycles begun and not yet settled (by the interval of their chain), and the handle the
      next setTimeout returns. */
  datatype Loop = Loop(
    portOpen: bool,
    shouldBeSending: bool,
    sendTimeout: Option<nat>,
    timers: map<nat, nat>,
    inFlight: multiset<nat>,
    nextHandle: nat)

  /** Timer handles are issued in increasing order. */
  predicate Valid(l: Loop) {
    (forall h :: h in l.timers ==> h < l.nextHandle) &&
    (l.sendTimeout.Some? ==> l.sendTimeout.value < l.nextHandle)
  }

  /** A new device: port not yet open, not sending, nothing pending. */
  function Initial(): Loop {
    Loop(false, false, None, map[], multiset{}, 0)
  }

  /** The send chains still alive: each is either a cycle in flight or a pending timer. */
  function Live(l: Loop): nat {
    |l.inFlight| + |l.timers|
  }

  /** The timer handles stopSending would cancel. */
  function Latest(l: Loop): set<nat> {
    if l.sendTimeout.Some? then {l.sendTimeout.value} else {}
  }

  /** The port reports open. */
  function Opened(l: Loop): Loop {
    l.(portOpen := true)
  }

  /** startSending(interval): refused while the port is closed; otherwise sets the flag and
      begins a cycle of a new chain, even when a chain is already running. */
  function Start(l: Loop, interval: nat): (r: Result<Loop, LoopError>)
    ensures r.Success? ==> r.value.timers == l.timers && r.value.sendTimeout == l.sendTimeout
    ensures Valid(l) && r.Success? ==> Valid(r.value)
  {
    if !l.portOpen then Failure(DeviceNotReady)
    else Success(l.(shouldBeSending := true, inFlight := l.inFlight + multiset{interval}))
  }

  /** stopSending: clears the flag and cancels the timer whose handle was stored last. */
  function Stop(l: Loop): (r: Loop)
    ensures forall h :: h in Latest(l) ==> h !in r.timers
    ensures forall h :: h in r.timers ==> h in l.timers && r.timers[h] == l.timers[h]
    ensures forall h :: h in l.timers && h !in Latest(l) ==> h in r.timers
    ensures r.inFlight == l.inFlight && !r.shouldBeSending && r.sendTimeout == l.sendTimeout
    ensures Valid(l) ==> Valid(r)
  {
    l.(shouldBeSending := false, timers := l.timers - Latest(l))
  }

  /** A cycle of the chain with this interval completes: while the flag is set, the chain
      schedules its next cycle and the new handle is stored. */
  function Complete(l: Loop, interval: nat): (r: Loop)
    requires interval in l.inFlight
    ensures r.shouldBeSending == l.shouldBeSending && r.portOpen == l.portOpen
    ensures l.timers.Keys <= r.timers.Keys
    ensures Valid(l) ==> Valid(r)
  {
    var settled := l.(inFlight := l.inFlight - multiset{interval});
    if l.shouldBeSending then
      settled.(timers := l.timers[l.nextHandle := interval],
               sendTimeout := Some(l.nextHandle),
               nextHandle := l.nextHandle + 1)
    else settled
  }

  /** A cycle of the chain with this interval fails: its chain ends, nothing is scheduled. */
  function Fail(l: Loop, interval: nat): (r: Loop)
    requires interval in l.inFlight
    ensures Live(r) + 1 == Live(l) && r.timers == l.timers
    ensures r.shouldBeSending == l.shouldBeSending && r.sendTimeout == l.sendTimeout
    ensures Valid(l) ==> Valid(r)
  {
    l.(inFlight := l.inFlight - multiset{interval})
  }

  /** A pending timer fires and begins the next cycle of its chain. The callback does not
      look at the flag. */
  function Fire(l: Loop, handle: nat): (r: Loop)
    requires handle in l.timers
    ensures handle !in r.timers && l.timers[handle] in r.inFlight
    ensures r.shouldBeSending == l.shouldBeSending && r.sendTimeout == l.sendTimeout
    ensures Valid(l) ==> Valid(r)
  {
    l.(timers := l.timers - {handle}, inFlight := l.inFlight + multiset{l.timers[handle]})
  }

  /** What can happen to the loop: calls by the application and events of the runtime. */
  datatype Stimulus =
    | PortOpen
    | StartCall(interval: nat)
    | StopCall
    | CycleDone(interval: nat)
    | CycleFailed(interval: nat)
    | TimerFired(handle: nat)

  /** One step; a stimulus that cannot happen in `l` (a cycle or timer that does not
      exist, a refused start) leaves it unchanged. */
  function Step(l: Loop, s: Stimulus): Loop {
    match s
    case PortOpen => Opened(l)
    case StartCall(interval) => if l.portOpen then Start(l, interval).value else l
    case StopCall => Stop(l)
    case CycleDone(interval) => if interval in l.inFlight then Complete(l, interval) else l
    case CycleFailed(interval) => if interval in l.inFlight then Fail(l, interval) else l
    case TimerFired(handle) => if handle in l.timers then Fire(l, handle) else l
  }

  function Run(l: Loop, ss: seq<Stimulus>): Loop
    decreases |ss|
  {
    if ss == [] then l else Run(Step(l, ss[0]), ss[1..])
  }

  /** The frames a run writes: one per cycle that completes. */
  function FramesSent(l: Loop, ss: seq<Stimulus>): nat
    decreases |ss|
  {
    if ss == [] then 0
    else
      (if ss[0].CycleDone? && ss[0].interval in l.inFlight then 1 else 0) +
      FramesSent(Step(l, ss[0]), ss[1..])
  }

  predicate NoStart(ss: seq<Stimulus>) {
    forall i :: 0 <= i < |ss| ==> !ss[i].StartCall?
  }

  // ---------------------------------------------------------------------------
  // Lemmas

  /** startSending throws exactly when the port is not open, and then changes nothing; on
      success the loop is sending and one more cycle is in flight. */
  lemma StartGuarded(l: Loop, interval: nat)
    ensures Start(l, interval).Failure? <==> !l.portOpen
    ensures Step(l, StartCall(interval)) == l <==> !l.portOpen
    ensures l.portOpen ==>
      Start(l, interval).value.shouldBeSending && Live(Start(l, interval).value) == Live(l) + 1
  {
    if l.portOpen {
      assert Start(l, interval).value.inFlight != l.inFlight;
    }
  }

  /** Every step keeps timer handles ordered. */
  lemma StepValid(l: Loop, s: Stimulus)
    requires Valid(l)
    ensures Valid(Step(l, s))
  {
  }

  /** A cycle that completes while the flag is set leaves a timer for its chain, stored as
      sendTimeout; with the flag cleared it leaves no trace. */
  lemma CompleteSchedulesIffSending(l: Loop, interval: nat)
    requires Valid(l) && interval in l.inFlight
    ensures var n := Complete(l, interval);
      (Live(n) == Live(l) <==> l.shouldBeSending) &&
      (l.shouldBeSending ==> n.sendTimeout.Some? && n.timers[n.sendTimeout.value] == interval) &&
      (!l.shouldBeSending ==> n.timers == l.timers && n.sendTimeout == l.sendTimeout)
  {
    LiveComplete(l, interval);
  }

  /** How a completed cycle moves the number of live chains: unchanged when the flag is set,
      one fewer otherwise. The run lemmas use it; CompleteSchedulesIffSending is derived
      from it. */
  lemma LiveComplete(l: Loop, interval: nat)
    requires Valid(l) && interval in l.inFlight
    ensures Live(Complete(l, interval)) == if l.shouldBeSending then Live(l) else Live(l) - 1
  {
    var n := Complete(l, interval);
    assert |n.inFlight| == |l.inFlight| - 1;
    if l.shouldBeSending {
      assert l.nextHandle !in l.timers.Keys;
      assert n.timers.Keys == l.timers.Keys + {l.nextHandle};
      assert |n.timers.Keys| == |l.timers.Keys| + 1;
    }
  }

  /** A fired timer turns into a cycle in flight of the same chain. */
  lemma LiveFire(l: Loop, handle: nat)
    requires handle in l.timers
    ensures Live(Fire(l, handle)) == Live(l)
  {
    var n := Fire(l, handle);
    assert n.timers.Keys == l.timers.Keys - {handle};
    assert |n.timers.Keys| == |l.timers.Keys| - 1;
    assert |n.inFlight| == |l.inFlight| + 1;
  }

  /** How the number of live chains moves in one step that is not a call to startSending. */
  lemma LiveStep(l: Loop, s: Stimulus)
    requires Valid(l) && !s.StartCall?
    ensures Live(Step(l, s)) <= Live(l) + (if s.CycleDone? && l.shouldBeSending then 1 else 0)
    ensures s.CycleDone? && s.interval in l.inFlight ==>
      Live(Step(l, s)) == if l.shouldBeSending then Live(l) else Live(l) - 1
    ensures s.TimerFired? ==> Live(Step(l, s)) == Live(l)
  {
    match s {
      case CycleDone(interval) =>
        if interval in l.inFlight { LiveComplete(l, interval); }
      case CycleFailed(interval) =>
        if interval in l.inFlight { assert |Fail(l, interval).inFlight| == |l.inFlight| - 1; }
      case TimerFired(handle) =>
        if handle in l.timers { LiveFire(l, handle); }
      case StopCall =>
        LessKeys(Stop(l).timers, l.timers);
      case _ =>
    }
  }

  /** Once the flag is cleared, and as long as nobody calls startSending, the loop never
      grows: at most one more frame per chain still alive can be written, the flag stays
      cleared and no chain is added. */
  lemma {:induction false} StoppedLoopWindsDown(l: Loop, ss: seq<Stimulus>)
    requires Valid(l) && !l.shouldBeSending && NoStart(ss)
    ensures FramesSent(l, ss) <= Live(l)
    ensures Live(Run(l, ss)) <= Live(l)
    ensures !Run(l, ss).shouldBeSending
    decreases |ss|
  {
    if ss != [] {
      assert !ss[0].StartCall?;
      assert NoStart(ss[1..]) by {
        forall i | 0 <= i < |ss[1..]| ensures !ss[1..][i].StartCall? {
          assert ss[1..][i] == ss[i + 1];
        }
      }
      LiveStep(l, ss[0]);
      StepValid(l, ss[0]);
      StoppedLoopWindsDown(Step(l, ss[0]), ss[1..]);
    }
  }

  lemma LessKeys(a: map<nat, nat>, b: map<nat, nat>)
    requires a.Keys <= b.Keys
    ensures |a| <= |b|
  {
    assert |a.Keys| == |a| && |b.Keys| == |b|;
    SubsetCard(a.Keys, b.Keys);
  }

  lemma {:induction false} SubsetCard(a: set<nat>, b: set<nat>)
    requires a <= b
    ensures |a| <= |b|
    decreases b
  {
    if a != {} {
      var x :| x in a;
      SubsetCard(a - {x}, b - {x});
    }
  }

  /** When the only pending timer is the one stored last (a single send chain), stopSending
      cancels it: after the stop, no frame is written beyond the cycles already in flight. */
  lemma StopLeavesOnlyInFlight(l: Loop, ss: seq<Stimulus>)
    requires Valid(l) && l.timers.Keys <= Latest(l) && NoStart(ss)
    ensures FramesSent(Stop(l), ss) <= |l.inFlight|
  {
    var s := Stop(l);
    assert s.timers == map[];
    StepValid(l, StopCall);
    StoppedLoopWindsDown(s, ss);
  }

  /** While the flag stays set (no stopSending) and no cycle fails, no chain dies: the loop
      keeps sending. */
  lemma {:induction false} SendingPersists(l: Loop, ss: seq<Stimulus>)
    requires Valid(l) && l.shouldBeSending
    requires forall i :: 0 <= i < |ss| ==> !ss[i].StopCall? && !ss[i].CycleFailed?
    ensures Run(l, ss).shouldBeSending
    ensures Live(Run(l, ss)) >= Live(l)
    decreases |ss|
  {
    if ss != [] {
      match ss[0] {
        case CycleDone(interval) =>
          if interval in l.inFlight { LiveComplete(l, interval); }
        case TimerFired(handle) =>
          if handle in l.timers { LiveFire(l, handle); }
        case StartCall(interval) =>
          if l.portOpen { assert |Step(l, ss[0]).inFlight| == |l.inFlight| + 1; }
        case _ =>
      }
      assert forall i :: 0 <= i < |ss[1..]| ==> ss[1..][i] == ss[i + 1];
      StepValid(l, ss[0]);
      SendingPersists(Step(l, ss[0]), ss[1..]);
    }
  }

  /** A single send chain: at most one cycle or timer alive, and a pending timer is the one
      stopSending would cancel. Every step keeps it, except startSending while a chain is
      still alive. */
  predicate SingleChain(l: Loop) {
    Valid(l) && Live(l) <= 1 && l.timers.Keys <= Latest(l)
  }

  lemma SingleChainStep(l: Loop, s: Stimulus)
    requires SingleChain(l)
    requires s.StartCall? ==> Live(l) == 0
    ensures SingleChain(Step(l, s))
  {
    StepValid(l, s);
    match s {
      case CycleDone(interval) =>
        if interval in l.inFlight { SingleChainComplete(l, interval); }
      case CycleFailed(interval) =>
        if interval in l.inFlight { assert |Fail(l, interval).inFlight| == |l.inFlight| - 1; }
      case TimerFired(handle) =>
        if handle in l.timers { SingleChainFire(l, handle); }
      case StopCall =>
        LessKeys(Stop(l).timers, l.timers);
      case StartCall(interval) =>
        if l.portOpen {
          assert |l.inFlight| == 0 && |Start(l, interval).value.inFlight| == 1;
        }
      case PortOpen =>
    }
  }

  lemma SingleChainComplete(l: Loop, interval: nat)
    requires SingleChain(l) && interval in l.inFlight
    ensures Live(Complete(l, interval)) <= 1
    ensures Complete(l, interval).timers.Keys <= Latest(Complete(l, interval))
  {
    LiveComplete(l, interval);
    if l.shouldBeSending {
      assert |l.timers.Keys| == 0;
      assert Complete(l, interval).timers.Keys == {l.nextHandle};
    }
  }

  lemma SingleChainFire(l: Loop, handle: nat)
    requires SingleChain(l) && handle in l.timers
    ensures Live(Fire(l, handle)) <= 1
    ensures Fire(l, handle).timers.Keys == {}
  {
    LiveFire(l, handle);
    assert |l.timers.Keys| == 1 && |l.inFlight| == 0;
    assert l.timers.Keys == {handle};
  }

  /** Calling startSending again while a chain is alive starts a second chain beside it,
      and the first chain's pending timer is then out of stopSending's reach once the
      second chain schedules. */
  lemma RestartAddsChain(l: Loop, interval: nat)
    requires l.portOpen && Valid(l) && Live(l) == 1 && |l.timers| == 1
    ensures var n := Start(l, interval).value;
      Live(n) == 2 &&
      !(Complete(n, interval).timers.Keys <= Latest(Complete(n, interval)))
  {
    var n := Start(l, interval).value;
    assert |n.inFlight| == 1;
    var h :| h in l.timers;
    var c := Complete(n, interval);
    assert h in c.timers && h != n.nextHandle;
  }
}
