/**
 Who owns the frames of the pool, over one streaming session: atomic steps of the USB thread,
 the worker thread, any number of application threads and the thread that stops the stream.

 Reassembly appears here only as the step that finishes a frame.  The process queue is a sequence
 of which any element may be dequeued: frames and the sentinel are enqueued by different threads,
 hence into different sub-queues, and a dequeue chooses a sub-queue by its size.  Callbacks and
 the listener are set before the session and do not change during it.  The session ends before
 `freeFramePool`.

 `place`, `deliveries`, `cleared` and `takenAfterStop` are history variables, and so is `owned`.
 */
module FrameOwnership {
  import opened Counting

  datatype Item = Stop | Of(frame: nat)

  // Where a frame is.
  datatype Place =
    | Free
    | Input          // the USB thread writes into it
    | Queued
    | Worker
    | Delivered      // the application has it and may return it
    | Returning      // the application has returned it, the native lock is not cleared yet
    | Leaked         // dequeued without callback, or without a listener: never returned

  // owned: the input frame was free when it was fetched
  datatype Usb = Filling(owned: bool) | Fetching(index: nat) | Gone

  datatype WorkerPc = CheckRunning | WaitDequeue | Invoke(frame: nat) | Done

  datatype Control = Running | StopUsb | ClearRunning | PutSentinel | Join | Drain | ClearInput | Stopped

  datatype Setup = Setup(callback: bool, listener: bool)

  datatype State = State(
    locks: seq<bool>,          // the native lock of each frame
    jlocks: seq<bool>,         // mLocked of each Java frame
    known: set<nat>,           // frames the application has been given at some time
    queue: seq<Item>,
    input: nat,                // usbInputFrame
    active: bool,
    running: bool,
    usb: Usb,
    worker: WorkerPc,
    control: Control,
    clearing: multiset<nat>,   // returns under way between the two atomic operations of returnFrame
    place: seq<Place>,
    deliveries: seq<nat>,
    cleared: seq<nat>,
    takenAfterStop: nat)

  datatype Act =
    | FinishFrame(accepted: bool)
    | Fetch
    | UsbExit
    | WorkerStep(k: nat)
    | Return(f: nat)
    | Clear(f: nat)
    | ControlStep(k: nat)

  ghost predicate Shape(s: State)
  {
    && |s.locks| == |s.jlocks| == |s.place| == |s.deliveries| == |s.cleared| && |s.locks| > 0
    && s.input < |s.locks|
    && (s.usb.Fetching? ==> s.usb.index < |s.locks|)
    && (s.worker.Invoke? ==> s.worker.frame < |s.locks|)
    && (forall i :: 0 <= i < |s.queue| ==> ItemInRange(s.queue[i], |s.locks|))
    && (forall f :: f in s.known ==> f < |s.locks|)
    && (forall f :: f in s.clearing ==> f < |s.locks|)
  }

  predicate ItemInRange(x: Item, n: nat) { x.Of? ==> x.frame < n }

  ghost predicate Enabled(s: State, a: Act)
  {
    match a
    case FinishFrame(_) => s.usb.Filling?
    case Fetch => s.usb.Fetching?
    case UsbExit => s.usb.Filling? && s.control.StopUsb?
    case WorkerStep(k) => !s.worker.Done? && (s.worker.WaitDequeue? ==> k < |s.queue|)
    case Return(f) => f in s.known && f < |s.jlocks|
    case Clear(f) => f in s.clearing
    case ControlStep(k) =>
      match s.control
      case Running => true
      case StopUsb => s.usb.Gone?
      case Join => s.worker.Done?
      case Drain => s.queue != [] ==> k < |s.queue|
      case Stopped => false
      case _ => true
  }

  function Without(q: seq<Item>, k: nat): seq<Item>
    requires k < |q|
  {
    q[..k] + q[k + 1..]
  }

  ghost function Next(su: Setup, s: State, a: Act): State
    requires Shape(s) && Enabled(s, a)
  {
    match a
    case FinishFrame(accepted) => if accepted then Enqueued(s) else s
    case Fetch => Fetched(s)
    case UsbExit => s.(usb := Gone)
    case WorkerStep(k) => Worked(su, s, k)
    case Return(f) =>
      if s.jlocks[f] then s
      else s.(jlocks := s.jlocks[f := true], clearing := s.clearing + multiset{f}, place := s.place[f := Returning])
    case Clear(f) =>
      s.(locks := s.locks[f := false], clearing := s.clearing - multiset{f},
         place := s.place[f := Free], cleared := s.cleared[f := s.cleared[f] + 1])
    case ControlStep(k) => Controlled(s, k)
  }

  // addCompleteFrameToQueue, when the queue takes the frame; otherwise the frame is kept.
  ghost function Enqueued(s: State): State
    requires Shape(s) && s.usb.Filling?
  {
    s.(queue := s.queue + [Of(s.input)], usb := Fetching(0),
       place := if s.usb.owned then s.place[s.input := Queued] else s.place)
  }

  // One turn of the loop in fetchFrameFromPool
  ghost function Fetched(s: State): State
    requires Shape(s) && s.usb.Fetching?
  {
    var i := s.usb.index;
    if !s.active then s.(usb := Filling(false), input := 0)
    else if !s.locks[i] then
      s.(locks := s.locks[i := true], usb := Filling(true), input := i, place := s.place[i := Input])
    else s.(usb := Fetching(NextIndex(i, |s.locks|)))
  }

  // frame_process_thread and nativeFrameCallback
  ghost function Worked(su: Setup, s: State, k: nat): State
    requires Shape(s) && Enabled(s, WorkerStep(k))
  {
    match s.worker
    case CheckRunning => s.(worker := if s.running then WaitDequeue else Done)
    case WaitDequeue =>
      var x := s.queue[k];
      var s' := s.(queue := Without(s.queue, k), takenAfterStop := if s.running then 0 else s.takenAfterStop + 1);
      if x.Stop? then s'.(worker := CheckRunning)
      else if su.callback then s'.(worker := Invoke(x.frame), place := s.place[x.frame := Worker])
      else s'.(worker := CheckRunning, place := s.place[x.frame := Leaked])
    case Invoke(f) =>
      if su.listener then
        s.(jlocks := s.jlocks[f := false], known := s.known + {f}, worker := CheckRunning,
           place := s.place[f := Delivered], deliveries := s.deliveries[f := s.deliveries[f] + 1])
      else
        s.(worker := CheckRunning, place := s.place[f := Leaked])
  }

  // One turn of the loop that empties the queue
  ghost function Drained(s: State, k: nat): State
    requires Shape(s) && k < |s.queue|
  {
    var x := s.queue[k];
    if x.Stop? then s.(queue := Without(s.queue, k))
    else s.(queue := Without(s.queue, k), locks := s.locks[x.frame := false],
            place := if s.place[x.frame].Queued? then s.place[x.frame := Free] else s.place)
  }

  // stopStreaming
  ghost function Controlled(s: State, k: nat): State
    requires Shape(s) && Enabled(s, ControlStep(k))
  {
    match s.control
    case Running => s.(active := false, control := StopUsb)
    case StopUsb => s.(control := ClearRunning)
    case ClearRunning => s.(running := false, control := PutSentinel)
    case PutSentinel => s.(queue := s.queue + [Stop], control := Join)
    case Join => s.(control := Drain)
    case Drain =>
      if s.queue == [] then s.(control := ClearInput) else Drained(s, k)
    case ClearInput =>
      s.(locks := s.locks[s.input := false], control := Stopped,
         place := if s.place[s.input].Input? then s.place[s.input := Free] else s.place)
    case Stopped => s
  }

  // allocateFramePool and the first fetch have been done, the worker has been started.
  ghost predicate Init(s: State)
  {
    && Shape(s) && s.queue == [] && s.known == {} && s.clearing == multiset{} && s.active && s.running
    && s.input == 0 && s.usb == Filling(true) && s.worker == CheckRunning && s.control == Running
      && s.takenAfterStop == 0
    && forall f :: 0 <= f < |s.locks| ==>
        s.locks[f] == (f == 0) && !s.jlocks[f] && s.place[f] == (if f == 0 then Input else Free)
          && s.deliveries[f] == 0 && s.cleared[f] == 0
  }

  // ------------------------------------------------------------------------------------
  // While the stream is active

  ghost predicate FrameOk(s: State, f: nat)
    requires Shape(s) && f < |s.locks|
  {
    && (s.locks[f] <==> s.place[f] != Free)
    && (s.place[f] == Input <==> s.usb.Filling? && s.input == f)
    && (s.place[f] == Queued <==> Of(f) in s.queue)
    && multiset(s.queue)[Of(f)] <= 1
    && (s.place[f] == Worker <==> s.worker == Invoke(f))
    && (s.place[f] == Delivered <==> f in s.known && !s.jlocks[f])
    && s.clearing[f] == if s.place[f] == Returning then 1 else 0
  }

  ghost predicate Streaming(s: State)
    requires Shape(s)
  {
    s.active ==> (s.usb.Filling? ==> s.usb.owned) && !s.usb.Gone? && forall f :: 0 <= f < |s.locks| ==> FrameOk(s, f)
  }

  // ------------------------------------------------------------------------------------
  // At all times

  // Deliveries of a frame, against the returns made of it, under way, or still to come.
  ghost predicate ReturnsOk(s: State, f: nat)
    requires Shape(s) && f < |s.locks|
  {
    s.cleared[f] + s.clearing[f] + (if f in s.known && !s.jlocks[f] then 1 else 0) <= s.deliveries[f]
  }

  ghost predicate PlaceOk(s: State, f: nat)
    requires Shape(s) && f < |s.locks|
  {
    && (s.locks[f] ==> s.place[f] != Free)
    && (s.place[f] == Queued ==> Of(f) in s.queue)
    && (s.place[f] == Input ==> s.input == f && (s.usb == Filling(true) || s.usb.Gone?))
    && (s.place[f] == Worker ==> s.worker == Invoke(f))
  }

  ghost predicate ControlOk(s: State)
  {
    && (s.active <==> s.control == Running)
    && (s.running <==> s.control.Running? || s.control.StopUsb? || s.control.ClearRunning?)
    && (!s.control.Running? && !s.control.StopUsb? ==> s.usb.Gone?)
    && (s.control.Drain? || s.control.ClearInput? || s.control.Stopped? ==> s.worker.Done?)
    && (s.control.ClearInput? || s.control.Stopped? ==> s.queue == [])
    && (s.worker.Done? ==> !s.running)
    && (s.running ==> s.takenAfterStop == 0)
    && s.takenAfterStop + (if s.worker.WaitDequeue? then 1 else 0) <= 1
    && (s.control.Join? && s.worker.WaitDequeue? ==> Stop in s.queue)
    && (s.control.Stopped? ==> s.input < |s.locks| == |s.place| && !s.locks[s.input] && s.place[s.input] != Input)
  }

  ghost predicate Inv(s: State)
  {
    && Shape(s) && Streaming(s) && ControlOk(s)
    && (forall f :: 0 <= f < |s.locks| ==> ReturnsOk(s, f))
    && (forall f :: 0 <= f < |s.locks| ==> PlaceOk(s, f))
  }

  // ------------------------------------------------------------------------------------
  // Every step keeps the invariant

  lemma OtherItems(q: seq<Item>, k: nat, x: Item)
    requires k < |q|
    ensures x in Without(q, k) ==> x in q
    ensures x in q && x != q[k] ==> x in Without(q, k)
    ensures multiset(q)[x] == multiset(Without(q, k))[x] + if x == q[k] then 1 else 0
    ensures x in q <==> multiset(q)[x] > 0
    ensures x in Without(q, k) <==> multiset(Without(q, k))[x] > 0
  {
    assert q == q[..k] + [q[k]] + q[k + 1..];
  }

  lemma LongerItems(q: seq<Item>, y: Item, x: Item)
    ensures x in q + [y] <==> x in q || x == y
    ensures multiset(q + [y])[x] == multiset(q)[x] + if x == y then 1 else 0
    ensures x in q <==> multiset(q)[x] > 0
  {}

  ghost predicate AllOk(s: State, f: nat)
    requires Shape(s) && f < |s.locks|
  {
    (s.active ==> FrameOk(s, f)) && ReturnsOk(s, f) && PlaceOk(s, f)
  }

  lemma ItemsInRange(q: seq<Item>, k: nat, n: nat)
    requires k < |q| && forall i :: 0 <= i < |q| ==> ItemInRange(q[i], n)
    ensures ItemInRange(q[k], n) && forall i :: 0 <= i < |Without(q, k)| ==> ItemInRange(Without(q, k)[i], n)
  {}

  lemma UsbKeepsShape(su: Setup, s: State, a: Act)
    requires Shape(s) && Enabled(s, a) && (a.FinishFrame? || a.Fetch? || a.UsbExit?)
    ensures Shape(Next(su, s, a)) && |Next(su, s, a).locks| == |s.locks|
  {
    hide Worked, Controlled;
    assert ItemInRange(Of(s.input), |s.locks|);
  }

  lemma ReturnKeepsShape(su: Setup, s: State, a: Act)
    requires Shape(s) && Enabled(s, a) && (a.Return? || a.Clear?)
    ensures Shape(Next(su, s, a)) && |Next(su, s, a).locks| == |s.locks|
  {
    hide Worked, Controlled, ItemInRange;
  }

  lemma ShapeKept(su: Setup, s: State, a: Act)
    requires Shape(s) && Enabled(s, a)
    ensures Shape(Next(su, s, a)) && |Next(su, s, a).locks| == |s.locks|
  {
    hide Shape, Worked, Controlled, Enqueued, Fetched;
    match a
    case WorkerStep(k) => WorkerKeepsShape(su, s, k);
    case ControlStep(k) => ControlKeepsShape(s, k);
    case Return(_) => ReturnKeepsShape(su, s, a);
    case Clear(_) => ReturnKeepsShape(su, s, a);
    case _ => UsbKeepsShape(su, s, a);
  }

  lemma WorkerKeepsShape(su: Setup, s: State, k: nat)
    requires Shape(s) && Enabled(s, WorkerStep(k))
    ensures Shape(Worked(su, s, k)) && |Worked(su, s, k).locks| == |s.locks|
  {
    if k < |s.queue| {
      ItemsInRange(s.queue, k, |s.locks|);
    }
  }

  lemma DrainKeepsShape(s: State, k: nat)
    requires Shape(s) && k < |s.queue|
    ensures Shape(Drained(s, k)) && |Drained(s, k).locks| == |s.locks|
  {
    hide Without;
    ItemsInRange(s.queue, k, |s.locks|);
  }

  lemma StopInRange(n: nat)
    ensures ItemInRange(Stop, n)
  {}

  lemma ControlKeepsShape(s: State, k: nat)
    requires Shape(s) && Enabled(s, ControlStep(k))
    ensures Shape(Controlled(s, k)) && |Controlled(s, k).locks| == |s.locks|
  {
    hide Drained, ItemInRange;
    if s.control.Drain? && s.queue != [] {
      DrainKeepsShape(s, k);
    } else if s.control.PutSentinel? {
      StopInRange(|s.locks|);
    }
  }

  lemma ControlKept(su: Setup, s: State, a: Act)
    requires Inv(s) && Enabled(s, a)
    ensures ControlOk(Next(su, s, a))
  {
    hide Streaming, ReturnsOk, PlaceOk, Worked, Controlled;
    LongerItems(s.queue, Of(s.input), Stop);
    match a
    case WorkerStep(k) => WorkerKeepsControl(su, s, k);
    case ControlStep(k) => ControlKeepsControl(s, k);
    case _ =>
  }

  lemma WorkerKeepsControl(su: Setup, s: State, k: nat)
    requires Inv(s) && Enabled(s, WorkerStep(k))
    ensures ControlOk(Worked(su, s, k))
  {
    hide Streaming, ReturnsOk, PlaceOk;
    if k < |s.queue| {
      ItemsInRange(s.queue, k, |s.locks|);
    }
  }

  lemma ControlKeepsControl(s: State, k: nat)
    requires Inv(s) && Enabled(s, ControlStep(k))
    ensures ControlOk(Controlled(s, k))
  {
    hide Streaming, ReturnsOk, PlaceOk;
    LongerItems(s.queue, Stop, Stop);
    if k < |s.queue| {
      ItemsInRange(s.queue, k, |s.locks|);
    }
  }

  lemma UsbKeepsFrame(su: Setup, s: State, a: Act, f: nat)
    requires Inv(s) && Enabled(s, a) && f < |s.locks| && (a.FinishFrame? || a.Fetch? || a.UsbExit?)
    requires Shape(Next(su, s, a)) && |Next(su, s, a).locks| == |s.locks|
    ensures AllOk(Next(su, s, a), f)
  {
    assert (s.active ==> FrameOk(s, f)) && ReturnsOk(s, f) && PlaceOk(s, f);
    LongerItems(s.queue, Of(s.input), Of(f));
  }

  lemma DequeueKeepsFrame(su: Setup, s: State, k: nat, f: nat)
    requires Inv(s) && Enabled(s, WorkerStep(k)) && s.worker.WaitDequeue? && f < |s.locks|
    requires Shape(Worked(su, s, k)) && |Worked(su, s, k).locks| == |s.locks|
    ensures AllOk(Worked(su, s, k), f)
  {
    hide ControlOk, Without;
    ItemsInRange(s.queue, k, |s.locks|);
    OtherItems(s.queue, k, Of(f));
    assert (s.active ==> FrameOk(s, f)) && ReturnsOk(s, f) && PlaceOk(s, f);
  }

  lemma WorkerKeepsFrame(su: Setup, s: State, k: nat, f: nat)
    requires Inv(s) && Enabled(s, WorkerStep(k)) && f < |s.locks|
    requires Shape(Worked(su, s, k)) && |Worked(su, s, k).locks| == |s.locks|
    ensures AllOk(Worked(su, s, k), f)
  {
    if s.worker.WaitDequeue? {
      DequeueKeepsFrame(su, s, k, f);
    } else {
      assert (s.active ==> FrameOk(s, f)) && ReturnsOk(s, f) && PlaceOk(s, f);
      hide ControlOk;
    }
  }

  lemma ReturnKeepsFrame(su: Setup, s: State, a: Act, f: nat)
    requires Inv(s) && Enabled(s, a) && (a.Return? || a.Clear?) && f < |s.locks|
    requires Shape(Next(su, s, a)) && |Next(su, s, a).locks| == |s.locks|
    ensures AllOk(Next(su, s, a), f)
  {
    assert (s.active ==> FrameOk(s, f)) && ReturnsOk(s, f) && PlaceOk(s, f);
  }

  lemma DrainKeepsFrame(s: State, k: nat, f: nat)
    requires Inv(s) && s.control.Drain? && k < |s.queue| && f < |s.locks|
    requires Shape(Drained(s, k)) && |Drained(s, k).locks| == |s.locks|
    ensures AllOk(Drained(s, k), f)
  {
    hide FrameOk, Without;
    assert ReturnsOk(s, f) && PlaceOk(s, f);
    OtherItems(s.queue, k, Of(f));
  }

  lemma SentinelKeepsFrame(s: State, f: nat)
    requires Inv(s) && s.control.PutSentinel? && f < |s.locks| && Shape(Controlled(s, 0))
    ensures AllOk(Controlled(s, 0), f)
  {
    hide FrameOk;
    assert ReturnsOk(s, f) && PlaceOk(s, f);
    LongerItems(s.queue, Stop, Of(f));
  }

  lemma ControlKeepsFrame(su: Setup, s: State, k: nat, f: nat)
    requires Inv(s) && Enabled(s, ControlStep(k)) && f < |s.locks|
    requires Shape(Next(su, s, ControlStep(k))) && |Next(su, s, ControlStep(k)).locks| == |s.locks|
    ensures AllOk(Next(su, s, ControlStep(k)), f)
  {
    hide FrameOk, Drained;
    if s.control.Drain? && s.queue != [] {
      DrainKeepsFrame(s, k, f);
    } else if s.control.PutSentinel? {
      SentinelKeepsFrame(s, f);
    } else {
      assert ReturnsOk(s, f) && PlaceOk(s, f);
    }
  }

  lemma UsbOwns(su: Setup, s: State, a: Act)
    requires Inv(s) && Enabled(s, a)
    ensures var s' := Next(su, s, a); s'.active ==> (s'.usb.Filling? ==> s'.usb.owned) && !s'.usb.Gone?
  {
    hide Shape, FrameOk, ReturnsOk, PlaceOk;
  }

  lemma StepKeepsInv(su: Setup, s: State, a: Act)
    requires Inv(s) && Enabled(s, a)
    ensures Inv(Next(su, s, a))
  {
    var s' := Next(su, s, a);
    ShapeKept(su, s, a);
    ControlKept(su, s, a);
    UsbOwns(su, s, a);
    hide ControlOk, FrameOk, ReturnsOk, PlaceOk, Enabled;
    forall f | 0 <= f < |s'.locks| ensures (s'.active ==> FrameOk(s', f)) && ReturnsOk(s', f) && PlaceOk(s', f) {
      match a
      case WorkerStep(k) => WorkerKeepsFrame(su, s, k, f);
      case Return(_) => ReturnKeepsFrame(su, s, a, f);
      case Clear(_) => ReturnKeepsFrame(su, s, a, f);
      case ControlStep(k) => ControlKeepsFrame(su, s, k, f);
      case _ => UsbKeepsFrame(su, s, a, f);
    }
  }

  // ------------------------------------------------------------------------------------
  // Whole sessions

  ghost predicate StepsTo(su: Setup, s: State, a: Act, s': State) { Shape(s) && Enabled(s, a) && s' == Next(su, s, a) }

  ghost predicate Behaviour(su: Setup, ss: seq<State>, acts: seq<Act>)
  {
    && |ss| == |acts| + 1
    && Init(ss[0])
    && forall i :: 0 <= i < |acts| ==> StepsTo(su, ss[i], acts[i], ss[i + 1])
  }

  lemma InitInv(s: State)
    requires Init(s)
    ensures Inv(s)
  {
    forall f | 0 <= f < |s.locks| ensures FrameOk(s, f) && ReturnsOk(s, f) && PlaceOk(s, f) {}
  }

  lemma {:induction false} AlwaysInv(su: Setup, ss: seq<State>, acts: seq<Act>, i: nat)
    requires Behaviour(su, ss, acts) && i < |ss|
    ensures Inv(ss[i])
  {
    hide Inv, Init, Next, Enabled;
    if i == 0 {
      InitInv(ss[0]);
    } else {
      AlwaysInv(su, ss, acts, i - 1);
      assert StepsTo(su, ss[i - 1], acts[i - 1], ss[i]);
      StepKeepsInv(su, ss[i - 1], acts[i - 1]);
    }
  }

  // While the stream is active a frame's lock is set exactly if the frame is somewhere, and
  // then it is in exactly one place: the input frame, once in the queue, with the worker, with
  // the application, on its way back, or leaked.
  lemma LockedIffInOnePlace(su: Setup, ss: seq<State>, acts: seq<Act>, i: nat, f: nat)
    requires Behaviour(su, ss, acts) && i < |ss| && ss[i].active && f < |ss[i].locks|
    ensures var s := ss[i];
      && f < |s.place| == |s.jlocks|
      && (s.locks[f] <==> s.place[f] != Free)
      && (s.place[f] == Input <==> s.usb.Filling? && s.input == f)
      && (s.place[f] == Queued <==> Of(f) in s.queue) && multiset(s.queue)[Of(f)] <= 1
      && (s.place[f] == Worker <==> s.worker == Invoke(f))
      && (s.place[f] == Delivered <==> f in s.known && !s.jlocks[f])
      && (s.place[f] == Returning <==> f in s.clearing)
  {
    AlwaysInv(su, ss, acts, i);
    assert FrameOk(ss[i], f);
  }

  // The buffer the USB thread writes to is with nobody else.
  lemma WriterIsAlone(su: Setup, ss: seq<State>, acts: seq<Act>, i: nat)
    requires Behaviour(su, ss, acts) && i < |ss| && ss[i].active && ss[i].usb.Filling?
    ensures var s := ss[i]; var f := s.input;
      && f < |s.locks| == |s.jlocks| && s.locks[f] && Of(f) !in s.queue && s.worker != Invoke(f) && f !in s.clearing
      && (f in s.known ==> s.jlocks[f])
  {
    AlwaysInv(su, ss, acts, i);
    assert FrameOk(ss[i], ss[i].input);
  }

  ghost function Away(s: State): set<nat> { set f: nat | f < |s.place| && s.place[f] != Free && s.place[f] != Input }

  // Frames queued or outstanding are fewer than the pool exactly if the USB thread has a frame or
  // one is free for it to find.
  lemma FramesAway(su: Setup, ss: seq<State>, acts: seq<Act>, i: nat)
    requires Behaviour(su, ss, acts) && i < |ss| && ss[i].active
    ensures var s := ss[i];
      |Away(s)| < |s.locks| <==> s.usb.Filling? || exists f :: 0 <= f < |s.locks| && !s.locks[f]
  {
    AlwaysInv(su, ss, acts, i);
    var s := ss[i];
    var all := Range(0, |s.locks|);
    if s.usb.Filling? {
      OneAtHome(s, s.input);
    } else if f :| 0 <= f < |s.locks| && !s.locks[f] {
      OneAtHome(s, f);
    } else {
      forall f | 0 <= f < |s.locks| ensures f in Away(s) {
        assert FrameOk(s, f);
      }
      assert Away(s) == all;
    }
  }

  lemma OneAtHome(s: State, f: nat)
    requires Inv(s) && s.active && f < |s.locks| && (!s.locks[f] || (s.usb.Filling? && s.input == f))
    ensures |Away(s)| < |s.locks|
  {
    assert FrameOk(s, f);
    SubsetSize(Away(s), Range(0, |s.locks|) - {f});
  }

  // However often an application returns a frame, the native lock is cleared at most once for
  // each time the frame was delivered, also after the stream has stopped.
  lemma ClearedOncePerDelivery(su: Setup, ss: seq<State>, acts: seq<Act>, i: nat, f: nat)
    requires Behaviour(su, ss, acts) && i < |ss| && f < |ss[i].locks|
    ensures f < |ss[i].cleared| == |ss[i].deliveries| && ss[i].cleared[f] + ss[i].clearing[f] <= ss[i].deliveries[f]
  {
    AlwaysInv(su, ss, acts, i);
    assert ReturnsOk(ss[i], f);
  }

  // The stream, once stopped, is not active again.
  lemma {:induction false} StaysActive(su: Setup, ss: seq<State>, acts: seq<Act>, i: nat, j: nat)
    requires Behaviour(su, ss, acts) && i <= j < |ss| && ss[j].active
    ensures ss[i].active
    decreases j
  {
    if i < j {
      assert StepsTo(su, ss[j - 1], acts[j - 1], ss[j]);
      ActiveBefore(su, ss[j - 1], acts[j - 1]);
      StaysActive(su, ss, acts, i, j - 1);
    }
  }

  lemma ActiveBefore(su: Setup, s: State, a: Act)
    requires Shape(s) && Enabled(s, a) && Next(su, s, a).active
    ensures s.active
  {}

  lemma LeakedStep(su: Setup, s: State, a: Act, f: nat)
    requires Inv(s) && Enabled(s, a) && f < |s.locks| && s.place[f] == Leaked && s.active && Next(su, s, a).active
    ensures f < |Next(su, s, a).place| && Next(su, s, a).place[f] == Leaked
  {
    assert FrameOk(s, f);
    ShapeKept(su, s, a);
  }

  // A frame the worker dequeued without callback or listener stays locked while the stream lasts.
  lemma {:induction false} LeakedForGood(su: Setup, ss: seq<State>, acts: seq<Act>, i: nat, j: nat, f: nat)
    requires Behaviour(su, ss, acts) && i <= j < |ss| && ss[j].active
    requires f < |ss[i].locks| == |ss[i].place| && ss[i].place[f] == Leaked
    ensures f < |ss[j].locks| == |ss[j].place| && ss[j].place[f] == Leaked && ss[j].locks[f]
    decreases j
  {
    hide Next, Enabled;
    AlwaysInv(su, ss, acts, j);
    if i < j {
      StaysActive(su, ss, acts, j - 1, j);
      LeakedForGood(su, ss, acts, i, j - 1, f);
      AlwaysInv(su, ss, acts, j - 1);
      assert StepsTo(su, ss[j - 1], acts[j - 1], ss[j]);
      LeakedStep(su, ss[j - 1], acts[j - 1], f);
    }
    assert FrameOk(ss[j], f);
  }

  // ------------------------------------------------------------------------------------
  // All frames away

  // The first k frames are with the application; the next one is being filled, or looked for
  // from frame i on.
  ghost predicate Handed(s: State, k: nat)
  {
    && Shape(s) && k <= |s.locks| && s.queue == [] && s.active && s.running && s.worker == CheckRunning
    && (forall f :: 0 <= f < k ==> s.place[f] == Delivered && s.locks[f])
    && (forall f :: k < f < |s.locks| ==> s.place[f] == Free && !s.locks[f])
  }

  ghost predicate FillingNext(s: State, k: nat)
  {
    Handed(s, k) && k < |s.locks| && s.usb == Filling(true) && s.input == k && s.locks[k]
  }

  ghost predicate LookingFor(s: State, k: nat, i: nat)
  {
    && Handed(s, k) && i <= k && s.usb == Fetching(if i < |s.locks| then i else 0)
    && (k < |s.locks| ==> !s.locks[k] && s.place[k] == Free)
  }

  lemma OneStepMore(su: Setup, ss: seq<State>, acts: seq<Act>, a: Act) returns (ts: seq<State>, bs: seq<Act>)
    requires Behaviour(su, ss, acts) && Enabled(ss[|acts|], a)
    ensures Shape(ss[|acts|]) && Behaviour(su, ts, bs) && ts[0] == ss[0] && ts[|bs|] == Next(su, ss[|acts|], a)
  {
    hide Init, Inv, Next, Enabled;
    AlwaysInv(su, ss, acts, |acts|);
    InvShape(ss[|acts|]);
    ts, bs := ss + [Next(su, ss[|acts|], a)], acts + [a];
    forall i | 0 <= i < |bs| ensures StepsTo(su, ts[i], bs[i], ts[i + 1]) {
      if i < |acts| {
        assert StepsTo(su, ss[i], acts[i], ss[i + 1]);
      }
    }
  }

  lemma InvShape(s: State)
    requires Inv(s)
    ensures Shape(s)
  {}

  // The frame is finished, the worker takes it off the queue at once and the application gets it.
  lemma HandsOver(su: Setup, ss: seq<State>, acts: seq<Act>, k: nat) returns (ts: seq<State>, bs: seq<Act>)
    requires su == Setup(true, true) && Behaviour(su, ss, acts) && FillingNext(ss[|acts|], k)
    ensures Behaviour(su, ts, bs) && ts[0] == ss[0] && LookingFor(ts[|bs|], k + 1, 0)
    ensures |ts[|bs|].locks| == |ss[|acts|].locks|
  {
    hide Behaviour;
    ts, bs := OneStepMore(su, ss, acts, FinishFrame(true));
    ts, bs := OneStepMore(su, ts, bs, WorkerStep(0));
    ts, bs := OneStepMore(su, ts, bs, WorkerStep(0));
    ts, bs := OneStepMore(su, ts, bs, WorkerStep(0));
  }

  lemma {:induction false} FindsNext(su: Setup, ss: seq<State>, acts: seq<Act>, k: nat, i: nat)
      returns (ts: seq<State>, bs: seq<Act>)
    requires Behaviour(su, ss, acts) && LookingFor(ss[|acts|], k, i) && k < |ss[|acts|].locks|
    ensures Behaviour(su, ts, bs) && ts[0] == ss[0] && FillingNext(ts[|bs|], k)
    ensures |ts[|bs|].locks| == |ss[|acts|].locks|
    decreases k - i
  {
    hide Behaviour;
    ts, bs := OneStepMore(su, ss, acts, Fetch);
    if i < k {
      ts, bs := FindsNext(su, ts, bs, k, i + 1);
    }
  }

  lemma {:induction false} FillsOneByOne(s: State, k: nat) returns (ss: seq<State>, acts: seq<Act>)
    requires Init(s) && k < |s.locks|
    ensures Behaviour(Setup(true, true), ss, acts) && ss[0] == s && FillingNext(ss[|acts|], k)
    ensures |ss[|acts|].locks| == |s.locks|
  {
    if k == 0 {
      ss, acts := [s], [];
    } else {
      ss, acts := FillsOneByOne(s, k - 1);
      ss, acts := HandsOver(Setup(true, true), ss, acts, k - 1);
      ss, acts := FindsNext(Setup(true, true), ss, acts, k, 0);
    }
  }

  // All of them can indeed be away: an application that keeps every frame it is given empties a
  // pool of any size from two up.  (With one frame the queue has no block to take it in.)
  lemma WholePoolAway(s: State) returns (ss: seq<State>, acts: seq<Act>)
    requires Init(s) && |s.locks| >= 2
    ensures Behaviour(Setup(true, true), ss, acts) && ss[0] == s
    ensures var t := ss[|acts|]; t.active && |t.locks| == |s.locks| == |Away(t)|
  {
    hide Shape;
    var n := |s.locks|;
    ss, acts := FillsOneByOne(s, n - 1);
    ss, acts := HandsOver(Setup(true, true), ss, acts, n - 1);
    AllHanded(ss[|acts|]);
  }

  lemma AllHanded(s: State)
    requires Handed(s, |s.locks|)
    ensures |Away(s)| == |s.locks|
  {
    assert Away(s) == Range(0, |s.locks|);
  }

  // ------------------------------------------------------------------------------------
  // Shutdown

  // After the running flag is cleared the worker dequeues at most one more item.
  lemma AtMostOneMore(su: Setup, ss: seq<State>, acts: seq<Act>, i: nat)
    requires Behaviour(su, ss, acts) && i < |ss|
    ensures ss[i].takenAfterStop <= 1
  {
    AlwaysInv(su, ss, acts, i);
  }

  // Once the sentinel is in, the worker is never stuck: it has left its loop, or it can go on.
  lemma WorkerIsNotStuck(su: Setup, ss: seq<State>, acts: seq<Act>, i: nat)
    requires Behaviour(su, ss, acts) && i < |ss| && ss[i].control.Join?
    ensures ss[i].worker.Done? || exists k :: Enabled(ss[i], WorkerStep(k))
  {
    AlwaysInv(su, ss, acts, i);
    assert ss[i].worker.Done? || Enabled(ss[i], WorkerStep(0));
  }

  // How many steps the worker has left.
  function StepsLeft(w: WorkerPc): nat
  {
    match w
    case Done => 0
    case CheckRunning => 1
    case Invoke(_) => 2
    case WaitDequeue => 3
  }

  lemma WorkerLeaves(su: Setup, s: State, k: nat)
    requires Inv(s) && !s.running && Enabled(s, WorkerStep(k))
    ensures StepsLeft(Next(su, s, WorkerStep(k)).worker) < StepsLeft(s.worker)
  {}

  // After the join and the drain the queue is empty, and neither the frame that was being
  // filled nor any frame that was still queued is locked: what is locked is with the application,
  // on its way back, or leaked.
  lemma StoppedClean(su: Setup, ss: seq<State>, acts: seq<Act>, i: nat, f: nat)
    requires Behaviour(su, ss, acts) && i < |ss| && ss[i].control.Stopped? && f < |ss[i].locks|
    ensures var s := ss[i];
      && f < |s.place| && s.queue == [] && s.worker.Done? && s.usb.Gone? && s.input < |s.locks| && !s.locks[s.input]
      && (s.locks[f] ==> s.place[f].Delivered? || s.place[f].Returning? || s.place[f].Leaked?)
  {
    AlwaysInv(su, ss, acts, i);
    assert PlaceOk(ss[i], f);
  }
}
