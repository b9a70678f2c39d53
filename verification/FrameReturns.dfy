/**
 What becomes of the frames an application returns, and of a stop that has begun: a returned
 frame is unlocked and found again by the USB thread, and a stop can always be completed.
 */
module FrameReturns {
  import opened FrameOwnership

  // ------------------------------------------------------------------------------------
  // From the return of a frame to its next use

  // The first return of a delivered frame locks the Java frame and starts the native clearing;
  // any other return of it changes nothing.
  lemma ReturnTakesEffectOnce(su: Setup, ss: seq<State>, acts: seq<Act>, i: nat, f: nat)
    requires Behaviour(su, ss, acts) && i < |acts| && acts[i] == Return(f)
    ensures f < |ss[i].jlocks| == |ss[i + 1].jlocks|
    ensures if ss[i].jlocks[f] then ss[i + 1] == ss[i]
      else (
        && ss[i + 1].jlocks == ss[i].jlocks[f := true]
        && ss[i + 1].clearing == ss[i].clearing + multiset{f}
        && ss[i + 1].locks == ss[i].locks)
  {
    assert StepsTo(su, ss[i], acts[i], ss[i + 1]);
  }

  // The frame is on its way back until its native lock is cleared.
  lemma {:induction false} OnItsWayUntilCleared(su: Setup, ss: seq<State>, acts: seq<Act>, i: nat, j: nat, f: nat)
    requires Behaviour(su, ss, acts) && i <= j < |ss| && f in ss[i].clearing
    requires forall k :: i <= k < j ==> acts[k] != Clear(f)
    ensures f in ss[j].clearing && Enabled(ss[j], Clear(f))
    decreases j
  {
    if i < j {
      OnItsWayUntilCleared(su, ss, acts, i, j - 1, f);
      assert StepsTo(su, ss[j - 1], acts[j - 1], ss[j]);
      ClearingKept(su, ss[j - 1], acts[j - 1], f);
    }
  }

  lemma ClearingKept(su: Setup, s: State, a: Act, f: nat)
    requires Shape(s) && Enabled(s, a) && f in s.clearing && a != Clear(f)
    ensures f in Next(su, s, a).clearing
  {
    hide Shape;
  }

  ghost predicate IsFree(s: State, f: nat) { f < |s.locks| == |s.place| && !s.locks[f] && s.place[f] == Free }

  lemma ClearFrees(su: Setup, s: State, f: nat)
    requires Shape(s) && Enabled(s, Clear(f))
    ensures IsFree(Next(su, s, Clear(f)), f)
  {}

  predicate Looks(s: State, a: Act, f: nat) { a.Fetch? && s.usb == Fetching(f) }

  // A free frame stays free until the USB thread looks at it, and then it takes the frame.
  lemma FreeStep(su: Setup, s: State, a: Act, f: nat)
    requires Inv(s) && Enabled(s, a) && IsFree(s, f) && s.active && Next(su, s, a).active
    ensures var s' := Next(su, s, a);
      if Looks(s, a, f) then s'.usb == Filling(true) && s'.input == f && f < |s'.locks| && s'.locks[f]
      else IsFree(s', f)
  {
    assert FrameOk(s, f);
    ShapeKept(su, s, a);
  }

  lemma {:induction false} FreeUntilFound(su: Setup, ss: seq<State>, acts: seq<Act>, i: nat, j: nat, f: nat)
    requires Behaviour(su, ss, acts) && i <= j < |ss| && ss[j].active && IsFree(ss[i], f)
    requires forall k :: i <= k < j ==> !Looks(ss[k], acts[k], f)
    ensures IsFree(ss[j], f)
    decreases j
  {
    hide Next, Enabled, Inv, Init;
    if i < j {
      StaysActive(su, ss, acts, j - 1, j);
      FreeUntilFound(su, ss, acts, i, j - 1, f);
      AlwaysInv(su, ss, acts, j - 1);
      assert StepsTo(su, ss[j - 1], acts[j - 1], ss[j]);
      FreeStep(su, ss[j - 1], acts[j - 1], f);
    }
  }

  // A delivered frame that is returned at i can be cleared from then on until it is; cleared at
  // j it is unlocked; and the first time after that the USB thread looks at it, it takes it.
  lemma ReturnedFrameIsReused(su: Setup, ss: seq<State>, acts: seq<Act>, i: nat, j: nat, k: nat, f: nat)
    requires Behaviour(su, ss, acts) && i < j < k < |acts|
    requires acts[i] == Return(f) && acts[j] == Clear(f) && Looks(ss[k], acts[k], f) && ss[k + 1].active
    requires forall m :: j < m < k ==> !Looks(ss[m], acts[m], f)
    ensures IsFree(ss[j + 1], f) && IsFree(ss[k], f)
    ensures ss[k + 1].usb == Filling(true) && ss[k + 1].input == f
  {
    hide Next, Enabled, Inv, Init;
    assert StepsTo(su, ss[j], acts[j], ss[j + 1]);
    ClearFrees(su, ss[j], f);
    StaysActive(su, ss, acts, k, k + 1);
    FreeUntilFound(su, ss, acts, j + 1, k, f);
    AlwaysInv(su, ss, acts, k);
    assert StepsTo(su, ss[k], acts[k], ss[k + 1]);
    FreeStep(su, ss[k], acts[k], f);
  }

  // ------------------------------------------------------------------------------------
  // Deliveries and returns balance while the stream is active

  ghost predicate Balanced(s: State, f: nat)
  {
    && f < |s.locks| == |s.jlocks| == |s.deliveries| == |s.cleared|
    && s.deliveries[f] == s.cleared[f] + s.clearing[f] + if f in s.known && !s.jlocks[f] then 1 else 0
  }

  lemma BalanceStep(su: Setup, s: State, a: Act, f: nat)
    requires Inv(s) && Enabled(s, a) && s.active && Balanced(s, f)
    ensures Balanced(Next(su, s, a), f)
  {
    assert FrameOk(s, f);
    ShapeKept(su, s, a);
    hide Inv, Next, FrameOk, Balanced;
    match a
    case WorkerStep(k) => WorkerBalances(su, s, k, f);
    case Return(_) => ReturnBalances(su, s, a, f);
    case Clear(_) => ReturnBalances(su, s, a, f);
    case _ => OthersBalance(su, s, a, f);
  }

  lemma WorkerBalances(su: Setup, s: State, k: nat, f: nat)
    requires Shape(s) && Enabled(s, WorkerStep(k)) && Balanced(s, f) && FrameOk(s, f)
    requires Shape(Next(su, s, WorkerStep(k)))
    ensures Balanced(Next(su, s, WorkerStep(k)), f)
  {
    hide Without, ItemInRange;
  }

  lemma ReturnBalances(su: Setup, s: State, a: Act, f: nat)
    requires Shape(s) && Enabled(s, a) && Balanced(s, f) && FrameOk(s, f) && (a.Return? || a.Clear?)
    ensures Balanced(Next(su, s, a), f)
  {}

  lemma OthersBalance(su: Setup, s: State, a: Act, f: nat)
    requires Shape(s) && Enabled(s, a) && Balanced(s, f) && s.active
    requires a.FinishFrame? || a.Fetch? || a.UsbExit? || a.ControlStep?
    requires Shape(Next(su, s, a)) && |Next(su, s, a).locks| == |s.locks|
    ensures Balanced(Next(su, s, a), f)
  {
    hide ItemInRange;
  }

  // Each delivery of a frame is matched by a clearing of its lock, made or under way, or the
  // application still has the frame.
  lemma {:induction false} DeliveriesBalance(su: Setup, ss: seq<State>, acts: seq<Act>, i: nat, f: nat)
    requires Behaviour(su, ss, acts) && i < |ss| && f < |ss[i].locks| && (i > 0 ==> ss[i - 1].active)
    ensures Balanced(ss[i], f)
    decreases i
  {
    hide Next, Enabled, Inv;
    if i > 0 {
      if i > 1 {
        StaysActive(su, ss, acts, i - 2, i - 1);
      }
      AlwaysInv(su, ss, acts, i - 1);
      assert StepsTo(su, ss[i - 1], acts[i - 1], ss[i]);
      ShapeKept(su, ss[i - 1], acts[i - 1]);
      DeliveriesBalance(su, ss, acts, i - 1, f);
      BalanceStep(su, ss[i - 1], acts[i - 1], f);
    }
  }

  // ------------------------------------------------------------------------------------
  // The search for a free frame

  // n looks of the USB thread alone lead from s to s'.
  ghost predicate Searches(su: Setup, s: State, n: nat, s': State)
    decreases n
  {
    if n == 0 then s' == s
    else Shape(s) && Enabled(s, Fetch) && Searches(su, Next(su, s, Fetch), n - 1, s')
  }

  // Looks until frame f is looked at, with the index at i in a pool of n frames.
  function Distance(i: nat, f: nat, n: nat): nat
    requires i < n && f < n
  {
    if i <= f then f - i else n - i + f
  }

  // If a frame is free, a search of the USB thread that runs alone takes one within one round.
  lemma {:induction false} SearchFinds(su: Setup, s: State, f: nat) returns (n: nat, s': State)
    requires Inv(s) && s.active && s.usb.Fetching? && f < |s.locks| && !s.locks[f]
    ensures Searches(su, s, n, s') && n <= |s.locks|
    ensures s'.usb == Filling(true) && s'.input < |s.locks| == |s'.locks| && !s.locks[s'.input]
    ensures s'.locks == s.locks[s'.input := true]
    ensures s.usb.index < |s.locks| && n <= Distance(s.usb.index, f, |s.locks|) + 1
    decreases Distance(s.usb.index, f, |s.locks|)
  {
    hide ControlOk, ReturnsOk, PlaceOk, FrameOk;
    StepKeepsInv(su, s, Fetch);
    var s1 := Next(su, s, Fetch);
    if s.locks[s.usb.index] {
      n, s' := SearchFinds(su, s1, f);
      n := n + 1;
    } else {
      n, s' := 1, s1;
      assert Searches(su, s', 0, s');
    }
  }

  // ------------------------------------------------------------------------------------
  // A stop that has begun

  function Rank(c: Control): nat
  {
    match c
    case Running => 7
    case StopUsb => 6
    case ClearRunning => 5
    case PutSentinel => 4
    case Join => 3
    case Drain => 2
    case ClearInput => 1
    case Stopped => 0
  }

  // What the step the stopping thread is waiting for still needs.
  function Ahead(s: State): nat
  {
    match s.control
    case StopUsb => if s.usb.Fetching? then 2 else if s.usb.Filling? then 1 else 0
    case Join => StepsLeft(s.worker)
    case Drain => |s.queue|
    case _ => 0
  }

  // Some thread can always take the step that brings a stop forward.
  lemma StopIsNotStuck(su: Setup, s: State) returns (a: Act)
    requires Inv(s) && !s.active && !s.control.Stopped?
    ensures Enabled(s, a) && !Next(su, s, a).active
    ensures var s' := Next(su, s, a);
      Rank(s'.control) < Rank(s.control) || (s'.control == s.control && Ahead(s') < Ahead(s))
  {
    hide Streaming, ReturnsOk, PlaceOk;
    a := ControlStep(0);
    if s.control.StopUsb? && !s.usb.Gone? {
      a := if s.usb.Fetching? then Fetch else UsbExit;
    } else if s.control.Join? && !s.worker.Done? {
      a := WorkerStep(0);
      WorkerLeaves(su, s, 0);
    }
  }

  // Wherever the threads are when a stop begins, it can be completed.
  lemma {:induction false} StopCanFinish(su: Setup, ss: seq<State>, acts: seq<Act>)
      returns (ts: seq<State>, bs: seq<Act>)
    requires Behaviour(su, ss, acts) && !ss[|acts|].active
    ensures Behaviour(su, ts, bs) && |acts| <= |bs| && bs[..|acts|] == acts && ss <= ts
    ensures ts[|bs|].control.Stopped?
    decreases Rank(ss[|acts|].control), Ahead(ss[|acts|])
  {
    hide Next, Enabled, Inv, Init;
    ts, bs := ss, acts;
    var s := ss[|acts|];
    if !s.control.Stopped? {
      AlwaysInv(su, ss, acts, |acts|);
      var a := StopIsNotStuck(su, s);
      InvShape(s);
      ts, bs := ss + [Next(su, s, a)], acts + [a];
      forall i | 0 <= i < |bs| ensures StepsTo(su, ts[i], bs[i], ts[i + 1]) {
        if i < |acts| {
          assert StepsTo(su, ss[i], acts[i], ss[i + 1]);
        }
      }
      assert acts == bs[..|acts|];
      ts, bs := StopCanFinish(su, ts, bs);
    }
  }
}
