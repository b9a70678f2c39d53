/**
 `LightweightSemaphore` of `blockingconcurrentqueue.h`: an atomic counter in front of an
 operating-system semaphore, as atomic steps of any number of threads.

 `tryWait` and `waitWithPartialSpinning` take the same steps as `tryWaitMany(1)` and
 `waitManyWithPartialSpinning(1)`, so one family of program counters covers both.  A negative
 timeout is an untimed wait.  `signalled`, `granted` (permits
 acquired) and `paid` (permits reported to callers) are history variables.
 */
module Semaphore {
  import opened Counting

  const SPINS: nat := 10000

  // What follows a call of tryWaitMany.
  datatype After =
    | ReturnSum(held: nat, untimed: bool)   // return held plus its result
    | OrSpin(timed: bool)    // wait if its result is zero and something was asked for

  datatype Pc =
    | Idle
    | TryLoad(max: nat, after: After)
    | TryCas(max: nat, was: int, after: After)
    | SpinLoad(max: nat, timed: bool, spin: nat)
    | SpinCas(max: nat, timed: bool, spin: nat, was: int)
    | FetchSub(max: nat, timed: bool)
    | Blocked(max: nat, timed: bool)
    // the wait has timed out but the count is still decremented
    | RetryLoad(max: nat)
    | RetryTryWait(max: nat)
    | RetryCas(max: nat, was: int)
    // signal
    | SignalAdd(n: nat)
    | SignalPost(left: nat)
    // untimed: the end of a wait for at least one permit that had no timeout
    | Returned(max: nat, got: nat, untimed: bool)

  datatype State = State(
    count: int,
    os: nat,
    threads: seq<Pc>,
    initial: nat,
    signalled: nat,
    granted: nat,
    paid: nat)

  datatype Act =
    | CallTryWaitMany(t: nat, max: nat)
    | CallWaitMany(t: nat, max: nat, timed: bool)
    | CallSignal(t: nat, n: nat)
    // lucky: a weak compare-and-swap does not fail spuriously; a blocked wait is woken rather than timed out
    | Go(t: nat, lucky: bool)

  ghost predicate Enabled(s: State, a: Act)
  {
    match a
    case CallTryWaitMany(t, _) => t < |s.threads| && s.threads[t] == Idle
    case CallWaitMany(t, _, _) => t < |s.threads| && s.threads[t] == Idle
    case CallSignal(t, _) => t < |s.threads| && s.threads[t] == Idle
    case Go(t, lucky) =>
      && t < |s.threads| && s.threads[t] != Idle
      && (s.threads[t].Blocked? ==> if lucky then s.os > 0 else s.threads[t].timed)
  }

  // What a successful compare-and-swap from a positive count takes: oldCount - newCount.
  function Taken(was: int, max: nat): nat { if was <= 0 then 0 else if was > max then max else was }

  // The program counter after tryWaitMany(max) has returned r.
  function AfterTry(max: nat, r: nat, after: After): Pc
  {
    match after
    case ReturnSum(held, untimed) => Returned(max + held, held + r, untimed)
    case OrSpin(timed) =>
      if r == 0 && max > 0 then SpinLoad(max, timed, SPINS) else Returned(max, r, max > 0 && !timed)
  }

  // One wake-up permit obtained: greedily try for the rest.
  function AfterWake(max: nat, timed: bool): Pc
  {
    if max > 1 then TryLoad(max - 1, ReturnSum(1, !timed)) else Returned(max, 1, !timed)
  }

  function SpinOn(max: nat, timed: bool, spin: nat): Pc
  {
    if spin <= 1 then FetchSub(max, timed) else SpinLoad(max, timed, spin - 1)
  }

  function ToRelease(was: int, n: nat): nat
  {
    if -was <= 0 then 0 else if -was < n then -was else n
  }

  // What one step of a thread does: to the count, to the operating-system semaphore, the
  // permits it grants or makes, and the thread's next program counter.
  datatype Effect = Effect(count: int, os: nat, grants: nat, makes: nat, pc: Pc)

  function EffectOf(count: int, os: nat, pc: Pc, lucky: bool): Effect
  {
    match pc
    case Idle => Effect(count, os, 0, 0, Idle)
    case TryLoad(max, after) =>
      Effect(count, os, 0, 0, if count > 0 then TryCas(max, count, after) else AfterTry(max, 0, after))
    case TryCas(max, was, after) =>
      if count == was && lucky then
        Effect(was - Taken(was, max), os, Taken(was, max), 0, AfterTry(max, Taken(was, max), after))
      else
        Effect(count, os, 0, 0, if count > 0 then TryCas(max, count, after) else AfterTry(max, 0, after))
    case SpinLoad(max, timed, spin) =>
      Effect(count, os, 0, 0, if count > 0 then SpinCas(max, timed, spin, count) else SpinOn(max, timed, spin))
    case SpinCas(max, timed, spin, was) =>
      if count == was then
        Effect(was - Taken(was, max), os, Taken(was, max), 0, Returned(max, Taken(was, max), !timed))
      else
        Effect(count, os, 0, 0, SpinOn(max, timed, spin))
    case FetchSub(max, timed) =>
      if count > 0 then Effect(count - 1, os, 1, 0, AfterWake(max, timed))
      else Effect(count - 1, os, 0, 0, Blocked(max, timed))
    case Blocked(max, timed) =>
      if lucky && os > 0 then Effect(count, os - 1, 1, 0, AfterWake(max, timed))
      else Effect(count, os, 0, 0, RetryLoad(max))
    case RetryLoad(max) =>
      Effect(count, os, 0, 0, if count >= 0 then RetryTryWait(max) else RetryCas(max, count))
    case RetryTryWait(max) =>
      if os > 0 then Effect(count, os - 1, 1, 0, AfterWake(max, true))
      else Effect(count, os, 0, 0, RetryLoad(max))
    case RetryCas(max, was) =>
      if count == was then Effect(count + 1, os, 0, 0, Returned(max, 0, false))
      else Effect(count, os, 0, 0, RetryLoad(max))
    case SignalAdd(n) =>
      var k := ToRelease(count, n);
      Effect(count + n, os, 0, n, if k > 0 then SignalPost(k) else Idle)
    case SignalPost(left) =>
      Effect(count, os + 1, 0, 0, if left > 1 then SignalPost(left - 1) else Idle)
    case Returned(_, _, _) => Effect(count, os, 0, 0, Idle)
  }

  // What a caller is told when its operation returns.
  function Pays(pc: Pc): nat { if pc.Returned? then pc.got else 0 }

  function Next(s: State, a: Act): State
    requires Enabled(s, a)
  {
    var e := match a
      case CallTryWaitMany(_, max) => Effect(s.count, s.os, 0, 0, TryLoad(max, ReturnSum(0, false)))
      case CallWaitMany(_, max, timed) => Effect(s.count, s.os, 0, 0, TryLoad(max, OrSpin(timed)))
      case CallSignal(_, n) => Effect(s.count, s.os, 0, 0, SignalAdd(n))
      case Go(t, lucky) => EffectOf(s.count, s.os, s.threads[t], lucky);
    State(e.count, e.os, s.threads[a.t := e.pc], s.initial, s.signalled + e.makes, s.granted + e.grants,
          s.paid + if a.Go? then Pays(s.threads[a.t]) else 0)
  }

  ghost predicate Init(s: State)
  {
    && s.count == s.initial && s.os == 0 && s.signalled == 0 && s.granted == 0 && s.paid == 0
    && forall t :: 0 <= t < |s.threads| ==> s.threads[t] == Idle
  }

  // ------------------------------------------------------------------------------------
  // The invariant

  // One for a thread that has decremented the count below one and has no permit for it yet.
  function Waits(pc: Pc): int
  {
    if pc.Blocked? || pc.RetryLoad? || pc.RetryTryWait? || pc.RetryCas? then 1 else 0
  }

  // Posts a signal still owes the operating-system semaphore.
  function Owes(pc: Pc): int { if pc.SignalPost? then pc.left else 0 }

  function Held(after: After): nat { if after.ReturnSum? then after.held else 0 }

  predicate AfterOk(after: After) { after.ReturnSum? && after.untimed ==> after.held >= 1 }

  // Permits a thread has acquired in the operation it is in.
  function Carries(pc: Pc): int
  {
    match pc
    case TryLoad(_, after) => Held(after)
    case TryCas(_, _, after) => Held(after)
    case Returned(_, got, _) => got
    case _ => 0
  }

  function Pos(x: int): nat { if x > 0 then x else 0 }

  predicate PcOk(pc: Pc)
  {
    match pc
    case TryLoad(_, after) => AfterOk(after)
    case TryCas(_, was, after) => was > 0 && AfterOk(after)
    case SpinLoad(max, _, spin) => max >= 1 && spin >= 1
    case SpinCas(max, _, spin, was) => max >= 1 && spin >= 1 && was > 0
    case FetchSub(max, _) => max >= 1
    case Blocked(max, _) => max >= 1
    case RetryLoad(max) => max >= 1
    case RetryTryWait(max) => max >= 1
    case RetryCas(max, was) => max >= 1 && was < 0
    case SignalPost(left) => left >= 1
    case Returned(max, got, untimed) => got <= max && (untimed ==> got >= 1)
    case _ => true
  }

  ghost function Pending(s: State): int { Sum(Owes, s.threads) }

  ghost predicate Inv(s: State)
  {
    // a waiter stands for a negative unit of the count, a posted permit or a post still owed
    && Sum(Waits, s.threads) == Pos(-s.count) + s.os + Pending(s)
    // every permit ever made is granted, or in the count, or posted, or owed
    && s.initial + s.signalled == s.granted + Pos(s.count) + s.os + Pending(s)
    // what was granted has been reported or is about to be
    && s.granted == s.paid + Sum(Carries, s.threads)
    && forall t :: 0 <= t < |s.threads| ==> PcOk(s.threads[t])
  }

  // What one step does to the shared variables balances with the share of its own thread.
  ghost predicate Balances(count: int, os: nat, pc: Pc, e: Effect)
  {
    && PcOk(e.pc)
    && Waits(e.pc) - Waits(pc) == Pos(-e.count) - Pos(-count) + e.os - os + Owes(e.pc) - Owes(pc)
    && e.grants == Carries(e.pc) - Carries(pc) + Pays(pc)
    && e.makes == e.grants + Pos(e.count) - Pos(count) + e.os - os + Owes(e.pc) - Owes(pc)
  }

  // The program counters that follow: they do not wait or owe anything, and carry what is held.
  lemma AfterTryCarries(max: nat, r: nat, after: After)
    requires r <= max && AfterOk(after)
    ensures var pc := AfterTry(max, r, after);
      PcOk(pc) && Waits(pc) == 0 && Owes(pc) == 0 && Carries(pc) == Held(after) + r
  {}

  lemma AfterWakeCarries(max: nat, timed: bool)
    requires max >= 1
    ensures var pc := AfterWake(max, timed); PcOk(pc) && Waits(pc) == 0 && Owes(pc) == 0 && Carries(pc) == 1
  {}

  lemma SpinOnCarries(max: nat, timed: bool, spin: nat)
    requires max >= 1
    ensures var pc := SpinOn(max, timed, spin); PcOk(pc) && Waits(pc) == 0 && Owes(pc) == 0 && Carries(pc) == 0
  {}

  lemma TryBalances(count: int, os: nat, pc: Pc, lucky: bool)
    requires PcOk(pc) && (pc.TryLoad? || pc.TryCas?)
    ensures Balances(count, os, pc, EffectOf(count, os, pc, lucky))
  {
    hide AfterTry, AfterWake, SpinOn;
    AfterTryCarries(pc.max, 0, pc.after);
    if pc.TryCas? {
      AfterTryCarries(pc.max, Taken(pc.was, pc.max), pc.after);
    }
  }

  lemma SpinBalances(count: int, os: nat, pc: Pc, lucky: bool)
    requires PcOk(pc) && (pc.SpinLoad? || pc.SpinCas? || pc.FetchSub?)
    ensures Balances(count, os, pc, EffectOf(count, os, pc, lucky))
  {
    hide AfterTry, AfterWake, SpinOn;
    if pc.FetchSub? {
      AfterWakeCarries(pc.max, pc.timed);
    } else {
      SpinOnCarries(pc.max, pc.timed, pc.spin);
    }
  }

  lemma WaitBalances(count: int, os: nat, pc: Pc, lucky: bool)
    requires PcOk(pc) && (pc.Blocked? || pc.RetryLoad? || pc.RetryTryWait? || pc.RetryCas?)
    ensures Balances(count, os, pc, EffectOf(count, os, pc, lucky))
  {
    hide AfterTry, AfterWake, SpinOn;
    AfterWakeCarries(pc.max, if pc.Blocked? then pc.timed else true);
  }

  lemma SignalBalances(count: int, os: nat, pc: Pc, lucky: bool)
    requires PcOk(pc) && (pc.SignalAdd? || pc.SignalPost? || pc.Returned? || pc.Idle?)
    ensures Balances(count, os, pc, EffectOf(count, os, pc, lucky))
  {
    hide AfterTry, AfterWake, SpinOn;
  }

  lemma EffectBalances(count: int, os: nat, pc: Pc, lucky: bool)
    requires PcOk(pc)
    ensures Balances(count, os, pc, EffectOf(count, os, pc, lucky))
  {
    hide EffectOf, Balances, PcOk;
    if pc.TryLoad? || pc.TryCas? {
      TryBalances(count, os, pc, lucky);
    } else if pc.SpinLoad? || pc.SpinCas? || pc.FetchSub? {
      SpinBalances(count, os, pc, lucky);
    } else if pc.SignalAdd? || pc.SignalPost? || pc.Returned? || pc.Idle? {
      SignalBalances(count, os, pc, lucky);
    } else {
      WaitBalances(count, os, pc, lucky);
    }
  }

  // The sums over all threads change by what the acting thread's share changes.
  lemma SharesChange(s: State, a: Act)
    requires Enabled(s, a)
    ensures var t, s' := a.t, Next(s, a);
      && Sum(Waits, s'.threads) == Sum(Waits, s.threads) - Waits(s.threads[t]) + Waits(s'.threads[t])
      && Pending(s') == Pending(s) - Owes(s.threads[t]) + Owes(s'.threads[t])
      && Sum(Carries, s'.threads) == Sum(Carries, s.threads) - Carries(s.threads[t]) + Carries(s'.threads[t])
  {
    hide EffectOf;
    var t, s' := a.t, Next(s, a);
    SumUpdate(Waits, s.threads, t, s'.threads[t]);
    SumUpdate(Owes, s.threads, t, s'.threads[t]);
    SumUpdate(Carries, s.threads, t, s'.threads[t]);
  }

  lemma CallKeepsInv(s: State, a: Act)
    requires Inv(s) && Enabled(s, a) && !a.Go?
    ensures Inv(Next(s, a))
  {
    hide EffectOf, Pos;
    SharesChange(s, a);
  }

  lemma GoKeepsInv(s: State, a: Act)
    requires Inv(s) && Enabled(s, a) && a.Go?
    ensures Inv(Next(s, a))
  {
    hide EffectOf, Pos, PcOk, Waits, Owes, Carries, Pays;
    SharesChange(s, a);
    EffectBalances(s.count, s.os, s.threads[a.t], a.lucky);
  }

  lemma StepKeepsInv(s: State, a: Act)
    requires Inv(s) && Enabled(s, a)
    ensures Inv(Next(s, a))
  {
    hide Inv, Next, Enabled;
    if a.Go? {
      GoKeepsInv(s, a);
    } else {
      CallKeepsInv(s, a);
    }
  }

  // ------------------------------------------------------------------------------------
  // Whole runs

  ghost predicate Behaviour(ss: seq<State>, acts: seq<Act>)
  {
    && |ss| == |acts| + 1
    && Init(ss[0])
    && forall i :: 0 <= i < |acts| ==> StepsTo(ss[i], acts[i], ss[i + 1])
  }

  ghost predicate StepsTo(s: State, a: Act, s': State) { Enabled(s, a) && s' == Next(s, a) }

  lemma {:induction false} SumZero(f: Pc -> int, pcs: seq<Pc>)
    requires f(Idle) == 0
    requires forall t :: 0 <= t < |pcs| ==> pcs[t] == Idle
    ensures Sum(f, pcs) == 0
  {
    if pcs != [] {
      SumZero(f, pcs[1..]);
    }
  }

  lemma {:induction false} AlwaysInv(ss: seq<State>, acts: seq<Act>, i: nat)
    requires Behaviour(ss, acts) && i < |ss|
    ensures Inv(ss[i])
  {
    if i == 0 {
      SumZero(Waits, ss[0].threads);
      SumZero(Owes, ss[0].threads);
      SumZero(Carries, ss[0].threads);
    } else {
      AlwaysInv(ss, acts, i - 1);
      assert StepsTo(ss[i - 1], acts[i - 1], ss[i]);
      StepKeepsInv(ss[i - 1], acts[i - 1]);
    }
  }

  lemma {:induction false} SumBounds(f: Pc -> int, pcs: seq<Pc>)
    requires forall t :: 0 <= t < |pcs| ==> f(pcs[t]) >= 0
    ensures Sum(f, pcs) >= 0
    ensures forall t :: 0 <= t < |pcs| ==> f(pcs[t]) <= Sum(f, pcs)
  {
    if pcs != [] {
      SumBounds(f, pcs[1..]);
      forall t | 0 <= t < |pcs| ensures f(pcs[t]) <= Sum(f, pcs) {
        if t > 0 {
          assert pcs[t] == pcs[1..][t - 1];
        }
      }
    }
  }

  lemma {:induction false} WaitersFew(pcs: seq<Pc>)
    ensures Sum(Waits, pcs) <= |pcs|
  {
    if pcs != [] {
      WaitersFew(pcs[1..]);
    }
  }

  // Permits are neither made from nothing nor lost.
  lemma PermitsConserved(ss: seq<State>, acts: seq<Act>, i: nat)
    requires Behaviour(ss, acts) && i < |ss|
    ensures var s := ss[i];
      && s.initial + s.signalled == s.granted + Pos(s.count) + s.os + Pending(s)
      && s.granted == s.paid + Sum(Carries, s.threads)
      && s.paid <= s.granted <= s.initial + s.signalled
      && Pending(s) >= 0
  {
    AlwaysInv(ss, acts, i);
    SumBounds(Owes, ss[i].threads);
    SumBounds(Carries, ss[i].threads);
  }

  // No lost wake-up: when no signal is in flight, either every waiter has a posted permit to
  // take, or all permits are granted and the count says how many waiters are left without one.
  lemma NoLostWakeup(ss: seq<State>, acts: seq<Act>, i: nat)
    requires Behaviour(ss, acts) && i < |ss| && Pending(ss[i]) == 0
    ensures var s := ss[i];
      && (s.count >= 0 ==> s.os == Sum(Waits, s.threads))
      && (s.count < 0 ==> Sum(Waits, s.threads) == -s.count + s.os)
      && (s.os == 0 && Sum(Waits, s.threads) > 0 ==> s.granted == s.initial + s.signalled)
  {
    AlwaysInv(ss, acts, i);
  }

  // The loop after a timeout always has a way out: a waiter to give up on, a posted permit, or
  // a post some signal still owes.
  lemma TimedOutWaiterCanLeave(ss: seq<State>, acts: seq<Act>, i: nat, t: nat)
    requires Behaviour(ss, acts) && i < |ss| && t < |ss[i].threads|
    requires ss[i].threads[t].RetryLoad? || ss[i].threads[t].RetryTryWait? || ss[i].threads[t].RetryCas?
    ensures ss[i].count < 0 || ss[i].os > 0 || Pending(ss[i]) > 0
  {
    AlwaysInv(ss, acts, i);
    SumBounds(Waits, ss[i].threads);
    SumBounds(Owes, ss[i].threads);
  }

  // The number signal passes to the operating-system semaphore never exceeds the number of
  // threads, so the cast to int in the source loses nothing; nor does the count fall lower.
  lemma ReleaseIsSmall(ss: seq<State>, acts: seq<Act>, i: nat, t: nat)
    requires Behaviour(ss, acts) && i < |ss| && t < |ss[i].threads|
    ensures ss[i].threads[t].SignalAdd? ==> ToRelease(ss[i].count, ss[i].threads[t].n) <= |ss[i].threads|
    ensures -ss[i].count <= |ss[i].threads|
  {
    AlwaysInv(ss, acts, i);
    SumBounds(Owes, ss[i].threads);
    WaitersFew(ss[i].threads);
  }

  // A wait takes no more than it asked for, and at least one permit if it had no timeout.
  lemma ResultInRange(ss: seq<State>, acts: seq<Act>, i: nat, t: nat)
    requires Behaviour(ss, acts) && i < |ss| && t < |ss[i].threads| && ss[i].threads[t].Returned?
    ensures ss[i].threads[t].got <= ss[i].threads[t].max
    ensures ss[i].threads[t].untimed ==> ss[i].threads[t].got >= 1
  {
    AlwaysInv(ss, acts, i);
  }

  // ------------------------------------------------------------------------------------
  // What a call asked for, and what it gets

  // The operation is for max permits; timed means that it may come back without any.
  predicate Asked(pc: Pc, max: nat, timed: bool)
  {
    match pc
    case TryLoad(m, after) => AskedAfter(m, after, max, timed)
    case TryCas(m, _, after) => AskedAfter(m, after, max, timed)
    case SpinLoad(m, td, _) => m == max && td == timed
    case SpinCas(m, td, _, _) => m == max && td == timed
    case FetchSub(m, td) => m == max && td == timed
    case Blocked(m, td) => m == max && td == timed
    case RetryLoad(m) => m == max && timed
    case RetryTryWait(m) => m == max && timed
    case RetryCas(m, _) => m == max && timed
    case Returned(m, _, untimed) => m == max && (max >= 1 && !timed ==> untimed)
    case _ => false
  }

  predicate AskedAfter(m: nat, after: After, max: nat, timed: bool)
  {
    match after
    case ReturnSum(held, untimed) => m + held == max && untimed == !timed
    case OrSpin(td) => m == max && td == timed
  }

  lemma AskedKept(count: int, os: nat, pc: Pc, lucky: bool, max: nat, timed: bool)
    requires PcOk(pc) && Asked(pc, max, timed) && !pc.Returned?
    requires pc.Blocked? && !lucky ==> pc.timed
    requires pc.Blocked? && lucky ==> os > 0
    ensures Asked(EffectOf(count, os, pc, lucky).pc, max, timed)
  {}

  // The call of acts[i] has not returned before step j.
  ghost predicate During(ss: seq<State>, acts: seq<Act>, i: nat, j: nat)
  {
    && Behaviour(ss, acts) && i < j < |ss| && (acts[i].CallWaitMany? || acts[i].CallTryWaitMany?)
    && forall k :: i < k <= j ==> acts[i].t < |ss[k].threads| && !ss[k].threads[acts[i].t].Idle?
  }

  function MayFail(a: Act): bool { !a.CallWaitMany? || a.timed }

  lemma {:induction false} AskedThroughout(ss: seq<State>, acts: seq<Act>, i: nat, j: nat)
    requires During(ss, acts, i, j)
    ensures acts[i].CallWaitMany? || acts[i].CallTryWaitMany?
    ensures Asked(ss[j].threads[acts[i].t], acts[i].max, MayFail(acts[i]))
    decreases j
  {
    hide Inv, EffectOf, PcOk, Asked, Init;
    var t, k := acts[i].t, j - 1;
    assert StepsTo(ss[k], acts[k], ss[j]);
    if k == i {
      assert Asked(ss[j].threads[t], acts[i].max, MayFail(acts[i])) by { CallAsks(ss[i], acts[i]); }
    } else {
      AskedThroughout(ss, acts, i, k);
      AlwaysInv(ss, acts, k);
      if acts[k].t == t {
        StepKeepsAsked(ss[k], acts[k], acts[i].max, MayFail(acts[i]));
      }
    }
  }

  lemma CallAsks(s: State, a: Act)
    requires Enabled(s, a) && (a.CallWaitMany? || a.CallTryWaitMany?)
    ensures Asked(Next(s, a).threads[a.t], a.max, MayFail(a))
  {}

  lemma StepKeepsAsked(s: State, a: Act, max: nat, timed: bool)
    requires Inv(s) && Enabled(s, a) && a.Go?
    requires Asked(s.threads[a.t], max, timed)
    ensures s.threads[a.t].Returned? || Asked(Next(s, a).threads[a.t], max, timed)
    ensures s.threads[a.t].Returned? ==> Next(s, a).threads[a.t].Idle?
  {
    hide Asked, PcOk;
    assert PcOk(s.threads[a.t]);
    if !s.threads[a.t].Returned? {
      AskedKept(s.count, s.os, s.threads[a.t], a.lucky, max, timed);
    }
  }

  // A call is told of no more permits than it asked for, and of at least one if it asked for
  // some and had no timeout.
  lemma CallGetsWhatItAskedFor(ss: seq<State>, acts: seq<Act>, i: nat, j: nat)
    requires During(ss, acts, i, j) && ss[j].threads[acts[i].t].Returned?
    ensures acts[i].CallWaitMany? || acts[i].CallTryWaitMany?
    ensures ss[j].threads[acts[i].t].got <= acts[i].max
    ensures acts[i].CallWaitMany? && !acts[i].timed && acts[i].max >= 1 ==> ss[j].threads[acts[i].t].got >= 1
  {
    AskedThroughout(ss, acts, i, j);
    ResultInRange(ss, acts, j, acts[i].t);
  }

  // ------------------------------------------------------------------------------------
  // A call that runs alone

  // n steps of t alone lead from s to s'; no compare-and-swap fails spuriously.
  ghost predicate Alone(s: State, t: nat, n: nat, s': State)
    decreases n
  {
    if n == 0 then s' == s else Enabled(s, Go(t, true)) && Alone(Next(s, Go(t, true)), t, n - 1, s')
  }

  // What a try comes to: min(max, count) permits, taken from the count, or none.
  ghost predicate Tries(s: State, t: nat, s': State)
    requires t < |s.threads| && s.threads[t].TryLoad?
  {
    var pc := s.threads[t]; var got := Taken(s.count, pc.max);
    && s' == s.(count := s.count - got, granted := s.granted + got,
                threads := s.threads[t := AfterTry(pc.max, got, pc.after)])
    && got == Min(pc.max, Pos(s.count))
  }

  // The load of a try that sees permits, and the compare-and-swap that takes them.
  lemma TrySees(s: State, t: nat)
    requires t < |s.threads| && s.threads[t].TryLoad? && s.count > 0
    ensures var pc := s.threads[t];
      && Enabled(s, Go(t, true))
      && Next(s, Go(t, true)) == s.(threads := s.threads[t := TryCas(pc.max, s.count, pc.after)])
  {}

  lemma TryTakes(s: State, t: nat)
    requires t < |s.threads| && s.threads[t].TryCas? && s.threads[t].was == s.count > 0
    ensures var pc := s.threads[t]; var got := Min(pc.max, s.count);
      && Enabled(s, Go(t, true))
      && Next(s, Go(t, true)) == s.(count := s.count - got, granted := s.granted + got,
                                    threads := s.threads[t := AfterTry(pc.max, got, pc.after)])
  {}

  lemma TryAlone(s: State, t: nat) returns (s': State)
    requires t < |s.threads| && s.threads[t].TryLoad?
    ensures Tries(s, t, s') && Alone(s, t, if s.count > 0 then 2 else 1, s')
  {
    var s1 := Next(s, Go(t, true));
    if s.count > 0 {
      TrySees(s, t);
      TryTakes(s1, t);
      s' := Next(s1, Go(t, true));
      assert s'.threads == s.threads[t := s'.threads[t]];
      assert Alone(s', t, 0, s') && Alone(s1, t, 1, s');
    } else {
      s' := s1;
      assert Alone(s', t, 0, s');
    }
  }

  // tryWaitMany alone takes as many of the permits asked for as the count has; wait and
  // waitMany do the same at once if the count has any.
  lemma TakesWhatIsThere(s: State, a: Act) returns (n: nat, s': State)
    requires Enabled(s, a) && (a.CallTryWaitMany? || a.CallWaitMany?)
    ensures Alone(Next(s, a), a.t, n, s') && n <= 2 && a.t < |s'.threads|
    ensures var got := Min(a.max, Pos(s.count));
      && s'.count == s.count - got && s'.os == s.os && s'.granted == s.granted + got
      && s'.threads[a.t] ==
          if a.CallWaitMany? && got == 0 && a.max > 0 then SpinLoad(a.max, a.timed, SPINS)
          else Returned(a.max, got, a.CallWaitMany? && a.max > 0 && !a.timed)
  {
    hide Alone, EffectOf;
    s' := TryAlone(Next(s, a), a.t);
    n := if s.count > 0 then 2 else 1;
  }

  lemma {:induction false} SpinsAlone(s: State, t: nat) returns (s': State)
    requires t < |s.threads| && s.threads[t].SpinLoad? && s.threads[t].spin >= 1 && s.count <= 0
    ensures Alone(s, t, s.threads[t].spin, s')
    ensures s' == s.(threads := s.threads[t := FetchSub(s.threads[t].max, s.threads[t].timed)])
    decreases s.threads[t].spin
  {
    var s1 := Next(s, Go(t, true));
    if s.threads[t].spin > 1 {
      s' := SpinsAlone(s1, t);
    } else {
      s' := s1;
      assert Alone(s', t, 0, s');
    }
  }

  // A wait that finds no permit and runs into its timeout alone leaves the semaphore as it was.
  lemma {:induction false} TimeoutUndoesWait(s: State, t: nat)
    requires t < |s.threads| && s.threads[t].FetchSub? && s.threads[t].timed && s.count <= 0
    ensures var s1 := Next(s, Go(t, true));
      && Enabled(s1, Go(t, false))
      && Alone(Next(s1, Go(t, false)), t, 2, s.(threads := s.threads[t := Returned(s.threads[t].max, 0, false)]))
  {
    var max := s.threads[t].max;
    var s1 := Next(s, Go(t, true));
    var s2 := Next(s1, Go(t, false));
    var s3 := Next(s2, Go(t, true));
    assert s3.threads[t] == RetryCas(max, s.count - 1);
    var s4 := Next(s3, Go(t, true));
    assert s4 == s.(threads := s.threads[t := Returned(max, 0, false)]);
    assert Alone(s4, t, 0, s4) && Alone(s3, t, 1, s4);
  }
}
