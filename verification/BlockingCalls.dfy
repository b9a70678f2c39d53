/**
 What one dequeue of a `BlockingConcurrentQueue` comes to between its call and its return: the
 elements claimed are the permits its semaphore operation got, and no more than were asked for.
 */
module BlockingCalls {
  import opened Counting
  import opened BlockingQueue
  import S = Semaphore
  import T = Tickets

  // The elements a step of t claims from a producer, and the permits one hands to t.
  function ClaimedBy(s: State, a: Act, t: nat): nat
  {
    if a == Go(t) && t < |s.threads| then
      match Visiting(s.threads[t])
      case Found(p) => if p < |s.prods| && t < |s.prods[p].threads| then Got(s.prods[p].threads[t]) else 0
      case NoBest => 0
    else 0
  }

  function PaidBy(s: State, a: Act, t: nat): nat
  {
    if a.SemaGo? && a.t == t < |s.sema.threads| then S.Pays(s.sema.threads[t]) else 0
  }

  // The dequeue called with acts[i] has not returned before step j.
  ghost predicate During(ss: seq<State>, acts: seq<Act>, i: nat, j: nat)
  {
    && Behaviour(ss, acts) && i < j < |ss| && (acts[i].WaitDequeue? || acts[i].TryDequeue?)
    && forall k :: i < k < j ==> acts[i].t < |ss[k].threads| && !ss[k].threads[acts[i].t].Idle?
  }

  function MayFail(a: Act): bool { !a.WaitDequeue? || a.timed }

  // A dequeue that has claimed and been paid so much is so far.
  ghost predicate Accounts(s: State, a: Act, claimed: nat, paid: nat)
    requires Inv(s) && (a.WaitDequeue? || a.TryDequeue?) && a.t < |s.threads|
  {
    && claimed + Left(s.threads[a.t]) == paid <= a.max
    && !s.threads[a.t].Signalling?
    && (s.threads[a.t].Acquiring? ==> paid == 0 && S.Asked(s.sema.threads[a.t], a.max, MayFail(a)))
    && (!s.threads[a.t].Acquiring? && !MayFail(a) && a.max >= 1 ==> paid >= 1)
  }

  lemma CallAccounts(s: State, a: Act)
    requires Inv(s) && Enabled(s, a) && (a.WaitDequeue? || a.TryDequeue?)
    requires Inv(Next(s, a))
    ensures a.t < |s.threads| == |Next(s, a).threads|
    ensures Accounts(Next(s, a), a, 0, 0)
  {
    hide S.Inv, T.Inv, ThreadsOk;
    if a.WaitDequeue? {
      S.CallAsks(s.sema, S.CallWaitMany(a.t, a.max, a.timed));
    } else {
      S.CallAsks(s.sema, S.CallTryWaitMany(a.t, a.max));
    }
  }

  lemma SemaAccounts(s: State, a: Act, call: Act, claimed: nat, paid: nat)
    requires Inv(s) && Enabled(s, a) && a.SemaGo? && Inv(Next(s, a))
    requires (call.WaitDequeue? || call.TryDequeue?) && a.t == call.t
    requires Accounts(s, call, claimed, paid)
    ensures call.t < |Next(s, a).threads|
    ensures Accounts(Next(s, a), call, claimed, paid + PaidBy(s, a, call.t))
  {
    hide T.Inv, VisitOk, S.EffectOf, S.Asked, S.PcOk, S.Waits, S.Owes, S.Carries, S.Pos, Sum, SemaOk, LeftOk;
    var t := call.t;
    var sp := s.sema.threads[t];
    assert SemaOk(s.threads[t], sp) && LeftOk(s.threads[t]);
    assert S.PcOk(sp);
    AfterPaid(s.threads[t], sp, s.sema.count, s.sema.os, a.lucky, call.max, MayFail(call));
  }

  lemma AfterPaid(pc: Pc, sp: S.Pc, count: int, os: nat, lucky: bool, max: nat, timed: bool)
    requires SemaOk(pc, sp) && S.PcOk(sp) && pc.Acquiring? && S.Asked(sp, max, timed)
    requires sp.Blocked? ==> if lucky then os > 0 else sp.timed
    ensures var e := S.EffectOf(count, os, sp, lucky); var got := S.Pays(sp); var pc' := AfterSema(pc, e.pc, got);
      && got <= max && Left(pc') == got && !pc'.Signalling?
      && (pc'.Acquiring? ==> got == 0 && S.Asked(e.pc, max, timed))
      && (!pc'.Acquiring? && !timed && max >= 1 ==> got >= 1)
  {
    SemaEffect(pc, sp, count, os, lucky);
    if !sp.Returned? {
      S.AskedKept(count, os, sp, lucky, max, timed);
    }
  }

  lemma VisitAccounts(s: State, t: nat, p: nat)
    requires Inv(s) && Enabled(s, Go(t)) && Visiting(s.threads[t]) == Found(p)
    ensures t < |Next(s, Go(t)).threads| && !Next(s, Go(t)).threads[t].Acquiring?
    ensures !Next(s, Go(t)).threads[t].Signalling?
    ensures Left(Next(s, Go(t)).threads[t]) == Left(s.threads[t]) - ClaimedBy(s, Go(t), t)
  {
    hide T.Next, S.Inv, T.Inv, Visit, DequeueStep, AfterVisit, Left, LeftOk, SemaOk;
    var pc := s.threads[t];
    assert SemaOk(pc, s.sema.threads[t]) && LeftOk(pc) && ProducersInRange(pc, |s.prods|);
    assert VisitOk(s, t, p);
    HolderVisits(pc);
    DequeueKeepsWithinMax(s.prods[p], t, VisitMax(pc));
    VisitedPc(pc, s.sema.threads[t], Got(s.prods[p].threads[t]), |s.prods|);
    VisitFrames(s, t, p);
    ReturnsOrGoesOn(pc, Got(s.prods[p].threads[t]));
  }

  lemma ReturnsOrGoesOn(pc: Pc, got: nat)
    requires Visiting(pc).Found?
    ensures InInner(pc) && (AfterVisit(pc, got).Idle? || InInner(AfterVisit(pc, got)))
  {}

  lemma PlainAccounts(s: State, t: nat)
    requires Inv(s) && Enabled(s, Go(t)) && Visiting(s.threads[t]).NoBest?
    ensures t < |Next(s, Go(t)).threads| && InInner(Next(s, Go(t)).threads[t])
    ensures Left(Next(s, Go(t)).threads[t]) == Left(s.threads[t])
  {
    hide S.Inv, T.Inv, VisitOk;
    assert LeftOk(s.threads[t]);
  }

  lemma OthersLeave(s: State, a: Act, t: nat)
    requires Inv(s) && Enabled(s, a) && t < |s.threads| && !s.threads[t].Idle?
    requires a.NewProducer? || a.t != t
    ensures t < |Next(s, a).threads| == |Next(s, a).sema.threads|
    ensures Next(s, a).threads[t] == s.threads[t] && Next(s, a).sema.threads[t] == s.sema.threads[t]
  {
    hide S.Inv, T.Inv, VisitOk, S.EffectOf;
  }

  lemma StepAccounts(s: State, a: Act, call: Act, claimed: nat, paid: nat)
    requires Inv(s) && Enabled(s, a) && Inv(Next(s, a))
    requires (call.WaitDequeue? || call.TryDequeue?) && call.t < |s.threads| && !s.threads[call.t].Idle?
    requires Accounts(s, call, claimed, paid)
    ensures call.t < |Next(s, a).threads|
    ensures Accounts(Next(s, a), call, claimed + ClaimedBy(s, a, call.t), paid + PaidBy(s, a, call.t))
  {
    hide Inv, Next, Enabled, S.Inv, S.Asked;
    if a.NewProducer? || a.t != call.t {
      OthersLeave(s, a, call.t);
    } else if a.SemaGo? {
      SemaAccounts(s, a, call, claimed, paid);
    } else {
      InsideIsGo(s, a);
      match Visiting(s.threads[a.t])
      case Found(p) => VisitAccounts(s, a.t, p);
      case NoBest => PlainAccounts(s, a.t);
    }
  }

  lemma InsideIsGo(s: State, a: Act)
    requires Inv(s) && Enabled(s, a) && !a.NewProducer? && !a.SemaGo? && a.t < |s.threads| && !s.threads[a.t].Idle?
    ensures a.Go? && InInner(s.threads[a.t])
  {}

  // ------------------------------------------------------------------------------------
  // Over a whole call

  // What t has claimed, and been paid, in the steps from i to j.
  ghost function Claimed(ss: seq<State>, acts: seq<Act>, t: nat, i: nat, j: nat): nat
    requires Behaviour(ss, acts) && i <= j < |ss|
  {
    if i == j then 0 else Claimed(ss, acts, t, i, j - 1) + ClaimedBy(ss[j - 1], acts[j - 1], t)
  }

  ghost function Paid(ss: seq<State>, acts: seq<Act>, t: nat, i: nat, j: nat): nat
    requires Behaviour(ss, acts) && i <= j < |ss|
  {
    if i == j then 0 else Paid(ss, acts, t, i, j - 1) + PaidBy(ss[j - 1], acts[j - 1], t)
  }

  lemma {:induction false} CallAccountsThroughout(ss: seq<State>, acts: seq<Act>, i: nat, j: nat)
    requires During(ss, acts, i, j)
    ensures Inv(ss[j]) && acts[i].t < |ss[j].threads| && (acts[i].WaitDequeue? || acts[i].TryDequeue?)
    ensures var t := acts[i].t; Accounts(ss[j], acts[i], Claimed(ss, acts, t, i + 1, j), Paid(ss, acts, t, i + 1, j))
    decreases j
  {
    hide Inv, Next, Enabled, Init, Accounts, ClaimedBy, PaidBy;
    var k := j - 1;
    AlwaysInv(ss, acts, j);
    AlwaysInv(ss, acts, k);
    assert StepsTo(ss[k], acts[k], ss[j]);
    if k == i {
      CallAccounts(ss[i], acts[i]);
    } else {
      CallAccountsThroughout(ss, acts, i, k);
      var t := acts[i].t;
      StepAccounts(ss[k], acts[k], acts[i], Claimed(ss, acts, t, i + 1, k), Paid(ss, acts, t, i + 1, k));
    }
  }

  // A dequeue that has returned has claimed one element for every permit it was given: at most
  // the number asked for, and at least one if it asked for any and had no timeout.
  lemma {:induction false} DequeueClaimsItsPermits(ss: seq<State>, acts: seq<Act>, i: nat, j: nat)
    requires During(ss, acts, i, j) && acts[i].t < |ss[j].threads| && ss[j].threads[acts[i].t].Idle?
    ensures acts[i].WaitDequeue? || acts[i].TryDequeue?
    ensures Claimed(ss, acts, acts[i].t, i, j) == Paid(ss, acts, acts[i].t, i, j) <= acts[i].max
    ensures acts[i].WaitDequeue? && !acts[i].timed && acts[i].max >= 1 ==> Claimed(ss, acts, acts[i].t, i, j) >= 1
    ensures acts[i].WaitDequeue? && !acts[i].timed && acts[i].mode.Single? ==> Claimed(ss, acts, acts[i].t, i, j) == 1
  {
    hide Inv, Next, Init;
    CallAccountsThroughout(ss, acts, i, j);
    assert StepsTo(ss[i], acts[i], ss[i + 1]);
    NothingBefore(ss, acts, acts[i].t, i, j);
  }

  // The call itself claims nothing.
  lemma {:induction false} NothingBefore(ss: seq<State>, acts: seq<Act>, t: nat, i: nat, j: nat)
    requires Behaviour(ss, acts) && i < j < |ss| && (acts[i].WaitDequeue? || acts[i].TryDequeue?)
    ensures Claimed(ss, acts, t, i, j) == Claimed(ss, acts, t, i + 1, j)
    ensures Paid(ss, acts, t, i, j) == Paid(ss, acts, t, i + 1, j)
    decreases j
  {
    hide Inv, Next, Init;
    if j > i + 1 {
      NothingBefore(ss, acts, t, i, j - 1);
    }
  }

  // ------------------------------------------------------------------------------------
  // A call that runs alone while permits are there

  // n semaphore steps of t alone lead from s to s'.
  ghost predicate SemaAlone(s: State, t: nat, n: nat, s': State)
    decreases n
  {
    && Inv(s)
    && if n == 0 then s' == s
       else Enabled(s, SemaGo(t, true)) && SemaAlone(Next(s, SemaGo(t, true)), t, n - 1, s')
  }

  lemma SemaOn(s: State, t: nat) returns (s': State)
    requires Inv(s) && t < |s.threads| && s.threads[t].Acquiring? && S.Enabled(s.sema, S.Go(t, true))
    ensures Enabled(s, SemaGo(t, true)) && s' == Next(s, SemaGo(t, true)) && Inv(s')
    ensures s'.sema == S.Next(s.sema, S.Go(t, true)) && |s'.sema.threads| == |s.threads|
    ensures s'.threads == s.threads[t := AfterSema(s.threads[t], s'.sema.threads[t], S.Pays(s.sema.threads[t]))]
  {
    hide S.Inv, T.Inv, ThreadsOk, S.Next;
    StepKeepsInv(s, SemaGo(t, true));
    s' := Next(s, SemaGo(t, true));
  }

  lemma CallOn(s: State, a: Act) returns (s': State)
    requires Inv(s) && Enabled(s, a) && (a.WaitDequeue? || a.TryDequeue?)
    ensures s' == Next(s, a) && Inv(s') && a.t < |s'.threads| == |s'.sema.threads|
    ensures s'.threads[a.t] == Acquiring(a.mode)
    ensures s'.sema.count == s.sema.count && s'.sema.threads[a.t].TryLoad? && s'.sema.threads[a.t].max == a.max
    ensures var after := s'.sema.threads[a.t].after; after.ReturnSum? ==> after.held == 0
  {
    hide S.Inv, T.Inv, ThreadsOk;
    StepKeepsInv(s, a);
    s' := Next(s, a);
  }

  // The call, its semaphore operation and the hand-over to the inner queue.
  lemma AcquiresAlone(s: State, a: Act) returns (s': State)
    requires Inv(s) && Enabled(s, a) && (a.WaitDequeue? || a.TryDequeue?)
    requires s.sema.count > 0 && a.max >= 1
    ensures SemaAlone(Next(s, a), a.t, 3, s') && Inv(s') && a.t < |s'.threads|
    ensures s'.threads[a.t] == Loop(a.mode, Min(a.max, s.sema.count))
  {
    hide Inv, Next, Enabled, S.Next, S.EffectOf;
    var t := a.t;
    var s0 := CallOn(s, a);
    S.TrySees(s0.sema, t);
    var s1 := SemaOn(s0, t);
    S.TryTakes(s1.sema, t);
    var s2 := SemaOn(s1, t);
    assert s2.sema.threads[t].Returned? && S.Pays(s2.sema.threads[t]) == Min(a.max, s.sema.count);
    ReturnedGoes(s2.sema, t);
    s' := SemaOn(s2, t);
    assert SemaAlone(s', t, 0, s') && SemaAlone(s2, t, 1, s') && SemaAlone(s1, t, 2, s');
  }

  lemma ReturnedGoes(sema: S.State, t: nat)
    requires t < |sema.threads| && sema.threads[t].Returned?
    ensures S.Enabled(sema, S.Go(t, true)) && S.Next(sema, S.Go(t, true)).threads == sema.threads[t := S.Idle]
  {}

  // A dequeue that finds permits and runs alone returns with as many elements as it can get
  // permits for, from the first call of the inner queue: three semaphore steps, then n others.
  lemma DequeueSucceedsAlone(ss: seq<State>, acts: seq<Act>, i: nat, a: Act) returns (s': State, n: nat)
    requires Behaviour(ss, acts) && i < |ss| && Inv(ss[i]) && Enabled(ss[i], a)
    requires (a.WaitDequeue? || a.TryDequeue?) && a.max >= 1 && ss[i].sema.count > 0
    ensures SemaAlone(Next(ss[i], a), a.t, 3, s') && a.t < |s'.threads|
    ensures s'.threads[a.t] == Loop(a.mode, Min(a.max, ss[i].sema.count)) && Returns(s', a.t, n)
  {
    hide Inv, Next, Returns, SemaAlone;
    s' := AcquiresAlone(ss[i], a);
    match a.mode
    case Single => n := HolderReturns(s', a.t);
    case Bulk => n := BulkHolderReturns(s', a.t);
  }
}
