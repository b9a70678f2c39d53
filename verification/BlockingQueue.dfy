/**
 `BlockingConcurrentQueue`: the semaphore of module Semaphore in front of any number of
 implicit producers, each represented by its ticket counters (module Tickets), as atomic steps
 of any number of threads.

 An enqueue is its store to `tailIndex` followed by `signal`; a failed enqueue changes none of
 these counters.  A dequeue first acquires permits and then calls `try_dequeue` or
 `try_dequeue_bulk` of the inner queue until it has used them up.  New producers are put in
 front of the list, so producer |prods| - 1 is visited first and producer 0 last.
 */
module BlockingQueue {
  import opened Counting
  import S = Semaphore
  import T = Tickets

  datatype Mode = Single | Bulk

  datatype Best = NoBest | Found(p: nat)

  datatype Pc =
    | Idle
    | Signalling
    | Acquiring(mode: Mode)
    // left permits are not used up yet; the inner queue is about to be tried (again)
    | Loop(mode: Mode, left: nat)
    // try_dequeue scores the producers p - 1, p - 2, ... until three are not empty
    | ScoreTail(left: nat, p: nat, nonEmpty: nat, best: Best, bestSize: nat)
    | ScoreHead(left: nat, p: nat, nonEmpty: nat, best: Best, bestSize: nat, tail: nat)
    | TryBest(left: nat, first: nat)
    | Relist(left: nat, first: nat)
    | TryNext(left: nat, first: nat, p: nat)
    // try_dequeue_bulk visits the producers p - 1, p - 2, ...
    | TryBulk(left: nat, p: nat)

  datatype State = State(sema: S.State, prods: seq<T.State>, threads: seq<Pc>)

  datatype Act =
    | NewProducer
    | Publish(t: nat, p: nat, n: nat)
    | TryDequeue(t: nat, mode: Mode, max: nat)
    | WaitDequeue(t: nat, mode: Mode, max: nat, timed: bool)
    | SemaGo(t: nat, lucky: bool)
    | Go(t: nat)

  // The producer a thread is trying to dequeue from.
  function Visiting(pc: Pc): Best
  {
    match pc
    case TryBest(_, best) => Found(best)
    case TryNext(_, best, p) => if p > 0 && p - 1 != best then Found(p - 1) else NoBest
    case TryBulk(_, p) => if p > 0 then Found(p - 1) else NoBest
    case _ => NoBest
  }

  predicate InInner(pc: Pc) { !pc.Idle? && !pc.Signalling? && !pc.Acquiring? }

  function Left(pc: Pc): int { if InInner(pc) then pc.left else 0 }

  function VisitMax(pc: Pc): nat { if pc.TryBulk? then pc.left else 1 }

  predicate ProducersInRange(pc: Pc, n: nat)
  {
    match pc
    case ScoreTail(_, p, _, best, _) => 0 < p <= n && (best.Found? ==> best.p < n)
    case ScoreHead(_, p, _, best, _, _) => 0 < p <= n && (best.Found? ==> best.p < n)
    case TryBest(_, best) => best < n
    case Relist(_, best) => best < n
    case TryNext(_, best, p) => best < n && p <= n
    case TryBulk(_, p) => p <= n
    case _ => true
  }

  ghost predicate Shape(s: State)
  {
    && |s.sema.threads| == |s.threads|
    && (forall p :: 0 <= p < |s.prods| ==> |s.prods[p].threads| == |s.threads|)
    && (forall t :: 0 <= t < |s.threads| ==> ProducersInRange(s.threads[t], |s.prods|))
  }

  ghost predicate Enabled(s: State, a: Act)
    requires Shape(s)
  {
    match a
    case NewProducer => true
    case Publish(t, p, _) => t < |s.threads| && s.threads[t].Idle? && s.sema.threads[t].Idle? && p < |s.prods|
    case TryDequeue(t, mode, max) =>
      t < |s.threads| && s.threads[t].Idle? && s.sema.threads[t].Idle? && (mode.Single? ==> max == 1)
    case WaitDequeue(t, mode, max, _) =>
      t < |s.threads| && s.threads[t].Idle? && s.sema.threads[t].Idle? && (mode.Single? ==> max == 1)
    case SemaGo(t, lucky) =>
      t < |s.threads| && (s.threads[t].Signalling? || s.threads[t].Acquiring?) && S.Enabled(s.sema, S.Go(t, lucky))
    case Go(t) =>
      t < |s.threads| && InInner(s.threads[t]) &&
      match Visiting(s.threads[t])
      case NoBest => true
      case Found(p) => s.prods[p].threads[t].Idle? ==> VisitMax(s.threads[t]) >= 1
  }

  function NewCounters(threads: nat): T.State { T.State(0, 0, 0, 0, seq(threads, i => T.Idle), []) }

  // After a producer was scored, or when the list is loaded.
  function AfterScore(left: nat, p: nat, nonEmpty: nat, best: Best, bestSize: nat): Pc
  {
    if nonEmpty < 3 && p > 0 then ScoreTail(left, p, nonEmpty, best, bestSize)
    else if nonEmpty > 0 && best.Found? then TryBest(left, best.p)
    else Loop(Single, left)
  }

  // After a visit that took got elements.
  function AfterVisit(pc: Pc, got: nat): Pc
  {
    match pc
    case TryBest(left, best) => if got > 0 then Idle else Relist(left, best)
    case TryNext(left, best, p) =>
      if got > 0 then Idle else if p > 0 then TryNext(left, best, p - 1) else Loop(Single, left)
    case TryBulk(left, p) =>
      if got >= left then Idle else if p > 0 then TryBulk(left - got, p - 1) else Loop(Bulk, left)
    case _ => pc
  }

  // After a step of the semaphore operation, which has returned if sp is idle.
  function AfterSema(pc: Pc, sp: S.Pc, got: nat): Pc
  {
    if !sp.Idle? then pc else if pc.Acquiring? && got > 0 then Loop(pc.mode, got) else Idle
  }

  function Got(pc: T.Pc): nat { if pc.ClaimHead? then pc.got else 0 }

  function Next(s: State, a: Act): State
    requires Shape(s) && Enabled(s, a)
  {
    match a
    case NewProducer => s.(prods := s.prods + [NewCounters(|s.threads|)])
    case Publish(t, p, n) =>
      State(S.Next(s.sema, S.CallSignal(t, n)),
            s.prods[p := T.Next(s.prods[p], T.Publish(n))],
            s.threads[t := Signalling])
    case TryDequeue(t, mode, max) =>
      s.(sema := S.Next(s.sema, S.CallTryWaitMany(t, max)), threads := s.threads[t := Acquiring(mode)])
    case WaitDequeue(t, mode, max, timed) =>
      s.(sema := S.Next(s.sema, S.CallWaitMany(t, max, timed)), threads := s.threads[t := Acquiring(mode)])
    case SemaGo(t, lucky) =>
      var sema' := S.Next(s.sema, S.Go(t, lucky));
      var got := S.Pays(s.sema.threads[t]);
      s.(sema := sema', threads := s.threads[t := AfterSema(s.threads[t], sema'.threads[t], got)])
    case Go(t) =>
      var pc := s.threads[t];
      match Visiting(pc)
      case Found(p) => Visit(s, t, p)
      case NoBest =>
        s.(threads := s.threads[t :=
          match pc
          case Loop(Single, left) => AfterScore(left, |s.prods|, 0, NoBest, 0)
          case Loop(Bulk, left) => TryBulk(left, |s.prods|)
          case ScoreTail(left, p, n, best, size) => ScoreHead(left, p, n, best, size, s.prods[p - 1].tail)
          case ScoreHead(left, p, n, best, bestSize, tail) =>
            var size := if s.prods[p - 1].head < tail then tail - s.prods[p - 1].head else 0;
            AfterScore(left, p - 1, if size > 0 then n + 1 else n,
                       if size > bestSize then Found(p - 1) else best, if size > bestSize then size else bestSize)
          case Relist(left, best) => TryNext(left, best, |s.prods|)
          case _ => AfterVisit(pc, 0)])
  }

  // One step of the dequeue from producer p that thread t is in, or its first step.
  function Visit(s: State, t: nat, p: nat): State
    requires Shape(s) && Enabled(s, Go(t)) && Visiting(s.threads[t]) == Found(p)
  {
    var c := s.prods[p];
    if c.threads[t].Idle? then
      s.(prods := s.prods[p := T.Next(c, T.Start(t, VisitMax(s.threads[t])))])
    else
      var c' := T.Next(c, T.Go(t));
      s.(prods := s.prods[p := c'],
         threads :=
           if c'.threads[t].Idle? then s.threads[t := AfterVisit(s.threads[t], Got(c.threads[t]))] else s.threads)
  }

  ghost predicate Init(s: State)
  {
    && S.Init(s.sema) && s.sema.initial == 0 && |s.sema.threads| == |s.threads|
    && s.prods == []
    && forall t :: 0 <= t < |s.threads| ==> s.threads[t].Idle?
  }

  // ------------------------------------------------------------------------------------
  // The invariant

  function Tails(c: T.State): int { c.tail }

  function Heads(c: T.State): int { c.head }

  // Elements published whose permits are not made yet.
  function ToSignal(pc: S.Pc): int { if pc.SignalAdd? then pc.n else 0 }

  // The most a dequeue may still claim.
  function Wants(pc: T.Pc): nat
  {
    match pc
    case Idle => 0
    case LoadOver(_, max) => max
    case LoadOptimistic(_, _, max) => max
    case TakeTickets(_, want) => want
    case LoadTail(_, want, _) => want
    case Refund(_, got, spare) => got + spare
    case ClaimHead(_, got) => got
    case GiveBack(_, want) => want
  }

  ghost predicate VisitOk(s: State, t: nat, p: nat)
    requires Shape(s) && t < |s.threads| && p < |s.prods|
  {
    if Visiting(s.threads[t]) == Found(p) then Wants(s.prods[p].threads[t]) <= VisitMax(s.threads[t])
    else s.prods[p].threads[t].Idle?
  }

  predicate SemaOk(pc: Pc, sp: S.Pc)
  {
    match pc
    case Signalling => sp.SignalAdd? || sp.SignalPost?
    case Acquiring(mode) => !sp.Idle? && !sp.SignalAdd? && !sp.SignalPost? && (mode.Single? ==> AskedForOne(sp))
    case _ => sp.Idle?
  }

  predicate AskedForOne(sp: S.Pc)
  {
    match sp
    case TryLoad(max, after) => max == 1 && (after.ReturnSum? ==> after.held == 0)
    case TryCas(max, _, after) => max == 1 && (after.ReturnSum? ==> after.held == 0)
    case SpinLoad(max, _, _) => max == 1
    case SpinCas(max, _, _, _) => max == 1
    case FetchSub(max, _) => max == 1
    case Blocked(max, _) => max == 1
    case RetryLoad(max) => max == 1
    case RetryTryWait(max) => max == 1
    case RetryCas(max, _) => max == 1
    case Returned(max, got, _) => got <= 1
    case _ => true
  }

  predicate LeftOk(pc: Pc)
  {
    match pc
    case Loop(mode, left) => left >= 1 && (mode.Single? ==> left == 1)
    case ScoreTail(left, _, n, best, size) => left == 1 && n < 3 && (n > 0 <==> best.Found?) && (n > 0 <==> size > 0)
    case ScoreHead(left, _, n, best, size, _) => left == 1 && n < 3 && (n > 0 <==> best.Found?) && (n > 0 <==> size > 0)
    case TryBest(left, _) => left == 1
    case Relist(left, _) => left == 1
    case TryNext(left, _, _) => left == 1
    case TryBulk(left, _) => left >= 1
    case _ => true
  }

  ghost predicate ThreadsOk(s: State)
    requires Shape(s)
  {
    && (forall t :: 0 <= t < |s.threads| ==> SemaOk(s.threads[t], s.sema.threads[t]) && LeftOk(s.threads[t]))
    && (forall t, p :: 0 <= t < |s.threads| && 0 <= p < |s.prods| ==> VisitOk(s, t, p))
  }

  ghost predicate Inv(s: State)
  {
    && Shape(s) && S.Inv(s.sema) && s.sema.initial == 0
    && (forall p :: 0 <= p < |s.prods| ==> T.Inv(s.prods[p]))
    && ThreadsOk(s)
    // permits made or about to be made are elements published
    && s.sema.signalled + Sum(ToSignal, s.sema.threads) == Sum(Tails, s.prods)
    // permits handed to callers are elements claimed or still to be claimed with them
    && s.sema.paid == Sum(Heads, s.prods) + Sum(Left, s.threads)
  }

  // ------------------------------------------------------------------------------------
  // Every step keeps the invariant

  lemma SemaEffect(pc: Pc, sp: S.Pc, count: int, os: nat, lucky: bool)
    requires SemaOk(pc, sp) && S.PcOk(sp) && (pc.Signalling? || pc.Acquiring?)
    ensures var e := S.EffectOf(count, os, sp, lucky); var pc' := AfterSema(pc, e.pc, S.Pays(sp));
      && SemaOk(pc', e.pc) && LeftOk(pc') && ToSignal(sp) == ToSignal(e.pc) + e.makes && Left(pc') == S.Pays(sp)
      && Visiting(pc') == NoBest && (pc'.Loop? || pc'.Idle? || pc' == pc)
  {}

  lemma SemaGoKeepsInv(s: State, t: nat, lucky: bool)
    requires Inv(s) && Enabled(s, SemaGo(t, lucky))
    ensures Inv(Next(s, SemaGo(t, lucky)))
  {
    hide T.Inv, SemaOk, LeftOk, S.EffectOf;
    var s' := Next(s, SemaGo(t, lucky));
    S.StepKeepsInv(s.sema, S.Go(t, lucky));
    assert SemaOk(s.threads[t], s.sema.threads[t]) && S.PcOk(s.sema.threads[t]);
    SemaEffect(s.threads[t], s.sema.threads[t], s.sema.count, s.sema.os, lucky);
    SumUpdate(ToSignal, s.sema.threads, t, s'.sema.threads[t]);
    SumUpdate(Left, s.threads, t, s'.threads[t]);
    forall u | 0 <= u < |s'.threads| ensures SemaOk(s'.threads[u], s'.sema.threads[u]) && LeftOk(s'.threads[u]) {
      assert SemaOk(s.threads[u], s.sema.threads[u]) && LeftOk(s.threads[u]);
    }
    forall u, p | 0 <= u < |s'.threads| && 0 <= p < |s'.prods| ensures VisitOk(s', u, p) {
      assert VisitOk(s, u, p);
    }
  }

  lemma NewProducerKeepsInv(s: State)
    requires Inv(s)
    ensures Inv(Next(s, NewProducer))
  {
    hide S.Inv, SemaOk, LeftOk;
    var c := NewCounters(|s.threads|);
    var s' := Next(s, NewProducer);
    T.InitInv(c);
    SumAppend(Tails, s.prods, c);
    SumAppend(Heads, s.prods, c);
    hide T.Inv;
    forall t, p | 0 <= t < |s'.threads| && 0 <= p < |s'.prods| ensures VisitOk(s', t, p) {
      if p < |s.prods| {
        assert VisitOk(s, t, p);
      } else {
        assert ProducersInRange(s.threads[t], |s.prods|);
      }
    }
  }

  lemma PublishKeepsInv(s: State, t: nat, p: nat, n: nat)
    requires Inv(s) && Enabled(s, Publish(t, p, n))
    ensures Inv(Next(s, Publish(t, p, n)))
  {
    var s' := Next(s, Publish(t, p, n));
    S.StepKeepsInv(s.sema, S.CallSignal(t, n));
    T.StepKeepsInv(s.prods[p], T.Publish(n));
    hide S.Inv, T.Inv;
    SumUpdate(Tails, s.prods, p, s'.prods[p]);
    SumUpdate(Heads, s.prods, p, s'.prods[p]);
    SumUpdate(ToSignal, s.sema.threads, t, s'.sema.threads[t]);
    SumUpdate(Left, s.threads, t, Signalling);
    forall u | 0 <= u < |s'.threads| ensures SemaOk(s'.threads[u], s'.sema.threads[u]) && LeftOk(s'.threads[u]) {
      assert SemaOk(s.threads[u], s.sema.threads[u]) && LeftOk(s.threads[u]);
    }
    forall u, q | 0 <= u < |s'.threads| && 0 <= q < |s'.prods| ensures VisitOk(s', u, q) {
      assert VisitOk(s, u, q);
    }
  }

  // A dequeue begins with a semaphore operation.
  // The semaphore as a wait begins: permits stay as they are.
  lemma AcquireSema(s: State, a: Act) returns (pc: S.Pc)
    requires Inv(s) && Enabled(s, a) && (a.TryDequeue? || a.WaitDequeue?)
    ensures var sema := Next(s, a).sema;
      && S.Inv(sema) && sema.initial == s.sema.initial && sema.signalled == s.sema.signalled && sema.paid == s.sema.paid
      && !pc.Idle? && !pc.SignalAdd? && !pc.SignalPost? && (a.mode.Single? ==> AskedForOne(pc))
      && sema.threads == s.sema.threads[a.t := pc]
  {
    hide T.Inv, S.Inv, ThreadsOk;
    var call := if a.TryDequeue? then S.CallTryWaitMany(a.t, a.max) else S.CallWaitMany(a.t, a.max, a.timed);
    S.StepKeepsInv(s.sema, call);
    pc := S.Next(s.sema, call).threads[a.t];
    assert Next(s, a).sema.threads == s.sema.threads[a.t := pc];
  }

  lemma AcquireThreads(s: State, a: Act)
    requires Inv(s) && Enabled(s, a) && (a.TryDequeue? || a.WaitDequeue?) && Shape(Next(s, a))
    ensures ThreadsOk(Next(s, a))
  {
    hide T.Inv, S.Inv, S.Next;
    var pc := AcquireSema(s, a);
    var s' := Next(s, a);
    forall u | 0 <= u < |s'.threads| ensures SemaOk(s'.threads[u], s'.sema.threads[u]) && LeftOk(s'.threads[u]) {
      assert SemaOk(s.threads[u], s.sema.threads[u]) && LeftOk(s.threads[u]);
    }
    forall u, q | 0 <= u < |s'.threads| && 0 <= q < |s'.prods| ensures VisitOk(s', u, q) {
      assert VisitOk(s, u, q);
    }
  }

  lemma AcquireKeepsInv(s: State, a: Act)
    requires Inv(s) && Enabled(s, a) && (a.TryDequeue? || a.WaitDequeue?)
    ensures Inv(Next(s, a))
  {
    hide T.Inv, S.Inv, S.Next, ThreadsOk;
    var pc := AcquireSema(s, a);
    AcquireThreads(s, a);
    SumUpdate(ToSignal, s.sema.threads, a.t, Next(s, a).sema.threads[a.t]);
    SumUpdate(Left, s.threads, a.t, Acquiring(a.mode));
    StillIdle(s, a.t);
  }

  lemma StillIdle(s: State, t: nat)
    requires Inv(s) && t < |s.threads| && s.threads[t].Idle?
    ensures s.sema.threads[t].Idle?
  {
    hide T.Inv, S.Inv, VisitOk;
    assert SemaOk(s.threads[t], s.sema.threads[t]);
  }

  // A step that visits no producer keeps what the thread has left.
  lemma PlainGoKeepsInv(s: State, t: nat)
    requires Inv(s) && Enabled(s, Go(t)) && Visiting(s.threads[t]).NoBest?
    ensures Inv(Next(s, Go(t)))
  {
    hide S.Inv, T.Inv;
    var s' := Next(s, Go(t));
    assert SemaOk(s.threads[t], s.sema.threads[t]) && LeftOk(s.threads[t]);
    SumUpdate(Left, s.threads, t, s'.threads[t]);
    forall u | 0 <= u < |s'.threads| ensures SemaOk(s'.threads[u], s'.sema.threads[u]) && LeftOk(s'.threads[u]) {
      assert SemaOk(s.threads[u], s.sema.threads[u]) && LeftOk(s.threads[u]);
    }
    forall u, q | 0 <= u < |s'.threads| && 0 <= q < |s'.prods| ensures VisitOk(s', u, q) {
      assert VisitOk(s, u, q);
    }
  }

  // One step of a dequeue of at most max elements.
  function DequeueStep(c: T.State, t: nat, max: nat): T.State
    requires t < |c.threads| && (c.threads[t].Idle? ==> max >= 1)
  {
    if c.threads[t].Idle? then T.Next(c, T.Start(t, max)) else T.Next(c, T.Go(t))
  }

  // A dequeue never wants more elements than its caller has permits left.
  lemma DequeueKeepsWithinMax(c: T.State, t: nat, max: nat)
    requires T.Inv(c) && t < |c.threads| && max >= 1 && Wants(c.threads[t]) <= max
    ensures var c' := DequeueStep(c, t, max);
      && T.Inv(c') && c'.tail == c.tail && c'.head == c.head + Got(c.threads[t])
      && |c'.threads| == |c.threads| && (forall u :: 0 <= u < |c.threads| && u != t ==> c'.threads[u] == c.threads[u])
      && Wants(c'.threads[t]) <= max
      && (Got(c.threads[t]) > 0 ==> c'.threads[t].Idle?) && Got(c.threads[t]) <= max
  {
    T.StepKeepsInv(c, if c.threads[t].Idle? then T.Start(t, max) else T.Go(t));
    assert T.PcOk(c, t);
    hide T.Inv;
  }

  // A visit uses up as many permits as it took elements, and the thread moves on.
  lemma VisitedPc(pc: Pc, sp: S.Pc, got: nat, n: nat)
    requires LeftOk(pc) && SemaOk(pc, sp) && ProducersInRange(pc, n) && Visiting(pc).Found? && got <= VisitMax(pc)
    ensures var pc' := AfterVisit(pc, got);
      && LeftOk(pc') && SemaOk(pc', sp) && ProducersInRange(pc', n) && Left(pc') == Left(pc) - got
        && Visiting(pc') != Visiting(pc)
  {}

  lemma VisitGoKeepsInv(s: State, t: nat, p: nat)
    requires Inv(s) && Enabled(s, Go(t)) && Visiting(s.threads[t]) == Found(p)
    ensures Inv(Next(s, Go(t)))
  {
    hide T.Next, S.Inv, T.Inv, Visit, DequeueStep, AfterVisit, Left, LeftOk, SemaOk;
    var s' := Next(s, Go(t));
    var pc := s.threads[t];
    assert SemaOk(pc, s.sema.threads[t]) && LeftOk(pc) && ProducersInRange(pc, |s.prods|);
    assert VisitOk(s, t, p);
    HolderVisits(pc);
    DequeueKeepsWithinMax(s.prods[p], t, VisitMax(pc));
    VisitedPc(pc, s.sema.threads[t], Got(s.prods[p].threads[t]), |s.prods|);
    VisitFrames(s, t, p);
    SumUpdate(Tails, s.prods, p, s'.prods[p]);
    SumUpdate(Heads, s.prods, p, s'.prods[p]);
    SumUpdate(Left, s.threads, t, s'.threads[t]);
    forall u | 0 <= u < |s'.threads| ensures SemaOk(s'.threads[u], s'.sema.threads[u]) && LeftOk(s'.threads[u]) {
      assert SemaOk(s.threads[u], s.sema.threads[u]) && LeftOk(s.threads[u]);
    }
    forall u, q | 0 <= u < |s'.threads| && 0 <= q < |s'.prods| ensures VisitOk(s', u, q) {
      assert VisitOk(s, u, q);
    }
  }

  lemma HolderVisits(pc: Pc)
    requires LeftOk(pc) && Visiting(pc).Found?
    ensures VisitMax(pc) >= 1
  {}

  lemma VisitFrames(s: State, t: nat, p: nat)
    requires Shape(s) && Enabled(s, Go(t)) && Visiting(s.threads[t]) == Found(p) && p < |s.prods|
    ensures var s' := Next(s, Go(t)); var c' := DequeueStep(s.prods[p], t, VisitMax(s.threads[t]));
      && s'.sema == s.sema && s'.prods == s.prods[p := c']
      && (c'.threads[t].Idle? && !s.prods[p].threads[t].Idle? ==>
            s'.threads == s.threads[t := AfterVisit(s.threads[t], Got(s.prods[p].threads[t]))])
      && (s.prods[p].threads[t].Idle? || !c'.threads[t].Idle? ==> s'.threads == s.threads)
  {}

  lemma StepKeepsInv(s: State, a: Act)
    requires Inv(s) && Enabled(s, a)
    ensures Inv(Next(s, a))
  {
    match a
    case NewProducer => NewProducerKeepsInv(s);
    case Publish(t, p, n) => PublishKeepsInv(s, t, p, n);
    case TryDequeue(_, _, _) => AcquireKeepsInv(s, a);
    case WaitDequeue(_, _, _, _) => AcquireKeepsInv(s, a);
    case SemaGo(t, lucky) => SemaGoKeepsInv(s, t, lucky);
    case Go(t) =>
      match Visiting(s.threads[t])
      case NoBest => PlainGoKeepsInv(s, t);
      case Found(p) => VisitGoKeepsInv(s, t, p);
  }

  // ------------------------------------------------------------------------------------
  // Whole runs

  ghost predicate StepsTo(s: State, a: Act, s': State) { Shape(s) && Enabled(s, a) && s' == Next(s, a) }

  ghost predicate Behaviour(ss: seq<State>, acts: seq<Act>)
  {
    && |ss| == |acts| + 1
    && Init(ss[0])
    && forall i :: 0 <= i < |acts| ==> StepsTo(ss[i], acts[i], ss[i + 1])
  }

  lemma {:induction false} IdleSum(threads: seq<Pc>)
    requires forall t :: 0 <= t < |threads| ==> threads[t].Idle?
    ensures Sum(Left, threads) == 0
  {
    if threads != [] {
      IdleSum(threads[1..]);
    }
  }

  lemma SemaInit(sema: S.State)
    requires S.Init(sema)
    ensures S.Inv(sema) && sema.paid == 0 && sema.signalled == 0
  {
    S.AlwaysInv([sema], [], 0);
    hide S.Inv;
  }

  lemma InitInv(s: State)
    requires Init(s)
    ensures Inv(s)
  {
    hide S.Inv;
    SemaInit(s.sema);
    S.SumZero(ToSignal, s.sema.threads);
    IdleSum(s.threads);
  }

  lemma {:induction false} AlwaysInv(ss: seq<State>, acts: seq<Act>, i: nat)
    requires Behaviour(ss, acts) && i < |ss|
    ensures Inv(ss[i])
  {
    hide Inv, Init, Next, Enabled;
    if i == 0 {
      InitInv(ss[0]);
    } else {
      AlwaysInv(ss, acts, i - 1);
      assert StepsTo(ss[i - 1], acts[i - 1], ss[i]);
      StepKeepsInv(ss[i - 1], acts[i - 1]);
    }
  }

  ghost function Available(s: State): int { S.Pos(s.sema.count) + s.sema.os + S.Pending(s.sema) }

  // Permits a thread holds, acquired within the semaphore or being used up.
  ghost function Held(s: State): int { Sum(S.Carries, s.sema.threads) + Sum(Left, s.threads) }

  ghost function Unclaimed(s: State): int { Sum(Tails, s.prods) - Sum(Heads, s.prods) }

  // Every permit, whether available, held or about to be made, stands for one unclaimed element.
  lemma PermitsStandForElements(ss: seq<State>, acts: seq<Act>, i: nat)
    requires Behaviour(ss, acts) && i < |ss|
    ensures Unclaimed(ss[i]) == Available(ss[i]) + Held(ss[i]) + Sum(ToSignal, ss[i].sema.threads)
    ensures Available(ss[i]) + Held(ss[i]) <= Unclaimed(ss[i])
  {
    AlwaysInv(ss, acts, i);
    S.SumBounds(ToSignal, ss[i].sema.threads);
  }

  // ------------------------------------------------------------------------------------
  // Tickets taken never exceed the permits held by the threads that took them

  // What a producer offers to the next dequeue: the elements not claimed and not ticketed.
  function Free(c: T.State): int { c.tail - (c.optimistic - c.over) }

  predicate Undecided(f: T.Fate, n: nat) { !f.Taken? && !f.Settled? && f.t < n }

  // Open tickets of the threads before n.
  ghost function OpenBelow(fate: seq<T.Fate>, n: nat): set<nat>
  {
    set i: nat | i < |fate| && Undecided(fate[i], n)
  }

  ghost function SumOpen(prods: seq<T.State>, n: nat): int
  {
    if prods == [] then 0 else |OpenBelow(prods[0].fate, n)| + SumOpen(prods[1..], n)
  }

  lemma OpenOfThread(c: T.State, n: nat)
    requires T.Inv(c) && n < |c.threads|
    ensures |OpenBelow(c.fate, n + 1)| <= |OpenBelow(c.fate, n)| + Wants(c.threads[n])
  {
    var pc := c.threads[n];
    var mine := set i: nat | i < |c.fate| && Undecided(c.fate[i], n + 1) && c.fate[i].t == n;
    assert OpenBelow(c.fate, n + 1) == OpenBelow(c.fate, n) + mine;
    UnionSize(OpenBelow(c.fate, n), mine);
    var my := if pc.LoadTail? || pc.Refund? || pc.ClaimHead? || pc.GiveBack? then pc.my else 0;
    forall i | i in mine ensures i in Range(my, my + Wants(pc)) {
      assert T.TicketOk(c, i);
    }
    SubsetSize(mine, Range(my, my + Wants(pc)));
  }

  // Thread n is busy in at most one producer, and takes at most max tickets there.
  ghost predicate BusyIn(prods: seq<T.State>, n: nat, v: int, max: nat)
  {
    forall p :: 0 <= p < |prods| ==>
      T.Inv(prods[p]) && n < |prods[p].threads|
        && if p == v then Wants(prods[p].threads[n]) <= max else prods[p].threads[n].Idle?
  }

  lemma {:induction false} SumOpenStep(prods: seq<T.State>, n: nat, v: int, max: nat)
    requires BusyIn(prods, n, v, max)
    ensures SumOpen(prods, n + 1) <= SumOpen(prods, n) + if 0 <= v < |prods| then max else 0
  {
    if prods != [] {
      hide T.Inv, OpenBelow;
      OpenOfThread(prods[0], n);
      forall p | 0 <= p < |prods[1..]|
        ensures T.Inv(prods[1..][p]) && n < |prods[1..][p].threads|
        ensures if p == v - 1 then Wants(prods[1..][p].threads[n]) <= max else prods[1..][p].threads[n].Idle?
      {
        assert prods[1..][p] == prods[p + 1];
      }
      SumOpenStep(prods[1..], n, v - 1, max);
    }
  }

  // Tickets of the threads before n, other than t, are covered by the permits these threads hold.
  lemma {:induction false} TicketsCovered(s: State, t: nat, n: nat)
    requires Inv(s) && n <= |s.threads| && t < |s.threads|
    requires forall p :: 0 <= p < |s.prods| ==> s.prods[p].threads[t].Idle?
    ensures SumOpen(s.prods, n) <= Sum(Left, s.threads[..n]) - if t < n then Left(s.threads[t]) else 0
  {
    if n == 0 {
      NothingOpen(s.prods);
    } else {
      TicketsCovered(s, t, n - 1);
      var pc := s.threads[n - 1];
      assert s.threads[..n] == s.threads[..n - 1] + [pc];
      SumAppend(Left, s.threads[..n - 1], pc);
      var v := if Visiting(pc).Found? && n - 1 != t then Visiting(pc).p else -1;
      hide T.Inv, S.Inv;
      forall p | 0 <= p < |s.prods|
        ensures n - 1 < |s.prods[p].threads|
        ensures if p == v then Wants(s.prods[p].threads[n - 1]) <= VisitMax(pc) else s.prods[p].threads[n - 1].Idle?
      {
        assert VisitOk(s, n - 1, p);
      }
      SumOpenStep(s.prods, n - 1, v, VisitMax(pc));
      assert LeftOk(pc);
      if n - 1 == t {
        assert v == -1;
      }
    }
  }

  lemma {:induction false} NothingOpen(prods: seq<T.State>)
    ensures SumOpen(prods, 0) == 0
  {
    if prods != [] {
      NothingOpen(prods[1..]);
      assert OpenBelow(prods[0].fate, 0) == {};
    }
  }

  lemma {:induction false} FreeBalance(prods: seq<T.State>, n: nat)
    requires forall p :: 0 <= p < |prods| ==> T.Inv(prods[p]) && |prods[p].threads| == n
    ensures Sum(Free, prods) == Sum(Tails, prods) - Sum(Heads, prods) - SumOpen(prods, n)
  {
    if prods != [] {
      var c := prods[0];
      FreeBalance(prods[1..], n);
      T.TicketsBalance(c);
      forall i | i in T.OpenSet(c.fate) ensures i in OpenBelow(c.fate, n) {
        assert T.TicketOk(c, i);
      }
      assert T.OpenSet(c.fate) == OpenBelow(c.fate, n);
    }
  }

  // A thread between two dequeues from the inner queue finds at least as many free elements as
  // it has permits left, however the other threads are suspended.
  lemma FreeForHolder(s: State, t: nat)
    requires Inv(s) && t < |s.threads| && forall p :: 0 <= p < |s.prods| ==> s.prods[p].threads[t].Idle?
    ensures Sum(Free, s.prods) >= Left(s.threads[t])
  {
    S.SumBounds(S.Owes, s.sema.threads);
    S.SumBounds(S.Carries, s.sema.threads);
    S.SumBounds(ToSignal, s.sema.threads);
    TicketsCovered(s, t, |s.threads|);
    assert s.threads[..|s.threads|] == s.threads;
    FreeBalance(s.prods, |s.threads|);
  }

  // ------------------------------------------------------------------------------------
  // A permit holder on its own

  // Running alone, t returns from its operation within n steps, before the inner queue would
  // have to be tried again.
  ghost predicate Returns(s: State, t: nat, n: nat)
    decreases n
  {
    && n > 0 && Inv(s) && Enabled(s, Go(t))
    && var s' := Next(s, Go(t));
      if s'.threads[t].Idle? then true else !s'.threads[t].Loop? && Returns(s', t, n - 1)
  }

  // Six steps of an undisturbed dequeue: it gets min(max, free) elements, or fails after three.
  lemma DequeueAlone(c: T.State, t: nat, max: nat)
      returns (c1: T.State, c2: T.State, c3: T.State, c4: T.State, c5: T.State, c6: T.State)
    requires T.Inv(c) && t < |c.threads| && c.threads[t].Idle? && max >= 1
    ensures |c1.threads| == |c2.threads| == |c3.threads| == |c4.threads| == |c5.threads| == |c6.threads| == |c.threads|
    ensures c1 == DequeueStep(c, t, max) && !c1.threads[t].Idle? && c2 == DequeueStep(c1, t, max)
      && !c2.threads[t].Idle?
    ensures c3 == DequeueStep(c2, t, max) && Got(c2.threads[t]) == 0 && (Free(c) <= 0 ==> c3 == c)
    ensures Free(c) > 0 ==>
      && !c3.threads[t].Idle? && c4 == DequeueStep(c3, t, max) && !c4.threads[t].Idle?
      && c5 == DequeueStep(c4, t, max) && Got(c5.threads[t]) == Min(max, Free(c)) && c6 == DequeueStep(c5, t, max)
      && c6.threads == c.threads && Free(c6) == Free(c) - Min(max, Free(c))
  {
    hide T.Inv;
    c1 := DequeueStep(c, t, max);
    c2 := DequeueStep(c1, t, max);
    c3 := DequeueStep(c2, t, max);
    c4, c5, c6 := c, c, c;
    if Free(c) > 0 {
      assert c3.threads[t] == T.TakeTickets(c.over, Min(max, Free(c)));
      c4 := DequeueStep(c3, t, max);
      c5 := DequeueStep(c4, t, max);
      assert c5.threads[t] == T.ClaimHead(c.optimistic, Min(max, Free(c)));
      c6 := DequeueStep(c5, t, max);
      assert c6.threads == c.threads[t := T.Idle];
    } else {
      assert c3.threads == c.threads[t := T.Idle];
    }
  }

  lemma VisitOn(s: State, t: nat, p: nat) returns (s': State)
    requires Inv(s) && Enabled(s, Go(t)) && Visiting(s.threads[t]) == Found(p)
    ensures p < |s.prods| && |s.prods[p].threads| == |s.threads| && LeftOk(s.threads[t])
    ensures Inv(s') && s' == Next(s, Go(t))
    ensures var c' := DequeueStep(s.prods[p], t, VisitMax(s.threads[t]));
      && s'.sema == s.sema && s'.prods == s.prods[p := c']
      && (t < |c'.threads| ==>
          && (c'.threads[t].Idle? && !s.prods[p].threads[t].Idle? ==>
                s'.threads == s.threads[t := AfterVisit(s.threads[t], Got(s.prods[p].threads[t]))])
          && (!c'.threads[t].Idle? ==> s'.threads == s.threads))
  {
    assert ProducersInRange(s.threads[t], |s.prods|) && LeftOk(s.threads[t]);
    hide Inv;
    StepKeepsInv(s, Go(t));
    VisitFrames(s, t, p);
    s' := Next(s, Go(t));
  }

  // What an undisturbed visit comes to.
  ghost predicate Visited(s: State, t: nat, p: nat, s': State)
    requires t < |s.threads| && p < |s.prods|
  {
    var got := if Free(s.prods[p]) > 0 then Min(VisitMax(s.threads[t]), Free(s.prods[p])) else 0;
    && Inv(s') && |s'.prods| == |s.prods| && (forall q :: 0 <= q < |s.prods| && q != p ==> s'.prods[q] == s.prods[q])
    && (Free(s.prods[p]) <= 0 ==> s'.prods == s.prods)
    && (forall q :: 0 <= q < |s.prods| ==> t < |s'.prods[q].threads| && s'.prods[q].threads[t].Idle?)
    && s'.threads == s.threads[t := AfterVisit(s.threads[t], got)]
  }

  ghost predicate Ready(s: State, t: nat)
  {
    && Inv(s) && t < |s.threads| && InInner(s.threads[t])
    && forall q :: 0 <= q < |s.prods| ==> t < |s.prods[q].threads| && s.prods[q].threads[t].Idle?
  }

  // k steps of t lead from s to s', and t neither returns nor starts over before the last of them.
  ghost predicate Leads(s: State, t: nat, k: nat, s': State)
    decreases k
  {
    if k == 0 then s' == s
    else
      && Inv(s) && Enabled(s, Go(t))
      && var s1 := Next(s, Go(t));
        (k > 1 ==> !s1.threads[t].Idle? && !s1.threads[t].Loop?) && Leads(s1, t, k - 1, s')
  }

  lemma {:induction false} LeadsReturns(s: State, t: nat, k: nat, s': State, n: nat)
    requires Leads(s, t, k, s') && k > 0 && t < |s'.threads|
    requires s'.threads[t].Idle? || (!s'.threads[t].Loop? && Returns(s', t, n))
    ensures Returns(s, t, k + n)
    decreases k
  {
    hide S.Inv, T.Inv, ThreadsOk, Next;
    if k > 1 {
      LeadsReturns(Next(s, Go(t)), t, k - 1, s', n);
    }
  }

  lemma LeadsBy(s: State, t: nat, s1: State, k: nat, s': State)
    requires Inv(s) && Enabled(s, Go(t)) && s1 == Next(s, Go(t)) && Leads(s1, t, k, s') && t < |s1.threads|
    requires k > 0 ==> !s1.threads[t].Idle? && !s1.threads[t].Loop?
    ensures Leads(s, t, k + 1, s')
  {}

  lemma VisitFails(s: State, t: nat, p: nat) returns (s': State)
    requires Ready(s, t) && Visiting(s.threads[t]) == Found(p) && p < |s.prods| && Free(s.prods[p]) <= 0
    ensures Visited(s, t, p, s') && Leads(s, t, 3, s')
  {
    hide S.Inv, T.Inv, T.Next, ThreadsOk, ProducersInRange;
    var c := s.prods[p];
    var max := VisitMax(s.threads[t]);
    assert LeftOk(s.threads[t]) by { HolderLeft(s, t); }
    var c1, c2, c3, c4, c5, c6 := DequeueAlone(c, t, max);
    var s1 := VisitOn(s, t, p);
    var s2 := VisitOn(s1, t, p);
    s' := VisitOn(s2, t, p);
    assert s'.prods == s.prods;
    LeadsBy(s2, t, s', 0, s');
    LeadsBy(s1, t, s2, 1, s');
    LeadsBy(s, t, s1, 2, s');
  }

  lemma HolderLeft(s: State, t: nat)
    requires Inv(s) && t < |s.threads|
    ensures LeftOk(s.threads[t]) && ProducersInRange(s.threads[t], |s.prods|)
  {}

  // One step of a thread in the middle of an operation.
  ghost predicate GoesOn(s: State, t: nat, s': State)
  {
    Inv(s) && Enabled(s, Go(t)) && s' == Next(s, Go(t)) && t < |s'.threads|
  }

  ghost predicate Busy(s: State, t: nat) { t < |s.threads| && !s.threads[t].Idle? && !s.threads[t].Loop? }

  lemma {:induction false} LeadsSix(t: nat, s: State, s1: State, s2: State, s3: State, s4: State, s5: State, s': State)
    requires GoesOn(s, t, s1) && GoesOn(s1, t, s2) && GoesOn(s2, t, s3)
    requires GoesOn(s3, t, s4) && GoesOn(s4, t, s5) && GoesOn(s5, t, s')
    requires Busy(s1, t) && Busy(s2, t) && Busy(s3, t) && Busy(s4, t) && Busy(s5, t)
    ensures Leads(s, t, 6, s')
  {
    hide Inv, Next, Enabled, Leads;
    LeadsNowhere(s', t);
    LeadsBy(s5, t, s', 0, s');
    LeadsBy(s4, t, s5, 1, s');
    LeadsBy(s3, t, s4, 2, s');
    LeadsBy(s2, t, s3, 3, s');
    LeadsBy(s1, t, s2, 4, s');
    LeadsBy(s, t, s1, 5, s');
  }

  lemma ProducerInv(s: State, t: nat, p: nat)
    requires Ready(s, t) && p < |s.prods|
    ensures T.Inv(s.prods[p]) && t < |s.prods[p].threads| && s.prods[p].threads[t].Idle?
  {
    hide S.Inv, T.Inv;
  }

  lemma {:induction false} VisitTakes(s: State, t: nat, p: nat) returns (s': State)
    requires Ready(s, t) && Visiting(s.threads[t]) == Found(p) && p < |s.prods| && Free(s.prods[p]) > 0
    ensures Visited(s, t, p, s') && Leads(s, t, 6, s')
  {
    hide T.Inv, T.Next, Inv, Next, Leads, DequeueStep;
    ProducerInv(s, t, p);
    var c := s.prods[p];
    var max := VisitMax(s.threads[t]);
    assert LeftOk(s.threads[t]) by { HolderLeft(s, t); }
    var c1, c2, c3, c4, c5, c6 := DequeueAlone(c, t, max);
    var s1 := VisitOn(s, t, p);
    var s2 := VisitOn(s1, t, p);
    var s3 := VisitOn(s2, t, p);
    var s4 := VisitOn(s3, t, p);
    var s5 := VisitOn(s4, t, p);
    s' := VisitOn(s5, t, p);
    assert s'.prods == s.prods[p := c6];
    LeadsSix(t, s, s1, s2, s3, s4, s5, s');
  }

  lemma {:induction false} LeadsNowhere(s: State, t: nat)
    ensures Leads(s, t, 0, s)
  {}

  // ------------------------------------------------------------------------------------
  // try_dequeue

  ghost predicate SomewhereFree(prods: seq<T.State>, p: nat, but: Best)
  {
    exists q :: 0 <= q < p && q < |prods| && Free(prods[q]) > 0 && but != Found(q)
  }

  lemma PlainOn(s: State, t: nat) returns (s': State)
    requires Ready(s, t) && Visiting(s.threads[t]).NoBest?
    ensures Enabled(s, Go(t)) && s' == Next(s, Go(t)) && Inv(s')
    ensures s'.prods == s.prods && s'.threads == s.threads[t := s'.threads[t]] && Leads(s, t, 1, s')
  {
    hide S.Inv, T.Inv, ThreadsOk;
    StepKeepsInv(s, Go(t));
    s' := Next(s, Go(t));
  }

  // Trying all producers but one, with a free element in one of those left to try.
  lemma {:induction false} TryNextReturns(s: State, t: nat, p: nat) returns (n: nat)
    requires Ready(s, t) && s.threads[t].TryNext? && s.threads[t].p == p
    requires SomewhereFree(s.prods, p, Found(s.threads[t].first))
    ensures Returns(s, t, n)
    decreases p
  {
    hide S.Inv, T.Inv, ThreadsOk, Next, Returns, Leads, Enabled;
    HolderLeft(s, t);
    var pc := s.threads[t];
    if p - 1 == pc.first {
      var s' := PlainOn(s, t);
      assert s'.threads[t] == TryNext(pc.left, pc.first, p - 1) by { SkipFirst(s, t); }
      n := TryNextReturns(s', t, p - 1);
      LeadsReturns(s, t, 1, s', n);
      n := n + 1;
    } else if Free(s.prods[p - 1]) > 0 {
      var s' := VisitTakes(s, t, p - 1);
      LeadsReturns(s, t, 6, s', 0);
      n := 6;
    } else {
      var s' := VisitFails(s, t, p - 1);
      n := TryNextReturns(s', t, p - 1);
      LeadsReturns(s, t, 3, s', n);
      n := n + 3;
    }
  }

  lemma SkipFirst(s: State, t: nat)
    requires Ready(s, t) && s.threads[t].TryNext? && s.threads[t].p > 0 && s.threads[t].p - 1 == s.threads[t].first
    ensures Enabled(s, Go(t))
      && Next(s, Go(t)).threads[t] == TryNext(s.threads[t].left, s.threads[t].first, s.threads[t].p - 1)
  {}

  lemma TryBestReturns(s: State, t: nat) returns (n: nat)
    requires Ready(s, t) && s.threads[t].TryBest? && SomewhereFree(s.prods, |s.prods|, NoBest)
    ensures Returns(s, t, n)
  {
    hide S.Inv, T.Inv, ThreadsOk, Returns, Leads;
    HolderLeft(s, t);
    var pc := s.threads[t];
    if Free(s.prods[pc.first]) > 0 {
      var s' := VisitTakes(s, t, pc.first);
      LeadsReturns(s, t, 6, s', 0);
      n := 6;
    } else {
      var s1 := VisitFails(s, t, pc.first);
      assert s1.threads[t] == Relist(pc.left, pc.first);
      var s2 := PlainOn(s1, t);
      assert s2.threads[t] == TryNext(pc.left, pc.first, |s.prods|);
      n := TryNextReturns(s2, t, |s.prods|);
      LeadsReturns(s1, t, 1, s2, n);
      LeadsReturns(s, t, 3, s1, n + 1);
      n := n + 4;
    }
  }

  // Scoring ends with a best producer if one is found or an element is free further on.
  lemma {:induction false} ScoreReturns(s: State, t: nat, p: nat, nonEmpty: nat, best: Best, bestSize: nat)
      returns (n: nat)
    requires Ready(s, t) && s.threads[t] == AfterScore(1, p, nonEmpty, best, bestSize) && p <= |s.prods|
    requires (nonEmpty > 0 <==> best.Found?) && (nonEmpty > 0 <==> bestSize > 0)
    requires SomewhereFree(s.prods, |s.prods|, NoBest)
    requires nonEmpty > 0 || SomewhereFree(s.prods, p, NoBest)
    ensures Returns(s, t, n) && !s.threads[t].Loop?
    decreases p
  {
    hide S.Inv, ThreadsOk, Returns, Leads;
    if nonEmpty < 3 && p > 0 {
      var s1 := PlainOn(s, t);
      var s2 := PlainOn(s1, t);
      var c := s.prods[p - 1];
      var size := if c.head < c.tail then c.tail - c.head else 0;
      T.TicketsBalance(c);
      hide T.Inv;
      n := ScoreReturns(s2, t, p - 1, if size > 0 then nonEmpty + 1 else nonEmpty,
                        if size > bestSize then Found(p - 1) else best, if size > bestSize then size else bestSize);
      LeadsReturns(s1, t, 1, s2, n);
      LeadsReturns(s, t, 1, s1, n + 1);
      n := n + 2;
    } else {
      n := TryBestReturns(s, t);
    }
  }

  lemma {:induction false} FreeSomewhere(prods: seq<T.State>)
    requires Sum(Free, prods) > 0
    ensures SomewhereFree(prods, |prods|, NoBest)
  {
    if prods != [] {
      if Free(prods[0]) > 0 {
        assert NoBest != Found(0);
      } else {
        FreeSomewhere(prods[1..]);
        var q :| 0 <= q < |prods[1..]| && Free(prods[1..][q]) > 0;
        assert prods[1..][q] == prods[q + 1];
        assert NoBest != Found(q + 1);
      }
    }
  }

  lemma HolderReturns(s: State, t: nat) returns (n: nat)
    requires Inv(s) && t < |s.threads| && s.threads[t].Loop? && s.threads[t].mode.Single?
    ensures Returns(s, t, n)
  {
    hide S.Inv, T.Inv, Returns, Leads;
    HolderLeft(s, t);
    forall p | 0 <= p < |s.prods| ensures t < |s.prods[p].threads| && s.prods[p].threads[t].Idle? {
      assert VisitOk(s, t, p);
    }
    FreeForHolder(s, t);
    FreeSomewhere(s.prods);
    var s' := PlainOn(s, t);
    n := ScoreReturns(s', t, |s.prods|, 0, NoBest, 0);
    LeadsReturns(s, t, 1, s', n);
    n := n + 1;
  }

  // A thread past its wait or tryWait that now runs alone gets its element with the first
  // call of try_dequeue, wherever the other threads are suspended.
  lemma HolderSucceedsAlone(ss: seq<State>, acts: seq<Act>, i: nat, t: nat) returns (n: nat)
    requires Behaviour(ss, acts) && i < |ss| && t < |ss[i].threads| && ss[i].threads[t].Loop?
    requires ss[i].threads[t].mode.Single?
    ensures Returns(ss[i], t, n)
  {
    hide Inv, Returns;
    AlwaysInv(ss, acts, i);
    n := HolderReturns(ss[i], t);
  }

  // ------------------------------------------------------------------------------------
  // try_dequeue_bulk

  // Free elements of the producers before p.
  ghost function FreeBefore(prods: seq<T.State>, p: nat): nat
    requires p <= |prods|
  {
    if p == 0 then 0 else FreeBefore(prods, p - 1) + if Free(prods[p - 1]) > 0 then Free(prods[p - 1]) else 0
  }

  lemma {:induction false} FreeBeforeSame(a: seq<T.State>, b: seq<T.State>, p: nat)
    requires p <= |a| == |b| && forall q :: 0 <= q < p ==> b[q] == a[q]
    ensures FreeBefore(a, p) == FreeBefore(b, p)
  {
    if p > 0 {
      FreeBeforeSame(a, b, p - 1);
    }
  }

  lemma {:induction false} FreeBeforeSum(prods: seq<T.State>, p: nat)
    requires p <= |prods|
    ensures Sum(Free, prods[..p]) <= FreeBefore(prods, p)
  {
    if p > 0 {
      FreeBeforeSum(prods, p - 1);
      assert prods[..p] == prods[..p - 1] + [prods[p - 1]];
      SumAppend(Free, prods[..p - 1], prods[p - 1]);
    }
  }

  lemma {:induction false} TryBulkReturns(s: State, t: nat, p: nat) returns (n: nat)
    requires Ready(s, t) && s.threads[t].TryBulk? && s.threads[t].p == p <= |s.prods|
    requires FreeBefore(s.prods, p) >= s.threads[t].left
    ensures Returns(s, t, n)
    decreases p
  {
    hide S.Inv, T.Inv, ThreadsOk, Next, Returns, Leads;
    HolderLeft(s, t);
    var c := s.prods[p - 1];
    if Free(c) > 0 {
      var s' := VisitTakes(s, t, p - 1);
      if s'.threads[t].Idle? {
        LeadsReturns(s, t, 6, s', 0);
        n := 6;
      } else {
        FreeBeforeSame(s.prods, s'.prods, p - 1);
        n := TryBulkReturns(s', t, p - 1);
        LeadsReturns(s, t, 6, s', n);
        n := n + 6;
      }
    } else {
      var s' := VisitFails(s, t, p - 1);
      FreeBeforeSame(s.prods, s'.prods, p - 1);
      n := TryBulkReturns(s', t, p - 1);
      LeadsReturns(s, t, 3, s', n);
      n := n + 3;
    }
  }

  lemma BulkHolderReturns(s: State, t: nat) returns (n: nat)
    requires Inv(s) && t < |s.threads| && s.threads[t].Loop? && s.threads[t].mode.Bulk?
    ensures Returns(s, t, n)
  {
    hide S.Inv, T.Inv, Returns, Leads;
    HolderLeft(s, t);
    forall p | 0 <= p < |s.prods| ensures t < |s.prods[p].threads| && s.prods[p].threads[t].Idle? {
      assert VisitOk(s, t, p);
    }
    FreeForHolder(s, t);
    FreeBeforeSum(s.prods, |s.prods|);
    assert s.prods[..|s.prods|] == s.prods;
    var s' := PlainOn(s, t);
    n := TryBulkReturns(s', t, |s.prods|);
    LeadsReturns(s, t, 1, s', n);
    n := n + 1;
  }

  // The same for the bulk operations: one call of try_dequeue_bulk gets an element for every permit.
  lemma BulkHolderSucceedsAlone(ss: seq<State>, acts: seq<Act>, i: nat, t: nat) returns (n: nat)
    requires Behaviour(ss, acts) && i < |ss| && t < |ss[i].threads| && ss[i].threads[t].Loop?
    requires ss[i].threads[t].mode.Bulk?
    ensures Returns(ss[i], t, n)
  {
    hide Inv, Returns;
    AlwaysInv(ss, acts, i);
    n := BulkHolderReturns(ss[i], t);
  }

  // With every thread idle the permits available are the elements left in the queue.
  lemma AtRestPermitsAreElements(ss: seq<State>, acts: seq<Act>, i: nat)
    requires Behaviour(ss, acts) && i < |ss| && forall t :: 0 <= t < |ss[i].threads| ==> ss[i].threads[t].Idle?
    ensures S.Pos(ss[i].sema.count) + ss[i].sema.os == Unclaimed(ss[i])
  {
    PermitsStandForElements(ss, acts, i);
    AlwaysInv(ss, acts, i);
    var s := ss[i];
    forall t | 0 <= t < |s.sema.threads| ensures s.sema.threads[t] == S.Idle {
      assert SemaOk(s.threads[t], s.sema.threads[t]);
    }
    S.SumZero(ToSignal, s.sema.threads);
    S.SumZero(S.Owes, s.sema.threads);
    S.SumZero(S.Carries, s.sema.threads);
    IdleSum(s.threads);
  }
}
