/**
 That a call of `get_or_add_implicit_producer` comes to an end: a thread that runs alone returns,
 unless another thread has been suspended while it resizes the hash.
 */
module ProducerProgress {
  import opened ProducerHash

  // Between taking the resize lock and releasing it.
  predicate Resizing(pc: Pc) { pc.ReloadLocked? || pc.NewTable? || pc.Unlock? }

  // No other thread stands in the way.
  ghost predicate Unhindered(s: State, t: nat)
  {
    Inv(s) && t < |s.threads| && (s.lock ==> Resizing(s.threads[t]))
  }

  // What is left of a call: stages, and within a stage tables and positions.
  ghost function Stage(s: State, t: nat): nat
    requires Shape(s) && t < |s.threads|
  {
    match s.threads[t]
    case LoadMain => 13
    case Probe(_, _, _, _) => 12
    case AddCount(_) => 11
    case CheckRoom(main, n) => if n < Room(|s.tables[main].keys|) then 4 else 10
    case Reload(_) => 9
    case CheckSize(_, _) => 8
    case ReloadLocked(_) => 7
    case NewTable(_, _) => 6
    case Unlock(_, _) => 5
    case Create(_, _) => 3
    case ReadValue(_, _, _) => 3
    case PutLoad(_, _, _, _) => 2
    case PutCas(_, _, _, _) => 2
    case PutValue(_, _, _) => 1
    case Return(_) => 0
    case Idle => 0
  }

  ghost function TablesLeft(pc: Pc): nat { if pc.Probe? then pc.h else 0 }

  ghost function PositionsLeft(s: State, t: nat): int
    requires Shape(s) && t < |s.threads|
  {
    match s.threads[t]
    case Probe(_, h, _, d) => |s.tables[h].keys| - d
    case PutLoad(main, _, _, d) => 2 * (|s.tables[main].keys| - d)
    case PutCas(main, _, _, d) => 2 * (|s.tables[main].keys| - d) - 1
    case _ => 0
  }

  ghost predicate Less(s: State, s': State, t: nat)
    requires Shape(s) && Shape(s') && t < |s.threads| == |s'.threads|
  {
    || Stage(s', t) < Stage(s, t)
    || (Stage(s', t) == Stage(s, t) && TablesLeft(s'.threads[t]) < TablesLeft(s.threads[t]))
    || (Stage(s', t) == Stage(s, t) && TablesLeft(s'.threads[t]) == TablesLeft(s.threads[t])
        && PositionsLeft(s', t) < PositionsLeft(s, t))
  }

  lemma PositionsAreLeft(s: State, t: nat)
    requires Inv(s) && t < |s.threads|
    ensures PositionsLeft(s, t) >= 0
  {
    hide KeysOk, Doubling, TicketsOk, OwnersOk, Missed, Settled, Absent;
    assert PcOk(s, t);
  }

  predicate Searching(pc: Pc) { pc.Probe? || pc.PutLoad? || pc.PutCas? }

  lemma SearchAdvances(s: State, t: nat)
    requires Unhindered(s, t) && Searching(s.threads[t]) && Inv(Next(s, Go(t)))
    ensures var s' := Next(s, Go(t));
      t < |s'.threads| == |s.threads| && Less(s, s', t) && Unhindered(s', t) && !s'.threads[t].Idle?
  {
    hide KeysOk, Doubling, TicketsOk, OwnersOk, Missed, Settled, Absent, Known, HasKey;
    assert PcOk(s, t) && PcOk(Next(s, Go(t)), t);
  }

  lemma StageAdvances(s: State, t: nat)
    requires Unhindered(s, t) && !s.threads[t].Idle? && !s.threads[t].Return?
    requires !Searching(s.threads[t]) && Inv(Next(s, Go(t)))
    ensures var s' := Next(s, Go(t));
      t < |s'.threads| == |s.threads| && Less(s, s', t) && Unhindered(s', t) && !s'.threads[t].Idle?
  {
    hide KeysOk, Doubling, TicketsOk, OwnersOk, Missed, Settled, Absent, Known, HasKey, ProbedTo;
    assert PcOk(s, t) && PcOk(Next(s, Go(t)), t);
  }

  // n steps of t alone lead from s to s'.
  ghost predicate Alone(s: State, t: nat, n: nat, s': State)
    decreases n
  {
    if n == 0 then s' == s else Inv(s) && Enabled(s, Go(t)) && Alone(Next(s, Go(t)), t, n - 1, s')
  }

  lemma InvShape(s: State)
    requires Inv(s)
    ensures Shape(s)
  {}

  // The least measure a step of t leaves.
  lemma OneStepAlone(s: State, t: nat) returns (s': State)
    requires Unhindered(s, t) && !s.threads[t].Idle? && !s.threads[t].Return?
    ensures Shape(s) && Enabled(s, Go(t)) && s' == Next(s, Go(t)) && Shape(s')
    ensures t < |s'.threads| == |s.threads| && Less(s, s', t) && Unhindered(s', t) && !s'.threads[t].Idle?
    ensures PositionsLeft(s, t) >= 0
  {
    hide Inv, Next, Less;
    InvShape(s);
    StepKeepsInv(s, Go(t));
    if Searching(s.threads[t]) {
      SearchAdvances(s, t);
    } else {
      StageAdvances(s, t);
    }
    PositionsAreLeft(s, t);
    s' := Next(s, Go(t));
    InvShape(s');
  }

  lemma {:induction false} Finishes(s: State, t: nat) returns (n: nat, s': State)
    requires Unhindered(s, t) && !s.threads[t].Idle? && Shape(s)
    ensures Alone(s, t, n, s') && Inv(s') && t < |s'.threads| && s'.threads[t].Return?
    decreases Stage(s, t), TablesLeft(s.threads[t]), PositionsLeft(s, t)
  {
    hide Inv, Next, Shape;
    n, s' := 0, s;
    if !s.threads[t].Return? {
      var s1 := OneStepAlone(s, t);
      n, s' := Finishes(s1, t);
      n := n + 1;
    }
  }

  // In any reachable state, a thread in a call that runs alone from there on returns a producer,
  // unless another thread has been suspended with the resize lock.
  lemma LoneCallReturns(ss: seq<State>, acts: seq<Act>, i: nat, t: nat) returns (n: nat, s': State)
    requires Behaviour(ss, acts) && i < |ss| && t < |ss[i].threads| && !ss[i].threads[t].Idle?
    requires ss[i].lock ==> Resizing(ss[i].threads[t])
    ensures Alone(ss[i], t, n, s') && t < |s'.threads| && s'.threads[t].Return? && s'.threads[t].v.Is?
  {
    hide Next, Init, Shape, Doubling, KeysOk, Settled, Known;
    AlwaysInv(ss, acts, i);
    InvShape(ss[i]);
    n, s' := Finishes(ss[i], t);
    assert PcOk(s', t);
  }

  // The lock is never left behind: while it is set, the thread that took it is resizing.
  lemma {:induction false} LockIsHeld(ss: seq<State>, acts: seq<Act>, i: nat)
    requires Behaviour(ss, acts) && i < |ss| && ss[i].lock
    ensures ss[i].holder < |ss[i].threads| && Resizing(ss[i].threads[ss[i].holder])
  {
    hide Inv, Next, Init, Shape;
    if i == 0 {
      StartsUnlocked(ss[0]);
    } else {
      assert StepsTo(ss[i - 1], acts[i - 1], ss[i]);
      AlwaysInv(ss, acts, i - 1);
      if ss[i - 1].lock {
        LockIsHeld(ss, acts, i - 1);
      }
      if acts[i - 1].Go? && acts[i - 1].t < |ss[i - 1].threads| && Resizing(ss[i - 1].threads[acts[i - 1].t]) {
        ResizerHolds(ss[i - 1], acts[i - 1].t);
      }
      LockStep(ss[i - 1], acts[i - 1]);
    }
  }

  lemma StartsUnlocked(s: State)
    requires Init(s)
    ensures !s.lock
  {}

  lemma ResizerHolds(s: State, t: nat)
    requires Inv(s) && t < |s.threads| && Resizing(s.threads[t])
    ensures Holding(s, t)
  {
    hide Doubling, KeysOk, TicketsOk, OwnersOk, Unregistered;
    assert PcOk(s, t);
  }

  lemma LockStep(s: State, a: Act)
    requires Shape(s) && Enabled(s, a) && (a.Go? && Resizing(s.threads[a.t]) ==> Holding(s, a.t))
    requires s.lock ==> s.holder < |s.threads| && Resizing(s.threads[s.holder])
    ensures var s' := Next(s, a); s'.lock ==> s'.holder < |s'.threads| && Resizing(s'.threads[s'.holder])
  {
    hide TableShape, Slot, Larger, NewKeys, NewValues, Room;
  }
}
