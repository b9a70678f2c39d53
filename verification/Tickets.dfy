/**
 The ticket protocol by which dequeuers of one implicit producer share out its elements
 (`ImplicitProducer::dequeue` and `dequeue_bulk` up to and including the `fetch_add` on
 `headIndex`), as atomic steps of any number of threads.

 A single dequeue is the case `max == 1`: the branch conditions and the amounts added are the
 same.  Indices are unbounded here; module Wraparound relates them to machine integers.

 `fate` is a history variable: what became of each ticket handed out by the `fetch_add` on
 `dequeueOptimisticCount`.
 */
module Tickets {
  import opened Counting

  datatype Pc =
    | Idle
    | LoadOver(seenTail: nat, max: nat)
    | LoadOptimistic(seenTail: nat, seenOver: nat, max: nat)
    | TakeTickets(seenOver: nat, want: nat)
    | LoadTail(seenOver: nat, want: nat, my: nat)
    | Refund(my: nat, got: nat, spare: nat)
    | ClaimHead(my: nat, got: nat)
    | GiveBack(my: nat, want: nat)

  datatype Fate =
    | Pending(t: nat)   // t has the ticket and has not compared it with the tail yet
    | Won(t: nat)       // t may claim an element with it and has not done so yet
    | Lost(t: nat)      // t failed with it and has not counted it in dequeueOvercommit yet
    | Taken             // an element was claimed with it
    | Settled           // counted in dequeueOvercommit

  datatype State = State(
    tail: nat,
    head: nat,
    optimistic: nat,
    over: nat,
    threads: seq<Pc>,
    fate: seq<Fate>)

  datatype Act =
    | Publish(k: nat)             // the producer makes k more elements visible
    | Start(t: nat, max: nat)     // a dequeue begins with the load of tailIndex
    | Go(t: nat)

  ghost predicate Enabled(s: State, a: Act)
  {
    match a
    case Publish(_) => true
    case Start(t, max) => t < |s.threads| && s.threads[t] == Idle && max >= 1
    case Go(t) => t < |s.threads| && s.threads[t] != Idle
  }

  // fate with the tickets lo, ..., hi - 1 set to f
  function Mark(fate: seq<Fate>, lo: nat, hi: nat, f: Fate): (r: seq<Fate>)
    ensures |r| == |fate|
    ensures forall i {:trigger r[i]} {:trigger fate[i]} :: 0 <= i < |fate| ==>
      r[i] == if lo <= i < hi then f else fate[i]
  {
    seq(|fate|, i requires 0 <= i < |fate| => if lo <= i < hi then f else fate[i])
  }

  function Next(s: State, a: Act): State
    requires Enabled(s, a)
  {
    match a
    case Publish(k) => s.(tail := s.tail + k)
    case Start(t, max) => s.(threads := s.threads[t := LoadOver(s.tail, max)])
    case Go(t) =>
      match s.threads[t]
      case LoadOver(tl, max) =>
        s.(threads := s.threads[t := LoadOptimistic(tl, s.over, max)])
      case LoadOptimistic(tl, ov, max) =>
        var desired := tl - (s.optimistic - ov);
        s.(threads := s.threads[t := if desired > 0 then TakeTickets(ov, Min(desired, max)) else Idle])
      case TakeTickets(ov, want) =>
        s.(optimistic := s.optimistic + want,
           threads := s.threads[t := LoadTail(ov, want, s.optimistic)],
           fate := s.fate + seq(want, i => Pending(t)))
      case LoadTail(ov, want, my) =>
        var actual := s.tail - (my - ov);
        if actual > 0 then
          var got := Min(want, actual);
          s.(threads := s.threads[t := if got < want then Refund(my, got, want - got) else ClaimHead(my, got)],
             fate := Mark(Mark(s.fate, my, my + got, Won(t)), my + got, my + want, Lost(t)))
        else
          s.(threads := s.threads[t := GiveBack(my, want)],
             fate := Mark(s.fate, my, my + want, Lost(t)))
      case Refund(my, got, spare) =>
        s.(over := s.over + spare,
           threads := s.threads[t := ClaimHead(my, got)],
           fate := Mark(s.fate, my + got, my + got + spare, Settled))
      case ClaimHead(my, got) =>
        s.(head := s.head + got, threads := s.threads[t := Idle],
           fate := Mark(s.fate, my, my + got, Taken))
      case GiveBack(my, want) =>
        s.(over := s.over + want, threads := s.threads[t := Idle],
           fate := Mark(s.fate, my, my + want, Settled))
  }

  ghost predicate Init(s: State)
  {
    && s.tail == s.head == s.optimistic == s.over == 0 && s.fate == []
    && forall t :: 0 <= t < |s.threads| ==> s.threads[t] == Idle
  }

  // ------------------------------------------------------------------------------------
  // The invariant

  ghost function TakenSet(fate: seq<Fate>): set<nat> { set i: nat | i < |fate| && fate[i].Taken? }

  ghost function SettledSet(fate: seq<Fate>): set<nat> { set i: nat | i < |fate| && fate[i].Settled? }

  ghost function WonSet(fate: seq<Fate>): set<nat> { set i: nat | i < |fate| && fate[i].Won? }

  predicate Failed(f: Fate) { f.Lost? || f.Settled? }

  ghost function FailedBelow(fate: seq<Fate>, m: nat): set<nat>
  {
    set i: nat | i < |fate| && i < m && Failed(fate[i])
  }

  ghost predicate All(fate: seq<Fate>, lo: nat, hi: nat, f: Fate)
  {
    lo <= hi <= |fate| && forall i :: lo <= i < hi ==> fate[i] == f
  }

  ghost predicate PcOk(s: State, t: nat)
    requires t < |s.threads|
  {
    match s.threads[t]
    case Idle => true
    case LoadOver(tl, max) => tl <= s.tail && max >= 1
    case LoadOptimistic(tl, ov, max) => tl <= s.tail && ov <= s.over && max >= 1
    case TakeTickets(ov, want) => ov <= s.over && want >= 1
    case LoadTail(ov, want, my) =>
      want >= 1 && All(s.fate, my, my + want, Pending(t)) && ov <= |FailedBelow(s.fate, my)|
    case Refund(my, got, spare) =>
      got >= 1 && spare >= 1 && All(s.fate, my, my + got, Won(t)) && All(s.fate, my + got, my + got + spare, Lost(t))
    case ClaimHead(my, got) => 1 <= got && All(s.fate, my, my + got, Won(t))
    case GiveBack(my, want) => 1 <= want && All(s.fate, my, my + want, Lost(t))
  }

  // The thread a ticket names still works on that ticket.
  ghost predicate Covers(pc: Pc, i: nat, f: Fate)
  {
    match pc
    case LoadTail(_, want, my) => f.Pending? && my <= i < my + want
    case Refund(my, got, spare) => if i < my + got then f.Won? && my <= i else f.Lost? && i < my + got + spare
    case ClaimHead(my, got) => f.Won? && my <= i < my + got
    case GiveBack(my, want) => f.Lost? && my <= i < my + want
    case _ => false
  }

  ghost predicate TicketOk(s: State, i: nat)
    requires i < |s.fate|
  {
    var f := s.fate[i];
    && (!f.Taken? && !f.Settled? ==> f.t < |s.threads| && Covers(s.threads[f.t], i, f))
    // a winning ticket, less the failures below it, was within the tail
    && (f.Won? || f.Taken? ==> i + 1 - |FailedBelow(s.fate, i)| <= s.tail)
  }

  ghost predicate Inv(s: State)
  {
    && s.optimistic == |s.fate|
    && s.head == |TakenSet(s.fate)|
    && s.over == |SettledSet(s.fate)|
    && (forall t :: 0 <= t < |s.threads| ==> PcOk(s, t))
    && (forall i :: 0 <= i < |s.fate| ==> TicketOk(s, i))
  }

  // ------------------------------------------------------------------------------------
  // Every step keeps the invariant

  predicate NamedBy(f: Fate, t: nat) { (f.Pending? || f.Won? || f.Lost?) && f.t == t }

  // Tickets only change hands away from the thread they name, and never cease to be failures.
  ghost predicate Evolves(before: seq<Fate>, after: seq<Fate>, t: nat)
  {
    && |before| <= |after|
    && (forall i {:trigger before[i]} {:trigger after[i]} :: 0 <= i < |before| ==>
          after[i] == before[i] || (NamedBy(before[i], t) && (Failed(before[i]) ==> Failed(after[i]))))
  }

  lemma FailedGrows(before: seq<Fate>, after: seq<Fate>, t: nat, m: nat)
    requires Evolves(before, after, t)
    ensures |FailedBelow(before, m)| <= |FailedBelow(after, m)|
  {
    SubsetSize(FailedBelow(before, m), FailedBelow(after, m));
  }

  // A step of t keeps the invariant if it does so for t, for the tickets it touches and for the counters.
  lemma StepFrame(s: State, s': State, t: nat)
    requires Inv(s) && t < |s.threads| == |s'.threads|
    requires s'.threads == s.threads[t := s'.threads[t]]
    requires Evolves(s.fate, s'.fate, t)
    requires s.tail == s'.tail && s.over <= s'.over
    requires s'.optimistic == |s'.fate| && s'.head == |TakenSet(s'.fate)| && s'.over == |SettledSet(s'.fate)|
    requires PcOk(s', t)
    requires forall i :: 0 <= i < |s'.fate| && (i < |s.fate| ==> s'.fate[i] != s.fate[i] || NamedBy(s'.fate[i], t)) ==>
      TicketOk(s', i)
    ensures Inv(s')
  {
    forall u | 0 <= u < |s'.threads| ensures PcOk(s', u) {
      assert PcOk(s, u);
      if u != t && s.threads[u].LoadTail? {
        FailedGrows(s.fate, s'.fate, t, s.threads[u].my);
      }
    }
    forall i | 0 <= i < |s'.fate| ensures TicketOk(s', i) {
      if i < |s.fate| && s'.fate[i] == s.fate[i] && !NamedBy(s'.fate[i], t) {
        assert TicketOk(s, i);
        FailedGrows(s.fate, s'.fate, t, i);
      }
    }
  }

  lemma StepKeepsInv(s: State, a: Act)
    requires Inv(s) && Enabled(s, a)
    ensures Inv(Next(s, a))
  {
    match a
    case Publish(k) => PublishKeepsInv(s, k);
    case Start(t, max) => LookKeepsInv(s, a, t);
    case Go(t) =>
      match s.threads[t]
      case LoadOver(_, _) => LookKeepsInv(s, a, t);
      case LoadOptimistic(_, _, _) => LookKeepsInv(s, a, t);
      case TakeTickets(_, _) => TakeTicketsKeepsInv(s, t);
      case LoadTail(_, _, _) => LoadTailKeepsInv(s, t);
      case Refund(_, _, _) => RefundKeepsInv(s, t);
      case ClaimHead(_, _) => ClaimHeadKeepsInv(s, t);
      case GiveBack(_, _) => GiveBackKeepsInv(s, t);
  }

  lemma PublishKeepsInv(s: State, k: nat)
    requires Inv(s)
    ensures Inv(Next(s, Publish(k)))
  {
    var s' := Next(s, Publish(k));
    forall u | 0 <= u < |s'.threads| ensures PcOk(s', u) {
      assert PcOk(s, u);
    }
    forall i | 0 <= i < |s'.fate| ensures TicketOk(s', i) {
      assert TicketOk(s, i);
    }
  }

  lemma LookKeepsInv(s: State, a: Act, t: nat)
    requires Inv(s) && Enabled(s, a)
    requires (a.Start? && a.t == t) || (a == Go(t) && (s.threads[t].LoadOver? || s.threads[t].LoadOptimistic?))
    ensures Inv(Next(s, a))
  {
    assert PcOk(s, t);
    forall i | 0 <= i < |s.fate| ensures !NamedBy(s.fate[i], t) {
      assert TicketOk(s, i);
    }
    StepFrame(s, Next(s, a), t);
  }

  lemma TakeTicketsKeepsInv(s: State, t: nat)
    requires Inv(s) && t < |s.threads| && s.threads[t].TakeTickets?
    ensures Inv(Next(s, Go(t)))
  {
    var s' := Next(s, Go(t));
    var ov, my := s.threads[t].seenOver, s.optimistic;
    assert PcOk(s, t);
    assert TakenSet(s'.fate) == TakenSet(s.fate);
    assert SettledSet(s'.fate) == SettledSet(s.fate);
    SubsetSize(SettledSet(s.fate), FailedBelow(s'.fate, my));
    forall i | 0 <= i < |s.fate| ensures !NamedBy(s.fate[i], t) {
      assert TicketOk(s, i);
    }
    StepFrame(s, s', t);
  }

  // Deciding tickets takes no element and settles nothing.
  lemma DecidingCounts(before: seq<Fate>, after: seq<Fate>)
    requires |after| == |before|
    requires forall i :: 0 <= i < |before| ==>
      after[i] == before[i] || (before[i].Pending? && (after[i].Won? || after[i].Lost?))
    ensures TakenSet(after) == TakenSet(before) && SettledSet(after) == SettledSet(before)
  {}

  lemma LoadTailKeepsInv(s: State, t: nat)
    requires Inv(s) && t < |s.threads| && s.threads[t].LoadTail?
    ensures Inv(Next(s, Go(t)))
  {
    hide TakenSet, SettledSet, WonSet;
    var s' := Next(s, Go(t));
    assert PcOk(s, t);
    DecidingCounts(s.fate, s'.fate);
    forall i | 0 <= i < |s'.fate| && (s'.fate[i] != s.fate[i] || NamedBy(s'.fate[i], t)) ensures TicketOk(s', i) {
      DecidedTicket(s, t, i);
    }
    StepFrame(s, s', t);
  }

  // The heart of the protocol: a ticket won after seeing ov failures lies below tail + ov, and
  // the ov failures it saw all have smaller numbers.
  lemma DecidedTicket(s: State, t: nat, i: nat)
    requires Inv(s) && t < |s.threads| && s.threads[t].LoadTail? && i < |s.fate|
    requires var f := Next(s, Go(t)).fate[i]; f != s.fate[i] || NamedBy(f, t)
    ensures TicketOk(Next(s, Go(t)), i)
  {
    var s' := Next(s, Go(t));
    var my := s.threads[t].my;
    assert PcOk(s, t);
    assert TicketOk(s, i);
    SubsetSize(FailedBelow(s.fate, my), FailedBelow(s'.fate, i));
  }

  lemma MarkTaken(fate: seq<Fate>, lo: nat, hi: nat, t: nat)
    requires All(fate, lo, hi, Won(t))
    ensures |TakenSet(Mark(fate, lo, hi, Taken))| == |TakenSet(fate)| + hi - lo
    ensures SettledSet(Mark(fate, lo, hi, Taken)) == SettledSet(fate)
  {
    UnionSize(TakenSet(fate), Range(lo, hi));
    assert TakenSet(Mark(fate, lo, hi, Taken)) == TakenSet(fate) + Range(lo, hi);
  }

  lemma MarkSettled(fate: seq<Fate>, lo: nat, hi: nat, t: nat)
    requires All(fate, lo, hi, Lost(t))
    ensures |SettledSet(Mark(fate, lo, hi, Settled))| == |SettledSet(fate)| + hi - lo
    ensures TakenSet(Mark(fate, lo, hi, Settled)) == TakenSet(fate)
  {
    UnionSize(SettledSet(fate), Range(lo, hi));
    assert SettledSet(Mark(fate, lo, hi, Settled)) == SettledSet(fate) + Range(lo, hi);
  }

  lemma RefundKeepsInv(s: State, t: nat)
    requires Inv(s) && t < |s.threads| && s.threads[t].Refund?
    ensures Inv(Next(s, Go(t)))
  {
    var pc := s.threads[t];
    assert PcOk(s, t);
    MarkSettled(s.fate, pc.my + pc.got, pc.my + pc.got + pc.spare, t);
    TouchedTickets(s, Next(s, Go(t)), t);
    StepFrame(s, Next(s, Go(t)), t);
  }

  lemma ClaimHeadKeepsInv(s: State, t: nat)
    requires Inv(s) && t < |s.threads| && s.threads[t].ClaimHead?
    ensures Inv(Next(s, Go(t)))
  {
    var pc := s.threads[t];
    assert PcOk(s, t);
    MarkTaken(s.fate, pc.my, pc.my + pc.got, t);
    TouchedTickets(s, Next(s, Go(t)), t);
    StepFrame(s, Next(s, Go(t)), t);
  }

  lemma GiveBackKeepsInv(s: State, t: nat)
    requires Inv(s) && t < |s.threads| && s.threads[t].GiveBack?
    ensures Inv(Next(s, Go(t)))
  {
    var pc := s.threads[t];
    assert PcOk(s, t);
    MarkSettled(s.fate, pc.my, pc.my + pc.want, t);
    TouchedTickets(s, Next(s, Go(t)), t);
    StepFrame(s, Next(s, Go(t)), t);
  }

  // Tickets that t settles or spends keep their bound, and it still covers the ones it keeps.
  lemma TouchedTickets(s: State, s': State, t: nat)
    requires Inv(s) && t < |s.threads|
    requires s.threads[t].Refund? || s.threads[t].ClaimHead? || s.threads[t].GiveBack?
    requires s' == Next(s, Go(t))
    ensures forall i :: 0 <= i < |s'.fate| && (s'.fate[i] != s.fate[i] || NamedBy(s'.fate[i], t)) ==> TicketOk(s', i)
  {
    assert PcOk(s, t);
    forall i | 0 <= i < |s'.fate| && (s'.fate[i] != s.fate[i] || NamedBy(s'.fate[i], t)) ensures TicketOk(s', i) {
      assert TicketOk(s, i);
      SubsetSize(FailedBelow(s.fate, i), FailedBelow(s'.fate, i));
    }
  }

  // ------------------------------------------------------------------------------------
  // What the invariant means

  // The highest winning ticket bounds the number of winning tickets.
  lemma WinnersBelow(fate: seq<Fate>, winners: set<nat>, m: nat)
    requires forall i :: i in winners ==> i <= m && i < |fate| && (fate[i].Won? || fate[i].Taken?)
    ensures |winners| + |FailedBelow(fate, m)| <= m + 1
  {
    var failed := FailedBelow(fate, m);
    UnionSize(winners, failed);
    SubsetSize(winners + failed, Range(0, m + 1));
  }

  // Tickets that have claimed an element or are about to never outnumber the elements.
  lemma ClaimsWithinTail(s: State)
    requires Inv(s)
    ensures s.head + |WonSet(s.fate)| <= s.tail
  {
    var taken, won := TakenSet(s.fate), WonSet(s.fate);
    UnionSize(taken, won);
    if taken + won != {} {
      var m := Highest(taken + won);
      WinnersBelow(s.fate, taken + won, m);
      assert TicketOk(s, m) && (s.fate[m].Won? || s.fate[m].Taken?);
      assert m + 1 - |FailedBelow(s.fate, m)| <= s.tail;
    } else {
      assert |taken + won| == 0;
    }
  }

  lemma {:induction false} Highest(a: set<nat>) returns (m: nat)
    requires a != {}
    ensures m in a && forall x :: x in a ==> x <= m
  {
    var c :| c in a;
    if a == {c} {
      m := c;
    } else {
      m := Highest(a - {c});
      m := if c > m then c else m;
      assert forall x :: x in a ==> x == c || x in a - {c};
    }
  }

  // The claim a thread is about to make stays below the tail.
  lemma NextClaimExists(s: State, t: nat)
    requires Inv(s) && t < |s.threads| && (s.threads[t].ClaimHead? || s.threads[t].Refund?)
    ensures s.threads[t].got >= 1 && s.head + s.threads[t].got <= s.tail
  {
    assert PcOk(s, t);
    var my, got := s.threads[t].my, s.threads[t].got;
    SubsetSize(Range(my, my + got), WonSet(s.fate));
    ClaimsWithinTail(s);
  }

  // The overcommit a thread read never exceeds the tickets handed out before its own.
  lemma OvercommitBehindTicket(s: State, t: nat)
    requires Inv(s) && t < |s.threads| && s.threads[t].LoadTail?
    ensures s.threads[t].seenOver <= s.threads[t].my
  {
    assert PcOk(s, t);
    SubsetSize(FailedBelow(s.fate, s.threads[t].my), Range(0, s.threads[t].my));
  }

  lemma FateBalance(fate: seq<Fate>)
    ensures |fate| == |TakenSet(fate)| + |SettledSet(fate)| + |OpenSet(fate)|
  {
    var a, b, c := TakenSet(fate), SettledSet(fate), OpenSet(fate);
    UnionSize(a, b);
    UnionSize(a + b, c);
    assert a + b + c == Range(0, |fate|);
  }

  // The tickets handed out, by what became of them.
  lemma TicketsBalance(s: State)
    requires Inv(s)
    ensures s.optimistic == s.head + s.over + |OpenSet(s.fate)|
  {
    FateBalance(s.fate);
  }

  // Tickets some thread still has to decide, spend or give back.
  ghost function OpenSet(fate: seq<Fate>): set<nat>
  {
    set i: nat | i < |fate| && !fate[i].Taken? && !fate[i].Settled?
  }

  // At rest the two counters differ by exactly the elements claimed.
  lemma QuiescentCounters(s: State)
    requires Inv(s)
    requires forall t :: 0 <= t < |s.threads| ==> s.threads[t] == Idle
    ensures s.optimistic - s.over == s.head <= s.tail
  {
    ClaimsWithinTail(s);
    TicketsBalance(s);
    forall i | 0 <= i < |s.fate| ensures i !in OpenSet(s.fate) {
      assert TicketOk(s, i);
    }
    assert OpenSet(s.fate) == {};
  }

  // ------------------------------------------------------------------------------------
  // Whole runs

  ghost predicate Behaviour(ss: seq<State>, acts: seq<Act>)
  {
    && |ss| == |acts| + 1
    && Init(ss[0])
    && forall i :: 0 <= i < |acts| ==> StepsTo(ss[i], acts[i], ss[i + 1])
  }

  ghost predicate StepsTo(s: State, a: Act, s': State) { Enabled(s, a) && s' == Next(s, a) }

  lemma InitInv(s: State)
    requires Init(s)
    ensures Inv(s)
  {
    assert TakenSet(s.fate) == {} && SettledSet(s.fate) == {};
  }

  lemma {:induction false} AlwaysInv(ss: seq<State>, acts: seq<Act>, i: nat)
    requires Behaviour(ss, acts) && i < |ss|
    ensures Inv(ss[i])
  {
    if i == 0 {
      InitInv(ss[0]);
    } else {
      AlwaysInv(ss, acts, i - 1);
      assert StepsTo(ss[i - 1], acts[i - 1], ss[i]);
      StepKeepsInv(ss[i - 1], acts[i - 1]);
    }
  }

  // In every reachable state the elements claimed were published before.
  lemma HeadNeverPassesTail(ss: seq<State>, acts: seq<Act>, i: nat)
    requires Behaviour(ss, acts) && i < |ss|
    ensures ss[i].head <= ss[i].tail
  {
    AlwaysInv(ss, acts, i);
    ClaimsWithinTail(ss[i]);
  }

  ghost predicate IsClaim(s: State, a: Act)
  {
    a.Go? && a.t < |s.threads| && s.threads[a.t].ClaimHead?
  }

  // Two claims in a run never overlap: the later one starts at or after the end of the earlier one.
  lemma ClaimsAreDisjoint(ss: seq<State>, acts: seq<Act>, i: nat, j: nat)
    requires Behaviour(ss, acts) && i < j < |acts|
    requires IsClaim(ss[i], acts[i]) && IsClaim(ss[j], acts[j])
    ensures ss[i].head + ss[i].threads[acts[i].t].got <= ss[j].head
  {
    assert StepsTo(ss[i], acts[i], ss[i + 1]);
    HeadGrows(ss, acts, i + 1, j);
  }

  lemma {:induction false} HeadGrows(ss: seq<State>, acts: seq<Act>, i: nat, j: nat)
    requires Behaviour(ss, acts) && i <= j < |ss|
    ensures ss[i].head <= ss[j].head
    decreases j - i
  {
    if i < j {
      assert StepsTo(ss[i], acts[i], ss[i + 1]);
      HeadGrows(ss, acts, i + 1, j);
    }
  }

  // ------------------------------------------------------------------------------------
  // One thread on its own

  ghost function Solo(s: State, t: nat, steps: nat): State
    decreases steps
  {
    if steps == 0 || t >= |s.threads| || s.threads[t] == Idle then s else Solo(Next(s, Go(t)), t, steps - 1)
  }

  // Without interference a dequeue that starts while optimistic - over < tail claims
  // min(max, tail - (optimistic - over)) elements in five steps, and otherwise it changes nothing.
  lemma {:induction false} SoloDequeue(s: State, t: nat, max: nat)
    requires Inv(s) && Enabled(s, Start(t, max))
    ensures var s' := Solo(Next(s, Start(t, max)), t, 5);
      var free := s.tail - (s.optimistic - s.over);
      s'.threads == s.threads && s'.tail == s.tail && s'.over == s.over &&
      if free > 0 then s'.head == s.head + Min(max, free) else s'.head == s.head && s'.fate == s.fate
  {
    var s1 := Next(s, Start(t, max));
    var s2 := Next(s1, Go(t));
    var s3 := Next(s2, Go(t));
    var free := s.tail - (s.optimistic - s.over);
    if free > 0 {
      var s4 := Next(s3, Go(t));
      var s5 := Next(s4, Go(t));
      var s6 := Next(s5, Go(t));
      assert s3.threads[t] == TakeTickets(s.over, Min(max, free));
      assert s5.threads[t] == ClaimHead(s.optimistic, Min(max, free));
      assert Solo(s1, t, 5) == Solo(s2, t, 4) == Solo(s3, t, 3) == Solo(s4, t, 2) == Solo(s5, t, 1) == s6;
      assert s6.threads == s.threads[t := Idle];
    } else {
      assert s3.threads == s.threads[t := Idle];
      assert Solo(s1, t, 5) == Solo(s2, t, 4) == Solo(s3, t, 3) == s3;
    }
  }

  // ------------------------------------------------------------------------------------
  // One thread among others

  // The dequeue of t called with acts[i] has not returned before step j.
  ghost predicate During(ss: seq<State>, acts: seq<Act>, i: nat, j: nat)
  {
    && Behaviour(ss, acts) && i < j < |ss| && acts[i].Start?
    && forall k :: i < k <= j ==> acts[i].t < |ss[k].threads| && ss[k].threads[acts[i].t] != Idle
  }

  // Some step between i and k has seen x tickets handed out.
  ghost predicate Seen(ss: seq<State>, i: nat, k: nat, x: nat)
    requires k <= |ss|
  {
    exists n :: i < n < k && ss[n].optimistic == x
  }

  // What thread t has still in view of the elements free when it began.
  ghost predicate InView(ss: seq<State>, i: nat, k: nat, pc: Pc, max: nat)
    requires i < k < |ss|
  {
    var there := ss[i].tail + ss[i].over;
    match pc
    case Idle => true
    case LoadOver(tl, m) => tl == ss[i].tail && m == max
    case LoadOptimistic(tl, ov, m) => tl == ss[i].tail && ov >= ss[i].over && m == max
    case TakeTickets(ov, want) => ov >= ss[i].over && want >= Min(max, there - ss[k].optimistic)
    case LoadTail(ov, want, my) => ov >= ss[i].over && want >= Min(max, there - my) && Seen(ss, i, k, my)
    case Refund(my, got, _) => got >= Min(max, there - my) && Seen(ss, i, k, my)
    case ClaimHead(my, got) => got >= Min(max, there - my) && Seen(ss, i, k, my)
    case GiveBack(my, _) => 0 >= there - my && Seen(ss, i, k, my)
  }

  lemma CountersGrow(s: State, a: Act)
    requires Enabled(s, a)
    ensures var s' := Next(s, a); s'.tail >= s.tail && s'.over >= s.over && s'.optimistic >= s.optimistic
  {}

  lemma {:induction false} CountersGrown(ss: seq<State>, acts: seq<Act>, i: nat, j: nat)
    requires Behaviour(ss, acts) && i <= j < |ss|
    ensures ss[i].tail <= ss[j].tail && ss[i].over <= ss[j].over && ss[i].optimistic <= ss[j].optimistic
    decreases j
  {
    hide Init, Next, Enabled;
    if i < j {
      CountersGrown(ss, acts, i, j - 1);
      assert StepsTo(ss[j - 1], acts[j - 1], ss[j]);
      CountersGrow(ss[j - 1], acts[j - 1]);
    }
  }

  lemma ViewStep(ss: seq<State>, acts: seq<Act>, i: nat, k: nat)
    requires During(ss, acts, i, k) && k < |acts| && acts[k] == Go(acts[i].t) && PcOk(ss[k], acts[i].t)
    requires InView(ss, i, k, ss[k].threads[acts[i].t], acts[i].max)
    ensures acts[i].Start? && acts[i].t < |ss[k + 1].threads|
    ensures InView(ss, i, k + 1, ss[k + 1].threads[acts[i].t], acts[i].max)
  {
    hide Mark, Init, FailedBelow, All;
    assert StepsTo(ss[k], acts[k], ss[k + 1]);
    CountersGrown(ss, acts, i, k);
    assert forall x: nat :: Seen(ss, i, k, x) ==> Seen(ss, i, k + 1, x);
    assert Seen(ss, i, k + 1, ss[k].optimistic);
  }

  lemma {:induction false} ViewKept(ss: seq<State>, acts: seq<Act>, i: nat, j: nat)
    requires During(ss, acts, i, j)
    ensures acts[i].Start? && InView(ss, i, j, ss[j].threads[acts[i].t], acts[i].max)
    decreases j
  {
    hide Inv, Init, Mark, InView, Next;
    var t, k := acts[i].t, j - 1;
    assert StepsTo(ss[k], acts[k], ss[j]);
    if k == i {
      assert InView(ss, i, j, ss[j].threads[t], acts[i].max) by { ViewBegins(ss, acts, i); }
    } else {
      ViewKept(ss, acts, i, k);
      AlwaysInv(ss, acts, k);
      if acts[k] == Go(t) {
        OwnPcOk(ss[k], t);
        ViewStep(ss, acts, i, k);
      } else {
        OthersLeave(ss[k], acts[k], t);
        ViewLonger(ss, i, k, ss[k].threads[t], acts[i].max);
      }
    }
  }

  lemma OwnPcOk(s: State, t: nat)
    requires Inv(s) && t < |s.threads|
    ensures PcOk(s, t)
  {}

  lemma ViewBegins(ss: seq<State>, acts: seq<Act>, i: nat)
    requires Behaviour(ss, acts) && i < |acts| && acts[i].Start?
    ensures acts[i].t < |ss[i + 1].threads| && InView(ss, i, i + 1, ss[i + 1].threads[acts[i].t], acts[i].max)
  {
    hide Init;
    assert StepsTo(ss[i], acts[i], ss[i + 1]);
  }

  lemma OthersLeave(s: State, a: Act, t: nat)
    requires Enabled(s, a) && t < |s.threads| && s.threads[t] != Idle && a != Go(t)
    ensures t < |Next(s, a).threads| && Next(s, a).threads[t] == s.threads[t]
    ensures Next(s, a).optimistic >= s.optimistic
  {}

  lemma ViewLonger(ss: seq<State>, i: nat, k: nat, pc: Pc, max: nat)
    requires i < k && k + 1 < |ss| && InView(ss, i, k, pc, max) && ss[k + 1].optimistic >= ss[k].optimistic
    ensures InView(ss, i, k + 1, pc, max)
  {
    assert forall x: nat :: Seen(ss, i, k, x) ==> Seen(ss, i, k + 1, x);
  }

  function Claims(pc: Pc): nat { if pc.ClaimHead? then pc.got else 0 }

  // Whatever the other threads do meanwhile, a dequeue claims as many as it may of the elements
  // that were free when it was called, except those for which tickets have been taken since;
  // it comes back empty-handed only if there are none of these.
  lemma DequeueGetsWhatIsLeft(ss: seq<State>, acts: seq<Act>, i: nat, j: nat) returns (n: nat)
    requires During(ss, acts, i, j) && j < |acts| && acts[j] == Go(acts[i].t)
    requires acts[i].t < |ss[j + 1].threads| && ss[j + 1].threads[acts[i].t] == Idle
    ensures acts[i].Start? && i < n <= j
    ensures Claims(ss[j].threads[acts[i].t]) >=
      Min(acts[i].max, (ss[i].tail - (ss[i].optimistic - ss[i].over)) - (ss[n].optimistic - ss[i].optimistic))
  {
    hide Inv, Init, Mark;
    ViewKept(ss, acts, i, j);
    assert StepsTo(ss[j], acts[j], ss[j + 1]);
    var pc := ss[j].threads[acts[i].t];
    if pc.LoadOptimistic? {
      n := j;
    } else {
      assert Seen(ss, i, j, pc.my);
      n :| i < n < j && ss[n].optimistic == pc.my;
    }
  }
}
