/**
 When an enqueue of one implicit producer succeeds, when it enlarges the index, and how many steps
 enqueues and dequeues take at most.
 */
module ImplicitProgress {
  import opened Counting
  import opened ImplicitQueue
  import opened ImplicitInvariant
  import opened ImplicitProof
  import opened ImplicitProducer
  import opened ImplicitConsumer
  import opened ImplicitTheorems
  import T = Tickets

  // ------------------------------------------------------------------------------------
  // An enqueue fails only if it is refused a block or memory

  predicate Refuses(a: Act) { a == Produce(NoBlock) || a == Produce(NoMemory) }

  // The way out after a refusal.
  predicate Undoes(p: Producer)
  {
    p.RewindNew? || p.NullNew? || p.UndoValue? || p.UndoTail? || p.GiveBack? || p.Failed?
  }

  lemma InsertingFailsIfRefused(s: State, c: Choice)
    requires Shape(s) && Enabled(s, Produce(c)) && Inserts(s.prod)
    ensures Undoes(Next(s, Produce(c)).prod) <==> Refuses(Produce(c))
  {
    hide Shape, Enlarge, Locate, FreshEntries, SetTail, At, First, Blocks, Cur;
  }

  lemma UndoingEnds(s: State, c: Choice)
    requires Shape(s) && Enabled(s, Produce(c)) && !Inserts(s.prod)
    ensures var p := Next(s, Produce(c)).prod;
      if s.prod.Fill? then p.Fill? || p.Rest? || p.ProducerCrash? else if s.prod.Failed? then p.Rest? else Undoes(p)
    ensures !Refuses(Produce(c))
  {
    hide Shape, Enlarge, Locate, FreshEntries, SetTail, At, First, Blocks, Cur;
  }

  lemma OthersLeaveProducer(s: State, a: Act)
    requires Shape(s) && Enabled(s, a) && !a.Produce? && !a.Enqueue?
    ensures Next(s, a).prod == s.prod && Next(s, a).tk.tail == s.tk.tail
  {
    hide Shape, T.Enabled, SetDone;
  }

  ghost predicate RefusedIn(acts: seq<Act>, i: nat, j: nat)
    requires j <= |acts|
  {
    exists k :: i < k < j && Refuses(acts[k])
  }

  // Between its beginning and its end an enqueue is on its way out exactly if it has been refused.
  lemma {:induction false} UndoesIffRefused(ss: seq<State>, acts: seq<Act>, i: nat, j: nat)
    requires During(ss, acts, i, j) && !ss[j].prod.Rest?
    ensures Undoes(ss[j].prod) <==> RefusedIn(acts, i, j)
    decreases j
  {
    hide Next, Inv, Init, Enabled, Shape, RefusedIn;
    NobodyCrashes(ss, acts, j);
    EnqueueBegins(ss, acts, i);
    if j == i + 1 {
      NoneYet(acts, i);
    } else {
      var k := j - 1;
      NobodyCrashes(ss, acts, k);
      UndoesIffRefused(ss, acts, i, k);
      assert StepsTo(ss[k], acts[k], ss[j]);
      OneMore(acts, i, k);
      match acts[k]
      case Produce(c) =>
        if Inserts(ss[k].prod) {
          InsertingFailsIfRefused(ss[k], c);
        } else {
          UndoingEnds(ss[k], c);
        }
      case Enqueue(_) => NoEnqueueMeanwhile(ss[k], acts[k]);
      case _ => OthersLeaveProducer(ss[k], acts[k]);
    }
  }

  lemma NoneYet(acts: seq<Act>, i: nat)
    requires i + 1 <= |acts|
    ensures !RefusedIn(acts, i, i + 1)
  {}

  lemma OneMore(acts: seq<Act>, i: nat, k: nat)
    requires i < k < |acts|
    ensures RefusedIn(acts, i, k + 1) <==> RefusedIn(acts, i, k) || Refuses(acts[k])
  {}

  lemma NoEnqueueMeanwhile(s: State, a: Act)
    requires Enabled(s, a) && !s.prod.Rest?
    ensures !a.Enqueue?
  {}

  lemma LastStepOfEnqueue(s: State, a: Act)
    requires Shape(s) && Enabled(s, a) && !s.prod.Rest? && Next(s, a).prod.Rest?
    ensures a.Produce? && (s.prod.Fill? || s.prod.Failed?) && !Refuses(a)
  {
    hide Next;
    match a
    case Produce(c) =>
      if Inserts(s.prod) {
        InsertingEndsNothing(s, c);
      } else {
        UndoingEnds(s, c);
      }
    case Enqueue(_) =>
    case _ => OthersLeaveProducer(s, a);
  }

  lemma InsertingEndsNothing(s: State, c: Choice)
    requires Shape(s) && Enabled(s, Produce(c)) && Inserts(s.prod)
    ensures !Next(s, Produce(c)).prod.Rest?
  {
    hide Shape, Enlarge, Locate, FreshEntries, SetTail, At, First, Blocks, Cur;
  }

  // An enqueue that has come to an end has appended all of its elements, unless it was refused a
  // block or memory for a larger index; then it has failed and appended nothing.
  lemma SucceedsUnlessRefused(ss: seq<State>, acts: seq<Act>, i: nat, j: nat)
    requires During(ss, acts, i, j) && ss[j].prod.Rest?
    ensures if RefusedIn(acts, i, j) then ss[j - 1].prod.Failed? && ss[j].items == ss[i].items
            else ss[j - 1].prod.Fill? && ss[j].items == ss[i].items + acts[i].xs
  {
    hide Next, Inv, Init, Enabled, Shape, RefusedIn;
    EnqueueBegins(ss, acts, i);
    var k := j - 1;
    AlwaysInv(ss, acts, k);
    assert StepsTo(ss[k], acts[k], ss[j]);
    UndoesIffRefused(ss, acts, i, k);
    LastStepOfEnqueue(ss[k], acts[k]);
    OneMore(acts, i, k);
    OpRuns(ss, acts, i, k);
    OpStep(ss[k], acts[k]);
  }

  // ------------------------------------------------------------------------------------
  // The index is enlarged only when it is full

  // The producer needs a place for block number p; with n entries in the index it enlarges it
  // exactly if block number p - n is still in use.
  lemma GrowsExactlyWhenFull(ss: seq<State>, acts: seq<Act>, k: nat)
    requires Behaviour(ss, acts) && k < |acts| && ss[k].prod.Look? && acts[k].Produce?
    ensures var s := ss[k]; var p := First(s) + |s.prod.got|;
      && (ss[k + 1].prod.Fill? <==> p == Blocks(s.tk.tail + |s.prod.op.xs|))
      && (ss[k + 1].prod.Grow? <==> p < Blocks(s.tk.tail + |s.prod.op.xs|) && p - |s.entries| in s.live)
      && (ss[k + 1].prod.StoreKey? <==> p < Blocks(s.tk.tail + |s.prod.op.xs|) && p - |s.entries| !in s.live)
  {
    AlwaysInv(ss, acts, k);
    assert StepsTo(ss[k], acts[k], ss[k + 1]);
    LookDecides(ss[k], acts[k].c);
  }

  lemma NextEntryInUse(s: State)
    requires Inv(s) && s.prod.Look?
    ensures var e := s.entries[Cur(s).index[At(Cur(s), 1)]];
      (e.key != INVALID_BLOCK_BASE && e.value != Null) <==> First(s) + |s.prod.got| - |s.entries| in s.live
  {
    NumberOfNext(s);
    var e := s.entries[Cur(s).index[At(Cur(s), 1)]];
    assert LiveEntry(e, s.live) && NullEntry(e, s.live, -1);
    assert EntryOk(e, s.frontier, |s.entries|);
    if Valid(e) && e.value != Null {
      FullIndex(s);
    }
  }

  lemma LookDecides(s: State, c: Choice)
    requires Inv(s) && s.prod.Look? && Enabled(s, Produce(c))
    ensures var s' := Next(s, Produce(c)); var p := First(s) + |s.prod.got|;
      && (s'.prod.Fill? <==> p == Blocks(s.tk.tail + |s.prod.op.xs|))
      && (s'.prod.Grow? <==> p < Blocks(s.tk.tail + |s.prod.op.xs|) && p - |s.entries| in s.live)
      && (s'.prod.StoreKey? <==> p < Blocks(s.tk.tail + |s.prod.op.xs|) && p - |s.entries| !in s.live)
  {
    hide IndexInv, BlockInv, ClaimInv, ReadersInv, T.Inv;
    NextEntryInUse(s);
  }

  // ------------------------------------------------------------------------------------
  // How long an enqueue takes: a number of its own steps, whatever the other threads do

  // Blocks an operation of n elements needs.
  function Need(tail: nat, n: nat): nat { Blocks(tail + n) - Blocks(tail) }

  function OpNeed(s: State): int { if InOp(s.prod) then Need(s.tk.tail, |s.prod.op.xs|) else 0 }

  function ProducerLeft(p: Producer, need: int): int
  {
    match p
    case Rest => 0
    case ProducerCrash => 0
    case Failed(_) => 1
    case GiveBack(_, got, j) => |got| - j + 2
    case UndoTail(_, got, j) => |got| + 2 * (|got| - j) + 3
    case UndoValue(_, got, j) => |got| + 2 * (|got| - j) + 4
    case NullNew(_, got, _) => 3 * |got| + 5
    case RewindNew(_, got, _) => 3 * |got| + 6
    case Fill(op, _, j) => |op.xs| - j + 1
    case Install(op, got, _, _) => Insertion(op, got, need) - 6
    case ResetEmpty(op, got, _, _) => Insertion(op, got, need) - 5
    case Requisition(op, got, _) => Insertion(op, got, need) - 4
    case StoreTail(op, got, _) => Insertion(op, got, need) - 3
    case StoreKey(op, got, _) => Insertion(op, got, need) - 2
    case Grow(op, got) => Insertion(op, got, need) - 1
    case Look(op, got) => Insertion(op, got, need)
  }

  // Eight steps for each block still to come, and enough for what follows.
  function Insertion(op: Op, got: seq<BlockId>, need: int): int { |op.xs| + 3 * need + 10 + 8 * (need - |got|) }

  // Blocks still to come, where the producer is about to insert one.
  lemma BlocksToCome(s: State)
    requires Inv(s) && Inserts(s.prod)
    ensures |s.prod.got| <= OpNeed(s) && (!s.prod.Look? ==> |s.prod.got| < OpNeed(s))
  {
    hide IndexInv, BlockInv, ClaimInv, ReadersInv, T.Inv, Shape, OpOk, GotLive, Distinct, NextEntry;
  }

  lemma InsertingAdvances(s: State, c: Choice)
    requires Inv(s) && Enabled(s, Produce(c)) && Inserts(s.prod)
    ensures ProducerLeft(Next(s, Produce(c)).prod, OpNeed(s)) < ProducerLeft(s.prod, OpNeed(s))
  {
    hide Inv, Shape, Enlarge, Locate, FreshEntries, SetTail, At, Cur;
    BlocksToCome(s);
  }

  lemma FillingAdvances(s: State, c: Choice)
    requires Shape(s) && Enabled(s, Produce(c)) && s.prod.Fill?
    ensures ProducerLeft(Next(s, Produce(c)).prod, OpNeed(s)) < ProducerLeft(s.prod, OpNeed(s))
  {
    hide HeadersShape, ReadersShape, BlocksShape, EntriesShape, OpNeed;
  }

  lemma UndoingAdvances(s: State, c: Choice)
    requires Shape(s) && Enabled(s, Produce(c)) && !Inserts(s.prod) && !s.prod.Fill?
    ensures ProducerLeft(Next(s, Produce(c)).prod, OpNeed(s)) < ProducerLeft(s.prod, OpNeed(s))
  {
    hide Next, Shape, ProducerLeft, OpNeed;
    if s.prod.RewindNew? || s.prod.NullNew? || s.prod.Failed? {
      GivingUpAdvances(s, c);
    } else {
      GivingBackAdvances(s, c);
    }
  }

  lemma GivingUpAdvances(s: State, c: Choice)
    requires Shape(s) && Enabled(s, Produce(c)) && (s.prod.RewindNew? || s.prod.NullNew? || s.prod.Failed?)
    ensures ProducerLeft(Next(s, Produce(c)).prod, OpNeed(s)) < ProducerLeft(s.prod, OpNeed(s))
  {
    hide Shape, SetTail, At, Cur, OpNeed;
  }

  lemma GivingBackAdvances(s: State, c: Choice)
    requires Shape(s) && Enabled(s, Produce(c)) && (s.prod.UndoValue? || s.prod.UndoTail? || s.prod.GiveBack?)
    ensures ProducerLeft(Next(s, Produce(c)).prod, OpNeed(s)) < ProducerLeft(s.prod, OpNeed(s))
  {
    hide SetTail, At, Cur, Locate, HeadersShape, ReadersShape, BlocksShape, EntriesShape, OpNeed;
  }

  lemma LeftIsNat(s: State)
    requires Inv(s)
    ensures ProducerLeft(s.prod, OpNeed(s)) >= 0
  {
    hide IndexInv, BlockInv, ClaimInv, ReadersInv, ProducerOk, T.Inv, HeadersShape, ReadersShape, BlocksShape;
    hide EntriesShape;
    if Inserts(s.prod) {
      BlocksToCome(s);
    }
  }

  function CountProduces(acts: seq<Act>, i: nat, j: nat): nat
    requires i <= j <= |acts|
  {
    if i == j then 0 else CountProduces(acts, i, j - 1) + if acts[j - 1].Produce? then 1 else 0
  }

  lemma {:induction false} EachStepCounts(ss: seq<State>, acts: seq<Act>, i: nat, j: nat)
    requires During(ss, acts, i, j) && !ss[j].prod.Rest?
    ensures CountProduces(acts, i + 1, j) + ProducerLeft(ss[j].prod, OpNeed(ss[j]))
         <= ProducerLeft(ss[i + 1].prod, OpNeed(ss[i + 1]))
    ensures OpNeed(ss[j]) == OpNeed(ss[i + 1])
    decreases j
  {
    hide Next, Inv, Init, Enabled, Shape, ProducerLeft, Need;
    if j > i + 1 {
      var k := j - 1;
      EachStepCounts(ss, acts, i, k);
      AlwaysInv(ss, acts, k);
      assert StepsTo(ss[k], acts[k], ss[j]);
      SameNeed(ss, acts, i, k);
      match acts[k]
      case Produce(c) =>
        if Inserts(ss[k].prod) {
          InsertingAdvances(ss[k], c);
        } else if ss[k].prod.Fill? {
          FillingAdvances(ss[k], c);
        } else {
          UndoingAdvances(ss[k], c);
        }
      case Enqueue(_) => NoEnqueueMeanwhile(ss[k], acts[k]);
      case _ => OthersLeaveProducer(ss[k], acts[k]);
    }
  }

  // The operation and the tail it started from stay as they are.
  lemma SameNeed(ss: seq<State>, acts: seq<Act>, i: nat, k: nat)
    requires During(ss, acts, i, k + 1) && i < k && k < |acts| && !ss[k + 1].prod.Rest?
    ensures OpNeed(ss[k + 1]) == OpNeed(ss[k])
  {
    hide Next, Inv, Init, Enabled, Shape;
    OpRuns(ss, acts, i, k);
    OpRuns(ss, acts, i, k + 1);
    TailIsItems(ss, acts, k);
    TailIsItems(ss, acts, k + 1);
  }

  lemma TailIsItems(ss: seq<State>, acts: seq<Act>, k: nat)
    requires Behaviour(ss, acts) && k < |ss|
    ensures ss[k].tk.tail == |ss[k].items|
  {
    hide IndexInv, BlockInv, ReadersInv, ProducerOk, T.Inv, Init, Shape;
    AlwaysInv(ss, acts, k);
  }

  // An enqueue of n elements takes at most n + 11 steps for each block it needs + 10, whatever
  // the other threads do meanwhile: it is wait-free but for the block and the memory it asks for.
  lemma {:induction false} EnqueueIsWaitFree(ss: seq<State>, acts: seq<Act>, i: nat, j: nat)
    requires During(ss, acts, i, j) && !ss[j].prod.Rest?
    ensures CountProduces(acts, i + 1, j) <= |acts[i].xs| + 11 * Need(ss[i].tk.tail, |acts[i].xs|) + 10
  {
    hide Inv, Init, Shape, Need;
    EachStepCounts(ss, acts, i, j);
    AlwaysInv(ss, acts, j);
    LeftIsNat(ss[j]);
    assert StepsTo(ss[i], acts[i], ss[i + 1]);
  }

  // ------------------------------------------------------------------------------------
  // How long a dequeue takes after its claim

  function ReaderLeft(r: Reader): int
  {
    match r
    case Off => 0
    case ReaderCrash => 0
    case LoadIndex(lo, hi) => 5 * (hi - lo) + 5
    case LoadIndexTail(lo, hi, _) => 5 * (hi - lo) + 4
    case LoadTailKey(lo, hi, _, _) => 5 * (hi - lo) + 3
    case LoadValue(lo, hi, _, _) => 5 * (hi - lo) + 2
    case Move(_, hi, _, _, _, i, _) => 5 * (hi - i) + 1
    case SetEmpty(_, hi, _, _, _, end) => 5 * (hi - end) + 5
    case Unlink(lo, hi, _, _, _) => 5 * (hi - lo) + 4
    case Recycle(lo, hi, _, _, _) => 5 * (hi - lo) + 3
  }

  lemma ReadAdvances(s: State, t: nat)
    requires Shape(s) && Enabled(s, Read(t))
    ensures |Next(s, Read(t)).readers| == |s.readers|
    ensures 0 <= ReaderLeft(Next(s, Read(t)).readers[t]) < ReaderLeft(s.readers[t])
  {
    hide HeadersShape, BlocksShape, EntriesShape, ProducerShape, Locate;
    assert ReaderShape(s.readers[t], s.headers, |s.blocks|);
  }

  function CountReads(acts: seq<Act>, i: nat, j: nat, t: nat): nat
    requires i <= j <= |acts|
  {
    if i == j then 0 else CountReads(acts, i, j - 1, t) + if acts[j - 1] == Read(t) then 1 else 0
  }

  lemma ProducerLeavesReaders(s: State, a: Act)
    requires Shape(s) && Enabled(s, a) && !a.Ticket? && !a.Read?
    ensures Next(s, a).readers == s.readers
  {
    hide Enlarge, Locate, FreshEntries, SetTail, At, Cur, Shape;
  }

  lemma TicketLeavesReader(s: State, a: Act, t: nat)
    requires Inv(s) && Enabled(s, a) && a.Ticket? && t < |s.readers| && s.readers[t] != Off
    ensures t < |Next(s, a).readers| && Next(s, a).readers[t] == s.readers[t]
  {
    hide HeadersShape, BlocksShape, EntriesShape, ProducerShape, ReadersShape, IndexInv, BlockInv, ReadersInv;
    hide ProducerOk, T.Inv;
  }

  lemma OthersLeaveReader(s: State, a: Act, t: nat)
    requires Inv(s) && Enabled(s, a) && a != Read(t) && t < |s.readers| && s.readers[t] != Off
    ensures t < |Next(s, a).readers| && Next(s, a).readers[t] == s.readers[t]
  {
    hide Next, Shape, IndexInv, BlockInv, ClaimInv, ReadersInv, ProducerOk, T.Inv;
    match a
    case Ticket(_) => TicketLeavesReader(s, a, t);
    case Read(u) => ReadLeavesOthers(s, u, t);
    case _ => ProducerLeavesReaders(s, a);
  }

  lemma ReadLeavesOthers(s: State, u: nat, t: nat)
    requires Shape(s) && Enabled(s, Read(u)) && t < |s.readers| && t != u
    ensures t < |Next(s, Read(u)).readers| && Next(s, Read(u)).readers[t] == s.readers[t]
  {
    hide Shape, Locate;
  }

  lemma {:induction false} EachReadCounts(ss: seq<State>, acts: seq<Act>, i: nat, j: nat, t: nat)
    requires Behaviour(ss, acts) && i <= j < |ss|
    requires forall k :: i <= k < j ==> t < |ss[k].readers| && ss[k].readers[t] != Off
    requires t < |ss[i].readers|
    ensures t < |ss[j].readers|
    ensures CountReads(acts, i, j, t) + ReaderLeft(ss[j].readers[t]) <= ReaderLeft(ss[i].readers[t])
    decreases j
  {
    hide Next, Inv, Init, Enabled, Shape, ReaderLeft;
    if i < j {
      var k := j - 1;
      EachReadCounts(ss, acts, i, k, t);
      AlwaysInv(ss, acts, k);
      assert StepsTo(ss[k], acts[k], ss[j]);
      if acts[k] == Read(t) {
        ReadAdvances(ss[k], t);
      } else {
        OthersLeaveReader(ss[k], acts[k], t);
      }
    }
  }

  // A dequeue that has claimed n elements is through after at most 5 * n + 5 steps of its own.
  lemma {:induction false} DequeueIsWaitFree(ss: seq<State>, acts: seq<Act>, i: nat, j: nat, t: nat)
    requires Behaviour(ss, acts) && i <= j < |ss|
    requires t < |ss[i].readers| && ss[i].readers[t].LoadIndex?
    requires forall k :: i <= k < j ==> t < |ss[k].readers| && ss[k].readers[t] != Off
    ensures CountReads(acts, i, j, t) <= 5 * (ss[i].readers[t].hi - ss[i].readers[t].lo) + 5
  {
    hide Inv, Init, Next, Enabled;
    EachReadCounts(ss, acts, i, j, t);
    AlwaysInv(ss, acts, j);
    LeftAtLeastZero(ss[j], t);
  }

  lemma LeftAtLeastZero(s: State, t: nat)
    requires Inv(s) && t < |s.readers|
    ensures ReaderLeft(s.readers[t]) >= 0
  {
    hide IndexInv, BlockInv, ClaimInv, ReadersInv, ProducerOk, T.Inv, HeadersShape, BlocksShape, EntriesShape;
    assert ReaderShape(s.readers[t], s.headers, |s.blocks|);
  }
}
